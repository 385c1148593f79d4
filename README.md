# meta-bones referral queues in Dafny

This project models the core of the meta-bones backend. The backend collects referral links for Meta Quest apps and devices and keeps them valid:

- An **advocate** (a referrer) submits a pair: an app id or a region code (the *target*), and the advocate's own id.
- The pair waits in a **pending** collection with an `attempts` counter.
- A **queue drain** visits the referral page for every pending pair, one after the other.
- A pair whose page names the app (app service), or whose link stays on the referral path (region service), is **linked**: the advocate is added to the target's advocate list.
- A pair whose link is dead goes to the **blacklist**.
- Any other failure goes to the **retry policy**. The policy counts attempts up to a ceiling: 10 for apps, 30 for regions. At the ceiling the pair is blacklisted.
- A **resurrection** puts every blacklisted pair back into pending with 0 attempts.

Admission to the queue, and every outcome of a drain step, is a transition on three collections:

- target → advocates;
- pending `(target, advocate) → attempts`;
- blacklist `{(target, advocate)}`.

The identifier validators gate admission: app id, advocate id and region code.

Each module has one role:

- `Common`, `Text`, `Patterns`: shared values, `includes`/`startsWith`, and the character classes of the validators' regular expressions.
- `AppUtils`, `AdvocateUtils`, `RegionUtils`: the validators. Each is a predicate with an exact characterisation lemma and the unit-test vectors.
- `RetryPolicy`: the queue transitions shared by both services. It covers the retry policy, blacklisting, settling and resurrection.
- `Snapshots`: the order in which a `find()` hands a collection to a queue.
- `AppPage`, `RegionPage`: how a fetched page is judged.
  - For apps: the invalid-page test, the name regex, and platform availability.
  - For regions: the landing-URL test and the sentinel.
- `AppStore`, `RegionStore`: the store as a value, and each service operation as a function on it. Lemmas cover admission, routing, locality, progress and the store invariants.
- `AppQueue.AppService`, `RegionQueue.RegionService`: the services as classes.
  - The collections, the `isQueueRunning` guard and the browser handle are fields.
  - Each method is proved to leave exactly the state the matching store function computes.

Page fetches are inputs (`Env`). Each fetch is a function of the pair or path, so a page gives the same answer every time it is fetched within one drain. Everything the browser does between the request and the landed page is one outcome per fetch: `Loaded`/`Landed` or `Thrown`. For apps, that one outcome carries a single `content`: it stands both for the page tested for `INVALID LINK` before the optional login and for the content returned after it (`src/modules/app/app.service.ts:278-296`).

Three behaviours of the code are easy to miss:

- At the attempt ceiling, the retry policy upserts the blacklist item and leaves the pending item in place (`src/modules/app/app.service.ts:99-106`, `src/modules/device/region.service.ts:146-153`). So pending and blacklist can share a key. `RetryPolicy.ConsecutiveFailures` and `RetryPolicy.ResurrectAfterCeiling` state the consequences.
- Resurrection is one bulk insert of pending items followed by the blacklist deletion. A blacklisted pair that is still pending hits the unique index on the pending key (`src/schemas/app-pending-item.schema.ts:20`). The bulk insert then rejects, and the blacklist is not cleared.
- The two services check admission in different orders:
  - apps: blacklist, then pending, then linked;
  - regions: pending, then blacklist, then linked under any region.

## Model

| member | source | states |
|---|---|---|
| Patterns.AllDigits | src/modules/app/app.utils.ts:10 | a string of digits starts with a digit (the scan behind `[0-9]+`) |
| Patterns.AllDigitsChars | src/modules/app/app.utils.ts:10 | the scan accepts exactly the strings whose every character is an ASCII digit |
| Patterns.AllTailChars | src/modules/app/app.utils.ts:23 | a string of tail characters starts with one (the scan behind `[\w\.\-_]+`) |
| Patterns.AllTailCharsChars | src/modules/app/app.utils.ts:23 | the scan accepts exactly the strings whose every character is a letter, digit, `_`, `.` or `-` |
| Patterns.HasDoubleDashOrUnderscore | src/modules/app/app.utils.ts:25 | a run of `[-_]{2,}` needs at least two characters |
| Patterns.DoubleDashOrUnderscoreAt | src/modules/app/app.utils.ts:25-26 | `[-_]{2,}` matches iff some two adjacent characters are both `-` or `_`, mixed pairs included |
| AppUtils.ValidAppId | src/modules/app/app.utils.ts:9-11 | the app-id validator `^[0-9]+$`; its exact characterisation is `ValidAppIdIffDigits` and its unit-test vectors `AppIdVectors` |
| AppUtils.ValidAppIdIffDigits | src/modules/app/app.utils.ts:9-11 | an app id is accepted iff it is non-empty and all ASCII digits |
| AppUtils.ValidAdvocateIdIff | src/modules/app/app.utils.ts:20-28 | an advocate id is accepted iff: length at least 2, alphanumeric first character, tail characters after it, and no adjacent pair from `-`/`_` |
| AppUtils.NoUpperLengthBound | src/modules/app/app.utils.ts:23 | ids of every length from 2 up are accepted; the 20-character note is not enforced |
| AppUtils.AppIdVectors | src/modules/app/app.utils.spec.ts:13-63 | `123523523` accepted; every other vector rejected: letters, dot, slash, double underscore, double dash, space, the URL, `maybe-evil/not-great-user` and `probablygood?user` |
| AppUtils.NonDigitRejected | src/modules/app/app.utils.ts:9-11 | a non-digit at any position rejects an app id |
| AppUtils.AdvocateIdAccepted | src/modules/app/app.utils.spec.ts:84-95 | the three accepted advocate id vectors are accepted |
| AppUtils.AdvocateIdRejected | src/modules/app/app.utils.spec.ts:96-131 | the short, slash, double-underscore, double-dash, space and `?` vectors are rejected |
| AppUtils.RejectedUrl | src/modules/app/app.utils.spec.ts:120-123 | any string with `:` as its sixth character, such as an `https:` URL, is rejected |
| AdvocateUtils.ValidAdvocateIdIff | src/modules/advocate/advocate.utils.ts:8-16 | the same exact characterisation for the advocate module's copy |
| AdvocateUtils.AgreesWithAppUtils | src/modules/advocate/advocate.utils.ts:8-16 | the two copies of the validator accept the same ids |
| AdvocateUtils.AdvocateIdVectors | src/modules/advocate/advocate.utils.test.ts:19-69 | all twelve vectors of the advocate module: three accepted; too short, slash, double underscore, double dash, space, the URL, `maybe-evil/not-great-user` and `probablygood?user` rejected |
| RegionUtils.ValidRegion | src/modules/device/region.utils.ts:10-12 | the region validator, membership in `REGIONS`; its properties are `RegionsDistinct`, `ValidRegionShape`, `RegionVectors` and `RejectsLowerCase` |
| RegionUtils.RegionsDistinct | src/modules/device/device.const.ts:1-22 | `REGIONS` holds 20 distinct codes |
| RegionUtils.ValidRegionShape | src/modules/device/region.utils.ts:10-12 | every accepted region is two upper-case letters |
| RegionUtils.RegionVectors | src/modules/device/device.const.ts:1-3 | `ES` and `UK` accepted; `es`, `ESP` and the empty string rejected |
| RegionUtils.RejectsLowerCase | src/modules/device/region.utils.ts:11 | membership is exact, with no case folding |
| Common.AddToSet | src/modules/app/app.service.ts:417-420 | `$addToSet`: the result holds the old advocates and the new one, keeps the old ones as a prefix, and adds no duplicate |
| Snapshots.Enumerate | src/modules/app/app.service.ts:466 | a `find()` snapshot lists every element of the collection exactly once |
| RetryPolicy.AfterUnknownFailure | src/modules/app/app.service.ts:68-107 | no record: create one with 0 attempts. Below the ceiling: +1. At the ceiling: blacklist and keep pending. No other key changes |
| RetryPolicy.MoveToBlacklist | src/modules/app/app.service.ts:316-321 | the key ends blacklisted and not pending; no other key changes |
| RetryPolicy.Settle | src/modules/app/app.service.ts:422-426 | the key ends neither pending nor blacklisted; no other key changes |
| RetryPolicy.UnknownFailureBounded | src/modules/app/app.service.ts:85-97 | the policy keeps every attempt count at or below the ceiling and never lowers one |
| RetryPolicy.ConsecutiveFailures | src/modules/app/app.service.ts:77-106 | from a fresh record, n failures give n attempts while n ≤ ceiling; after that the key is blacklisted with the record still pending at the ceiling |
| RetryPolicy.Resurrect | src/modules/app/app.service.ts:571-584 | every blacklisted key becomes pending; new records get 0 attempts and existing ones keep theirs. Ok and an empty blacklist iff no blacklisted key was pending; otherwise DuplicateKey with the blacklist kept |
| RetryPolicy.ResurrectRevives | src/modules/app/app.service.ts:571-584 | with disjoint collections, each blacklisted key comes back pending at 0 and leaves the blacklist |
| RetryPolicy.ResurrectAfterCeiling | src/modules/app/app.service.ts:99-106 | after ceiling+1 failures, resurrection fails and the key stays blacklisted |
| AppPage.AppInfoPage | src/modules/app/app.service.ts:278-284 | a thrown navigation gives nothing; a page off the path with `INVALID LINK` gives the sentinel; any other page gives its content |
| AppPage.LazyEnd | src/modules/app/app.service.ts:308 | the lazy group ends at the first place the suffix starts, crossing no line terminator, or finds none |
| AppPage.MatchFrom | src/modules/app/app.service.ts:308-309 | the scan returns the leftmost, shortest name between prefix and suffix, or proves that there is none |
| AppPage.ExtractName | src/modules/app/app.service.ts:308-310 | `match[0]` is the first name in the page; None iff the page holds no name |
| AppPage.ExtractedNameIsQuoted | src/modules/app/app.service.ts:308-309 | a captured name appears as `Get 25% off <name> \| Meta Quest` and contains no line terminator |
| AppPage.ClassifyReferralPage | src/modules/app/app.service.ts:307-325 | the three outcomes of one referral page: no page or no name and no invalid-link text is an unknown error, a name is Named, otherwise an invalid link; stated by `NamedIsQuoted` and `InvalidPageIsInvalidLink` and used by `AppInfoFrom` |
| AppPage.InvalidPageIsInvalidLink | src/modules/app/app.service.ts:280-284 | an invalid page is routed as an invalid link, when the sentinel itself holds no name |
| AppPage.NamedIsQuoted | src/modules/app/app.service.ts:307-327 | a name is reported only from a loaded page that quotes it |
| AppStore.Without | src/modules/app/app.service.ts:360-362 | the filter removes exactly the advocate, and the result is shorter iff the advocate was present |
| AppStore.WithoutDistributes | src/modules/app/app.service.ts:360-362 | the filter distributes over concatenation, so the other advocates keep their order |
| AppStore.WithoutKeepsDistinct | src/modules/app/app.service.ts:360-362 | the filter keeps a duplicate-free list duplicate-free |
| AppStore.WithoutAbsent | src/modules/app/app.service.ts:360-363 | filtering out an advocate that is not listed changes nothing, so skipping the write is the same as writing |
| AppStore.RemoveAdvocate | src/modules/app/app.service.ts:353-373 | the app's advocates become exactly the filtered list (every occurrence of the advocate gone, the others in order); name and flags kept; no other app changes; an absent app changes nothing |
| AppStore.LinkAdvocate | src/modules/app/app.service.ts:405-421 | a new app is created from the info with `[advocate]`; an existing app keeps its name and flags, keeps its advocates as a prefix, and gains exactly the advocate; no other app changes |
| AppStore.AppInfoFrom | src/modules/app/app.service.ts:299-351 | the apps never change; an info result leaves the store as it was; an info is returned iff the page names the app. A thrown visit or unknown page: the retry policy (blacklisted at 10 attempts). The invalid-link text: blacklisted and unqueued. A named page: the name is the twice-decoded title; a stored app gives its stored flags, otherwise both flags are undefined under the skip option and otherwise are what the two platform pages show |
| AppStore.Admission | src/modules/app/app.service.ts:479-521 | admitted iff the pair is neither blacklisted nor pending and the advocate is not already linked to the app; Unprocessable iff the pair is blacklisted, the first check |
| AppStore.Enqueue | src/modules/app/app.service.ts:479-521 | `addReferralToQueue` on the store: the admission result, and on admission a pending record with 0 attempts; its promises are stated by `EnqueueOutcome`, `EnqueueTwice` and `EnqueueKeepsValid` |
| AppStore.EnqueueOutcome | src/modules/app/app.service.ts:479-521 | Unprocessable iff blacklisted; Conflict iff not blacklisted and either pending or already linked; on error nothing changes; otherwise exactly one new pending record at 0 |
| AppStore.EnqueueTwice | src/modules/app/app.service.ts:493-503 | enqueueing an admitted pair again is a Conflict that changes nothing |
| AppStore.EnqueueKeepsValid | src/modules/app/app.service.ts:515-520 | admission keeps attempts bounded and advocate lists duplicate-free |
| AppStore.CreateReferral | src/modules/app/app.service.ts:375-427 | one referral step succeeds iff the advocate ends up linked to the app and the pair is neither pending nor blacklisted; every failure is NotFound. The routing by page outcome is `CreateReferralRouting` |
| AppStore.CreateReferralRouting | src/modules/app/app.service.ts:375-427 | Ok only for a named page, and then the advocate is linked and the pair is neither pending nor blacklisted. An invalid link: NotFound, blacklisted, not pending. An unknown error: NotFound and the retry policy. A named page is Ok iff the platform check is skipped or at least one of the flags (stored, or fetched for a new app) is truthy; otherwise it is blacklisted. Every failure leaves the advocate unlinked |
| AppStore.CreateReferralLocal | src/modules/app/app.service.ts:375-427 | one step changes no other pair's queue items and no other app |
| AppStore.CreateReferralKeepsValid | src/modules/app/app.service.ts:375-427 | one step keeps attempts within 10 and advocate lists duplicate-free |
| AppStore.CreateReferralProgress | src/modules/app/app.service.ts:375-427 | a pending pair leaves pending, is blacklisted, or gains exactly one attempt |
| AppStore.ProcessAll | src/modules/app/app.service.ts:449-457 | the drain `moveItems`: the steps of the items in order, each failure caught; its promises are `ProcessAllSnoc`, `ProcessAllKeepsValid`, `ProcessAllLocal` and `ProcessAllProgress` |
| AppStore.ProcessFrom | src/modules/app/app.service.ts:449-457 | one recursive call of `moveItems` on a non-empty list: the first item's step, then the rest |
| AppStore.ProcessAllSnoc | src/modules/app/app.service.ts:449-457 | draining one more item at the end is one more step |
| AppStore.ProcessAllKeepsValid | src/modules/app/app.service.ts:449-457 | a drain keeps the store invariant |
| AppStore.ProcessAllLocal | src/modules/app/app.service.ts:429-457 | a drain leaves the queue items of every pair outside the snapshot unchanged |
| AppStore.ProcessAllProgress | src/modules/app/app.service.ts:429-457 | every pending pair of the snapshot leaves pending, is blacklisted, or has more attempts; one item's failure does not stop the others |
| AppStore.PlatformRecheck | src/modules/app/app.service.ts:523-540 | an unknown app changes nothing. An app on neither platform is deleted. Otherwise it keeps its name and advocates and both flags become the fetched availability. No other app and no queue changes |
| AppStore.PlatformAll | src/modules/app/app.service.ts:542-554 | the recheck pass `movePlatformItems` over the given apps in order; its promises are `PlatformAllSnoc`, `PlatformAllOutcome` and `PlatformAllKeepsChecked` |
| AppStore.PlatformAllSnoc | src/modules/app/app.service.ts:542-554 | rechecking one more app at the end is one more step |
| AppStore.PlatformAllOutcome | src/modules/app/app.service.ts:523-554 | a platform pass leaves the queues alone; every listed app that survives has both flags set |
| AppStore.PlatformAllKeepsChecked | src/modules/app/app.service.ts:523-554 | an app with both flags set keeps them through a pass, if it survives |
| AppStore.NeedsPlatformCheck | src/modules/app/app.service.ts:557-559 | the selection of `movePlatformInfoQueue`: either flag undefined; `MovePlatformInfoQueue` rechecks exactly these apps |
| AppStore.Suspicious | src/modules/app/app.service.ts:587-593 | the selection of `reviewApps`: both flags true, both undefined or both false; `ReviewApps` rechecks exactly these apps |
| AppStore.OldReferrals | src/modules/app/app.service.ts:601-605 | the flatMap yields exactly the (app, advocate) pairs currently linked |
| AppQueue.DrainStep | src/modules/app/app.service.ts:449-457 | one `moveItems` iteration extends the drained slice by its item |
| AppQueue.NothingDrained | src/modules/app/app.service.ts:449-457 | before the first iteration nothing is drained |
| AppQueue.AppService.constructor | src/modules/app/app.service.ts:34-43 | the service starts with the guard down and no browser |
| AppQueue.AppService.GetReferralForAppByAppId | src/modules/app/app.service.ts:53-66 | NotFound iff the app is absent or has no advocates; otherwise one of its advocates |
| AppQueue.AppService.IncreaseAttemptsOrBlacklist | src/modules/app/app.service.ts:68-107 | the queues become `AfterUnknownFailure` of the old queues with ceiling 10 |
| AppQueue.AppService.GetAvailableIn | src/modules/app/app.service.ts:129-152 | available iff the page loaded on the platform URL and lacks the `OK \| Oculus` title; a throw gives false; the browser is open |
| AppQueue.AppService.GetToAppInfoPage | src/modules/app/app.service.ts:260-297 | the result is `AppInfoPage` of the fetched page; the browser is open |
| AppQueue.AppService.GetAppInfoFrom | src/modules/app/app.service.ts:299-351 | the new state and result are those of `AppInfoFrom`: an info iff the page names the app, the retry policy for a thrown visit or unknown page, blacklisting for an invalid link; the browser is open |
| AppQueue.AppService.RemoveAdvocateIdFromApp | src/modules/app/app.service.ts:353-373 | the apps become `RemoveAdvocate` of the old apps: the filtered list, other fields and other apps kept |
| AppQueue.AppService.CreateReferral | src/modules/app/app.service.ts:375-427 | the new state and result are those of `AppStore.CreateReferral` |
| AppQueue.AppService.MovePendingItem | src/modules/app/app.service.ts:429-443 | the item's step is applied and its failure is dropped |
| AppQueue.AppService.DrainOne | src/modules/app/app.service.ts:449-457 | one iteration of the loop: the drained slice grows by the item at the index, and the browser is open |
| AppQueue.AppService.MoveItems | src/modules/app/app.service.ts:449-457 | the items from `index` on are drained in order; an index past the end does nothing |
| AppQueue.AppService.MoveQueue | src/modules/app/app.service.ts:459-477 | while running: nothing changes. Otherwise: every pending pair is drained once in snapshot order, the browser is closed, the guard is released, and the store invariant is kept |
| AppQueue.AppService.AddReferralToQueue | src/modules/app/app.service.ts:479-521 | the new state and result are those of `AppStore.Enqueue` |
| AppQueue.AppService.MovePlatformItem | src/modules/app/app.service.ts:523-540 | the apps become `PlatformRecheck` of the old store: both availabilities stored, or the app deleted when on neither platform |
| AppQueue.AppService.MovePlatformItems | src/modules/app/app.service.ts:542-554 | the apps from `index` on are rechecked in order |
| AppQueue.AppService.MovePlatformInfoQueue | src/modules/app/app.service.ts:556-569 | exactly the apps with an undefined flag are rechecked, once each; the first recheck opens the browser and it stays open, and an empty selection leaves it as it was |
| AppQueue.AppService.ReviewApps | src/modules/app/app.service.ts:586-599 | exactly the apps whose flags are both true, both undefined or both false are rechecked; the browser is closed |
| AppQueue.AppService.RestartBlacklistQueue | src/modules/app/app.service.ts:571-584 | the queues and result are those of `Resurrect` |
| AppQueue.AppService.ReviewOldReferrals | src/modules/app/app.service.ts:601-611 | every linked pair is re-resolved without the platform check; the browser is closed |
| RegionPage.DeviceInfoPage | src/modules/device/region.service.ts:282-296 | Failed iff the visit threw; the sentinel iff the landing URL lacks the path; a URL result is the final URL of the visit |
| RegionPage.ClassifyAsWritten | src/modules/device/region.service.ts:302-336 | as written: UnknownError iff the visit threw; Valid iff the visit landed and either both URLs contain `/advocate`, or the landing URL does not and the sentinel does |
| RegionPage.Classify | src/modules/device/region.service.ts:302-336 | Valid iff both the landing URL and the final URL contain `/advocate`; UnknownError iff the visit threw |
| RegionPage.ClassifiersDiffer | src/modules/device/region.service.ts:284-287 | the written and intended classifiers differ exactly when the sentinel is returned and contains the path, and the written one then says Valid |
| RegionPage.SentinelPaths | src/modules/device/device.const.ts:26 | `<title>Error</title>` contains `/advocate` iff the advocate is a prefix of `title>` |
| RegionPage.SentinelJudgedValid | src/modules/device/region.service.ts:310 | among accepted advocate ids, exactly `ti`, `tit`, `titl` and `title` have paths the sentinel contains |
| RegionPage.InvalidTitleLinkJudgedValid | src/modules/device/region.service.ts:284-287 | for the accepted id `title`, a link that leaves its path is Valid as written and InvalidLink as intended |
| RegionStore.Concat | src/modules/device/region.service.ts:66-71 | the reduce holds exactly the advocates of the listed regions |
| RegionStore.Admission | src/modules/device/region.service.ts:75-113 | admitted iff the pair is neither pending nor blacklisted and the advocate is listed under no region; Unprocessable iff not pending and blacklisted |
| RegionStore.Enqueue | src/modules/device/region.service.ts:75-113 | `addRegionReferralToQueue` on the store: the admission result, and on admission a pending record with 0 attempts; its promises are stated by `EnqueueOutcome` and `EnqueueKeepsValid` |
| RegionStore.EnqueueOutcome | src/modules/device/region.service.ts:75-113 | Conflict iff pending, or not blacklisted and listed under any region. Unprocessable iff blacklisted and not pending. On error nothing changes; otherwise one new pending record at 0 |
| RegionStore.EnqueueKeepsValid | src/modules/device/region.service.ts:108-112 | admission keeps the store invariant |
| RegionStore.Validate | src/modules/device/region.service.ts:302-336 | validation, with the classifier as written, never changes the regions; valid iff the classifier says valid, and then nothing changes; a thrown visit applies the retry policy (blacklisted at 30 attempts); an invalid link blacklists and unqueues the pair |
| RegionStore.Link | src/modules/device/region.service.ts:361-378 | a new region is created as exactly `[advocate]`; an existing region keeps its list as a prefix and gains the advocate set-wise; no other region changes |
| RegionStore.CreateRegionReferral | src/modules/device/region.service.ts:338-394 | `createRegionReferral` on the store: a listed advocate is a Conflict, otherwise validation and on success the listing; its promises are `CreateRegionReferralRouting`, `CreateRegionReferralLocal`, `CreateRegionReferralKeepsValid` and `CreateRegionReferralProgress` |
| RegionStore.CreateRegionReferralRouting | src/modules/device/region.service.ts:338-394 | Conflict iff the advocate is listed anywhere, and then the pair is blacklisted and unqueued before any fetch. Ok iff not listed and the link is valid as written (the sentinel included), and then the advocate is listed and the pair is unqueued. NotFound otherwise, with regions unchanged; for a thrown visit the pair follows the retry policy |
| RegionStore.SentinelLinkListed | src/modules/device/region.service.ts:338-394 | an unlisted advocate whose link leaves its path, but whose path the sentinel contains, is listed and both queue items go, while the intended classifier calls the link invalid |
| RegionStore.DeadTitleLinkListed | src/modules/device/region.service.ts:338-394 | the accepted id `title` with a link that leaves `/title` is listed under the region |
| RegionStore.CreateRegionReferralLocal | src/modules/device/region.service.ts:338-394 | one step changes no other pair's queue items and no other region |
| RegionStore.CreateRegionReferralKeepsValid | src/modules/device/region.service.ts:342-378 | one step keeps attempts within 30, keeps lists duplicate-free, and never lists an advocate under two regions |
| RegionStore.CreateRegionReferralProgress | src/modules/device/region.service.ts:338-394 | a pending pair leaves pending, is blacklisted, or gains exactly one attempt |
| RegionStore.ProcessAll | src/modules/device/region.service.ts:416-428 | the drain `moveRegionItems`: the steps of the items in order, each failure caught; its promises are `ProcessAllSnoc`, `ProcessAllKeepsValid`, `ProcessAllLocal`, `ProcessAllProgress` and `ProcessAllKeepsListed` |
| RegionStore.ProcessAllSnoc | src/modules/device/region.service.ts:416-428 | draining one more item at the end is one more step |
| RegionStore.ProcessAllKeepsValid | src/modules/device/region.service.ts:416-428 | a drain keeps the store invariant, advocate uniqueness across regions included |
| RegionStore.ProcessAllLocal | src/modules/device/region.service.ts:396-428 | a drain leaves the queue items of every pair outside the snapshot unchanged |
| RegionStore.ProcessAllProgress | src/modules/device/region.service.ts:396-428 | every pending pair of the snapshot leaves pending, is blacklisted, or has more attempts |
| RegionStore.ProcessAllKeepsListed | src/modules/device/region.service.ts:338-394 | a drain never unlists an advocate |
| RegionQueue.RegionService.constructor | src/modules/device/region.service.ts:31-41 | the service starts with the guard down and no browser |
| RegionQueue.RegionService.GetReferralFromRegion | src/modules/device/region.service.ts:49-59 | NotFound iff the region is absent or has no advocates; otherwise one of its advocates |
| RegionQueue.RegionService.IsDuplicatedAdvocate | src/modules/device/region.service.ts:61-73 | true iff some region lists the advocate |
| RegionQueue.RegionService.AddRegionReferralToQueue | src/modules/device/region.service.ts:75-113 | the new state and result are those of `RegionStore.Enqueue` |
| RegionQueue.RegionService.IncreaseAttemptsOrBlacklist | src/modules/device/region.service.ts:115-154 | the queues become `AfterUnknownFailure` of the old queues with ceiling 30 |
| RegionQueue.RegionService.GetToDeviceInfoPage | src/modules/device/region.service.ts:263-300 | the result is `DeviceInfoPage` of the visit: Failed iff the visit threw, the sentinel iff the landing URL lacks the path, otherwise the final URL; the browser is open |
| RegionQueue.RegionService.ValidateRegionReferral | src/modules/device/region.service.ts:302-336 | the returned text, sentinel included, is searched for the path; the new state and result are those of `Validate`: valid iff the as-written classifier says valid, the retry policy for a thrown visit, blacklisting and unqueueing for an invalid link; the browser is open |
| RegionQueue.RegionService.CreateRegionReferral | src/modules/device/region.service.ts:338-394 | the new state and result are those of `RegionStore.CreateRegionReferral`; the duplicate path opens no browser |
| RegionQueue.RegionService.MoveRegionPendingItem | src/modules/device/region.service.ts:396-410 | the item's step is applied and its failure is dropped |
| RegionQueue.DrainStep | src/modules/device/region.service.ts:416-428 | one `moveRegionItems` iteration extends the drained slice by its item |
| RegionQueue.NothingDrained | src/modules/device/region.service.ts:416-428 | before the first iteration nothing is drained |
| RegionQueue.RegionService.DrainOne | src/modules/device/region.service.ts:416-428 | one iteration of the loop: the drained slice grows by the item at the index |
| RegionQueue.RegionService.MoveRegionItems | src/modules/device/region.service.ts:416-428 | the items from `index` on are drained in order; an index past the end does nothing |
| RegionQueue.RegionService.MoveRegionQueue | src/modules/device/region.service.ts:430-452 | while running: nothing changes. Otherwise: every pending pair is drained once in snapshot order, the browser is closed, the guard is released, and the store invariant is kept |

## Left out

- Browser, navigation and login (`initializeBrowser`, `getContentAndUrl`, `handleLoginFromReferralPage`, `repeatKeyPress`, `getNeedsLogin`, `timeout`): foreign I/O. Each visit is an input outcome. A launch that fails and leaves the browser null is not told apart from an open browser: every fetch sets `browserOpen`.
- Random winner index and random waits between items: the winner is any index in range (`:|`), and the waits are dropped.
- Logging, controllers, cron triggers, module wiring, configuration and the response types: not logic.
- `findAll` in both services: a plain read with no state change.
- The null input of the validators (`advocate_id === null`): Dafny strings are never null.
- `decode` from html-entities: an opaque function carried in the environment, applied twice as the source does.
- The app module's `INVALID_LINK_TEXT`: `app.const.ts` does not define it. It is an opaque string carried in the environment.
- Mongo's `{field: undefined}` filters in `movePlatformInfoQueue` and `reviewApps`: a field set to `undefined` is treated as absent (`None`).
- Bulk resurrection: the model inserts every non-clashing record and then rejects. The order of the parallel inserts is not modelled.
- The browser `close()` call at the end of `reviewApps` and `reviewOldReferrals`: only its effect on the handle is kept.
- Fetches are functions of the pair (apps) or the path (regions), so refetching the same page within a drain gives the same answer.
- `restartRegionBlacklistQueue`, which `region.controller.ts` calls: the region service does not define it.
- Interleaving at `await` points: every method runs atomically. The source lets other requests run while a drain waits on the browser or the database. So an enqueue or a resurrection can land between two drain steps (`src/modules/app/app.service.ts:459-477`), and `reviewApps`/`reviewOldReferrals`, which take no guard, can close the shared browser during a drain (`src/modules/app/app.service.ts:586-611`). The model shows none of these interleavings; the `isQueueRunning` no-op branch is reached only when the flag is already set on entry.
- `moveQueue` and `moveRegionQueue`: every Mongo call and every `browser.close()` is assumed to resolve. In the source a rejection between setting and clearing the guard (`src/modules/app/app.service.ts:465-476`, `src/modules/device/region.service.ts:438-451`) leaves `isQueueRunning` set for good, so every later call takes the no-op branch; the model's drains always release the guard.
- `movePendingItem` and `moveRegionPendingItem`: a database write that rejects in the middle of a step is not modelled. In the source the catch swallows it and leaves the writes made so far; for instance a failing pending `deleteOne` after the blacklist upsert (`src/modules/app/app.service.ts:316-321`) also runs `increaseAttemptsOrBlacklist` (:344-350). The model applies only the effects of a step in which every write succeeds.

## Findings

| source | as written | input that shows it | evidently intended | confidence | as-written member | corrected member |
|---|---|---|---|---|---|---|
| src/modules/device/region.service.ts:284-287, 310 | the sentinel `<title>Error</title>` returned for a link that left its path is searched for `/advocate`, which it contains for `ti`, `tit`, `titl` and `title`; the dead link is judged valid and the advocate is listed | advocate `title`, landing URL without `/title` | the sentinel always means an invalid link | not executed | RegionStore.DeadTitleLinkListed | RegionPage.Classify |

The region store and service run the classifier as written (`RegionPage.ClassifyAsWritten`), so they list the advocate as the code does. `RegionPage.InvalidTitleLinkJudgedValid` shows the two verdicts side by side. `RegionPage.Classify` is the intended classifier, characterised exactly; `RegionPage.ClassifiersDiffer` proves the two differ only on this case.
