/** The app referral store and the transitions the app service makes on it,
    as functions of the store before the operation. */
module AppStore {
  import opened Common
  import opened RetryPolicy
  import opened AppPage
  import opened Snapshots

  /** `MAX_PENDING_ATTEMPTS` of the app constants. */
  const MaxPendingAttempts: nat := 10

  /** An app document: unique on its id (the key of the `apps` map). */
  datatype App = App(name: string, hasQuest: Option<bool>, hasRift: Option<bool>, advocates: seq<string>)

  datatype Store = Store(apps: map<string, App>, queues: Queues)

  /** What `getAppInfoFrom` returns on success. */
  datatype AppInfo = AppInfo(name: string, hasQuest: Option<bool>, hasRift: Option<bool>)

  /** Everything outside the store: the referral page the browser loads for a
      pair, the platform catalog page for an app, the HTML entity decoder, and
      the invalid-link sentinel text. */
  datatype Env = Env(
    referralPage: Key -> PageResult,
    platformPage: (Platform, string) -> PageResult,
    decode: string -> string,
    invalidLinkText: string)

  /** The store invariant the service keeps: no app lists an advocate twice
      and no pending record is past the ceiling. */
  ghost predicate Valid(s: Store) {
    && AttemptsBounded(s.queues, MaxPendingAttempts)
    && forall id :: id in s.apps ==> Distinct(s.apps[id].advocates)
  }

  /** `advocates.filter((advocateId) => advocateId !== a)`. */
  function Without(advocates: seq<string>, a: string): (r: seq<string>)
    ensures forall x :: x in r <==> x in advocates && x != a
    ensures |r| <= |advocates|
    ensures |r| == |advocates| <==> a !in advocates
  {
    if |advocates| == 0 then []
    else (if advocates[0] == a then [] else [advocates[0]]) + Without(advocates[1..], a)
  }

  /** The filter works piecewise, so the advocates it keeps stay in their order. */
  lemma {:induction false} WithoutDistributes(s1: seq<string>, s2: seq<string>, a: string)
    ensures Without(s1 + s2, a) == Without(s1, a) + Without(s2, a)
  {
    if |s1| > 0 {
      assert (s1 + s2)[1..] == s1[1..] + s2;
      WithoutDistributes(s1[1..], s2, a);
    } else {
      assert s1 + s2 == s2;
    }
  }

  lemma {:induction false} WithoutKeepsDistinct(s: seq<string>, a: string)
    requires Distinct(s)
    ensures Distinct(Without(s, a))
  {
    if |s| > 0 {
      WithoutKeepsDistinct(s[1..], a);
      assert s[0] !in s[1..];
    }
  }

  /** Filtering out an advocate that is not there changes nothing. */
  lemma {:induction false} WithoutAbsent(s: seq<string>, a: string)
    requires a !in s
    ensures Without(s, a) == s
  {
    if |s| > 0 {
      WithoutAbsent(s[1..], a);
      assert [s[0]] + s[1..] == s;
    }
  }

  /** `removeAdvocateIdFromApp`: drop every occurrence of the advocate, and
      write the app back only when its list got shorter. */
  function RemoveAdvocate(apps: map<string, App>, appId: string, a: string): (r: map<string, App>)
    ensures r.Keys == apps.Keys
    ensures appId in r ==> a !in r[appId].advocates
    ensures appId in apps ==> r[appId] == apps[appId].(advocates := Without(apps[appId].advocates, a))
    ensures forall id :: id in apps && id != appId ==> r[id] == apps[id]
  {
    if appId !in apps then apps
    else if |Without(apps[appId].advocates, a)| != |apps[appId].advocates| then
      apps[appId := apps[appId].(advocates := Without(apps[appId].advocates, a))]
    else
      WithoutAbsent(apps[appId].advocates, a);
      apps
  }

  /** The success branch of `createReferral`: create the app with `[a]`, or
      add `a` to its advocates as a set. */
  function LinkAdvocate(apps: map<string, App>, appId: string, a: string, info: AppInfo): (r: map<string, App>)
    ensures r.Keys == apps.Keys + {appId}
    ensures a in r[appId].advocates
    ensures appId !in apps ==> r[appId] == App(info.name, info.hasQuest, info.hasRift, [a])
    ensures appId in apps ==>
      && r[appId].name == apps[appId].name
      && r[appId].hasQuest == apps[appId].hasQuest && r[appId].hasRift == apps[appId].hasRift
      && apps[appId].advocates <= r[appId].advocates
      && forall x :: x in r[appId].advocates <==> x in apps[appId].advocates || x == a
    ensures forall id :: id in apps && id != appId ==> r[id] == apps[id]
  {
    if appId !in apps then apps[appId := App(info.name, info.hasQuest, info.hasRift, [a])]
    else apps[appId := apps[appId].(advocates := AddToSet(apps[appId].advocates, a))]
  }

  /** `getAppInfoFrom`: route the page verdict. An unknown error goes to the
      retry policy and an invalid link to the blacklist, both giving no info;
      a name gives the info, with the platform flags of the stored app if
      there is one, else fetched from the catalog unless skipped. */
  function AppInfoFrom(s: Store, k: Key, env: Env, skipPlatform: bool): (r: (Store, Option<AppInfo>))
    ensures r.0.apps == s.apps
    ensures r.1.Some? ==> r.0 == s
    ensures var v := ClassifyReferralPage(ReferralPath(k), env.referralPage(k), env.invalidLinkText);
      && (r.1.Some? <==> v.Named?)
      && (v.UnknownError? ==> r.0.queues == AfterUnknownFailure(s.queues, k, MaxPendingAttempts))
      && (v.InvalidLink? ==> r.0.queues == MoveToBlacklist(s.queues, k))
      && (v.Named? ==> r.1.value.name == env.decode(env.decode(v.rawName)))
      && (v.Named? && k.target in s.apps ==>
            r.1.value.hasQuest == s.apps[k.target].hasQuest && r.1.value.hasRift == s.apps[k.target].hasRift)
      && (v.Named? && k.target !in s.apps && skipPlatform ==> r.1.value.hasQuest.None? && r.1.value.hasRift.None?)
      && (v.Named? && k.target !in s.apps && !skipPlatform ==>
            && r.1.value.hasQuest == Some(Available(Quest, k.target, env.platformPage(Quest, k.target)))
            && r.1.value.hasRift == Some(Available(Rift, k.target, env.platformPage(Rift, k.target))))
  {
    match ClassifyReferralPage(ReferralPath(k), env.referralPage(k), env.invalidLinkText)
    case UnknownError => (s.(queues := AfterUnknownFailure(s.queues, k, MaxPendingAttempts)), None)
    case InvalidLink => (s.(queues := MoveToBlacklist(s.queues, k)), None)
    case Named(raw) =>
      var name := env.decode(env.decode(raw));
      if k.target in s.apps then
        (s, Some(AppInfo(name, s.apps[k.target].hasQuest, s.apps[k.target].hasRift)))
      else if skipPlatform then
        (s, Some(AppInfo(name, None, None)))
      else
        (s, Some(AppInfo(name,
                         Some(Available(Quest, k.target, env.platformPage(Quest, k.target))),
                         Some(Available(Rift, k.target, env.platformPage(Rift, k.target))))))
  }

  /** `createReferral`: no info removes the advocate from the app; an app on
      neither platform is blacklisted and its advocate removed; otherwise the
      advocate is linked and the pair's pending and blacklist items go. */
  function CreateReferral(s: Store, k: Key, env: Env, skipPlatform: bool): (r: (Store, Result<()>))
    ensures r.1.Ok? || r.1 == Err(NotFound)
    ensures r.1.Ok? <==>
      && k.target in r.0.apps && k.advocate in r.0.apps[k.target].advocates
      && k !in r.0.queues.pending && k !in r.0.queues.blacklist
  {
    var (s1, info) := AppInfoFrom(s, k, env, skipPlatform);
    if info.None? then
      (s1.(apps := RemoveAdvocate(s1.apps, k.target, k.advocate)), Err(NotFound))
    else if !skipPlatform && Falsy(info.value.hasQuest) && Falsy(info.value.hasRift) then
      (Store(RemoveAdvocate(s1.apps, k.target, k.advocate), MoveToBlacklist(s1.queues, k)), Err(NotFound))
    else
      (Store(LinkAdvocate(s1.apps, k.target, k.advocate, info.value), Settle(s1.queues, k)), Ok(()))
  }

  /** `moveItems`: the items in order, each one's failure caught. */
  function ProcessAll(s: Store, items: seq<Key>, env: Env, skipPlatform: bool): Store
    decreases |items|, 1
  {
    if |items| == 0 then s else ProcessFrom(s, items, env, skipPlatform)
  }

  /** One call of `moveItems` on a non-empty list: the first item's step,
      then the rest of the list. */
  function ProcessFrom(s: Store, items: seq<Key>, env: Env, skipPlatform: bool): Store
    requires |items| > 0
    decreases |items|, 0
  {
    ProcessAll(CreateReferral(s, items[0], env, skipPlatform).0, items[1..], env, skipPlatform)
  }

  /** A drain of a non-empty list is its first step followed by the drain of the rest. */
  lemma ProcessAllCons(s: Store, items: seq<Key>, env: Env, skipPlatform: bool)
    requires |items| > 0
    ensures ProcessAll(s, items, env, skipPlatform)
         == ProcessAll(CreateReferral(s, items[0], env, skipPlatform).0, items[1..], env, skipPlatform)
  {
    assert ProcessAll(s, items, env, skipPlatform) == ProcessFrom(s, items, env, skipPlatform);
  }

  /** Processing one more item at the end of a drain is one more step. */
  lemma {:induction false} ProcessAllSnoc(s: Store, items: seq<Key>, x: Key, env: Env, skipPlatform: bool)
    ensures ProcessAll(s, items + [x], env, skipPlatform)
         == CreateReferral(ProcessAll(s, items, env, skipPlatform), x, env, skipPlatform).0
    decreases |items|
  {
    if |items| == 0 {
      assert items + [x] == [x] && [x][1..] == [];
      ProcessAllCons(s, [x], env, skipPlatform);
    } else {
      assert (items + [x])[0] == items[0] && (items + [x])[1..] == items[1..] + [x];
      ProcessAllCons(s, items, env, skipPlatform);
      ProcessAllCons(s, items + [x], env, skipPlatform);
      ProcessAllSnoc(CreateReferral(s, items[0], env, skipPlatform).0, items[1..], x, env, skipPlatform);
    }
  }

  /** The admission checks of `addReferralToQueue`, in the source's order:
      blacklisted, then pending, then already linked. */
  function Admission(s: Store, k: Key): (r: Result<()>)
    ensures r.Ok? <==>
      && k !in s.queues.blacklist && k !in s.queues.pending
      && !(k.target in s.apps && k.advocate in s.apps[k.target].advocates)
    ensures r == Err(UnprocessableEntity) <==> k in s.queues.blacklist
  {
    if k in s.queues.blacklist then Err(UnprocessableEntity)
    else if k in s.queues.pending then Err(Conflict)
    else if k.target in s.apps && k.advocate in s.apps[k.target].advocates then Err(Conflict)
    else Ok(())
  }

  /** `addReferralToQueue`: on admission, a pending record with 0 attempts. */
  function Enqueue(s: Store, k: Key): (Store, Result<()>) {
    var r := Admission(s, k);
    if r.Ok? then (s.(queues := s.queues.(pending := s.queues.pending[k := 0])), r) else (s, r)
  }

  /** Enqueue fails exactly in the three admission cases and changes nothing
      then; otherwise it adds exactly one pending record, with 0 attempts. */
  lemma EnqueueOutcome(s: Store, k: Key)
    ensures var (s', r) := Enqueue(s, k);
      && (r == Err(UnprocessableEntity) <==> k in s.queues.blacklist)
      && (r == Err(Conflict) <==>
            k !in s.queues.blacklist &&
            (k in s.queues.pending || (k.target in s.apps && k.advocate in s.apps[k.target].advocates)))
      && (r.Err? ==> s' == s)
      && (r.Ok? ==>
            && s'.apps == s.apps && s'.queues.blacklist == s.queues.blacklist
            && s'.queues.pending.Keys == s.queues.pending.Keys + {k} && k !in s.queues.pending
            && s'.queues.pending[k] == 0
            && forall k' :: k' in s.queues.pending ==> s'.queues.pending[k'] == s.queues.pending[k'])
  {
  }

  /** Enqueueing the same pair twice: the second call is a Conflict and
      leaves the single pending record of the first. */
  lemma EnqueueTwice(s: Store, k: Key)
    requires Enqueue(s, k).1.Ok?
    ensures var s1 := Enqueue(s, k).0; Enqueue(s1, k) == (s1, Err(Conflict))
  {
  }

  lemma EnqueueKeepsValid(s: Store, k: Key)
    requires Valid(s)
    ensures Valid(Enqueue(s, k).0)
  {
  }

  /** The routing of one pending item: success links the advocate and clears
      the pair; an invalid link blacklists the pair and deletes its pending
      record; an unknown error applies the retry policy; every failure leaves
      the advocate off the app. */
  lemma CreateReferralRouting(s: Store, k: Key, env: Env, skipPlatform: bool)
    ensures var (s', r) := CreateReferral(s, k, env, skipPlatform);
      var v := ClassifyReferralPage(ReferralPath(k), env.referralPage(k), env.invalidLinkText);
      && (r.Ok? ==> v.Named? && k.target in s'.apps && k.advocate in s'.apps[k.target].advocates &&
                    k !in s'.queues.pending && k !in s'.queues.blacklist)
      && (v.InvalidLink? ==> r == Err(NotFound) && k in s'.queues.blacklist && k !in s'.queues.pending)
      && (v.UnknownError? ==> r == Err(NotFound) && s'.queues == AfterUnknownFailure(s.queues, k, MaxPendingAttempts))
      && (r.Err? ==> r.error == NotFound && (k.target in s'.apps ==> k.advocate !in s'.apps[k.target].advocates))
      && (r.Err? && v.Named? ==> !skipPlatform && k in s'.queues.blacklist && k !in s'.queues.pending)
      && (v.Named? ==>
            var quest := if k.target in s.apps then s.apps[k.target].hasQuest
                         else Some(Available(Quest, k.target, env.platformPage(Quest, k.target)));
            var rift := if k.target in s.apps then s.apps[k.target].hasRift
                        else Some(Available(Rift, k.target, env.platformPage(Rift, k.target)));
            (r.Ok? <==> skipPlatform || !(Falsy(quest) && Falsy(rift))))
  {
  }

  /** One item touches only its own pair and its own app. */
  lemma CreateReferralLocal(s: Store, k: Key, env: Env, skipPlatform: bool)
    ensures var s' := CreateReferral(s, k, env, skipPlatform).0;
      && Untouched(s.queues, s'.queues, k)
      && forall id :: id != k.target ==> (id in s'.apps <==> id in s.apps) && (id in s.apps ==> s'.apps[id] == s.apps[id])
  {
  }

  lemma CreateReferralKeepsValid(s: Store, k: Key, env: Env, skipPlatform: bool)
    requires Valid(s)
    ensures Valid(CreateReferral(s, k, env, skipPlatform).0)
  {
    var s1 := AppInfoFrom(s, k, env, skipPlatform).0;
    UnknownFailureBounded(s.queues, k, MaxPendingAttempts);
    assert AttemptsBounded(s1.queues, MaxPendingAttempts);
    if k.target in s1.apps {
      WithoutKeepsDistinct(s1.apps[k.target].advocates, k.advocate);
    }
    var s' := CreateReferral(s, k, env, skipPlatform).0;
    assert AttemptsBounded(s'.queues, MaxPendingAttempts);
    forall id | id in s'.apps ensures Distinct(s'.apps[id].advocates) {
      if id != k.target {
        assert s'.apps[id] == s.apps[id];
      }
    }
  }

  /** A drain keeps the store invariant. */
  lemma {:induction false} ProcessAllKeepsValid(s: Store, items: seq<Key>, env: Env, skipPlatform: bool)
    requires Valid(s)
    ensures Valid(ProcessAll(s, items, env, skipPlatform))
    decreases |items|
  {
    if |items| > 0 {
      ProcessAllCons(s, items, env, skipPlatform);
      CreateReferralKeepsValid(s, items[0], env, skipPlatform);
      ProcessAllKeepsValid(CreateReferral(s, items[0], env, skipPlatform).0, items[1..], env, skipPlatform);
    }
  }

  /** A drain leaves the pending and blacklist items of every pair outside
      its snapshot as they were. */
  lemma {:induction false} ProcessAllLocal(s: Store, items: seq<Key>, env: Env, skipPlatform: bool, k: Key)
    requires k !in items
    ensures Same(s.queues, ProcessAll(s, items, env, skipPlatform).queues, k)
    decreases |items|
  {
    if |items| > 0 {
      var next := CreateReferral(s, items[0], env, skipPlatform).0;
      ProcessAllCons(s, items, env, skipPlatform);
      CreateReferralLocal(s, items[0], env, skipPlatform);
      assert Same(s.queues, next.queues, k);
      assert k !in items[1..];
      ProcessAllLocal(next, items[1..], env, skipPlatform, k);
    }
  }

  /** Every pair of a drain's snapshot makes progress: it leaves the pending
      collection, or is blacklisted, or has more attempts than before. */
  lemma {:induction false} ProcessAllProgress(s: Store, items: seq<Key>, env: Env, skipPlatform: bool, k: Key)
    requires Distinct(items)
    requires k in items && k in s.queues.pending
    ensures var s' := ProcessAll(s, items, env, skipPlatform);
      k !in s'.queues.pending || k in s'.queues.blacklist || s'.queues.pending[k] > s.queues.pending[k]
    decreases |items|
  {
    var next := CreateReferral(s, items[0], env, skipPlatform).0;
    var rest := items[1..];
    ProcessAllCons(s, items, env, skipPlatform);
    if items[0] == k {
      assert k !in rest by {
        forall i | 0 <= i < |rest| ensures rest[i] != k {
          assert rest[i] == items[i + 1];
        }
      }
      CreateReferralProgress(s, k, env, skipPlatform);
      ProcessAllLocal(next, rest, env, skipPlatform, k);
    } else {
      assert k in rest;
      assert Distinct(rest) by {
        forall i, j | 0 <= i < j < |rest| ensures rest[i] != rest[j] {
          assert rest[i] == items[i + 1] && rest[j] == items[j + 1];
        }
      }
      CreateReferralLocal(s, items[0], env, skipPlatform);
      assert Same(s.queues, next.queues, k);
      ProcessAllProgress(next, rest, env, skipPlatform, k);
    }
  }

  /** One step on a pending pair: it leaves pending, is blacklisted, or has
      one more attempt. */
  lemma CreateReferralProgress(s: Store, k: Key, env: Env, skipPlatform: bool)
    requires k in s.queues.pending
    ensures var s' := CreateReferral(s, k, env, skipPlatform).0;
      k !in s'.queues.pending || k in s'.queues.blacklist || s'.queues.pending[k] == s.queues.pending[k] + 1
  {
  }

  /** `movePlatformItem`: store the availability on both platforms, and
      delete the app when it is on neither. */
  function PlatformRecheck(s: Store, appId: string, env: Env): (r: Store)
    ensures r.queues == s.queues
    ensures appId !in s.apps ==> r == s
    ensures var quest := Available(Quest, appId, env.platformPage(Quest, appId));
      var rift := Available(Rift, appId, env.platformPage(Rift, appId));
      && (appId in s.apps && !quest && !rift ==> r.apps == s.apps - {appId})
      && (appId in s.apps && (quest || rift) ==>
            appId in r.apps && r.apps[appId].name == s.apps[appId].name &&
            r.apps[appId].advocates == s.apps[appId].advocates &&
            r.apps[appId].hasQuest == Some(quest) && r.apps[appId].hasRift == Some(rift))
    ensures forall id :: id != appId ==> (id in r.apps <==> id in s.apps) && (id in s.apps ==> r.apps[id] == s.apps[id])
  {
    var quest := Available(Quest, appId, env.platformPage(Quest, appId));
    var rift := Available(Rift, appId, env.platformPage(Rift, appId));
    if appId !in s.apps then s
    else
      var apps := s.apps[appId := s.apps[appId].(hasQuest := Some(quest), hasRift := Some(rift))];
      s.(apps := if !quest && !rift then apps - {appId} else apps)
  }

  /** `movePlatformItems`: the apps in order. */
  function PlatformAll(s: Store, ids: seq<string>, env: Env): Store
    decreases |ids|
  {
    if |ids| == 0 then s
    else PlatformAll(PlatformRecheck(s, ids[0], env), ids[1..], env)
  }

  /** Rechecking one more app at the end of a pass is one more step. */
  lemma {:induction false} PlatformAllSnoc(s: Store, ids: seq<string>, x: string, env: Env)
    ensures PlatformAll(s, ids + [x], env) == PlatformRecheck(PlatformAll(s, ids, env), x, env)
    decreases |ids|
  {
    if |ids| == 0 {
      assert ids + [x] == [x] && [x][1..] == [];
    } else {
      assert (ids + [x])[0] == ids[0] && (ids + [x])[1..] == ids[1..] + [x];
      PlatformAllSnoc(PlatformRecheck(s, ids[0], env), ids[1..], x, env);
    }
  }

  /** A platform pass never touches the referral queues, and an app that
      survives it has both flags set. */
  lemma {:induction false} PlatformAllOutcome(s: Store, ids: seq<string>, env: Env)
    ensures PlatformAll(s, ids, env).queues == s.queues
    ensures forall id :: id in ids && id in PlatformAll(s, ids, env).apps ==>
      PlatformAll(s, ids, env).apps[id].hasQuest.Some? && PlatformAll(s, ids, env).apps[id].hasRift.Some?
    decreases |ids|
  {
    if |ids| > 0 {
      var next := PlatformRecheck(s, ids[0], env);
      PlatformAllOutcome(next, ids[1..], env);
      PlatformAllKeepsChecked(next, ids[1..], env, ids[0]);
      assert forall id :: id in ids ==> id == ids[0] || id in ids[1..];
    }
  }

  /** An app whose flags are both set keeps them through a platform pass, if it survives. */
  lemma {:induction false} PlatformAllKeepsChecked(s: Store, ids: seq<string>, env: Env, id: string)
    requires id in s.apps ==> s.apps[id].hasQuest.Some? && s.apps[id].hasRift.Some?
    ensures var r := PlatformAll(s, ids, env);
      id in r.apps ==> id in s.apps && r.apps[id].hasQuest.Some? && r.apps[id].hasRift.Some?
    decreases |ids|
  {
    if |ids| > 0 {
      PlatformAllKeepsChecked(PlatformRecheck(s, ids[0], env), ids[1..], env, id);
    }
  }

  /** The selection of `movePlatformInfoQueue`: a flag still undefined. */
  predicate NeedsPlatformCheck(app: App) {
    app.hasQuest.None? || app.hasRift.None?
  }

  /** The selection of `reviewApps`: both flags true, both undefined, or both false. */
  predicate Suspicious(app: App) {
    || (app.hasQuest == Some(true) && app.hasRift == Some(true))
    || (app.hasQuest.None? && app.hasRift.None?)
    || (app.hasQuest == Some(false) && app.hasRift == Some(false))
  }

  /** The `flatMap` of `reviewOldReferrals`: one item per (app, advocate)
      link, apps in the given order and advocates in list order. */
  function OldReferrals(apps: map<string, App>, order: seq<string>): (r: seq<Key>)
    requires forall id :: id in order ==> id in apps
    ensures forall k :: k in r <==> k.target in order && k.advocate in apps[k.target].advocates
  {
    if |order| == 0 then []
    else
      var id := order[0];
      var advocates := apps[id].advocates;
      var here := seq(|advocates|, i requires 0 <= i < |advocates| => Key(id, advocates[i]));
      assert forall k :: k in here <==> k.target == id && k.advocate in advocates by {
        forall k: Key | k.target == id && k.advocate in advocates ensures k in here {
          var i :| 0 <= i < |advocates| && advocates[i] == k.advocate;
          assert here[i] == k;
        }
      }
      here + OldReferrals(apps, order[1..])
  }
}
