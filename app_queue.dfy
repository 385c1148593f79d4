/** The app referral service: the store's collections as fields, the queue
    guard and the browser handle, and the operations that update them. */
module AppQueue {
  import opened Common
  import opened RetryPolicy
  import opened AppPage
  import opened AppStore
  import opened Snapshots

  /** One iteration of `moveItems` extends the drained slice by its item. */
  lemma DrainStep(s0: Store, items: seq<Key>, index: nat, i: nat, before: Store, after: Store, env: Env, skipPlatform: bool)
    requires index <= i < |items|
    requires before == ProcessAll(s0, items[index..i], env, skipPlatform)
    requires after == AppStore.CreateReferral(before, items[i], env, skipPlatform).0
    ensures after == ProcessAll(s0, items[index..i + 1], env, skipPlatform)
  {
    SliceSnoc(items, index, i);
    ProcessAllSnoc(s0, items[index..i], items[i], env, skipPlatform);
  }

  lemma NothingDrained(s0: Store, items: seq<Key>, index: nat, env: Env, skipPlatform: bool)
    requires index <= |items|
    ensures ProcessAll(s0, items[index..index], env, skipPlatform) == s0
  {
  }

  class AppService {
    /** The `apps`, pending-item and blacklist-item collections. */
    var apps: map<string, App>
    var pending: map<Key, nat>
    var blacklist: set<Key>
    /** `isQueueRunning`: a drain is in progress. */
    var isQueueRunning: bool
    /** `browser !== null`: a browser session is open. */
    var browserOpen: bool

    function State(): Store
      reads this
    {
      Store(apps, Queues(pending, blacklist))
    }

    /** The service starts idle, with no browser, over the store's current collections. */
    constructor (apps0: map<string, App>, pending0: map<Key, nat>, blacklist0: set<Key>)
      ensures State() == Store(apps0, Queues(pending0, blacklist0))
      ensures !isQueueRunning && !browserOpen
    {
      apps, pending, blacklist := apps0, pending0, blacklist0;
      isQueueRunning, browserOpen := false, false;
    }

    /** `getReferralForAppByAppId`: NotFound for an unknown app or one with no
        advocates; otherwise one of its advocates, chosen at random. */
    method GetReferralForAppByAppId(appId: string) returns (r: Result<string>)
      ensures r.Err? <==> appId !in apps || |apps[appId].advocates| == 0
      ensures r.Err? ==> r.error == NotFound
      ensures r.Ok? ==> r.value in apps[appId].advocates
    {
      if appId !in apps {
        return Err(NotFound);
      }
      var advocates := apps[appId].advocates;
      if |advocates| == 0 {
        return Err(NotFound);
      }
      var winner :| 0 <= winner < |advocates|;
      return Ok(advocates[winner]);
    }

    /** `increaseAttemptsOrBlacklist`. */
    method IncreaseAttemptsOrBlacklist(k: Key)
      modifies `pending, `blacklist
      ensures Queues(pending, blacklist) == AfterUnknownFailure(old(Queues(pending, blacklist)), k, MaxPendingAttempts)
    {
      if k !in pending {
        pending := pending[k := 0];
        return;
      }
      if pending[k] < MaxPendingAttempts {
        pending := pending[k := pending[k] + 1];
        return;
      }
      blacklist := blacklist + {k};
    }

    /** `getAvailableIn`: opens the browser if needed and applies the
        availability rule to the catalog page; an exception is false. */
    method GetAvailableIn(platform: Platform, appId: string, env: Env) returns (available: bool)
      modifies `browserOpen
      ensures browserOpen
      ensures available == Available(platform, appId, env.platformPage(platform, appId))
    {
      browserOpen := true;
      match env.platformPage(platform, appId)
      case Thrown =>
        available := false;
      case Loaded(nextUrl, content) =>
        var includesUrl := Text.Contains(nextUrl, PlatformUrl(platform, appId));
        var invalidId := Text.Contains(content, UnavailableTitle);
        available := includesUrl && !invalidId;
    }

    /** `getToAppInfoPage`: opens the browser if needed and loads the referral page. */
    method GetToAppInfoPage(k: Key, env: Env) returns (data: Option<string>)
      modifies `browserOpen
      ensures browserOpen
      ensures data == AppInfoPage(ReferralPath(k), env.referralPage(k), env.invalidLinkText)
    {
      browserOpen := true;
      match env.referralPage(k)
      case Thrown =>
        data := None;
      case Loaded(currentUrl, content) =>
        if IsInvalidPage(ReferralPath(k), currentUrl, content) {
          data := Some(env.invalidLinkText);
        } else {
          data := Some(content);
        }
    }

    /** `getAppInfoFrom`. */
    method GetAppInfoFrom(k: Key, env: Env, skipPlatform: bool) returns (info: Option<AppInfo>)
      modifies `pending, `blacklist, `browserOpen
      ensures (State(), info) == AppInfoFrom(old(State()), k, env, skipPlatform)
      ensures browserOpen
    {
      var data := GetToAppInfoPage(k, env);
      if data.None? {
        IncreaseAttemptsOrBlacklist(k);
        return None;
      }
      var name := ExtractName(data.value);
      if name.None? {
        if Text.Contains(data.value, env.invalidLinkText) {
          blacklist := blacklist + {k};
          pending := pending - {k};
          return None;
        }
        // the "unknown url error" is thrown and caught by the same handler
        IncreaseAttemptsOrBlacklist(k);
        return None;
      }
      var decodedName := env.decode(name.value);
      if k.target in apps {
        return Some(AppInfo(env.decode(decodedName), apps[k.target].hasQuest, apps[k.target].hasRift));
      }
      var hasQuest: Option<bool>, hasRift: Option<bool> := None, None;
      if !skipPlatform {
        var quest := GetAvailableIn(Quest, k.target, env);
        var rift := GetAvailableIn(Rift, k.target, env);
        hasQuest, hasRift := Some(quest), Some(rift);
      }
      return Some(AppInfo(env.decode(decodedName), hasQuest, hasRift));
    }

    /** `removeAdvocateIdFromApp`. */
    method RemoveAdvocateIdFromApp(advocate: string, appId: string)
      modifies `apps
      ensures apps == RemoveAdvocate(old(apps), appId, advocate)
    {
      if appId in apps {
        var advocates := apps[appId].advocates;
        var newAdvocates := Without(advocates, advocate);
        if |advocates| != |newAdvocates| {
          apps := apps[appId := apps[appId].(advocates := newAdvocates)];
        }
      }
    }

    /** `createReferral`: Ok when the referral was created, NotFound otherwise. */
    method CreateReferral(k: Key, env: Env, skipPlatform: bool) returns (r: Result<()>)
      modifies `apps, `pending, `blacklist, `browserOpen
      ensures (State(), r) == AppStore.CreateReferral(old(State()), k, env, skipPlatform)
      ensures browserOpen
    {
      var info := GetAppInfoFrom(k, env, skipPlatform);
      if info.None? {
        RemoveAdvocateIdFromApp(k.advocate, k.target);
        return Err(NotFound);
      }
      var AppInfo(name, hasQuest, hasRift) := info.value;
      if !skipPlatform && Falsy(hasQuest) && Falsy(hasRift) {
        blacklist := blacklist + {k};
        pending := pending - {k};
        RemoveAdvocateIdFromApp(k.advocate, k.target);
        return Err(NotFound);
      }
      if k.target !in apps {
        apps := apps[k.target := App(name, hasQuest, hasRift, [k.advocate])];
      } else {
        apps := apps[k.target := apps[k.target].(advocates := AddToSet(apps[k.target].advocates, k.advocate))];
      }
      pending := pending - {k};
      blacklist := blacklist - {k};
      return Ok(());
    }

    /** `movePendingItem`: the item's failure is caught and dropped. */
    method MovePendingItem(k: Key, env: Env, skipPlatform: bool)
      modifies `apps, `pending, `blacklist, `browserOpen
      ensures State() == AppStore.CreateReferral(old(State()), k, env, skipPlatform).0
      ensures browserOpen
    {
      var _ := CreateReferral(k, env, skipPlatform);
    }

    /** One iteration of the `moveItems` loop: the item at `i` is drained. */
    method DrainOne(items: seq<Key>, index: nat, i: nat, ghost s0: Store, env: Env, skipPlatform: bool)
      requires index <= i < |items|
      requires State() == ProcessAll(s0, items[index..i], env, skipPlatform)
      modifies `apps, `pending, `blacklist, `browserOpen
      ensures State() == ProcessAll(s0, items[index..i + 1], env, skipPlatform)
      ensures browserOpen
    {
      ghost var before := State();
      MovePendingItem(items[i], env, skipPlatform);
      DrainStep(s0, items, index, i, before, State(), env, skipPlatform);
    }

    /** `moveItems`: the items from `index` on, one after the other; an
        index past the end does nothing. */
    method MoveItems(items: seq<Key>, index: nat, env: Env, skipPlatform: bool)
      modifies `apps, `pending, `blacklist, `browserOpen
      ensures index >= |items| ==> State() == old(State()) && browserOpen == old(browserOpen)
      ensures index < |items| ==> State() == ProcessAll(old(State()), items[index..], env, skipPlatform) && browserOpen
    {
      if index >= |items| {
        return;
      }
      ghost var s0 := State();
      NothingDrained(s0, items, index, env, skipPlatform);
      var i := index;
      while i < |items|
        invariant index <= i <= |items|
        invariant State() == ProcessAll(s0, items[index..i], env, skipPlatform)
        invariant browserOpen == (old(browserOpen) || i > index)
      {
        DrainOne(items, index, i, s0, env, skipPlatform);
        i := i + 1;
      }
      assert items[index..i] == items[index..];
    }

    /** `moveQueue`: a call during a drain returns at once; otherwise the
        pending collection is snapshotted, drained in snapshot order, the
        browser closed and the guard released. */
    method MoveQueue(env: Env) returns (ghost snapshot: seq<Key>)
      modifies this
      ensures old(isQueueRunning) ==> State() == old(State()) && isQueueRunning && browserOpen == old(browserOpen)
      ensures !old(isQueueRunning) ==>
        && Distinct(snapshot)
        && (forall k :: k in snapshot <==> k in old(pending))
        && State() == ProcessAll(old(State()), snapshot, env, false)
        && !isQueueRunning && !browserOpen
      ensures Valid(old(State())) ==> Valid(State())
    {
      if isQueueRunning {
        snapshot := [];
        return;
      }
      isQueueRunning := true;
      var pendingItems := Enumerate(pending.Keys);
      MoveItems(pendingItems, 0, env, false);
      browserOpen := false;
      isQueueRunning := false;
      snapshot := pendingItems;
      if Valid(old(State())) {
        ProcessAllKeepsValid(old(State()), snapshot, env, false);
      }
    }

    /** `addReferralToQueue`. */
    method AddReferralToQueue(advocate: string, appId: string) returns (r: Result<()>)
      modifies `pending
      ensures (State(), r) == Enqueue(old(State()), Key(appId, advocate))
    {
      var k := Key(appId, advocate);
      if k in blacklist {
        return Err(UnprocessableEntity);
      }
      if k in pending {
        return Err(Conflict);
      }
      if appId in apps && advocate in apps[appId].advocates {
        return Err(Conflict);
      }
      pending := pending[k := 0];
      return Ok(());
    }

    /** `movePlatformItem`. */
    method MovePlatformItem(appId: string, env: Env)
      modifies `apps, `browserOpen
      ensures State() == PlatformRecheck(old(State()), appId, env)
      ensures browserOpen
    {
      var hasQuest := GetAvailableIn(Quest, appId, env);
      var hasRift := GetAvailableIn(Rift, appId, env);
      if appId in apps {
        apps := apps[appId := apps[appId].(hasQuest := Some(hasQuest), hasRift := Some(hasRift))];
      }
      if !hasQuest && !hasRift {
        apps := apps - {appId};
      }
    }

    /** `movePlatformItems`: the apps from `index` on, one after the other. */
    method MovePlatformItems(ids: seq<string>, index: nat, env: Env)
      modifies `apps, `browserOpen
      ensures index >= |ids| ==> State() == old(State()) && browserOpen == old(browserOpen)
      ensures index < |ids| ==> State() == PlatformAll(old(State()), ids[index..], env) && browserOpen
    {
      if index >= |ids| {
        return;
      }
      ghost var s0 := State();
      var i := index;
      while i < |ids|
        invariant index <= i <= |ids|
        invariant State() == PlatformAll(s0, ids[index..i], env)
        invariant browserOpen == (old(browserOpen) || i > index)
      {
        MovePlatformItem(ids[i], env);
        assert ids[index..i + 1] == ids[index..i] + [ids[i]];
        PlatformAllSnoc(s0, ids[index..i], ids[i], env);
        i := i + 1;
      }
      assert ids[index..i] == ids[index..];
    }

    /** `movePlatformInfoQueue`: recheck every app with a flag still
        undefined. The browser is left open. */
    method MovePlatformInfoQueue(env: Env) returns (ghost snapshot: seq<string>)
      modifies `apps, `browserOpen
      ensures Distinct(snapshot)
      ensures forall id :: id in snapshot <==> id in old(apps) && NeedsPlatformCheck(old(apps)[id])
      ensures State() == PlatformAll(old(State()), snapshot, env)
      ensures |snapshot| > 0 ==> browserOpen
      ensures |snapshot| == 0 ==> browserOpen == old(browserOpen)
    {
      var ids := Enumerate(set id | id in apps && NeedsPlatformCheck(apps[id]));
      MovePlatformItems(ids, 0, env);
      snapshot := ids;
    }

    /** `reviewApps`: recheck every suspicious app, then close the browser. */
    method ReviewApps(env: Env) returns (ghost snapshot: seq<string>)
      modifies `apps, `browserOpen
      ensures Distinct(snapshot)
      ensures forall id :: id in snapshot <==> id in old(apps) && Suspicious(old(apps)[id])
      ensures State() == PlatformAll(old(State()), snapshot, env)
      ensures !browserOpen
    {
      var ids := Enumerate(set id | id in apps && Suspicious(apps[id]));
      MovePlatformItems(ids, 0, env);
      browserOpen := false;
      snapshot := ids;
    }

    /** `restartBlacklistQueue`: bulk-create a pending record with 0 attempts
        for every blacklisted pair, then delete the resurrected blacklist
        items; a pair already pending makes the bulk create reject first. */
    method RestartBlacklistQueue() returns (r: Result<()>)
      modifies `pending, `blacklist
      ensures (Queues(pending, blacklist), r) == Resurrect(old(Queues(pending, blacklist)))
    {
      var revived := map k | k in blacklist && k !in pending :: 0;
      var disjoint := blacklist !! pending.Keys;
      pending := pending + revived;
      if !disjoint {
        return Err(DuplicateKey);
      }
      blacklist := {};
      return Ok(());
    }

    /** `reviewOldReferrals`: re-resolve every existing link, skipping the
        platform check, then close the browser. The queue guard is not taken. */
    method ReviewOldReferrals(env: Env) returns (ghost snapshot: seq<Key>)
      modifies `apps, `pending, `blacklist, `browserOpen
      ensures forall k :: k in snapshot <==> k.target in old(apps) && k.advocate in old(apps)[k.target].advocates
      ensures State() == ProcessAll(old(State()), snapshot, env, true)
      ensures !browserOpen
    {
      var order := Enumerate(apps.Keys);
      var items := OldReferrals(apps, order);
      MoveItems(items, 0, env, true);
      browserOpen := false;
      snapshot := items;
    }
  }
}
