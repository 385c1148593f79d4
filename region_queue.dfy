/** The region referral service: the store's collections as fields, the
    queue guard and the browser handle, and the operations that update them. */
module RegionQueue {
  import opened Common
  import opened Text
  import opened RetryPolicy
  import opened RegionPage
  import opened RegionStore
  import opened Snapshots

  lemma NothingDrained(s0: Store, items: seq<Key>, index: nat, env: Env)
    requires index <= |items|
    ensures ProcessAll(s0, items[index..index], env) == s0
  {
  }

  /** One iteration of `moveRegionItems` extends the drained slice by its item. */
  lemma DrainStep(s0: Store, items: seq<Key>, index: nat, i: nat, before: Store, after: Store, env: Env)
    requires index <= i < |items|
    requires before == ProcessAll(s0, items[index..i], env)
    requires after == RegionStore.CreateRegionReferral(before, items[i], env).0
    ensures after == ProcessAll(s0, items[index..i + 1], env)
  {
    SliceSnoc(items, index, i);
    ProcessAllSnoc(s0, items[index..i], items[i], env);
  }

  class RegionService {
    /** The region, region pending-item and region blacklist-item collections. */
    var regions: map<string, seq<string>>
    var pending: map<Key, nat>
    var blacklist: set<Key>
    /** `isQueueRunning`: a drain is in progress. */
    var isQueueRunning: bool
    /** `browser !== null`: a browser session is open. */
    var browserOpen: bool

    function State(): Store
      reads this
    {
      Store(regions, Queues(pending, blacklist))
    }

    /** The service starts idle, with no browser, over the store's current collections. */
    constructor (regions0: map<string, seq<string>>, pending0: map<Key, nat>, blacklist0: set<Key>)
      ensures State() == Store(regions0, Queues(pending0, blacklist0))
      ensures !isQueueRunning && !browserOpen
    {
      regions, pending, blacklist := regions0, pending0, blacklist0;
      isQueueRunning, browserOpen := false, false;
    }

    /** `getReferralFromRegion`: NotFound for an unknown region or one with no
        advocates; otherwise one of its advocates, chosen at random. */
    method GetReferralFromRegion(region: string) returns (r: Result<string>)
      ensures r.Err? <==> region !in regions || |regions[region]| == 0
      ensures r.Err? ==> r.error == NotFound
      ensures r.Ok? ==> r.value in regions[region]
    {
      if region !in regions {
        return Err(NotFound);
      }
      var advocates := regions[region];
      if |advocates| == 0 {
        return Err(NotFound);
      }
      var winner :| 0 <= winner < |advocates|;
      return Ok(advocates[winner]);
    }

    /** `isDuplicatedAdvocate`: gather the advocates of every region, in the
        order the store lists the regions, and look the advocate up. */
    method IsDuplicatedAdvocate(advocate: string) returns (duplicated: bool)
      ensures duplicated == IsDuplicated(regions, advocate)
    {
      var order := Enumerate(regions.Keys);
      var advocates := Concat(regions, order);
      duplicated := advocate in advocates;
    }

    /** `addRegionReferralToQueue`. */
    method AddRegionReferralToQueue(advocate: string, region: string) returns (r: Result<()>)
      modifies `pending
      ensures (State(), r) == Enqueue(old(State()), Key(region, advocate))
    {
      var k := Key(region, advocate);
      if k in pending {
        return Err(Conflict);
      }
      if k in blacklist {
        return Err(UnprocessableEntity);
      }
      var duplicated := IsDuplicatedAdvocate(advocate);
      if duplicated {
        return Err(Conflict);
      }
      pending := pending[k := 0];
      return Ok(());
    }

    /** `increaseAttemptsOrBlacklist` of the region service. */
    method IncreaseAttemptsOrBlacklist(k: Key)
      modifies `pending, `blacklist
      ensures Queues(pending, blacklist) == AfterUnknownFailure(old(Queues(pending, blacklist)), k, MaxPendingAttempts)
    {
      if k !in pending {
        pending := pending[k := 0];
        return;
      }
      if pending[k] < MaxPendingAttempts {
        pending := pending[k := pending[k] + 1];
        return;
      }
      blacklist := blacklist + {k};
    }

    /** `getToDeviceInfoPage`: opens the browser if needed and visits the
        referral path. */
    method GetToDeviceInfoPage(path: string, env: Env) returns (landing: Landing)
      modifies `browserOpen
      ensures browserOpen
      ensures landing == DeviceInfoPage(path, env.devicePage(path))
    {
      browserOpen := true;
      match env.devicePage(path)
      case Thrown =>
        landing := Failed;
      case Landed(currentUrl, finalUrl) =>
        if !Contains(currentUrl, path) {
          landing := Sentinel;
        } else {
          landing := Url(finalUrl);
        }
    }

    /** `validateRegionReferral`: the returned text, sentinel included, is
        searched for the path. */
    method ValidateRegionReferral(k: Key, env: Env) returns (valid: bool)
      modifies `pending, `blacklist, `browserOpen
      ensures (State(), valid) == Validate(old(State()), k, env)
      ensures browserOpen
    {
      var path := ReferralPath(k.advocate);
      var landing := GetToDeviceInfoPage(path, env);
      if landing.Failed? {
        IncreaseAttemptsOrBlacklist(k);
        return false;
      }
      var newUrl := if landing.Sentinel? then InvalidLinkText else landing.url;
      if !Contains(newUrl, path) {
        blacklist := blacklist + {k};
        pending := pending - {k};
        return false;
      }
      return true;
    }

    /** `createRegionReferral`: Ok when the advocate was listed under the region. */
    method CreateRegionReferral(k: Key, env: Env) returns (r: Result<()>)
      modifies `regions, `pending, `blacklist, `browserOpen
      ensures (State(), r) == RegionStore.CreateRegionReferral(old(State()), k, env)
      ensures browserOpen == (old(browserOpen) || r != Err(Conflict))
    {
      var duplicated := IsDuplicatedAdvocate(k.advocate);
      if duplicated {
        blacklist := blacklist + {k};
        pending := pending - {k};
        return Err(Conflict);
      }
      var valid := ValidateRegionReferral(k, env);
      if !valid {
        return Err(NotFound);
      }
      if k.target !in regions {
        regions := regions[k.target := [k.advocate]];
      } else {
        regions := regions[k.target := AddToSet(regions[k.target], k.advocate)];
      }
      pending := pending - {k};
      blacklist := blacklist - {k};
      return Ok(());
    }

    /** `moveRegionPendingItem`: the item's failure is caught and dropped. */
    method MoveRegionPendingItem(k: Key, env: Env)
      modifies `regions, `pending, `blacklist, `browserOpen
      ensures State() == RegionStore.CreateRegionReferral(old(State()), k, env).0
      ensures old(browserOpen) ==> browserOpen
    {
      var _ := CreateRegionReferral(k, env);
    }

    /** One iteration of the `moveRegionItems` loop: the item at `i` is drained. */
    method DrainOne(items: seq<Key>, index: nat, i: nat, ghost s0: Store, env: Env)
      requires index <= i < |items|
      requires State() == ProcessAll(s0, items[index..i], env)
      modifies `regions, `pending, `blacklist, `browserOpen
      ensures State() == ProcessAll(s0, items[index..i + 1], env)
      ensures old(browserOpen) ==> browserOpen
    {
      ghost var before := State();
      MoveRegionPendingItem(items[i], env);
      DrainStep(s0, items, index, i, before, State(), env);
    }

    /** `moveRegionItems`: the items from `index` on, one after the other; an
        index past the end does nothing. */
    method MoveRegionItems(items: seq<Key>, index: nat, env: Env)
      modifies `regions, `pending, `blacklist, `browserOpen
      ensures index >= |items| ==> State() == old(State()) && browserOpen == old(browserOpen)
      ensures index < |items| ==> State() == ProcessAll(old(State()), items[index..], env)
    {
      if index >= |items| {
        return;
      }
      ghost var s0 := State();
      NothingDrained(s0, items, index, env);
      var i := index;
      while i < |items|
        invariant index <= i <= |items|
        invariant State() == ProcessAll(s0, items[index..i], env)
      {
        DrainOne(items, index, i, s0, env);
        i := i + 1;
      }
      assert items[index..i] == items[index..];
    }

    /** `moveRegionQueue`: a call during a drain returns at once; otherwise
        the pending collection is snapshotted, drained in snapshot order, the
        browser closed and the guard released. */
    method MoveRegionQueue(env: Env) returns (ghost snapshot: seq<Key>)
      modifies this
      ensures old(isQueueRunning) ==> State() == old(State()) && isQueueRunning && browserOpen == old(browserOpen)
      ensures !old(isQueueRunning) ==>
        && Distinct(snapshot)
        && (forall k :: k in snapshot <==> k in old(pending))
        && State() == ProcessAll(old(State()), snapshot, env)
        && !isQueueRunning && !browserOpen
      ensures RegionStore.Valid(old(State())) ==> RegionStore.Valid(State())
    {
      if isQueueRunning {
        snapshot := [];
        return;
      }
      isQueueRunning := true;
      var pendingItems := Enumerate(pending.Keys);
      MoveRegionItems(pendingItems, 0, env);
      browserOpen := false;
      isQueueRunning := false;
      snapshot := pendingItems;
      if RegionStore.Valid(old(State())) {
        ProcessAllKeepsValid(old(State()), snapshot, env);
      }
    }
  }
}
