/** The region referral store (regions with their advocates, and the region
    pending and blacklist collections) and what each operation of the region
    service does to it. */
module RegionStore {
  import opened Common
  import opened RetryPolicy
  import opened Text
  import opened RegionPage

  /** `MAX_PENDING_ATTEMPTS` of the device module. */
  const MaxPendingAttempts: nat := 30

  /** The region collection (region code to its advocates) and the two queues. */
  datatype Store = Store(regions: map<string, seq<string>>, queues: Queues)

  /** What the referral site answers, for each referral path. */
  datatype Env = Env(devicePage: string -> DevicePage)

  /** No region lists an advocate twice, and no advocate is listed under two regions. */
  ghost predicate UniqueAdvocates(regions: map<string, seq<string>>) {
    && (forall r :: r in regions ==> Distinct(regions[r]))
    && (forall r1, r2, a :: r1 in regions && r2 in regions && a in regions[r1] && a in regions[r2] ==> r1 == r2)
  }

  ghost predicate Valid(s: Store) {
    AttemptsBounded(s.queues, MaxPendingAttempts) && UniqueAdvocates(s.regions)
  }

  /** `isDuplicatedAdvocate`: some region already lists the advocate. */
  predicate IsDuplicated(regions: map<string, seq<string>>, a: string) {
    exists r :: r in regions && a in regions[r]
  }

  /** The `reduce` of `isDuplicatedAdvocate`: the advocates of the regions in
      `order`, concatenated. */
  function Concat(regions: map<string, seq<string>>, order: seq<string>): (all: seq<string>)
    requires forall r :: r in order ==> r in regions
    ensures forall a :: a in all <==> exists r :: r in order && a in regions[r]
  {
    if |order| == 0 then []
    else
      var init := order[..|order| - 1];
      assert forall r :: r in order <==> r in init || r == order[|order| - 1];
      Concat(regions, init) + regions[order[|order| - 1]]
  }

  /** The admission checks of `addRegionReferralToQueue`, in the source's
      order: pending, then blacklisted, then listed under any region. */
  function Admission(s: Store, k: Key): (r: Result<()>)
    ensures r.Ok? <==> k !in s.queues.pending && k !in s.queues.blacklist && !IsDuplicated(s.regions, k.advocate)
    ensures r == Err(UnprocessableEntity) <==> k !in s.queues.pending && k in s.queues.blacklist
  {
    if k in s.queues.pending then Err(Conflict)
    else if k in s.queues.blacklist then Err(UnprocessableEntity)
    else if IsDuplicated(s.regions, k.advocate) then Err(Conflict)
    else Ok(())
  }

  /** `addRegionReferralToQueue`: a new pending item with 0 attempts when admitted. */
  function Enqueue(s: Store, k: Key): (Store, Result<()>) {
    var r := Admission(s, k);
    if r.Ok? then (s.(queues := s.queues.(pending := s.queues.pending[k := 0])), r) else (s, r)
  }

  /** Enqueue fails exactly in the admission cases and changes nothing then;
      otherwise it adds exactly one pending record, with 0 attempts. An
      advocate listed under one region cannot be queued for any region. */
  lemma EnqueueOutcome(s: Store, k: Key)
    ensures var (s', r) := Enqueue(s, k);
      && (r == Err(UnprocessableEntity) <==> k !in s.queues.pending && k in s.queues.blacklist)
      && (r == Err(Conflict) <==>
            k in s.queues.pending || (k !in s.queues.blacklist && IsDuplicated(s.regions, k.advocate)))
      && (r.Err? ==> s' == s)
      && (r.Ok? ==> s'.regions == s.regions && s'.queues.blacklist == s.queues.blacklist &&
                    s'.queues.pending == s.queues.pending[k := 0] && k !in s.queues.pending)
  {
  }

  lemma EnqueueKeepsValid(s: Store, k: Key)
    requires Valid(s)
    ensures Valid(Enqueue(s, k).0)
  {
  }

  /** `validateRegionReferral`, with the classifier as written: an unknown
      error goes to the retry policy, an invalid link to the blacklist. */
  function Validate(s: Store, k: Key, env: Env): (r: (Store, bool))
    ensures r.0.regions == s.regions
    ensures r.1 ==> r.0 == s
    ensures var path := ReferralPath(k.advocate);
      var v := ClassifyAsWritten(path, env.devicePage(path));
      && (r.1 <==> v.Valid?)
      && (v.UnknownError? ==> r.0.queues == AfterUnknownFailure(s.queues, k, MaxPendingAttempts))
      && (v.InvalidLink? ==> r.0.queues == MoveToBlacklist(s.queues, k))
  {
    var path := ReferralPath(k.advocate);
    match ClassifyAsWritten(path, env.devicePage(path))
    case UnknownError => (s.(queues := AfterUnknownFailure(s.queues, k, MaxPendingAttempts)), false)
    case InvalidLink => (s.(queues := MoveToBlacklist(s.queues, k)), false)
    case Valid => (s, true)
  }

  /** Creating the region on first use, or `$addToSet` on its advocates. */
  function Link(regions: map<string, seq<string>>, region: string, a: string): (r: map<string, seq<string>>)
    ensures r.Keys == regions.Keys + {region}
    ensures forall x :: x in r[region] <==> x == a || (region in regions && x in regions[region])
    ensures region !in regions ==> r[region] == [a]
    ensures region in regions ==> regions[region] <= r[region]
    ensures forall id :: id in regions && id != region ==> r[id] == regions[id]
  {
    if region !in regions then regions[region := [a]]
    else regions[region := AddToSet(regions[region], a)]
  }

  /** `createRegionReferral`: an advocate already listed under a region is
      blacklisted for this one at once (Conflict); an invalid link is
      NotFound; otherwise the advocate is listed and both queue items go. */
  function CreateRegionReferral(s: Store, k: Key, env: Env): (Store, Result<()>) {
    if IsDuplicated(s.regions, k.advocate) then
      (s.(queues := MoveToBlacklist(s.queues, k)), Err(Conflict))
    else
      var (s1, valid) := Validate(s, k, env);
      if !valid then (s1, Err(NotFound))
      else (Store(Link(s1.regions, k.target, k.advocate), Settle(s1.queues, k)), Ok(()))
  }

  /** The routing of one pending item, in terms of the page verdict. */
  lemma CreateRegionReferralRouting(s: Store, k: Key, env: Env)
    ensures var (s', r) := CreateRegionReferral(s, k, env);
      var path := ReferralPath(k.advocate);
      var v := ClassifyAsWritten(path, env.devicePage(path));
      && (r == Err(Conflict) <==> IsDuplicated(s.regions, k.advocate))
      && (r == Err(Conflict) ==> s'.regions == s.regions && k in s'.queues.blacklist && k !in s'.queues.pending)
      && (r.Ok? <==> !IsDuplicated(s.regions, k.advocate) && v.Valid?)
      && (r.Ok? ==> k.target in s'.regions && k.advocate in s'.regions[k.target] &&
                    k !in s'.queues.pending && k !in s'.queues.blacklist)
      && (r == Err(NotFound) <==> !IsDuplicated(s.regions, k.advocate) && !v.Valid?)
      && (r == Err(NotFound) ==> s'.regions == s.regions)
      && (v.InvalidLink? && r.Err? ==> k in s'.queues.blacklist && k !in s'.queues.pending)
      && (v.UnknownError? && !IsDuplicated(s.regions, k.advocate) ==>
            r == Err(NotFound) && s'.regions == s.regions &&
            s'.queues == AfterUnknownFailure(s.queues, k, MaxPendingAttempts))
  {
  }

  /** The defect seen from the store: an unlisted advocate whose link leaves
      its path, but whose path the sentinel contains, is listed under the
      region and both queue items go, although the intended classifier calls
      the link invalid. */
  lemma SentinelLinkListed(s: Store, k: Key, env: Env)
    requires !IsDuplicated(s.regions, k.advocate)
    requires env.devicePage(ReferralPath(k.advocate)).Landed?
    requires !Contains(env.devicePage(ReferralPath(k.advocate)).currentUrl, ReferralPath(k.advocate))
    requires Contains(InvalidLinkText, ReferralPath(k.advocate))
    ensures Classify(ReferralPath(k.advocate), env.devicePage(ReferralPath(k.advocate))) == InvalidLink
    ensures var (s', r) := CreateRegionReferral(s, k, env);
      && r == Ok(())
      && k.target in s'.regions && k.advocate in s'.regions[k.target]
      && k !in s'.queues.pending && k !in s'.queues.blacklist
  {
  }

  /** The input of the defect: the accepted id `title` with a link that
      leaves `/title` is listed under the region. */
  lemma DeadTitleLinkListed(s: Store, region: string, env: Env)
    requires !IsDuplicated(s.regions, "title")
    requires env.devicePage(ReferralPath("title")).Landed?
    requires !Contains(env.devicePage(ReferralPath("title")).currentUrl, ReferralPath("title"))
    ensures var (s', r) := CreateRegionReferral(s, Key(region, "title"), env);
      r == Ok(()) && region in s'.regions && "title" in s'.regions[region]
  {
    SentinelPaths("title");
    SentinelLinkListed(s, Key(region, "title"), env);
  }

  /** One step touches no other pair's queue items and no other region. */
  lemma CreateRegionReferralLocal(s: Store, k: Key, env: Env)
    ensures var s' := CreateRegionReferral(s, k, env).0;
      && Untouched(s.queues, s'.queues, k)
      && forall id :: id != k.target ==> (id in s'.regions <==> id in s.regions) && (id in s.regions ==> s'.regions[id] == s.regions[id])
  {
  }

  /** One step keeps the store invariant; in particular an advocate never
      ends up under two regions. */
  lemma CreateRegionReferralKeepsValid(s: Store, k: Key, env: Env)
    requires Valid(s)
    ensures Valid(CreateRegionReferral(s, k, env).0)
  {
    var (s', r) := CreateRegionReferral(s, k, env);
    if r.Ok? {
      var (s1, _) := Validate(s, k, env);
      assert s1 == s;
      assert !IsDuplicated(s.regions, k.advocate);
      forall r1, r2, a | r1 in s'.regions && r2 in s'.regions && a in s'.regions[r1] && a in s'.regions[r2]
        ensures r1 == r2
      {
      }
      forall id | id in s'.regions ensures Distinct(s'.regions[id]) {
        if id != k.target {
          assert s'.regions[id] == s.regions[id];
        }
      }
    }
  }

  /** `moveRegionItems`: the items in order, each one's failure caught. */
  function ProcessAll(s: Store, items: seq<Key>, env: Env): Store
    decreases |items|
  {
    if |items| == 0 then s
    else ProcessAll(CreateRegionReferral(s, items[0], env).0, items[1..], env)
  }

  /** Processing one more item at the end of a drain is one more step. */
  lemma {:induction false} ProcessAllSnoc(s: Store, items: seq<Key>, x: Key, env: Env)
    ensures ProcessAll(s, items + [x], env) == CreateRegionReferral(ProcessAll(s, items, env), x, env).0
    decreases |items|
  {
    if |items| == 0 {
      assert items + [x] == [x] && [x][1..] == [];
    } else {
      assert (items + [x])[0] == items[0] && (items + [x])[1..] == items[1..] + [x];
      ProcessAllSnoc(CreateRegionReferral(s, items[0], env).0, items[1..], x, env);
    }
  }

  /** A drain keeps the store invariant. */
  lemma {:induction false} ProcessAllKeepsValid(s: Store, items: seq<Key>, env: Env)
    requires Valid(s)
    ensures Valid(ProcessAll(s, items, env))
    decreases |items|
  {
    if |items| > 0 {
      CreateRegionReferralKeepsValid(s, items[0], env);
      ProcessAllKeepsValid(CreateRegionReferral(s, items[0], env).0, items[1..], env);
    }
  }

  /** A drain leaves the queue items of every pair outside its snapshot as they were. */
  lemma {:induction false} ProcessAllLocal(s: Store, items: seq<Key>, env: Env, k: Key)
    requires k !in items
    ensures Same(s.queues, ProcessAll(s, items, env).queues, k)
    decreases |items|
  {
    if |items| > 0 {
      var next := CreateRegionReferral(s, items[0], env).0;
      CreateRegionReferralLocal(s, items[0], env);
      assert Same(s.queues, next.queues, k);
      assert k !in items[1..];
      ProcessAllLocal(next, items[1..], env, k);
    }
  }

  /** One step on a pending pair: it leaves pending, is blacklisted, or has
      one more attempt. */
  lemma CreateRegionReferralProgress(s: Store, k: Key, env: Env)
    requires k in s.queues.pending
    ensures var s' := CreateRegionReferral(s, k, env).0;
      k !in s'.queues.pending || k in s'.queues.blacklist || s'.queues.pending[k] == s.queues.pending[k] + 1
  {
  }

  /** Every pair of a drain's snapshot makes progress: it leaves the pending
      collection, or is blacklisted, or has more attempts than before. */
  lemma {:induction false} ProcessAllProgress(s: Store, items: seq<Key>, env: Env, k: Key)
    requires Distinct(items)
    requires k in items && k in s.queues.pending
    ensures var s' := ProcessAll(s, items, env);
      k !in s'.queues.pending || k in s'.queues.blacklist || s'.queues.pending[k] > s.queues.pending[k]
    decreases |items|
  {
    var next := CreateRegionReferral(s, items[0], env).0;
    var rest := items[1..];
    assert ProcessAll(s, items, env) == ProcessAll(next, rest, env);
    if items[0] == k {
      assert k !in rest by {
        forall i | 0 <= i < |rest| ensures rest[i] != k {
          assert rest[i] == items[i + 1];
        }
      }
      CreateRegionReferralProgress(s, k, env);
      ProcessAllLocal(next, rest, env, k);
    } else {
      assert k in rest;
      assert Distinct(rest) by {
        forall i, j | 0 <= i < j < |rest| ensures rest[i] != rest[j] {
          assert rest[i] == items[i + 1] && rest[j] == items[j + 1];
        }
      }
      CreateRegionReferralLocal(s, items[0], env);
      assert Same(s.queues, next.queues, k);
      ProcessAllProgress(next, rest, env, k);
    }
  }

  /** A drain never unlists an advocate: every listed advocate stays under its region. */
  lemma {:induction false} ProcessAllKeepsListed(s: Store, items: seq<Key>, env: Env, region: string, a: string)
    requires region in s.regions && a in s.regions[region]
    ensures var s' := ProcessAll(s, items, env); region in s'.regions && a in s'.regions[region]
    decreases |items|
  {
    if |items| > 0 {
      var k := items[0];
      var next := CreateRegionReferral(s, k, env).0;
      assert region in next.regions && a in next.regions[region] by {
        CreateRegionReferralLocal(s, k, env);
        if region == k.target && !IsDuplicated(s.regions, k.advocate) && Validate(s, k, env).1 {
          assert next.regions == Link(s.regions, k.target, k.advocate);
        }
      }
      ProcessAllKeepsListed(next, items[1..], env, region, a);
    }
  }
}
