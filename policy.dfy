/** The pending/blacklist transitions both referral services apply, with the
    attempt ceiling as a parameter (10 for apps, 30 for regions). */
module RetryPolicy {
  import opened Common

  /** The pending collection (key to attempts) and the blacklist collection. */
  datatype Queues = Queues(pending: map<Key, nat>, blacklist: set<Key>)

  /** `increaseAttemptsOrBlacklist`: a missing pending record is created with
      the schema default of 0 attempts; below the ceiling the attempts are
      incremented; at the ceiling the key is upserted into the blacklist and
      the pending record is left where it is. */
  function AfterUnknownFailure(q: Queues, k: Key, max: nat): (r: Queues)
    ensures k in r.pending
    ensures r.pending.Keys == q.pending.Keys + {k}
    ensures k !in q.pending ==> r.pending[k] == 0 && r.blacklist == q.blacklist
    ensures k in q.pending && q.pending[k] < max ==> r.pending[k] == q.pending[k] + 1 && r.blacklist == q.blacklist
    ensures k in q.pending && q.pending[k] >= max ==> r.pending == q.pending && r.blacklist == q.blacklist + {k}
    ensures Untouched(q, r, k)
  {
    if k !in q.pending then q.(pending := q.pending[k := 0])
    else if q.pending[k] < max then q.(pending := q.pending[k := q.pending[k] + 1])
    else q.(blacklist := q.blacklist + {k})
  }

  /** A definitive failure: upsert the blacklist item and delete the pending one. */
  function MoveToBlacklist(q: Queues, k: Key): (r: Queues)
    ensures k !in r.pending && k in r.blacklist
    ensures Untouched(q, r, k)
  {
    Queues(q.pending - {k}, q.blacklist + {k})
  }

  /** A successful link: delete the pending item and the blacklist item if they exist. */
  function Settle(q: Queues, k: Key): (r: Queues)
    ensures k !in r.pending && k !in r.blacklist
    ensures Untouched(q, r, k)
  {
    Queues(q.pending - {k}, q.blacklist - {k})
  }

  /** Every key other than `k` has the same pending record and blacklist
      membership in `q` and `r`. */
  ghost predicate Untouched(q: Queues, r: Queues, k: Key) {
    forall k' :: k' != k ==> Same(q, r, k')
  }

  ghost predicate Same(q: Queues, r: Queues, k: Key) {
    && (k in r.pending <==> k in q.pending)
    && (k in q.pending ==> r.pending[k] == q.pending[k])
    && (k in r.blacklist <==> k in q.blacklist)
  }

  /** No pending record has more attempts than the ceiling. */
  ghost predicate AttemptsBounded(q: Queues, max: nat) {
    forall k :: k in q.pending ==> q.pending[k] <= max
  }

  /** The retry policy never takes the attempts past the ceiling, and never
      lowers them. */
  lemma UnknownFailureBounded(q: Queues, k: Key, max: nat)
    requires AttemptsBounded(q, max)
    ensures AttemptsBounded(AfterUnknownFailure(q, k, max), max)
    ensures k in q.pending ==> AfterUnknownFailure(q, k, max).pending[k] >= q.pending[k]
  {
  }

  /** `n` consecutive unknown failures of the same key. */
  function UnknownFailures(q: Queues, k: Key, max: nat, n: nat): Queues {
    if n == 0 then q else AfterUnknownFailure(UnknownFailures(q, k, max, n - 1), k, max)
  }

  /** From a fresh pending record, the n-th consecutive failure sets the
      attempts to n while n is at most the ceiling; every later failure
      blacklists the key and leaves its pending record at the ceiling, so
      the key is then both pending and blacklisted. */
  lemma {:induction false} ConsecutiveFailures(q: Queues, k: Key, max: nat, n: nat)
    requires k in q.pending && q.pending[k] == 0 && k !in q.blacklist
    ensures var r := UnknownFailures(q, k, max, n);
      && k in r.pending
      && (n <= max ==> r.pending[k] == n && k !in r.blacklist)
      && (n > max ==> r.pending[k] == max && k in r.blacklist)
  {
    if n > 0 {
      ConsecutiveFailures(q, k, max, n - 1);
    }
  }

  /** Resurrection (`restartBlacklistQueue`): every blacklisted key gets a
      pending record with 0 attempts and the blacklist is emptied. A
      blacklisted key that is still pending (left there by the ceiling)
      breaks the pending collection's unique index: the bulk insert is
      rejected, the records that do not clash are inserted, and the
      blacklist is never cleared. */
  function Resurrect(q: Queues): (r: (Queues, Result<()>))
    ensures r.1.Ok? <==> q.blacklist !! q.pending.Keys
    ensures r.1.Err? ==> r.1.error == DuplicateKey && r.0.blacklist == q.blacklist
    ensures r.1.Ok? ==> r.0.blacklist == {}
    ensures r.0.pending.Keys == q.pending.Keys + q.blacklist
    ensures forall k :: k in q.pending ==> r.0.pending[k] == q.pending[k]
    ensures forall k :: k in q.blacklist && k !in q.pending ==> r.0.pending[k] == 0
  {
    var inserted := q.pending + map k | k in q.blacklist && k !in q.pending :: 0;
    if q.blacklist !! q.pending.Keys then (Queues(inserted, {}), Ok(()))
    else (Queues(inserted, q.blacklist), Err(DuplicateKey))
  }

  /** When the two collections are disjoint, resurrection turns every
      blacklisted key into a pending key with 0 attempts. */
  lemma ResurrectRevives(q: Queues, k: Key)
    requires q.blacklist !! q.pending.Keys
    requires k in q.blacklist
    ensures var r := Resurrect(q).0; k in r.pending && r.pending[k] == 0 && k !in r.blacklist
  {
  }

  /** After the ceiling has blacklisted a still-pending key, resurrection
      fails and the key stays blacklisted with its attempts at the ceiling. */
  lemma ResurrectAfterCeiling(q: Queues, k: Key, max: nat)
    requires k in q.pending && q.pending[k] == 0 && k !in q.blacklist
    ensures var r := Resurrect(UnknownFailures(q, k, max, max + 1));
      && r.1 == Err(DuplicateKey)
      && k in r.0.blacklist
      && r.0.pending[k] == max
  {
    ConsecutiveFailures(q, k, max, max + 1);
  }
}
