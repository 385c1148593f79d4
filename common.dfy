/** Value types shared by the app and the region referral services. */
module Common {

  datatype Option<T> = None | Some(value: T)

  /** The exceptions the services raise to their callers, plus the store's
      duplicate-key rejection (unique index on a pending item's key). */
  datatype Failure = Conflict | UnprocessableEntity | NotFound | DuplicateKey

  datatype Result<T> = Ok(value: T) | Err(error: Failure)

  /** The key of a pending or blacklist item: the target (an app id or a
      region code) and the advocate id. Both collections are unique on it. */
  datatype Key = Key(target: string, advocate: string)

  /** A falsy JavaScript value among `undefined`, `true` and `false`. */
  predicate Falsy(b: Option<bool>) {
    b.None? || b == Some(false)
  }

  /** No element occurs twice. */
  predicate Distinct<T(==)>(s: seq<T>) {
    forall i, j :: 0 <= i < j < |s| ==> s[i] != s[j]
  }

  /** A slice grows by one element at its end. */
  lemma SliceSnoc<T>(s: seq<T>, lo: nat, hi: nat)
    requires lo <= hi < |s|
    ensures s[lo..hi + 1] == s[lo..hi] + [s[hi]]
  {
  }

  /** Mongo's `$addToSet` on an array field: append unless already present. */
  function AddToSet(advocates: seq<string>, a: string): (r: seq<string>)
    ensures forall x :: x in r <==> x in advocates || x == a
    ensures Distinct(advocates) ==> Distinct(r)
    ensures advocates <= r
  {
    if a in advocates then advocates else advocates + [a]
  }
}
