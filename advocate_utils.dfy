/** The advocate module's copy of the advocate id validator. */
module AdvocateUtils {
  import opened Patterns
  import AppUtils

  /** `AdvocateIdConstraint.validate` of the advocate module: the same two
      regular expressions as the app module's validator. */
  predicate ValidAdvocateId(advocateId: string) {
    HasLengthAndOnlyValidChars(advocateId) && !HasDoubleDashOrUnderscore(advocateId)
  }

  /** The exact characterisation of an accepted advocate id. */
  lemma ValidAdvocateIdIff(s: string)
    ensures ValidAdvocateId(s) <==>
      && |s| >= 2
      && IsAlnum(s[0])
      && (forall i :: 1 <= i < |s| ==> IsTailChar(s[i]))
      && !(exists i :: DashPairAt(s, i))
  {
    AppUtils.ValidAdvocateIdIff(s);
  }

  /** Both copies of the validator accept the same ids. */
  lemma AgreesWithAppUtils(s: string)
    ensures ValidAdvocateId(s) <==> AppUtils.ValidAdvocateId(s)
  {
  }

  /** The vectors of the advocate module's unit tests, through the agreement
      with the app module's copy. */
  lemma AdvocateIdVectors()
    ensures ValidAdvocateId("1-true_exampleuser") && ValidAdvocateId("maybe-good-gal")
    ensures ValidAdvocateId("cant.stop.me.now")
    ensures !ValidAdvocateId("1") && !ValidAdvocateId("a") && !ValidAdvocateId("take/this/fail")
    ensures !ValidAdvocateId("double__under__fail") && !ValidAdvocateId("double--dash--fail")
    ensures !ValidAdvocateId("fail space user") && !ValidAdvocateId("probablygood?user")
    ensures !ValidAdvocateId("https://www.meta.com/appreferrals/example.user/1241241241241241/?utm_source=3")
    ensures !ValidAdvocateId("maybe-evil/not-great-user")
  {
    AppUtils.AdvocateIdAccepted();
    AppUtils.AdvocateIdRejected();
    RejectedUrlVector();
  }

  /** The URL vector: the `=` of its query string is not a tail character. */
  lemma RejectedUrlVector()
    ensures !ValidAdvocateId("https://www.meta.com/appreferrals/example.user/1241241241241241/?utm_source=3")
  {
    AppUtils.RejectedChar("https://www.meta.com/appreferrals/example.user/1241241241241241/?utm_source=3", 75);
  }
}
