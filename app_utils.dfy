/** The identifier validators of the app module. */
module AppUtils {
  import opened Patterns

  /** `AppIdConstraint.validate`: the id matches `^[0-9]+$`. */
  predicate ValidAppId(appId: string) {
    |appId| > 0 && AllDigits(appId)
  }

  /** `AdvocateIdConstraint.validate`: the shape regex matches and there is
      no run of dashes or underscores. */
  predicate ValidAdvocateId(advocateId: string) {
    HasLengthAndOnlyValidChars(advocateId) && !HasDoubleDashOrUnderscore(advocateId)
  }

  /** An app id is accepted exactly when it is non-empty and all ASCII digits. */
  lemma ValidAppIdIffDigits(appId: string)
    ensures ValidAppId(appId) <==> |appId| > 0 && forall i :: 0 <= i < |appId| ==> IsDigit(appId[i])
  {
    AllDigitsChars(appId);
  }

  /** The exact characterisation of an accepted advocate id: at least two
      characters, an alphanumeric first one, tail characters after it, and
      no two adjacent characters drawn from `-` and `_`. No upper bound on
      the length. */
  lemma ValidAdvocateIdIff(s: string)
    ensures ValidAdvocateId(s) <==>
      && |s| >= 2
      && IsAlnum(s[0])
      && (forall i :: 1 <= i < |s| ==> IsTailChar(s[i]))
      && !(exists i :: DashPairAt(s, i))
  {
    DoubleDashOrUnderscoreAt(s);
    if |s| >= 2 {
      AllTailCharsChars(s[1..]);
      assert forall i :: 1 <= i < |s| ==> s[i] == s[1..][i - 1];
    }
  }

  /** Ids of any length from two up are accepted: the "2 to 20 characters"
      rule in the test comments is not enforced. */
  lemma NoUpperLengthBound(n: nat)
    requires n >= 2
    ensures ValidAdvocateId(seq(n, _ => 'a'))
  {
    var s := seq(n, _ => 'a');
    ValidAdvocateIdIff(s);
  }

  /** The app id vectors of the unit tests. */
  lemma AppIdVectors()
    ensures ValidAppId("123523523")
    ensures !ValidAppId("m1241241m") && !ValidAppId("1a") && !ValidAppId("a")
    ensures !ValidAppId("cant.stop.me.now") && !ValidAppId("take/this/fail")
    ensures !ValidAppId("double__under__fail") && !ValidAppId("double--dash--fail")
    ensures !ValidAppId("fail space user")
    ensures !ValidAppId("https://www.oculus.com/appreferrals/example.user/1241241241241241/?utm_source=3")
    ensures !ValidAppId("maybe-evil/not-great-user") && !ValidAppId("probablygood?user")
  {
    ValidAppIdIffDigits("123523523");
    AppIdRejectedUrl();
  }

  lemma AppIdRejectedUrl()
    ensures !ValidAppId("https://www.oculus.com/appreferrals/example.user/1241241241241241/?utm_source=3")
  {
    NonDigitRejected("https://www.oculus.com/appreferrals/example.user/1241241241241241/?utm_source=3", 77);
  }

  /** A non-digit anywhere rejects an app id. */
  lemma NonDigitRejected(s: string, i: nat)
    requires i < |s| && !IsDigit(s[i])
    ensures !ValidAppId(s)
  {
    ValidAppIdIffDigits(s);
  }

  /** The accepted advocate id vectors of the unit tests. */
  lemma AdvocateIdAccepted()
    ensures ValidAdvocateId("1-true_exampleuser")
    ensures ValidAdvocateId("maybe-good-gal")
    ensures ValidAdvocateId("cant.stop.me.now")
  {
    AcceptedVector1();
    AcceptedVector2();
    AcceptedVector3();
  }

  lemma AcceptedVector1() ensures ValidAdvocateId("1-true_exampleuser") { Accepted("1-true_exampleuser"); }
  lemma AcceptedVector2() ensures ValidAdvocateId("maybe-good-gal") { Accepted("maybe-good-gal"); }
  lemma AcceptedVector3() ensures ValidAdvocateId("cant.stop.me.now") { Accepted("cant.stop.me.now"); }

  /** The rejected advocate id vectors of the unit tests: too short, a
      character outside the tail class, or a run of dashes or underscores. */
  lemma AdvocateIdRejected()
    ensures !ValidAdvocateId("1") && !ValidAdvocateId("a")
    ensures !ValidAdvocateId("take/this/fail")
    ensures !ValidAdvocateId("double__under__fail")
    ensures !ValidAdvocateId("double--dash--fail")
    ensures !ValidAdvocateId("fail space user")
    ensures !ValidAdvocateId("maybe-evil/not-great-user")
    ensures !ValidAdvocateId("probablygood?user")
  {
    RejectedVector1();
    RejectedVector2();
    RejectedVector3();
    RejectedVector4();
    RejectedVector5();
    RejectedVector6();
  }

  lemma RejectedVector1() ensures !ValidAdvocateId("take/this/fail") { RejectedChar("take/this/fail", 4); }
  lemma RejectedVector2() ensures !ValidAdvocateId("double__under__fail") { RejectedRun("double__under__fail", 6); }
  lemma RejectedVector3() ensures !ValidAdvocateId("double--dash--fail") { RejectedRun("double--dash--fail", 6); }
  lemma RejectedVector4() ensures !ValidAdvocateId("fail space user") { RejectedChar("fail space user", 4); }
  lemma RejectedVector5() ensures !ValidAdvocateId("maybe-evil/not-great-user") { RejectedChar("maybe-evil/not-great-user", 10); }
  lemma RejectedVector6() ensures !ValidAdvocateId("probablygood?user") { RejectedChar("probablygood?user", 12); }

  /** A URL is not an advocate id: its sixth character, `:`, is not a tail character. */
  lemma RejectedUrl(url: string)
    requires |url| > 5 && url[5] == ':'
    ensures !ValidAdvocateId(url)
  {
    RejectedChar(url, 5);
  }

  lemma Accepted(s: string)
    requires |s| >= 2 && IsAlnum(s[0])
    requires forall i :: 1 <= i < |s| ==> IsTailChar(s[i])
    requires forall i :: !DashPairAt(s, i)
    ensures ValidAdvocateId(s)
  {
    ValidAdvocateIdIff(s);
  }

  lemma RejectedChar(s: string, i: nat)
    requires 1 <= i < |s| && !IsTailChar(s[i])
    ensures !ValidAdvocateId(s)
  {
    ValidAdvocateIdIff(s);
  }

  lemma RejectedRun(s: string, i: nat)
    requires DashPairAt(s, i)
    ensures !ValidAdvocateId(s)
  {
    ValidAdvocateIdIff(s);
  }
}
