/** How the app service reads the pages its browser loads: the invalid-link
    test, the name extraction and the platform availability rule. */
module AppPage {
  import opened Common
  import opened Text

  /** The text around the app name on a referral page:
      `(?<=Get\ 25%\ off\ )(.*?)(?= \| Meta Quest)`. */
  const NamePrefix: string := "Get 25% off "
  const NameSuffix: string := " | Meta Quest"

  /** The marker `/INVALID LINK/` of a referral page that was not found. */
  const InvalidPageMarker: string := "INVALID LINK"

  const PlatformBaseUrl: string := "https://www.oculus.com/experiences"

  /** The title of the page shown for an id that is not in the platform's catalog. */
  const UnavailableTitle: string := "<title id=\"pageTitle\">OK | Oculus</title>"

  datatype Platform = Quest | Rift

  function PlatformName(p: Platform): string {
    match p
    case Quest => "quest"
    case Rift => "rift"
  }

  /** What one navigation of the browser gives: the URL it ended on and the
      page content, or an exception (timeout, network, browser launch). */
  datatype PageResult = Loaded(url: string, content: string) | Thrown

  /** The referral path `/${advocate_id}/${app_id}`. */
  function ReferralPath(k: Key): string {
    "/" + k.advocate + "/" + k.target
  }

  /** The page is an invalid link: the browser left the requested path and
      the page carries the invalid-link marker. */
  predicate IsInvalidPage(path: string, url: string, content: string) {
    !Contains(url, path) && Contains(content, InvalidPageMarker)
  }

  /** `getToAppInfoPage`: the sentinel text for an invalid page, otherwise the
      page content; `None` when the navigation throws. */
  function AppInfoPage(path: string, page: PageResult, sentinel: string): (r: Option<string>)
    ensures r.None? <==> page.Thrown?
    ensures page.Loaded? && IsInvalidPage(path, page.url, page.content) ==> r == Some(sentinel)
    ensures page.Loaded? && !IsInvalidPage(path, page.url, page.content) ==> r == Some(page.content)
  {
    match page
    case Thrown => None
    case Loaded(url, content) => Some(if IsInvalidPage(path, url, content) then sentinel else content)
  }

  /** `.` of a JavaScript regular expression matches anything but these. */
  predicate IsLineTerminator(c: char) {
    c == '\n' || c == '\r' || c == '\U{2028}' || c == '\U{2029}'
  }

  predicate NoTerminator(s: string, lo: nat, hi: nat)
    requires lo <= hi <= |s|
  {
    forall m :: lo <= m < hi ==> !IsLineTerminator(s[m])
  }

  /** `s[p..q]` is a name: the prefix ends at `p`, the suffix starts at `q`,
      and no line terminator lies between. */
  ghost predicate NameAt(s: string, p: nat, q: nat) {
    && p <= q <= |s|
    && EndsWith(s[..p], NamePrefix)
    && StartsWith(s[q..], NameSuffix)
    && NoTerminator(s, p, q)
  }

  /** The lazy `(.*?)` followed by the lookahead: the first `q >= j` at which
      the suffix starts, scanning no further than a line terminator. */
  function LazyEnd(s: string, j: nat): (r: Option<nat>)
    requires j <= |s|
    decreases |s| - j
    ensures r.Some? ==> j <= r.value <= |s| && StartsWith(s[r.value..], NameSuffix) && NoTerminator(s, j, r.value)
    ensures r.Some? ==> forall q :: j <= q < r.value ==> !StartsWith(s[q..], NameSuffix)
    ensures r.None? ==> forall q :: j <= q <= |s| && NoTerminator(s, j, q) ==> !StartsWith(s[q..], NameSuffix)
  {
    if StartsWith(s[j..], NameSuffix) then Some(j)
    else if j < |s| && !IsLineTerminator(s[j]) then LazyEnd(s, j + 1)
    else None
  }

  /** `s[p..q]` is the first match from `i` on: no name starts between `i`
      and `p`, and none from `p` ends before `q`. */
  ghost predicate FirstNameAt(s: string, i: nat, p: nat, q: nat) {
    && i <= p
    && NameAt(s, p, q)
    && (forall p': nat, q': nat :: i <= p' < p ==> !NameAt(s, p', q'))
    && (forall q': nat :: q' < q ==> !NameAt(s, p, q'))
  }

  /** The regex engine's scan: the leftmost start `p >= i` whose lookbehind
      holds and from which the lazy group reaches the lookahead, ended at the
      first place the lookahead holds. */
  function MatchFrom(s: string, i: nat): (r: Option<string>)
    requires i <= |s|
    decreases |s| - i
    ensures r.Some? ==> exists p: nat, q: nat :: FirstNameAt(s, i, p, q) && r.value == s[p..q]
    ensures r.None? ==> forall p: nat, q: nat :: i <= p ==> !NameAt(s, p, q)
  {
    var end := LazyEnd(s, i);
    if EndsWith(s[..i], NamePrefix) && end.Some? then
      MatchHere(s, i);
      Some(s[i..end.value])
    else
      NoMatchHere(s, i);
      if i < |s| then
        SkipStart(s, i);
        MatchFrom(s, i + 1)
      else None
  }

  lemma MatchHere(s: string, i: nat)
    requires i <= |s| && EndsWith(s[..i], NamePrefix) && LazyEnd(s, i).Some?
    ensures FirstNameAt(s, i, i, LazyEnd(s, i).value)
  {
  }

  lemma NoMatchHere(s: string, i: nat)
    requires i <= |s| && !(EndsWith(s[..i], NamePrefix) && LazyEnd(s, i).Some?)
    ensures forall q: nat :: !NameAt(s, i, q)
  {
  }

  /** A start with no name in front does not change which match is first. */
  lemma SkipStart(s: string, i: nat)
    requires forall q: nat :: !NameAt(s, i, q)
    ensures forall p: nat, q: nat :: FirstNameAt(s, i + 1, p, q) ==> FirstNameAt(s, i, p, q)
  {
  }

  /** The first name the regex captures in `s`, if any: `match[0]`. */
  function ExtractName(s: string): (r: Option<string>)
    ensures r.Some? ==> exists p: nat, q: nat :: FirstNameAt(s, 0, p, q) && r.value == s[p..q]
    ensures r.None? ==> forall p: nat, q: nat :: !NameAt(s, p, q)
  {
    MatchFrom(s, 0)
  }

  /** A captured name sits between the promotional prefix and suffix. */
  lemma ExtractedNameIsQuoted(s: string)
    requires ExtractName(s).Some?
    ensures Contains(s, NamePrefix + ExtractName(s).value + NameSuffix)
    ensures forall c :: c in ExtractName(s).value ==> !IsLineTerminator(c)
  {
    var p: nat, q: nat :| FirstNameAt(s, 0, p, q) && ExtractName(s).value == s[p..q];
    NameIsQuoted(s, p, q);
  }

  lemma NameIsQuoted(s: string, p: nat, q: nat)
    requires NameAt(s, p, q)
    ensures Contains(s, NamePrefix + s[p..q] + NameSuffix)
    ensures forall c :: c in s[p..q] ==> !IsLineTerminator(c)
  {
    var a := p - |NamePrefix|;
    assert s[..p][a..] == s[a..p];
    assert s[q..][..|NameSuffix|] == s[q..q + |NameSuffix|];
    assert s[a..q + |NameSuffix|] == s[a..p] + s[p..q] + s[q..q + |NameSuffix|];
    assert OccursAt(s, NamePrefix + s[p..q] + NameSuffix, a);
  }

  /** What the referral page says about the pair. */
  datatype PageVerdict = Named(rawName: string) | InvalidLink | UnknownError

  /** The classification inside `getAppInfoFrom`: a captured name; else the
      invalid-link sentinel in the data; else an unknown error (as is a
      thrown navigation). */
  function ClassifyReferralPage(path: string, page: PageResult, sentinel: string): PageVerdict {
    match AppInfoPage(path, page, sentinel)
    case None => UnknownError
    case Some(data) =>
      match ExtractName(data)
      case Some(name) => Named(name)
      case None => if Contains(data, sentinel) then InvalidLink else UnknownError
  }

  /** A page flagged invalid is classified as an invalid link, provided the
      sentinel text itself carries no name. */
  lemma InvalidPageIsInvalidLink(path: string, url: string, content: string, sentinel: string)
    requires IsInvalidPage(path, url, content)
    requires ExtractName(sentinel).None?
    ensures ClassifyReferralPage(path, Loaded(url, content), sentinel) == InvalidLink
  {
    ContainsItself(sentinel);
  }

  /** A name is only reported when a loaded page quotes it between the
      promotional prefix and suffix. */
  lemma NamedIsQuoted(path: string, page: PageResult, sentinel: string, name: string)
    requires ClassifyReferralPage(path, page, sentinel) == Named(name)
    ensures page.Loaded?
    ensures var data := AppInfoPage(path, page, sentinel).value;
      Contains(data, NamePrefix + name + NameSuffix)
  {
    ExtractedNameIsQuoted(AppInfoPage(path, page, sentinel).value);
  }

  /** `getAvailableIn`: the page stayed on the platform URL for the app and
      does not carry the catalog's "not found" title; an exception is false. */
  function PlatformUrl(p: Platform, appId: string): string {
    PlatformBaseUrl + "/" + PlatformName(p) + "/" + appId
  }

  predicate Available(p: Platform, appId: string, page: PageResult) {
    page.Loaded? && Contains(page.url, PlatformUrl(p, appId)) && !Contains(page.content, UnavailableTitle)
  }
}
