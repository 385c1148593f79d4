/** The device referral page of the region service: where the referral link
    lands, and how `validateRegionReferral` judges it. */
module RegionPage {
  import opened Common
  import opened Text
  import AdvocateUtils

  /** The text `getToDeviceInfoPage` returns in place of a URL when the
      landing URL has left the referral path. */
  const InvalidLinkText: string := "<title>Error</title>"

  /** A visit to `DEVICE_REFERRAL_BASE_URL + path`: the URL the navigation
      landed on and the URL after the optional login, or an exception from
      the browser, the navigation or the login. */
  datatype DevicePage = Landed(currentUrl: string, finalUrl: string) | Thrown

  /** The referral path of an advocate, `/${advocate_id}`. */
  function ReferralPath(advocate: string): string {
    "/" + advocate
  }

  /** What `getToDeviceInfoPage` hands back: an exception, the sentinel
      text, or the URL after the optional login. */
  datatype Landing = Failed | Sentinel | Url(url: string)

  /** `getToDeviceInfoPage`: the sentinel when the landing URL does not
      contain the path, otherwise the URL after login. */
  function DeviceInfoPage(path: string, page: DevicePage): (r: Landing)
    ensures r.Failed? <==> page.Thrown?
    ensures r.Sentinel? <==> page.Landed? && !Contains(page.currentUrl, path)
    ensures r.Url? ==> page.Landed? && r.url == page.finalUrl
  {
    match page
    case Thrown => Failed
    case Landed(currentUrl, finalUrl) =>
      if !Contains(currentUrl, path) then Sentinel else Url(finalUrl)
  }

  datatype Verdict = Valid | InvalidLink | UnknownError

  /** `validateRegionReferral` as written: the string `getToDeviceInfoPage`
      returned is searched for the path, even when it is the sentinel. */
  function ClassifyAsWritten(path: string, page: DevicePage): (v: Verdict)
    ensures v == UnknownError <==> page.Thrown?
    ensures v == Valid <==>
      page.Landed? &&
      (if Contains(page.currentUrl, path) then Contains(page.finalUrl, path) else Contains(InvalidLinkText, path))
  {
    match DeviceInfoPage(path, page)
    case Failed => UnknownError
    case Sentinel => if !Contains(InvalidLinkText, path) then InvalidLink else Valid
    case Url(newUrl) => if !Contains(newUrl, path) then InvalidLink else Valid
  }

  /** `validateRegionReferral` as intended: the sentinel always means an
      invalid link, as does a URL after login that left the path. */
  function Classify(path: string, page: DevicePage): (v: Verdict)
    ensures v == UnknownError <==> page.Thrown?
    ensures v == Valid <==> page.Landed? && Contains(page.currentUrl, path) && Contains(page.finalUrl, path)
  {
    match DeviceInfoPage(path, page)
    case Failed => UnknownError
    case Sentinel => InvalidLink
    case Url(newUrl) => if !Contains(newUrl, path) then InvalidLink else Valid
  }

  /** The two classifiers differ exactly when the sentinel is returned and
      happens to contain the path; the written one then says Valid. */
  lemma ClassifiersDiffer(path: string, page: DevicePage)
    ensures ClassifyAsWritten(path, page) != Classify(path, page)
      <==> page.Landed? && !Contains(page.currentUrl, path) && Contains(InvalidLinkText, path)
    ensures ClassifyAsWritten(path, page) != Classify(path, page) ==> ClassifyAsWritten(path, page) == Valid
  {
  }

  /** The paths the sentinel contains: "/" followed by a prefix of "title>". */
  lemma SentinelPaths(advocate: string)
    ensures Contains(InvalidLinkText, ReferralPath(advocate))
      <==> advocate in {"", "t", "ti", "tit", "titl", "title", "title>"}
  {
    var path := ReferralPath(advocate);
    var tail := "title>";
    assert InvalidLinkText[13] == '/' && InvalidLinkText[14..] == tail;
    if Contains(InvalidLinkText, path) {
      var i :| 0 <= i <= |InvalidLinkText| - |path| && OccursAt(InvalidLinkText, path, i);
      assert InvalidLinkText[i] == path[0] == '/';
      SlashOnlyAt13(i);
      assert advocate == InvalidLinkText[14..14 + |advocate|];
      assert advocate == tail[..|advocate|];
      PrefixesOfTail(advocate);
    } else if advocate in {"", "t", "ti", "tit", "titl", "title", "title>"} {
      assert OccursAt(InvalidLinkText, path, 13);
      assert false;
    }
  }

  lemma SlashOnlyAt13(i: int)
    requires 0 <= i < |InvalidLinkText| && InvalidLinkText[i] == '/'
    ensures i == 13
  {
  }

  lemma PrefixesOfTail(advocate: string)
    requires |advocate| <= 6 && advocate == "title>"[..|advocate|]
    ensures advocate in {"", "t", "ti", "tit", "titl", "title", "title>"}
  {
    var n := |advocate|;
    if n == 0 {
      assert advocate == "";
    } else if n == 1 {
      assert advocate == "t";
    } else if n == 2 {
      assert advocate == "ti";
    } else if n == 3 {
      assert advocate == "tit";
    } else if n == 4 {
      assert advocate == "titl";
    } else if n == 5 {
      assert advocate == "title";
    } else {
      assert advocate == "title>";
    }
  }

  /** Among accepted advocate ids, exactly "ti", "tit", "titl" and "title"
      have paths the sentinel contains. */
  lemma SentinelJudgedValid(advocate: string)
    requires AdvocateUtils.ValidAdvocateId(advocate)
    ensures Contains(InvalidLinkText, ReferralPath(advocate)) <==> advocate in {"ti", "tit", "titl", "title"}
  {
    SentinelPaths(advocate);
    AdvocateUtils.ValidAdvocateIdIff(advocate);
  }

  /** The input that exhibits the defect: the accepted id "title" whose link
      does not land on its path is judged valid as written, an invalid link
      as intended. */
  lemma InvalidTitleLinkJudgedValid(currentUrl: string, finalUrl: string)
    requires !Contains(currentUrl, ReferralPath("title"))
    ensures AdvocateUtils.ValidAdvocateId("title")
    ensures ClassifyAsWritten(ReferralPath("title"), Landed(currentUrl, finalUrl)) == Valid
    ensures Classify(ReferralPath("title"), Landed(currentUrl, finalUrl)) == InvalidLink
  {
    AdvocateUtils.ValidAdvocateIdIff("title");
    SentinelPaths("title");
  }
}
