/** `process_package`: write the package-level keys into every sponsor row. */
module Enrichment {
  import opened Wrappers
  import opened Text
  import opened Records

  /** `resp.get(key, [])`. */
  function OrEmpty(xs: Option<seq<string>>): seq<string>
  {
    if xs.Some? then xs.value else []
  }

  /** The dictionary `process_package` merges into each row. */
  function PackageFields(summary: PackageSummary, detail: PackageDetail, apiKey: string): PackageInfo
  {
    PackageInfo(
      Truncate(Join(OrEmpty(detail.committees), ", "), MaxField),
      Truncate(Join(OrEmpty(detail.shortTitles), ", "), MaxField),
      detail.pdfLink + "?api_key=" + apiKey,
      summary.dateIssued,
      detail.billNumber,
      detail.packageId,
      Truncate(detail.title, MaxField))
  }

  /** Every long text field is `full` capped; absent lists give empty
    * fields. */
  lemma PackageFieldsBounded(summary: PackageSummary, detail: PackageDetail, apiKey: string)
    ensures Capped(PackageFields(summary, detail, apiKey).committees, Join(OrEmpty(detail.committees), ", "))
    ensures Capped(PackageFields(summary, detail, apiKey).otherTitle, Join(OrEmpty(detail.shortTitles), ", "))
    ensures Capped(PackageFields(summary, detail, apiKey).title, detail.title)
    ensures detail.committees == None ==> PackageFields(summary, detail, apiKey).committees == ""
    ensures detail.shortTitles == None ==> PackageFields(summary, detail, apiKey).otherTitle == ""
  {
  }

  /** The link is the PDF link with the API key as its query string. */
  lemma PackageLink(summary: PackageSummary, detail: PackageDetail, apiKey: string)
    ensures var link := PackageFields(summary, detail, apiKey).link;
      && link[..|detail.pdfLink|] == detail.pdfLink
      && link[|detail.pdfLink|..|detail.pdfLink| + 9] == "?api_key="
      && link[|detail.pdfLink| + 9..] == apiKey
  {
  }

  /** Rows after the merge: sponsor and status parts as they were, the
    * package part set. */
  function WithPackage(rows: seq<SponsorRow>, info: PackageInfo): (r: seq<SponsorRow>)
    ensures |r| == |rows|
    ensures forall i :: 0 <= i < |r| ==>
              r[i].member == rows[i].member && r[i].status == rows[i].status
    ensures forall i :: 0 <= i < |r| ==> r[i].package == Some(info)
  {
    seq(|rows|, i requires 0 <= i < |rows| => rows[i].(package := Some(info)))
  }

  /** `process_package` on the list it is given, updated in place and handed
    * back. */
  method ProcessPackage(sponsorList: array<SponsorRow>, summary: PackageSummary,
                        detail: PackageDetail, apiKey: string)
    returns (r: array<SponsorRow>)
    modifies sponsorList
    ensures r == sponsorList
    ensures sponsorList[..] == WithPackage(old(sponsorList[..]), PackageFields(summary, detail, apiKey))
  {
    var i := 0;
    while i < sponsorList.Length
      invariant 0 <= i <= sponsorList.Length
      invariant forall j :: 0 <= j < i ==>
                  sponsorList[j] == old(sponsorList[j]).(package := Some(PackageFields(summary, detail, apiKey)))
      invariant forall j :: i <= j < sponsorList.Length ==> sponsorList[j] == old(sponsorList[j])
    {
      var info := PackageFields(summary, detail, apiKey);
      sponsorList[i] := sponsorList[i].(package := Some(info));
      i := i + 1;
    }
    r := sponsorList;
  }
}
