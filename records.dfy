/** The records the extractor reads from the publishing API and the rows it
  * builds. API payloads are shown already decoded: one field per key the
  * extractor looks up. */
module Records {
  import opened Wrappers

  /** One package summary from a collection page. */
  datatype PackageSummary = PackageSummary(
    packageId: string,
    packageLink: string,
    dateIssued: string)

  /** One page of the collection listing: its packages and the `nextPage`
    * cursor (a URL, or null). */
  datatype Page = Page(packages: seq<PackageSummary>, nextPage: Option<string>)

  /** The package-detail payload. `committees` and `shortTitle` may be absent;
    * each entry is shown by the one key the extractor reads from it
    * (`committeeName`, `title`). `related.billStatusLink` may be absent. */
  datatype PackageDetail = PackageDetail(
    title: string,
    packageId: string,
    billNumber: string,
    pdfLink: string,
    committees: Option<seq<string>>,
    shortTitles: Option<seq<string>>,
    billStatusLink: Option<string>)

  /** A `sponsors/item` or `cosponsors/item` element of the bill-status XML. */
  datatype SponsorElement = SponsorElement(
    fullName: string,
    isOriginalCosponsor: string,
    sponsorshipDate: string,
    bioguideId: string,
    party: string,
    state: string)

  /** The parts of the bill-status XML the extractor reads: the introduced
    * date, the first-child text of every legislative-subject item, the child
    * texts of `policyArea`, the latest action, the cosponsor items in
    * document order and the one sponsor item. */
  datatype StatusDocument = StatusDocument(
    introducedDate: string,
    subjectNames: seq<string>,
    policyAreaChildren: seq<string>,
    latestActionText: string,
    latestActionDate: string,
    cosponsors: seq<SponsorElement>,
    sponsor: SponsorElement)

  /** The person part of a sponsor row (`parse_cosponsor_xml` and
    * `parse_sponsor_xml`). */
  datatype Member = Member(
    fullName: string,
    originalCosponsor: string,
    sponsorDate: string,
    bioId: string,
    party: string,
    state: string)

  /** The bill-status part every row of one bill shares. */
  datatype BillStatus = BillStatus(
    lastDate: string,
    lastAction: string,
    policyArea: Option<string>,
    subjects: string)

  /** The package-level part `process_package` writes into every row. */
  datatype PackageInfo = PackageInfo(
    committees: string,
    otherTitle: string,
    link: string,
    dateIssued: string,
    billNumber: string,
    packageId: string,
    title: string)

  /** One sponsor dictionary. `package` is None until `process_package` has
    * added the package-level keys. */
  datatype SponsorRow = SponsorRow(member: Member, status: BillStatus, package: Option<PackageInfo>)

  /** A row of a per-type data frame after the `bill_type` column is set. */
  datatype TypedRow = TypedRow(row: SponsorRow, billType: string)

  /** One entry of the `bill_types` table: document-class code and label. */
  datatype BillType = BillType(code: string, desc: string)

  /** Why a run stops. Nothing in the extractor catches these. */
  datatype FetchError =
    | NoPage(pageIndex: nat)          // a collection request got no page
    | NoDetail(packageLink: string)   // a package-detail request got no payload
    | NoStatusLink(packageLink: string) // the detail has no `related.billStatusLink` (KeyError)
    | NoStatus(statusLink: string)    // a bill-status request got no document

  /** The remote API as the extractor sees it: the collection pages of each
    * document class (a class with no entry answers nothing), the detail
    * payload at each package link and the status XML at each status link. */
  datatype Api = Api(
    collections: map<string, seq<Page>>,
    details: map<string, PackageDetail>,
    statuses: map<string, StatusDocument>)

  function PagesFor(api: Api, docClass: string): seq<Page>
  {
    if docClass in api.collections then api.collections[docClass] else []
  }
}
