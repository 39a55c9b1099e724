/** Sponsor rows from the bill-status document: `parse_cosponsor_xml`,
  * `parse_sponsor_xml` and `process_bill_status`. */
module Sponsors {
  import opened Wrappers
  import opened Text
  import opened Records

  /** Every `bio_id` is this URL followed by the member's bioguide id. */
  const BioguidePrefix: string := "https://bioguideretro.congress.gov/Home/MemberDetails?memIndex="

  /** Reads the bioguide id back out of a `bio_id` URL. */
  function BioguideIdOf(bioId: string): Option<string>
  {
    if |bioId| >= |BioguidePrefix| && bioId[..|BioguidePrefix|] == BioguidePrefix
    then Some(bioId[|BioguidePrefix|..])
    else None
  }

  /** A URL the decoder accepts is the prefix followed by what it returns. */
  lemma BioIdDecode(bioId: string, id: string)
    requires BioguideIdOf(bioId) == Some(id)
    ensures bioId == BioguidePrefix + id
  {
    assert bioId == bioId[..|BioguidePrefix|] + bioId[|BioguidePrefix|..];
  }

  lemma BioIdRoundTrip(id: string)
    ensures BioguideIdOf(BioguidePrefix + id) == Some(id)
  {
    assert (BioguidePrefix + id)[..|BioguidePrefix|] == BioguidePrefix;
    assert (BioguidePrefix + id)[|BioguidePrefix|..] == id;
  }

  /** `parse_cosponsor_xml`: the element's fields, with the bioguide id
    * turned into its biography URL. */
  function ParseCosponsor(e: SponsorElement): (m: Member)
    ensures BioguideIdOf(m.bioId) == Some(e.bioguideId)
    ensures m.fullName == e.fullName && m.party == e.party && m.state == e.state
    ensures m.originalCosponsor == e.isOriginalCosponsor && m.sponsorDate == e.sponsorshipDate
  {
    BioIdRoundTrip(e.bioguideId);
    Member(e.fullName, e.isOriginalCosponsor, e.sponsorshipDate,
           BioguidePrefix + e.bioguideId, e.party, e.state)
  }

  /** `parse_sponsor_xml`: like a cosponsor, but always an original
    * cosponsor, dated on the day the bill was introduced. */
  function ParseSponsor(e: SponsorElement, introducedDate: string): (m: Member)
    ensures BioguideIdOf(m.bioId) == Some(e.bioguideId)
    ensures m.fullName == e.fullName && m.party == e.party && m.state == e.state
    ensures m.originalCosponsor == "True" && m.sponsorDate == introducedDate
  {
    BioIdRoundTrip(e.bioguideId);
    Member(e.fullName, "True", introducedDate,
           BioguidePrefix + e.bioguideId, e.party, e.state)
  }

  /** Two entries get the same `bio_id` exactly when their bioguide ids agree. */
  lemma BioIdInjective(e1: SponsorElement, e2: SponsorElement)
    ensures ParseCosponsor(e1).bioId == ParseCosponsor(e2).bioId <==> e1.bioguideId == e2.bioguideId
  {
    if ParseCosponsor(e1).bioId == ParseCosponsor(e2).bioId {
      assert BioguideIdOf(ParseCosponsor(e1).bioId) == BioguideIdOf(ParseCosponsor(e2).bioId);
    }
  }

  /** `policy[0].text if len(policy) == 1 else None`: the sole child's text,
    * and nothing for zero or several children. */
  function PolicyArea(children: seq<string>): (r: Option<string>)
    ensures r.Some? <==> |children| == 1
    ensures r.Some? ==> r.value == children[0]
  {
    if |children| == 1 then Some(children[0]) else None
  }

  /** The subject names joined with ", " and cut to 999 characters. */
  function SubjectsText(names: seq<string>): (r: string)
    ensures Capped(r, Join(names, ", "))
  {
    Truncate(Join(names, ", "), MaxField)
  }

  /** The bill-level keys `process_bill_status` adds to every row. */
  function StatusFields(doc: StatusDocument): BillStatus
  {
    BillStatus(doc.latestActionDate, doc.latestActionText,
               PolicyArea(doc.policyAreaChildren), SubjectsText(doc.subjectNames))
  }

  /** The rows of one status document: a cosponsor row per cosponsor item in
    * document order, then the primary sponsor's row. */
  function StatusRows(doc: StatusDocument): seq<SponsorRow>
  {
    var status := StatusFields(doc);
    seq(|doc.cosponsors|, i requires 0 <= i < |doc.cosponsors| =>
          SponsorRow(ParseCosponsor(doc.cosponsors[i]), status, None))
    + [SponsorRow(ParseSponsor(doc.sponsor, doc.introducedDate), status, None)]
  }

  /** `process_bill_status`, with the status XML already fetched and read. */
  method ProcessBillStatus(doc: StatusDocument) returns (sponsors: seq<SponsorRow>)
    ensures sponsors == StatusRows(doc)
    ensures |sponsors| == |doc.cosponsors| + 1
    ensures forall i :: 0 <= i < |doc.cosponsors| ==>
              sponsors[i].member == ParseCosponsor(doc.cosponsors[i])
    ensures sponsors[|sponsors| - 1].member.originalCosponsor == "True"
    ensures sponsors[|sponsors| - 1].member.sponsorDate == doc.introducedDate
    ensures sponsors[|sponsors| - 1].member == ParseSponsor(doc.sponsor, doc.introducedDate)
    ensures forall r :: r in sponsors ==> r.status == StatusFields(doc) && r.package == None
  {
    var introduced := doc.introducedDate;
    var subjectStr := Join(doc.subjectNames, ", ");
    var policyArea := PolicyArea(doc.policyAreaChildren);
    var latestAction := doc.latestActionText;
    var latestActionDate := doc.latestActionDate;

    sponsors := [];
    for i := 0 to |doc.cosponsors|
      invariant |sponsors| == i
      invariant forall j :: 0 <= j < i ==>
                  sponsors[j] == SponsorRow(ParseCosponsor(doc.cosponsors[j]), StatusFields(doc), None)
    {
      var sponsor := ParseCosponsor(doc.cosponsors[i]);
      var row := SponsorRow(sponsor,
        BillStatus(latestActionDate, latestAction, policyArea, Truncate(subjectStr, MaxField)), None);
      sponsors := sponsors + [row];
    }

    var firstSponsor := ParseSponsor(doc.sponsor, introduced);
    var row := SponsorRow(firstSponsor,
      BillStatus(latestActionDate, latestAction, policyArea, Truncate(subjectStr, MaxField)), None);
    sponsors := sponsors + [row];
  }
}
