/** `get_collection_df`: resolve every package of a collection into its
  * sponsor rows and chain the row lists together, in collection order. */
module Assembly {
  import opened Wrappers
  import opened Seqs
  import opened Records
  import opened Sponsors
  import opened Enrichment

  /** The rows one package contributes, or why the run stops there: no
    * detail payload, no `related.billStatusLink` key, no status document. */
  function PackageRows(api: Api, apiKey: string, summary: PackageSummary): Result<seq<SponsorRow>, FetchError>
  {
    if summary.packageLink !in api.details then Failure(NoDetail(summary.packageLink))
    else
      var detail := api.details[summary.packageLink];
      if detail.billStatusLink.None? then Failure(NoStatusLink(summary.packageLink))
      else if detail.billStatusLink.value !in api.statuses then Failure(NoStatus(detail.billStatusLink.value))
      else Success(WithPackage(StatusRows(api.statuses[detail.billStatusLink.value]),
                               PackageFields(summary, detail, apiKey)))
  }

  /** The rows of a whole collection: each package's rows in turn; the first
    * package that fails stops the run with its error. */
  function CollectionRows(api: Api, apiKey: string, collection: seq<PackageSummary>): Result<seq<SponsorRow>, FetchError>
  {
    if collection == [] then Success([])
    else match PackageRows(api, apiKey, collection[0])
      case Failure(e) => Failure(e)
      case Success(rows) => PrependTo(rows, CollectionRows(api, apiKey, collection[1..]))
  }

  /** `get_collection_df`, with the data frame shown as its list of rows.
    * The date columns' conversion is not modelled. */
  method GetCollectionDf(api: Api, apiKey: string, collection: seq<PackageSummary>)
    returns (r: Result<seq<SponsorRow>, FetchError>)
    ensures r == CollectionRows(api, apiKey, collection)
  {
    var data: seq<seq<SponsorRow>> := [];
    assert collection[0..] == collection;
    for i := 0 to |collection|
      invariant CollectionRows(api, apiKey, collection)
                == PrependTo(Flatten(data), CollectionRows(api, apiKey, collection[i..]))
    {
      var package := collection[i];
      if package.packageLink !in api.details {
        return Failure(NoDetail(package.packageLink));
      }
      var detail := api.details[package.packageLink];
      if detail.billStatusLink.None? {
        return Failure(NoStatusLink(package.packageLink));
      }
      var statusLink := detail.billStatusLink.value;
      if statusLink !in api.statuses {
        return Failure(NoStatus(statusLink));
      }
      var sponsorList := ProcessBillStatus(api.statuses[statusLink]);
      var rows := new SponsorRow[|sponsorList|](j requires 0 <= j < |sponsorList| => sponsorList[j]);
      assert rows[..] == sponsorList;
      rows := ProcessPackage(rows, package, detail, apiKey);
      assert PackageRows(api, apiKey, package) == Success(rows[..]);
      assert collection[i..][1..] == collection[i + 1..];
      PrependToTwice(Flatten(data), rows[..], CollectionRows(api, apiKey, collection[i + 1..]));
      FlattenAppend(data, rows[..]);
      data := data + [rows[..]];
    }
    assert collection[|collection|..] == [];
    assert Flatten(data) + [] == Flatten(data);
    if data == [] {
      return Success([]);
    }
    return Success(Flatten(data));
  }

  /** Every row of a resolved collection carries its package's fields. */
  lemma {:induction false} CollectionRowsEnriched(api: Api, apiKey: string, collection: seq<PackageSummary>)
    requires CollectionRows(api, apiKey, collection).Success?
    ensures forall r :: r in CollectionRows(api, apiKey, collection).value ==> r.package.Some?
  {
    if collection != [] {
      CollectionRowsEnriched(api, apiKey, collection[1..]);
    }
  }

  /** Every package yields at least its sponsor's row, so the frame is empty
    * exactly when the collection is. */
  lemma {:induction false} CollectionRowsEmpty(api: Api, apiKey: string, collection: seq<PackageSummary>)
    requires CollectionRows(api, apiKey, collection).Success?
    ensures CollectionRows(api, apiKey, collection).value == [] <==> collection == []
  {
  }

  /** A resolved collection had every package resolve (the converse is
    * `CollectionRowsResolve`), and the number of rows is the sum over
    * packages of cosponsors plus one. */
  lemma {:induction false} CollectionRowsCount(api: Api, apiKey: string, collection: seq<PackageSummary>)
    requires CollectionRows(api, apiKey, collection).Success?
    ensures forall i :: 0 <= i < |collection| ==> PackageRows(api, apiKey, collection[i]).Success?
    ensures |CollectionRows(api, apiKey, collection).value| == RowCount(api, collection)
  {
    if collection != [] {
      CollectionRowsCount(api, apiKey, collection[1..]);
      forall i | 0 <= i < |collection|
        ensures PackageRows(api, apiKey, collection[i]).Success?
      {
        if i > 0 {
          assert collection[i] == collection[1..][i - 1];
        }
      }
    }
  }

  /** Conversely, a collection whose every package resolves is resolved. */
  lemma {:induction false} CollectionRowsResolve(api: Api, apiKey: string, collection: seq<PackageSummary>)
    requires forall i :: 0 <= i < |collection| ==> PackageRows(api, apiKey, collection[i]).Success?
    ensures CollectionRows(api, apiKey, collection).Success?
  {
    if collection != [] {
      assert PackageRows(api, apiKey, collection[0]).Success?;
      forall i | 0 <= i < |collection| - 1
        ensures PackageRows(api, apiKey, collection[1..][i]).Success?
      {
        assert collection[1..][i] == collection[i + 1];
      }
      CollectionRowsResolve(api, apiKey, collection[1..]);
    }
  }

  /** Cosponsors plus one sponsor, summed over the collection's packages
    * (for packages that resolve). */
  function RowCount(api: Api, collection: seq<PackageSummary>): nat
  {
    if collection == [] then 0
    else
      var p := collection[0];
      var n := if p.packageLink in api.details && api.details[p.packageLink].billStatusLink.Some?
                  && api.details[p.packageLink].billStatusLink.value in api.statuses
               then |api.statuses[api.details[p.packageLink].billStatusLink.value].cosponsors| + 1
               else 0;
      n + RowCount(api, collection[1..])
  }
}
