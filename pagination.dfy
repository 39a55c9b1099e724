/** `get_collection`: follow the `nextPage` cursor, appending packages. */
module Pagination {
  import opened Wrappers
  import opened Seqs
  import opened Records

  /** Python truthiness of `response['nextPage']`: null and "" both stop. */
  predicate HasNext(p: Page)
  {
    p.nextPage.Some? && p.nextPage.value != ""
  }

  /** All packages of `pages`, in order. */
  function PagesPackages(pages: seq<Page>): seq<PackageSummary>
  {
    if pages == [] then [] else pages[0].packages + PagesPackages(pages[1..])
  }

  /** What the fetch yields from page `i` on: its packages, then, if it has a
    * cursor, those of the pages after it. A request with no page to answer
    * it (past the end of `pages`) fails. */
  function CollectFrom(pages: seq<Page>, i: nat): Result<seq<PackageSummary>, FetchError>
    decreases |pages| - i
  {
    if i >= |pages| then Failure(NoPage(i))
    else if HasNext(pages[i]) then PrependTo(pages[i].packages, CollectFrom(pages, i + 1))
    else Success(pages[i].packages)
  }

  /** The collection fetch: `pages[0]` answers the first request, each
    * cursor's request is answered by the page after it. */
  function Collection(pages: seq<Page>): Result<seq<PackageSummary>, FetchError>
  {
    CollectFrom(pages, 0)
  }

  /** `get_collection`, with the page requests answered from `pages`. */
  method GetCollection(pages: seq<Page>) returns (r: Result<seq<PackageSummary>, FetchError>)
    ensures r == Collection(pages)
  {
    if |pages| == 0 {
      return Failure(NoPage(0));
    }
    var packages: seq<PackageSummary> := [];
    var response := pages[0];
    if response.packages != [] {
      packages := packages + response.packages;
    }
    assert packages == pages[0].packages;
    if HasNext(response) {
      var i := 0;
      while true
        invariant 0 <= i < |pages| && response == pages[i] && HasNext(response)
        invariant Collection(pages) == PrependTo(packages, CollectFrom(pages, i + 1))
        decreases |pages| - i
      {
        if i + 1 >= |pages| {
          return Failure(NoPage(i + 1));
        }
        PrependToTwice(packages, pages[i + 1].packages, CollectFrom(pages, i + 2));
        i := i + 1;
        response := pages[i];
        packages := packages + response.packages;
        if !HasNext(response) {
          break;
        }
      }
    }
    return Success(packages);
  }

  /** The fetch stops at the first page without a cursor and yields the
    * packages of every page up to and including it, in order. */
  lemma {:induction false} CollectionStopsAtFirstLastPage(pages: seq<Page>, k: nat)
    requires k < |pages| && !HasNext(pages[k])
    requires forall j :: 0 <= j < k ==> HasNext(pages[j])
    ensures Collection(pages) == Success(PagesPackages(pages[..k + 1]))
  {
    CollectFromUpTo(pages, 0, k);
    assert pages[0..k + 1] == pages[..k + 1];
  }

  lemma {:induction false} CollectFromUpTo(pages: seq<Page>, i: nat, k: nat)
    requires i <= k < |pages| && !HasNext(pages[k])
    requires forall j :: i <= j < k ==> HasNext(pages[j])
    ensures CollectFrom(pages, i) == Success(PagesPackages(pages[i..k + 1]))
    decreases k - i
  {
    if i < k {
      CollectFromUpTo(pages, i + 1, k);
      assert pages[i..k + 1][1..] == pages[i + 1..k + 1];
    } else {
      assert pages[i..k + 1] == [pages[i]];
      assert [pages[i]][1..] == [];
      assert PagesPackages([pages[i]]) == pages[i].packages + PagesPackages([]);
      assert pages[i].packages + [] == pages[i].packages;
      assert CollectFrom(pages, i) == Success(pages[i].packages);
    }
  }

  /** When every page carries a cursor, some request goes unanswered and the
    * fetch fails. */
  lemma {:induction false} CollectionFailsWithoutLastPage(pages: seq<Page>)
    requires forall j :: 0 <= j < |pages| ==> HasNext(pages[j])
    ensures Collection(pages).Failure?
  {
    CollectFromFails(pages, 0);
  }

  lemma {:induction false} CollectFromFails(pages: seq<Page>, i: nat)
    requires forall j :: i <= j < |pages| ==> HasNext(pages[j])
    ensures CollectFrom(pages, i).Failure?
    decreases |pages| - i
  {
    if i < |pages| {
      CollectFromFails(pages, i + 1);
    }
  }

  /** A first page with no packages and no cursor yields no packages. */
  lemma EmptyFirstPage(pages: seq<Page>)
    requires |pages| > 0 && pages[0].packages == [] && !HasNext(pages[0])
    ensures Collection(pages) == Success([])
  {
  }
}
