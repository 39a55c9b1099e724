# usgpo Extractor: a Dafny model of its transform core

The `Extractor` class in `usgpo/extractor.py` collects bills from the
GovInfo publishing API and builds one row per sponsor and cosponsor for a
hosted feature layer. Per bill type, it:

1. fetches the collection of packages changed since a cutoff, page by page,
   following the `nextPage` cursor (`get_collection`);
2. for each package, reads the bill-status XML and builds the cosponsor rows,
   then the primary sponsor's row (`parse_cosponsor_xml`, `parse_sponsor_xml`,
   `process_bill_status`);
3. writes the package-level fields into every one of those rows, in place
   (`process_package`);
4. chains the row lists of the packages into one frame (`get_collection_df`);
5. tags the frame with the bill type's label and keeps the first row of each
   distinct bill number as that bill's feature (`fetch_bills`).

`process_edits` pushes the bill features one at a time and the member
features in batches of 500 (`batches`). In this revision `run_solution` does
not call it: the call at `usgpo/extractor.py:264` is commented out. The model
still covers it, as an operation of the class on its own.

The model keeps that structure. Each HTTP request becomes a lookup in an `Api`
value:
- the collection pages of each document class, as a sequence, where a cursor
  is answered by the next page;
- the package-detail payload at each package link;
- the status document at each status link.

A request with nothing to answer it becomes a `Failure`, because nothing in
the extractor catches these errors. Steps that work by updating state are
methods. Their loops carry invariants and are proved against specification
functions:
- `GetCollection` against `Collection`;
- `ProcessBillStatus` against `StatusRows`;
- `ProcessPackage` against `WithPackage`, working in place on an array;
- `GetCollectionDf` against `CollectionRows`;
- `FetchBills` against `FetchUpTo`.

Lemmas then state what the source promises about those functions.

Modules, one per file: `Wrappers` (Option, Result), `Seqs`, `Text` (join,
`[:999]` truncation, timestamp text), `Chunking` (`batches`), `Records` (the
payloads and rows), `Pagination`, `Sponsors`, `Enrichment`, `Assembly`,
`Selection`, `Edits`.

Points where this revision of `extractor.py` behaves in a way a reader might
not expect, and which the model follows:
- A package whose detail payload lacks `related.billStatusLink` is not
  skipped. The lookup raises `KeyError`, which ends the run, so the model
  returns `Failure(NoStatusLink(..))`.
- Nothing isolates a failing bill type: `FailureStops` shows that one
  failing bill type stops the whole run.
- `get_collection_df` computes no `unique_id` column and drops no rows by
  their latest-action date; nothing reconciles the fetched rows with the
  stored ones, filters them by keyword or prunes old ones.
- `bill_ids` in `fetch_bills` is never appended to. The model keeps it as a
  local that stays `[]`, checks `bill_number not in bill_ids` as the code does,
  and proves that this check never removes a feature (`UnseenWhenNoneSeen`,
  `FetchFeatures`, `FeaturesCover`).

## Model

| member | source | states |
|---|---|---|
| `Text.Truncate` | usgpo/extractor.py:136 | `s[:999]`: at most the limit, a prefix of the input, the whole input when it fits, exactly the limit when it does not |
| `Text.BeforeDot` | usgpo/extractor.py:37 | `split('.')[0]`: a prefix of the input containing no dot, followed in the input by a dot unless it is all of it |
| `Text.QueryTime` | usgpo/extractor.py:37 | the cutoff text ends in `Z` and what comes before it is the ISO text before the first dot |
| `Text.QueryTimeCases` | usgpo/extractor.py:36-39 | with no fractional seconds the ISO text is kept whole plus `Z`; otherwise it is cut at the first dot |
| `Chunking.Batches` | usgpo/extractor.py:41-45 | a zero step is refused, a negative step yields nothing, an empty list yields no chunks; every chunk is non-empty and at most `n` long, and all but the last have exactly `n` |
| `Chunking.BatchesFlatten` | usgpo/extractor.py:44-45 | the chunks concatenate back to the list, in order |
| `Chunking.BatchAt` | usgpo/extractor.py:44-45 | chunk `i` is the slice `l[i*n : i*n+n]`, and its start is inside the list |
| `Chunking.BatchesCount` | usgpo/extractor.py:44 | `ceil(len(l)/n)` chunks: they cover the list, and the last one starts before its end |
| `Pagination.GetCollection` | usgpo/extractor.py:65-80 | the loop over cursors yields exactly `Collection(pages)`: the first page's packages, then each followed page's, and a failure when a cursor goes unanswered |
| `Pagination.CollectionStopsAtFirstLastPage` | usgpo/extractor.py:69-78 | when page `k` is the first without a cursor, the result is the packages of pages `0..k`, in order |
| `Pagination.CollectionFailsWithoutLastPage` | usgpo/extractor.py:73-78 | when every page has a cursor, some request is unanswered and the fetch fails |
| `Pagination.EmptyFirstPage` | usgpo/extractor.py:67-73 | a first page with no packages and no cursor yields `[]` |
| `Sponsors.ParseCosponsor` | usgpo/extractor.py:82-93 | name, original-cosponsor flag, sponsorship date, party and state are copied; `bio_id` decodes back to the bioguide id |
| `Sponsors.ParseSponsor` | usgpo/extractor.py:95-106 | the sponsor's name, party and state are copied, `original_cosponsor` is `"True"`, `sponsor_date` is the introduced date, and `bio_id` decodes back to the bioguide id |
| `Sponsors.BioIdRoundTrip` | usgpo/extractor.py:90 | decoding the bioguide URL built from an id gives that id back |
| `Sponsors.BioIdDecode` | usgpo/extractor.py:103 | a URL that decodes to an id is the fixed prefix followed by that id |
| `Sponsors.BioIdInjective` | usgpo/extractor.py:90 | two entries get the same `bio_id` exactly when their bioguide ids agree |
| `Sponsors.PolicyArea` | usgpo/extractor.py:122-123 | a policy area exists exactly when `policyArea` has one child, and it is that child's text; zero or several children give none |
| `Sponsors.SubjectsText` | usgpo/extractor.py:119-120 | the subjects field is the `", "`-joined subject names capped at 999 characters |
| `Sponsors.ProcessBillStatus` | usgpo/extractor.py:129-149 | exactly one row per cosponsor item plus one: the cosponsors in document order, then the primary sponsor with `"True"` and the introduced date; every row carries the same status fields and no package fields yet |
| `Enrichment.PackageFieldsBounded` | usgpo/extractor.py:158-164 | committees, other titles and title are each their full joined (or raw) text capped at 999 characters; an absent `committees` or `shortTitle` list gives an empty field |
| `Enrichment.PackageLink` | usgpo/extractor.py:160 | the link is the PDF link, then `?api_key=`, then the key |
| `Enrichment.WithPackage` | usgpo/extractor.py:156-165 | same number of rows; sponsor and status parts unchanged; every row gets the same package part |
| `Enrichment.ProcessPackage` | usgpo/extractor.py:151-167 | updates the given array in place so that it equals `WithPackage` of its old contents, and hands the same array back |
| `Assembly.GetCollectionDf` | usgpo/extractor.py:169-193 | the loop over packages yields exactly `CollectionRows`: the rows of each package in collection order, or the first package's failure |
| `Assembly.CollectionRowsEnriched` | usgpo/extractor.py:173-180 | every row of a resolved collection carries package fields |
| `Assembly.CollectionRowsEmpty` | usgpo/extractor.py:182-185 | the frame is empty exactly when the collection is |
| `Assembly.CollectionRowsCount` | usgpo/extractor.py:173-185 | a resolved collection had every package resolve, and has one row per cosponsor plus one per package |
| `Assembly.CollectionRowsResolve` | usgpo/extractor.py:173-180 | conversely, when every package resolves the collection resolves |
| `Selection.Unique` | usgpo/extractor.py:211 | `unique()` holds the same values as the column, each once |
| `Selection.UniqueInFirstAppearanceOrder` | usgpo/extractor.py:211 | `unique()` lists values in the order they first appear |
| `Selection.FirstIndex` | usgpo/extractor.py:213-214 | the position holding the value, with no earlier one |
| `Selection.RowsWithHead` | usgpo/extractor.py:213-214 | the filtered frame is non-empty, and its first row is the first row with that bill number |
| `Selection.FirstPerKey` | usgpo/extractor.py:211-214 | one row per distinct key; entry `i` is the first row whose key is `unique()[i]` |
| `Selection.BillFeaturesSpec` | usgpo/extractor.py:211-214 | one feature per distinct bill number, covering every number, in first-appearance order, each the first row with its number |
| `Selection.UnseenKeeps` | usgpo/extractor.py:212-214 | the `not in bill_ids` test keeps exactly the features whose bill number is not in `bill_ids` |
| `Selection.UnseenWhenNoneSeen` | usgpo/extractor.py:199 | with `bill_ids` empty, the `not in` test keeps every feature |
| `Selection.AppendFeatures` | usgpo/extractor.py:211-214 | the inner loop appends the first row of each distinct bill number not in `bill_ids`, in `unique()` order |
| `Selection.FailureStops` | usgpo/extractor.py:201-205 | once one bill type fails, the whole result is that failure |
| `Selection.FetchBills` | usgpo/extractor.py:195-218 | the nested loops yield exactly `FetchUpTo` over all types: one row set per type that has rows, tagged with its label, and that type's features appended with no bill skipped (see `FetchFrames`, `FeaturesCover`) |
| `Selection.FetchShape` | usgpo/extractor.py:207-216 | no more row sets than types; each is non-empty and every row in it carries the label of one type; every feature is a row of some row set |
| `Selection.Contributors` | usgpo/extractor.py:201-209 | the positions of the types that resolve with rows, each below `n`, strictly increasing |
| `Selection.FetchFrames` | usgpo/extractor.py:201-216 | every type resolves; row set `k` is the tagged rows of the `k`-th type that has rows, labelled with that type's description, and there is one row set per such type |
| `Selection.FetchFeatures` | usgpo/extractor.py:211-214 | every row set carries package fields, and the features are each row set's features in turn |
| `Selection.FeaturesCover` | usgpo/extractor.py:211-214 | every row of every row set has a feature with its bill number: no bill is skipped |
| `Edits.CountTrue` | usgpo/extractor.py:248 | the passed count is the number of `true` flags: at most the number of results, all of them exactly when all succeeded, zero exactly when none did |
| `Edits.ProcessEdits` | usgpo/extractor.py:227-250 | the failed bill adds are reported by position, in order; there is one report per member batch, and batch `i` reports its passed count, or its failure when the call raised, whatever earlier batches did |
| `Edits.MemberBatchesCoverAll` | usgpo/extractor.py:244 | the member batches together send every member feature once, in order, at most 500 at a time |

## Left out

- HTTP requests, JSON decoding and XML parsing: their results are the inputs
  `Api`, `PackageDetail` and `StatusDocument`. A status element of the
  document is present in the model whenever the code reads it; a missing one
  (`StopIteration`, `AttributeError`, `IndexError` in the source) is not
  modelled. An element with empty text (`None`) is shown as a string, so
  where the source raises on such a `None` the model yields text instead:
  a `None` subject text makes `', '.join` raise `TypeError` (line 120).
- Unguarded keys of the package payloads: `c['committeeName']` and
  `c['title']` in the committee and short-title lists (lines 158-159),
  `resp['download']['pdfLink']`, `resp['billNumber']`, `resp['packageId']`
  and `resp['title']` (lines 160-164) and `package['dateIssued']` (line 161)
  are always present in `PackageDetail` and `PackageSummary`. The `KeyError`
  raised when one of them is missing is not modelled.
- A JSON `null` title: `resp['title'][:999]` (line 164) raises on it, while
  the model's title is always a string.
- The detail payload is requested twice per package: at line 175 for
  `related.billStatusLink` and again inside `process_package` at line 154.
  `PackageRows` answers both from the one `api.details` entry, so both
  requests are taken to return the same payload.
- The `last_mod` cutoff and the other query parameters: the pages given for
  a document class are the ones the API returns for that request.
- A JSON `null` in `packages`, `committees` or `shortTitle` when the key is
  present: the model takes these to be lists.
- pandas: DataFrame construction and the `pd.to_datetime` conversion of the
  date columns. A frame is shown as its list of rows, and `to_featureset()`
  turns a row into a feature unchanged.
- The `merge` with the state table in `process_edits`, the layer lookups and
  `delete_features`: these are remote feature-store calls. `ProcessEdits`
  takes the merged member features as input.
- `ProcessEdits`: a single-bill add that raises is not modelled, since the
  source does not catch it. Each bill add is shown by its success flag.
  `pd.concat(bills_df)` (line 240) raises `ValueError` when `bills_df` is
  empty, after the bill adds have gone out; `ProcessEdits` takes the member
  features as an input and returns normally in that case.
- `read_config`, `set_gis`, `run_solution` and `runner.py`: file I/O, login,
  printing and timing.
- `get_past_time`: reading the clock and the `timedelta` arithmetic. The
  clock's ISO text is an input, and only the string step is modelled.
- The imported `bill_types` table (line 1, read with `.items()` at line 201)
  is not part of this model: its items are an input sequence of code and
  label pairs, in the table's iteration order.
