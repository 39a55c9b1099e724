/** The push loops of `process_edits`, with the feature store's answers as
  * inputs. */
module Edits {
  import opened Seqs
  import opened Chunking

  /** Member features go to the store in batches of this size. */
  const MemberBatchSize: int := 500

  /** What one `edit_features` call does: it raises, or returns one success
    * flag per `addResults` entry. */
  datatype AddResponse = Raised | AddResults(success: seq<bool>)

  /** The line printed for one member batch. */
  datatype BatchReport = Passed(count: nat) | BatchFailed(index: nat)

  /** `len([e for e in response if e["success"]])`. */
  function CountTrue(flags: seq<bool>): (c: nat)
    ensures c <= |flags|
    ensures c == |flags| <==> forall i :: 0 <= i < |flags| ==> flags[i]
    ensures c == 0 <==> forall i :: 0 <= i < |flags| ==> !flags[i]
    ensures c == multiset(flags)[true]
  {
    if flags == [] then 0
    else
      assert flags == [flags[0]] + flags[1..];
      (if flags[0] then 1 else 0) + CountTrue(flags[1..])
  }

  /** The report of batch `index`: its passed count, or its failure. */
  function Report(index: nat, response: AddResponse): BatchReport
  {
    match response
    case Raised => BatchFailed(index)
    case AddResults(flags) => Passed(CountTrue(flags))
  }

  /** `process_edits` without the layer lookups and deletes: each bill is
    * added on its own and a failed add is reported by its position; member
    * features are added 500 at a time, and a batch that raises is reported
    * and skipped while the remaining batches still go out.
    * `billStore(i, bill)` is the success flag of the i-th bill add and
    * `memberStore(i, batch)` the answer to the i-th batch call. */
  method ProcessEdits<F>(bills: seq<F>, members: seq<F>,
                         billStore: (nat, F) -> bool, memberStore: (nat, seq<F>) -> AddResponse)
    returns (failedBills: seq<nat>, reports: seq<BatchReport>)
    ensures forall i :: 0 <= i < |bills| ==> (i in failedBills <==> !billStore(i, bills[i]))
    ensures forall k :: 0 <= k < |failedBills| ==> failedBills[k] < |bills|
    ensures forall k, l :: 0 <= k < l < |failedBills| ==> failedBills[k] < failedBills[l]
    ensures |reports| == |Batches(members, MemberBatchSize)|
    ensures forall i :: 0 <= i < |reports| ==>
              reports[i] == Report(i, memberStore(i, Batches(members, MemberBatchSize)[i]))
  {
    failedBills := [];
    for i := 0 to |bills|
      invariant forall j :: 0 <= j < i ==> (j in failedBills <==> !billStore(j, bills[j]))
      invariant forall k :: 0 <= k < |failedBills| ==> failedBills[k] < i
      invariant forall k, l :: 0 <= k < l < |failedBills| ==> failedBills[k] < failedBills[l]
    {
      var success := billStore(i, bills[i]);
      if !success {
        failedBills := failedBills + [i];
      }
    }

    var memberSets := Batches(members, MemberBatchSize);
    reports := [];
    for idx := 0 to |memberSets|
      invariant |reports| == idx
      invariant forall i :: 0 <= i < idx ==> reports[i] == Report(i, memberStore(i, memberSets[i]))
    {
      var response := memberStore(idx, memberSets[idx]);
      match response {
        case AddResults(flags) =>
          reports := reports + [Passed(CountTrue(flags))];
        case Raised =>
          reports := reports + [BatchFailed(idx)];
      }
    }
  }

  /** Every member batch is attempted exactly once, whatever earlier batches
    * did, and each holds at most 500 features. */
  lemma MemberBatchesCoverAll<F>(members: seq<F>)
    ensures Flatten(Batches(members, MemberBatchSize)) == members
    ensures forall i :: 0 <= i < |Batches(members, MemberBatchSize)| ==>
              |Batches(members, MemberBatchSize)[i]| <= MemberBatchSize
  {
    BatchesFlatten(members, MemberBatchSize);
  }
}
