/** The `batches` generator: consecutive slices of a list. */
module Chunking {
  import opened Seqs

  function Min(a: int, b: int): int { if a <= b then a else b }

  /** `list(batches(l, n))`. Python's `range(0, len(l), n)` raises for a zero
    * step (the requires) and is empty for a negative one. Every chunk is
    * non-empty and at most `n` long, and all but the last are exactly `n`. */
  function Batches<T>(l: seq<T>, n: int): (r: seq<seq<T>>)
    requires n != 0
    ensures n < 0 ==> r == []
    ensures l == [] ==> r == []
    ensures n > 0 && l != [] ==> r != []
    ensures forall i :: 0 <= i < |r| ==> 0 < |r[i]| <= n
    ensures forall i :: 0 <= i < |r| - 1 ==> |r[i]| == n
    decreases |l|
  {
    if n < 0 || l == [] then []
    else if |l| <= n then [l]
    else
      var rest := Batches(l[n..], n);
      assert ([l[..n]] + rest)[1..] == rest;
      [l[..n]] + rest
  }

  /** Concatenating the chunks gives back the list, in order. */
  lemma {:induction false} BatchesFlatten<T>(l: seq<T>, n: int)
    requires n > 0
    ensures Flatten(Batches(l, n)) == l
    decreases |l|
  {
    if l != [] && |l| > n {
      var rest := Batches(l[n..], n);
      assert Batches(l, n) == [l[..n]] + rest;
      assert ([l[..n]] + rest)[1..] == rest;
      BatchesFlatten(l[n..], n);
      assert l[..n] + l[n..] == l;
    } else if l != [] {
      assert Batches(l, n) == [l];
      assert Flatten([l]) == l + Flatten([]);
    }
  }

  /** Chunk `i` is the slice `l[i*n : i*n + n]`, exactly as the generator
    * yields it, and the generator yields one chunk per start offset. */
  lemma {:induction false} BatchAt<T>(l: seq<T>, n: int, i: nat)
    requires n > 0 && i < |Batches(l, n)|
    ensures i * n < |l|
    ensures Batches(l, n)[i] == l[i * n .. Min(i * n + n, |l|)]
    decreases |l|
  {
    if i > 0 {
      var rest := l[n..];
      assert Batches(l, n)[i] == Batches(rest, n)[i - 1];
      BatchAt(rest, n, i - 1);
      var start := (i - 1) * n;
      assert start + n == i * n;
      assert rest[start .. Min(start + n, |rest|)] == l[start + n .. Min(start + n + n, |l|)];
    }
  }

  /** The number of chunks is `ceil(len(l) / n)`: the last chunk starts
    * before the end and the next offset is at or past it. */
  lemma {:induction false} BatchesCount<T>(l: seq<T>, n: int)
    requires n > 0
    ensures |Batches(l, n)| * n >= |l|
    ensures |Batches(l, n)| > 0 ==> (|Batches(l, n)| - 1) * n < |l|
    decreases |l|
  {
    if |l| > n {
      BatchesCount(l[n..], n);
      var k := |Batches(l[n..], n)|;
      assert |Batches(l, n)| == k + 1;
      assert (k + 1) * n == k * n + n;
    }
  }
}
