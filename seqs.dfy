/** Sequence helpers shared by the pipeline stages. */
module Seqs {
  import opened Wrappers

  /** Concatenation of a list of lists, in order (`itertools.chain(*xs)`). */
  function Flatten<T>(xss: seq<seq<T>>): seq<T>
  {
    if xss == [] then [] else xss[0] + Flatten(xss[1..])
  }

  lemma {:induction false} FlattenAppend<T>(xss: seq<seq<T>>, xs: seq<T>)
    ensures Flatten(xss + [xs]) == Flatten(xss) + xs
  {
    if xss == [] {
      assert [xs][1..] == [];
    } else {
      assert (xss + [xs])[1..] == xss[1..] + [xs];
      FlattenAppend(xss[1..], xs);
    }
  }

  /** Puts `prefix` in front of a successful result; a failure stays as it is. */
  function PrependTo<T, E>(prefix: seq<T>, r: Result<seq<T>, E>): (p: Result<seq<T>, E>)
    ensures p.Success? <==> r.Success?
    ensures p.Success? ==> p.value == prefix + r.value
    ensures p.Failure? ==> p == r
    ensures prefix == [] ==> p == r
  {
    match r
    case Success(xs) => assert [] + xs == xs; Success(prefix + xs)
    case Failure(e) => Failure(e)
  }

  lemma PrependToTwice<T, E>(a: seq<T>, b: seq<T>, r: Result<seq<T>, E>)
    ensures PrependTo(a, PrependTo(b, r)) == PrependTo(a + b, r)
  {
    if r.Success? {
      assert a + (b + r.value) == (a + b) + r.value;
    }
  }
}
