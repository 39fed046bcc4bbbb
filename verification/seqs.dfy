/** Sequence helpers shared by the column lookup and the filename parser. */
module Seqs {
  import opened Wrappers

  /** Position of the first occurrence of `x` in `xs`, or `None` when absent. */
  function IndexOf<T(==)>(xs: seq<T>, x: T): (r: Option<nat>)
    ensures r.Some? ==> r.value < |xs| && xs[r.value] == x && x !in xs[..r.value]
    ensures r.None? <==> x !in xs
  {
    if |xs| == 0 then None
    else if xs[0] == x then Some(0)
    else match IndexOf(xs[1..], x)
      case None => None
      case Some(k) => assert xs[..k + 1] == [xs[0]] + xs[1..][..k]; Some(k + 1)
  }

  /** When `x` is absent from `prefix`, its first occurrence in
      `prefix + [x] + rest` is right after `prefix`, so splitting there gives
      back `prefix` and `rest`. */
  lemma IndexOfAfterPrefix<T>(prefix: seq<T>, x: T, rest: seq<T>)
    requires x !in prefix
    ensures IndexOf(prefix + [x] + rest, x) == Some(|prefix|)
    ensures (prefix + [x] + rest)[..|prefix|] == prefix
    ensures (prefix + [x] + rest)[|prefix| + 1..] == rest
  {
    var xs := prefix + [x] + rest;
    assert xs[|prefix|] == x;
    assert xs[..|prefix|] == prefix;
  }
}
