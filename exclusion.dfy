/** The exclusion filter that both collectors apply once, at construction:
    every dotted stat key the operator lists is deleted from the collector's
    table of gauges, one key at a time, in list order. */
module Exclusion {

  /** The table left after deleting the keys of `xs` one by one, last key
      deleted last; a key that is not (or no longer) in the table is skipped. */
  function ExcludeAll<G>(m: map<string, G>, xs: seq<string>): (r: map<string, G>)
    ensures forall k :: k in r <==> k in m && k !in xs
    ensures forall k :: k in r ==> r[k] == m[k]
    decreases |xs|
  {
    if xs == [] then m
    else
      var rest := ExcludeAll(m, xs[..|xs| - 1]);
      var x := xs[|xs| - 1];
      if x in rest then rest - {x} else rest
  }

  /** Excluding a key the table does not hold changes nothing. */
  lemma {:induction false} ExcludeAbsentIsNoop<G>(m: map<string, G>, xs: seq<string>, x: string)
    requires x !in m
    ensures ExcludeAll(m, xs + [x]) == ExcludeAll(m, xs)
    ensures ExcludeAll(m, [x]) == m
  {
    var a, b := ExcludeAll(m, xs + [x]), ExcludeAll(m, xs);
    assert a.Keys == b.Keys;
  }

  /** Excluding the same keys again, in one list or in a second pass,
      gives the table that excluding them once gives. */
  lemma {:induction false} ExcludeIdempotent<G>(m: map<string, G>, xs: seq<string>)
    ensures ExcludeAll(m, xs + xs) == ExcludeAll(m, xs)
    ensures ExcludeAll(ExcludeAll(m, xs), xs) == ExcludeAll(m, xs)
  {
    var once := ExcludeAll(m, xs);
    assert ExcludeAll(m, xs + xs).Keys == once.Keys;
    assert ExcludeAll(once, xs).Keys == once.Keys;
  }

  /** Only the set of excluded keys matters, not their order or repetition. */
  lemma {:induction false} ExcludeOrderIndependent<G>(m: map<string, G>, xs: seq<string>, ys: seq<string>)
    requires forall k :: k in xs <==> k in ys
    ensures ExcludeAll(m, xs) == ExcludeAll(m, ys)
  {
    assert ExcludeAll(m, xs).Keys == ExcludeAll(m, ys).Keys;
  }

  /** A second filter applied to an already filtered table removes the keys
      of both lists. */
  lemma {:induction false} ExcludeCompose<G>(m: map<string, G>, xs: seq<string>, ys: seq<string>)
    ensures ExcludeAll(ExcludeAll(m, xs), ys) == ExcludeAll(m, xs + ys)
  {
    assert ExcludeAll(ExcludeAll(m, xs), ys).Keys == ExcludeAll(m, xs + ys).Keys;
  }
}
