/**
 * The portfolio total shared by both scripts: reduce(add, [item["value"] for
 * item in portfolio]), a left fold with no initial value, which raises on an
 * empty portfolio.
 */
module Totals {
  import opened Common

  /** The entry carries a numeric "value" key, as every entry the scripts build does. */
  predicate Valued(item: Dict) {
    "value" in item && item["value"].Num?
  }

  predicate AllValued(p: seq<Dict>) {
    forall i :: 0 <= i < |p| ==> Valued(p[i])
  }

  function ValueOf(item: Dict): real {
    if Valued(item) then item["value"].x else 0.0
  }

  /** The list comprehension [item["value"] for item in portfolio]. */
  function Values(p: seq<Dict>): seq<real>
    requires AllValued(p)
  {
    MapSeq(ValueOf, p)
  }

  /** The loop inside functools.reduce: acc = add(acc, x) for each remaining x. */
  function Fold(acc: real, rest: seq<real>): real
    decreases |rest|
  {
    if rest == [] then acc else Fold(acc + rest[0], rest[1..])
  }

  /** reduce(add, vs): the first element seeds the fold; an empty list raises. */
  function Reduce(vs: seq<real>): (r: Result<real>)
    ensures r.Err? <==> vs == []
    ensures r.Err? ==> r.error == EmptyReduce
  {
    if vs == [] then Err(EmptyReduce) else Ok(Fold(vs[0], vs[1..]))
  }

  /** calculate_portfolio_total */
  function Total(p: seq<Dict>): (r: Result<real>)
    requires AllValued(p)
    ensures r.Err? <==> p == []
    ensures r.Err? ==> r.error == EmptyReduce
  {
    Reduce(Values(p))
  }

  /** The arithmetic sum, as a reference for the fold. */
  function Sum(vs: seq<real>): real {
    if vs == [] then 0.0 else vs[0] + Sum(vs[1..])
  }

  lemma {:induction false} FoldIsSum(acc: real, rest: seq<real>)
    ensures Fold(acc, rest) == acc + Sum(rest)
    decreases |rest|
  {
    if rest != [] {
      FoldIsSum(acc + rest[0], rest[1..]);
    }
  }

  /** reduce(add, ...) fails exactly on the empty list and is otherwise the sum. */
  lemma ReduceIsSum(vs: seq<real>)
    ensures Reduce(vs).Err? <==> vs == []
    ensures Reduce(vs).Err? ==> Reduce(vs).error == EmptyReduce
    ensures vs != [] ==> Reduce(vs) == Ok(Sum(vs))
  {
    if vs != [] {
      FoldIsSum(vs[0], vs[1..]);
    }
  }

  /** The total is the sum of the entries' values and fails on an empty portfolio. */
  lemma TotalIsSum(p: seq<Dict>)
    requires AllValued(p)
    ensures Total(p).Err? <==> p == []
    ensures p == [] ==> Total(p) == Err(EmptyReduce)
    ensures p != [] ==> Total(p) == Ok(Sum(Values(p)))
  {
    ReduceIsSum(Values(p));
  }

  lemma {:induction false} SumAppend(a: seq<real>, b: seq<real>)
    ensures Sum(a + b) == Sum(a) + Sum(b)
    decreases |a|
  {
    if a != [] {
      assert (a + b)[1..] == a[1..] + b;
      SumAppend(a[1..], b);
    } else {
      assert a + b == b;
    }
  }

  lemma ValuesAppend(p: seq<Dict>, q: seq<Dict>)
    requires AllValued(p) && AllValued(q)
    ensures AllValued(p + q)
    ensures Values(p + q) == Values(p) + Values(q)
  {
  }

  /** Every entry of a reordering of a valued portfolio is valued. */
  lemma AllValuedPermutation(p: seq<Dict>, q: seq<Dict>)
    requires AllValued(p) && multiset(p) == multiset(q)
    ensures AllValued(q)
  {
    forall i | 0 <= i < |q|
      ensures Valued(q[i])
    {
      assert q[i] in multiset(p);
      var j :| 0 <= j < |p| && p[j] == q[i];
    }
  }

  /** Reordering the portfolio entries does not change the total. */
  lemma {:induction false} TotalPermutation(p: seq<Dict>, q: seq<Dict>)
    requires AllValued(p) && multiset(p) == multiset(q)
    ensures AllValued(q) && Total(p) == Total(q)
  {
    AllValuedPermutation(p, q);
    TotalIsSum(p);
    TotalIsSum(q);
    if p != [] {
      ValueSumPermutation(p, q);
    } else {
      assert |q| == |multiset(q)| == 0;
    }
  }

  lemma {:induction false} ValueSumPermutation(p: seq<Dict>, q: seq<Dict>)
    requires AllValued(p) && AllValued(q) && multiset(p) == multiset(q)
    ensures Sum(Values(p)) == Sum(Values(q))
    decreases |p|
  {
    if p == [] {
      assert |q| == |multiset(q)| == 0;
    } else {
      assert p[0] in multiset(q);
      var j :| 0 <= j < |q| && q[j] == p[0];
      var rest := q[..j] + q[j + 1..];
      RemoveOne(p, q, j);
      ValueSumPermutation(p[1..], rest);
      ValueSumRemove(q, j);
      ValueSumRemove(p, 0);
      assert p[..0] + p[1..] == p[1..];
    }
  }

  /** Taking out the first entry of p and a matching entry of q keeps the two permutations of each other. */
  lemma RemoveOne(p: seq<Dict>, q: seq<Dict>, j: nat)
    requires multiset(p) == multiset(q) && p != [] && j < |q| && q[j] == p[0]
    ensures multiset(p[1..]) == multiset(q[..j] + q[j + 1..])
  {
    assert q == q[..j] + [q[j]] + q[j + 1..];
    assert p == [p[0]] + p[1..];
    assert multiset(p[1..]) == multiset(p) - multiset([p[0]]);
    assert multiset(q[..j] + q[j + 1..]) == multiset(q) - multiset([p[0]]);
  }

  /** The sum of values is the value at j plus the sum of the others. */
  lemma ValueSumRemove(q: seq<Dict>, j: nat)
    requires AllValued(q) && j < |q|
    ensures AllValued(q[..j] + q[j + 1..])
    ensures Sum(Values(q)) == ValueOf(q[j]) + Sum(Values(q[..j] + q[j + 1..]))
  {
    var before, after := q[..j], q[j + 1..];
    assert q == before + [q[j]] + after;
    ValuesAppend(before, [q[j]]);
    ValuesAppend(before + [q[j]], after);
    ValuesAppend(before, after);
    SumAppend(Values(before) + Values([q[j]]), Values(after));
    SumAppend(Values(before), Values([q[j]]));
    SumAppend(Values(before), Values(after));
  }
}
