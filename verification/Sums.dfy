/** Sums of finite maps, least elements of finite sets, and sequences of one repeated value. */
module Sums {

  ghost function Sum<K>(m: map<K, int>): int
    decreases |m|
  {
    if m == map[] then 0 else
      var k :| k in m;
      m[k] + Sum(m - {k})
  }

  lemma EmptySum<K>()
    ensures Sum<K>(map[]) == 0
  {
  }

  lemma {:induction false} SumSplit<K>(m: map<K, int>, k: K)
    requires k in m
    ensures Sum(m) == m[k] + Sum(m - {k})
    decreases |m|
  {
    var j :| j in m && Sum(m) == m[j] + Sum(m - {j});
    if j != k {
      SumSplit(m - {j}, k);
      SumSplit(m - {k}, j);
      assert m - {j} - {k} == m - {k} - {j};
    }
  }

  lemma SumUpdate<K>(m: map<K, int>, k: K, v: int)
    ensures Sum(m[k := v]) == Sum(m) + v - if k in m then m[k] else 0
  {
    SumSplit(m[k := v], k);
    assert m[k := v] - {k} == m - {k};
    if k in m {
      SumSplit(m, k);
    } else {
      assert m - {k} == m;
    }
  }

  lemma {:induction false} SumOfPositive<K>(m: map<K, int>)
    requires forall k | k in m :: m[k] > 0
    ensures Sum(m) >= |m|
    decreases |m|
  {
    if m != map[] {
      var k :| k in m;
      SumSplit(m, k);
      SumOfPositive(m - {k});
    }
  }

  function Repeat<T>(x: T, times: nat): (xs: seq<T>)
    ensures |xs| == times && forall i | 0 <= i < times :: xs[i] == x
  {
    seq(times, i => x)
  }

  lemma Member<T>(s: set<T>) returns (x: T)
    requires s != {}
    ensures x in s
  {
    x :| x in s;
  }

  lemma {:induction false} LeastExists(numbers: set<int>) returns (least: int)
    requires numbers != {}
    ensures least in numbers && forall x | x in numbers :: least <= x
    decreases numbers
  {
    var x := Member(numbers);
    var rest := numbers - {x};
    if rest == {} {
      assert numbers == {x};
      least := x;
    } else {
      var other := LeastExists(rest);
      least := if other < x then other else x;
      forall y | y in numbers ensures least <= y {
        if y != x { assert y in rest; }
      }
    }
  }
}
