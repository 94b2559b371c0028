/** Small shared vocabulary: optional values, results with an error value,
    Python's `list.index`, and the counting facts about finite sets that the
    selection and controller proofs rest on. */
module Common {

  datatype Option<T> = None | Some(value: T)

  /** A value, or the error the Python code would raise instead of returning. */
  datatype Result<T, E> = Ok(value: T) | Err(error: E)

  /** No element occurs twice in `s`. */
  predicate Distinct<T(==)>(s: seq<T>) {
    forall i, j :: 0 <= i < j < |s| ==> s[i] != s[j]
  }

  /** Python's `xs.index(x)`: the position of the first occurrence of `x`,
      or None where `list.index` raises ValueError. */
  function FirstIndex<T(==)>(xs: seq<T>, x: T): (r: Option<nat>)
    ensures r.None? <==> x !in xs
    ensures r.Some? ==> r.value < |xs| && xs[r.value] == x
    ensures r.Some? ==> forall j :: 0 <= j < r.value ==> xs[j] != x
  {
    if |xs| == 0 then None
    else if xs[0] == x then Some(0)
    else match FirstIndex(xs[1..], x)
      case None => None
      case Some(i) => Some(i + 1)
  }

  /** The set of positions 0 .. n-1. */
  function Positions(n: nat): (r: set<nat>)
    ensures forall i: int :: i in r <==> 0 <= i < n
    ensures |r| == n
  {
    if n == 0 then {} else Positions(n - 1) + {n - 1}
  }

  lemma SubsetCard<T>(a: set<T>, b: set<T>)
    requires a <= b
    ensures |a| <= |b|
  {
    assert b == a + (b - a);
  }

  lemma ProperSubsetCard<T>(a: set<T>, b: set<T>)
    requires a < b
    ensures |a| < |b|
  {
    assert b == a + (b - a);
    assert b - a != {};
  }

  /** A sequence without repetitions has as many distinct elements as entries. */
  lemma {:induction false} DistinctCard<T>(s: seq<T>)
    requires Distinct(s)
    ensures |set x | x in s| == |s|
  {
    if |s| > 0 {
      DistinctCard(s[1..]);
      assert (set x | x in s) == (set x | x in s[1..]) + {s[0]};
      assert s[0] !in s[1..];
    }
  }

  /** A sequence has at most as many distinct elements as entries. */
  lemma {:induction false} SetOfSeqCard<T>(s: seq<T>)
    ensures |set x | x in s| <= |s|
  {
    if |s| > 0 {
      SetOfSeqCard(s[1..]);
      assert (set x | x in s) == (set x | x in s[1..]) + {s[0]};
    }
  }

  /** Pigeonhole: fewer than n distinct positions below n leave one out. */
  lemma PositionLeftOut(pos: seq<nat>, n: nat)
    requires Distinct(pos)
    requires forall t :: 0 <= t < |pos| ==> pos[t] < n
    requires |pos| < n
    ensures exists j :: 0 <= j < n && j !in pos
  {
    DistinctCard(pos);
    if forall j :: 0 <= j < n ==> j in pos {
      assert Positions(n) <= set x | x in pos;
      SubsetCard(Positions(n), set x | x in pos);
      assert false;
    }
  }

  /** A set of positions on which `ids` is one-to-one and lands in `s` has at
      most |s| elements. */
  lemma {:induction false} InjectiveCard(p: set<nat>, ids: seq<int>, s: set<int>)
    requires forall i :: i in p ==> i < |ids| && ids[i] in s
    requires forall i, j :: i in p && j in p && ids[i] == ids[j] ==> i == j
    ensures |p| <= |s|
    decreases p
  {
    if p != {} {
      var i :| i in p;
      InjectiveCard(p - {i}, ids, s - {ids[i]});
    }
  }

  /** The least q with q * d >= n: `ceil(n / d)`. */
  function CeilDiv(n: nat, d: nat): (q: nat)
    requires d > 0
    ensures q * d >= n
    ensures q == 0 || (q - 1) * d < n
  {
    var q := (n + d - 1) / d;
    assert n + d - 1 == q * d + (n + d - 1) % d;
    q
  }

  lemma MulLessCancel(a: nat, b: nat, c: nat)
    requires a * c < b * c
    ensures a < b
  {
  }

  /** The two bounds of `CeilDiv` determine it. */
  lemma CeilDivUnique(n: nat, d: nat, r: nat)
    requires d > 0 && r * d >= n && (r == 0 || (r - 1) * d < n)
    ensures r == CeilDiv(n, d)
  {
    var q := CeilDiv(n, d);
    if q > 0 {
      MulLessCancel(q - 1, r, d);
    }
    if r > 0 {
      MulLessCancel(r - 1, q, d);
    }
  }
}
