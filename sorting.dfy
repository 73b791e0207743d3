/**
 * The table screens' column sort: `descendingComparator`, `getComparator`
 * and `stableSort` (Stocks, Inventory and Billing each carry an identical
 * copy). `stableSort` pairs every row with its position, sorts the pairs by
 * the comparator with the position as tie-breaker, and drops the positions.
 *
 * `StableSort` is that sort carried out in place on an array of pairs
 * (insertion sort); `StableSorted` is its specification, an insertion sort
 * on sequences. Because the tie-broken order is a strict total order on the
 * pairs, there is exactly one strictly sorted arrangement of them
 * (`SortedUnique`), which is how the two are proved to agree.
 */
module Sorting {
  import opened Values

  datatype Order = Asc | Desc

  /** What `getComparator(order, orderBy)` builds. */
  datatype Comparator = Comparator(order: Order, orderBy: string)

  /** `descendingComparator(a, b, orderBy)`: -1 when b's key is below a's, 1 when above, 0 otherwise. */
  function DescendingComparator(a: Row, b: Row, orderBy: string): (r: int)
    ensures r == 0 <==> Get(a, orderBy) == Get(b, orderBy)
    ensures -1 <= r <= 1
  {
    LessTotal(Get(a, orderBy), Get(b, orderBy));
    LessIrreflexive(Get(a, orderBy));
    if Less(Get(b, orderBy), Get(a, orderBy)) then -1
    else if Less(Get(a, orderBy), Get(b, orderBy)) then 1
    else 0
  }

  /** Swapping the rows negates the descending comparator. */
  lemma DescendingAntisymmetric(a: Row, b: Row, orderBy: string)
    ensures DescendingComparator(a, b, orderBy) == -DescendingComparator(b, a, orderBy)
  {
    var ka, kb := Get(a, orderBy), Get(b, orderBy);
    if Less(ka, kb) {
      LessAsymmetric(ka, kb);
    }
  }

  /** The comparator `getComparator(order, orderBy)` returns, applied to two rows. */
  function Apply(c: Comparator, a: Row, b: Row): int {
    if c.order == Desc then DescendingComparator(a, b, c.orderBy)
    else -DescendingComparator(a, b, c.orderBy)
  }

  /** Ascending order puts a row first exactly when its key is lower; descending when it is higher. */
  lemma ApplyMeaning(c: Comparator, a: Row, b: Row)
    ensures Apply(c, a, b) < 0 <==>
      if c.order == Asc then Less(Get(a, c.orderBy), Get(b, c.orderBy))
      else Less(Get(b, c.orderBy), Get(a, c.orderBy))
    ensures Apply(c, a, b) == 0 <==> Get(a, c.orderBy) == Get(b, c.orderBy)
  {
    var ka, kb := Get(a, c.orderBy), Get(b, c.orderBy);
    LessIrreflexive(ka);
    if Less(ka, kb) {
      LessAsymmetric(ka, kb);
    }
  }

  /**
   * `handleRequestSort(event, property)`: clicking the active column while
   * it is ascending makes it descending; any other click sorts `property`
   * ascending.
   */
  function RequestSort(c: Comparator, property: string): (r: Comparator)
    ensures r.orderBy == property
    ensures r.order == Desc <==> c.orderBy == property && c.order == Asc
  {
    var isAsc := c.orderBy == property && c.order == Asc;
    Comparator(if isAsc then Desc else Asc, property)
  }

  /** Repeated clicks on one column alternate between ascending and descending. */
  lemma RequestSortAlternates(c: Comparator, property: string)
    ensures RequestSort(RequestSort(c, property), property).order != RequestSort(c, property).order
    ensures RequestSort(RequestSort(RequestSort(c, property), property), property) == RequestSort(c, property)
  {
  }

  /** The ascending comparator is the negation of the descending one. */
  lemma AscendingNegatesDescending(a: Row, b: Row, orderBy: string)
    ensures Apply(Comparator(Asc, orderBy), a, b) == -Apply(Comparator(Desc, orderBy), a, b)
    ensures Apply(Comparator(Asc, orderBy), a, b) == Apply(Comparator(Desc, orderBy), b, a)
  {
    DescendingAntisymmetric(a, b, orderBy);
  }

  /** A row with the position it had before sorting. */
  type Pair = (Row, int)

  /** The comparison `stableSort` hands to `Array.prototype.sort`. */
  function TieBroken(c: Comparator, p: Pair, q: Pair): int {
    var order := Apply(c, p.0, q.0);
    if order != 0 then order else p.1 - q.1
  }

  /** `p` sorts strictly before `q`. */
  predicate Before(c: Comparator, p: Pair, q: Pair) {
    TieBroken(c, p, q) < 0
  }

  lemma BeforeIrreflexive(c: Comparator, p: Pair)
    ensures !Before(c, p, p)
  {
  }

  lemma BeforeTransitive(c: Comparator, p: Pair, q: Pair, r: Pair)
    requires Before(c, p, q) && Before(c, q, r)
    ensures Before(c, p, r)
  {
    ApplyMeaning(c, p.0, q.0);
    ApplyMeaning(c, q.0, r.0);
    ApplyMeaning(c, p.0, r.0);
    var kp, kq, kr := Get(p.0, c.orderBy), Get(q.0, c.orderBy), Get(r.0, c.orderBy);
    if c.order == Asc {
      if Less(kp, kq) && Less(kq, kr) {
        LessTransitive(kp, kq, kr);
      }
    } else {
      if Less(kq, kp) && Less(kr, kq) {
        LessTransitive(kr, kq, kp);
      }
    }
    if kp == kr && kp != kq {
      LessAsymmetric(kp, kq);
      LessAsymmetric(kq, kp);
    }
  }

  lemma BeforeTotal(c: Comparator, p: Pair, q: Pair)
    requires p.1 != q.1
    ensures Before(c, p, q) || Before(c, q, p)
  {
    DescendingAntisymmetric(p.0, q.0, c.orderBy);
  }

  lemma BeforeAsymmetric(c: Comparator, p: Pair, q: Pair)
    requires Before(c, p, q)
    ensures !Before(c, q, p)
  {
    if Before(c, q, p) {
      BeforeTransitive(c, p, q, p);
    }
  }

  /** `array.map((el, index) => [el, index])`. */
  function Stabilize(s: seq<Row>): (p: seq<Pair>)
    ensures |p| == |s|
    ensures forall k :: 0 <= k < |s| ==> p[k] == (s[k], k)
  {
    seq(|s|, k requires 0 <= k < |s| => (s[k], k))
  }

  /** `stabilizedThis.map((el) => el[0])`. */
  function Fst(p: seq<Pair>): (s: seq<Row>)
    ensures |s| == |p|
    ensures forall k :: 0 <= k < |p| ==> s[k] == p[k].0
  {
    seq(|p|, k requires 0 <= k < |p| => p[k].0)
  }

  function Snd(p: seq<Pair>): (s: seq<int>)
    ensures |s| == |p|
    ensures forall k :: 0 <= k < |p| ==> s[k] == p[k].1
  {
    seq(|p|, k requires 0 <= k < |p| => p[k].1)
  }

  predicate StrictlySorted(c: Comparator, s: seq<Pair>) {
    forall i, j :: 0 <= i < j < |s| ==> Before(c, s[i], s[j])
  }

  predicate DistinctIndices(s: seq<Pair>) {
    forall i, j :: 0 <= i < j < |s| ==> s[i].1 != s[j].1
  }

  // ---------------------------------------------------------------------
  // The reference sort
  // ---------------------------------------------------------------------

  function Insert(c: Comparator, x: Pair, s: seq<Pair>): seq<Pair>
    decreases |s|
  {
    if s == [] then [x]
    else if Before(c, x, s[0]) then [x] + s
    else [s[0]] + Insert(c, x, s[1..])
  }

  function SortPairs(c: Comparator, s: seq<Pair>): seq<Pair>
    decreases |s|
  {
    if s == [] then [] else Insert(c, s[0], SortPairs(c, s[1..]))
  }

  lemma {:induction false} InsertMultiset(c: Comparator, x: Pair, s: seq<Pair>)
    ensures multiset(Insert(c, x, s)) == multiset(s) + multiset{x}
    decreases |s|
  {
    if s != [] && !Before(c, x, s[0]) {
      InsertMultiset(c, x, s[1..]);
      assert s == [s[0]] + s[1..];
    }
  }

  lemma {:induction false} InsertSorted(c: Comparator, x: Pair, s: seq<Pair>)
    requires StrictlySorted(c, s)
    requires forall y :: y in s ==> y.1 != x.1
    ensures StrictlySorted(c, Insert(c, x, s))
    decreases |s|
  {
    if s == [] {
    } else if Before(c, x, s[0]) {
      var r := [x] + s;
      forall i, j | 0 <= i < j < |r|
        ensures Before(c, r[i], r[j])
      {
        if i == 0 && j > 1 {
          BeforeTransitive(c, x, s[0], s[j - 1]);
        }
      }
    } else {
      BeforeTotal(c, x, s[0]);
      InsertSorted(c, x, s[1..]);
      InsertMultiset(c, x, s[1..]);
      var t := Insert(c, x, s[1..]);
      var r := [s[0]] + t;
      forall j | 0 <= j < |t|
        ensures Before(c, s[0], t[j])
      {
        assert t[j] in multiset(s[1..]) + multiset{x};
        if t[j] != x {
          var k :| 1 <= k < |s| && s[k] == t[j];
        }
      }
      forall i, j | 0 <= i < j < |r|
        ensures Before(c, r[i], r[j])
      {
        if i > 0 {
          assert r[i] == t[i - 1] && r[j] == t[j - 1];
        }
      }
    }
  }

  lemma {:induction false} SortPairsCorrect(c: Comparator, s: seq<Pair>)
    requires DistinctIndices(s)
    ensures StrictlySorted(c, SortPairs(c, s))
    ensures multiset(SortPairs(c, s)) == multiset(s)
    decreases |s|
  {
    if s != [] {
      assert DistinctIndices(s[1..]) by {
        forall i, j | 0 <= i < j < |s[1..]|
          ensures s[1..][i].1 != s[1..][j].1
        {
          assert s[1..][i] == s[i + 1] && s[1..][j] == s[j + 1];
        }
      }
      SortPairsCorrect(c, s[1..]);
      var t := SortPairs(c, s[1..]);
      forall y | y in t
        ensures y.1 != s[0].1
      {
        assert y in multiset(t);
        HeadIndexUnique(s, y);
      }
      InsertSorted(c, s[0], t);
      InsertMultiset(c, s[0], t);
      assert s == [s[0]] + s[1..];
    }
  }

  lemma HeadIndexUnique(s: seq<Pair>, y: Pair)
    requires DistinctIndices(s)
    requires s != [] && y in s[1..]
    ensures y.1 != s[0].1
  {
    var k :| 0 <= k < |s[1..]| && s[1..][k] == y;
    assert s[k + 1] == y;
  }

  lemma SortedTail(c: Comparator, a: seq<Pair>)
    requires StrictlySorted(c, a) && a != []
    ensures StrictlySorted(c, a[1..])
  {
    forall i, j | 0 <= i < j < |a| - 1
      ensures Before(c, a[1..][i], a[1..][j])
    {
      assert a[1..][i] == a[i + 1] && a[1..][j] == a[j + 1];
    }
  }

  /** Two strictly sorted arrangements of the same pairs start with the same pair. */
  lemma SortedHeadsEqual(c: Comparator, a: seq<Pair>, b: seq<Pair>)
    requires StrictlySorted(c, a) && StrictlySorted(c, b)
    requires multiset(a) == multiset(b) && a != []
    ensures b != [] && a[0] == b[0]
  {
    assert a[0] in multiset(b);
    var k :| 0 <= k < |b| && b[k] == a[0];
    assert b[0] in multiset(a);
    var m :| 0 <= m < |a| && a[m] == b[0];
    if a[0] != b[0] {
      assert Before(c, b[0], b[k]);
      assert Before(c, a[0], a[m]);
      BeforeAsymmetric(c, a[0], b[0]);
    }
  }

  /** A strictly sorted arrangement of a collection of pairs is unique. */
  lemma {:induction false} SortedUnique(c: Comparator, a: seq<Pair>, b: seq<Pair>)
    requires StrictlySorted(c, a) && StrictlySorted(c, b)
    requires multiset(a) == multiset(b)
    ensures a == b
    decreases |a|
  {
    if a == [] {
      assert |b| == |multiset(b)| == 0;
    } else {
      SortedHeadsEqual(c, a, b);
      assert a == [a[0]] + a[1..] && b == [b[0]] + b[1..];
      assert multiset(a[1..]) == multiset(a) - multiset{a[0]};
      assert multiset(b[1..]) == multiset(b) - multiset{b[0]};
      SortedTail(c, a);
      SortedTail(c, b);
      SortedUnique(c, a[1..], b[1..]);
    }
  }

  lemma FstConcat(p: seq<Pair>, q: seq<Pair>)
    ensures Fst(p + q) == Fst(p) + Fst(q)
  {
  }

  lemma {:induction false} FstPreservesMultiset(p: seq<Pair>, q: seq<Pair>)
    requires multiset(p) == multiset(q)
    ensures multiset(Fst(p)) == multiset(Fst(q))
    decreases |p|
  {
    if p == [] {
      assert |q| == |multiset(q)| == 0;
    } else {
      var x := p[0];
      assert x in multiset(q);
      var k :| 0 <= k < |q| && q[k] == x;
      var q' := q[..k] + q[k + 1..];
      assert q == q[..k] + [x] + q[k + 1..];
      assert p == [x] + p[1..];
      assert multiset(q') == multiset(q) - multiset{x};
      assert multiset(p[1..]) == multiset(p) - multiset{x};
      FstPreservesMultiset(p[1..], q');
      FstConcat([x], p[1..]);
      FstConcat(q[..k] + [x], q[k + 1..]);
      FstConcat(q[..k], [x]);
      FstConcat(q[..k], q[k + 1..]);
    }
  }

  // ---------------------------------------------------------------------
  // stableSort
  // ---------------------------------------------------------------------

  /** `stableSort(rows, getComparator(order, orderBy))`. */
  function StableSorted(c: Comparator, s: seq<Row>): seq<Row> {
    Fst(SortPairs(c, Stabilize(s)))
  }

  /** The original position of each row of `StableSorted(c, s)`. */
  function Origins(c: Comparator, s: seq<Row>): seq<int> {
    Snd(SortPairs(c, Stabilize(s)))
  }

  lemma StabilizeDistinct(s: seq<Row>)
    ensures DistinctIndices(Stabilize(s))
  {
  }

  /** Every pair the reference sort produces is a row with its own original position. */
  lemma SortedPairsAreStabilized(c: Comparator, s: seq<Row>, k: int)
    requires 0 <= k < |s|
    ensures |SortPairs(c, Stabilize(s))| == |s|
    ensures 0 <= SortPairs(c, Stabilize(s))[k].1 < |s|
    ensures SortPairs(c, Stabilize(s))[k] == (s[SortPairs(c, Stabilize(s))[k].1], SortPairs(c, Stabilize(s))[k].1)
  {
    StabilizeDistinct(s);
    SortPairsCorrect(c, Stabilize(s));
    var p := SortPairs(c, Stabilize(s));
    assert |p| == |multiset(p)| == |multiset(Stabilize(s))| == |s|;
    assert p[k] in multiset(Stabilize(s));
    var m :| 0 <= m < |s| && Stabilize(s)[m] == p[k];
  }

  /** The sorted rows are a rearrangement of the input rows. */
  lemma StableSortIsPermutation(c: Comparator, s: seq<Row>)
    ensures multiset(StableSorted(c, s)) == multiset(s)
  {
    StabilizeDistinct(s);
    SortPairsCorrect(c, Stabilize(s));
    FstPreservesMultiset(SortPairs(c, Stabilize(s)), Stabilize(s));
    assert Fst(Stabilize(s)) == s;
  }

  /** Each row comes before every later one under the comparator. */
  lemma StableSortIsOrdered(c: Comparator, s: seq<Row>)
    ensures |StableSorted(c, s)| == |s|
    ensures forall i, j :: 0 <= i < j < |s| ==> Apply(c, StableSorted(c, s)[i], StableSorted(c, s)[j]) <= 0
  {
    StabilizeDistinct(s);
    SortPairsCorrect(c, Stabilize(s));
    StableSortIsPermutation(c, s);
    assert |StableSorted(c, s)| == |multiset(StableSorted(c, s))| == |s|;
  }

  /**
   * Row k of the result is row `Origins(c, s)[k]` of the input, no position
   * is used twice, and rows with equal keys keep their original order.
   */
  lemma StableSortIsStable(c: Comparator, s: seq<Row>)
    ensures |StableSorted(c, s)| == |Origins(c, s)| == |s|
    ensures forall k :: 0 <= k < |s| ==>
      0 <= Origins(c, s)[k] < |s| && StableSorted(c, s)[k] == s[Origins(c, s)[k]]
    ensures forall i, j :: 0 <= i < j < |s| ==> Origins(c, s)[i] != Origins(c, s)[j]
    ensures forall i, j ::
      0 <= i < j < |s| && Get(StableSorted(c, s)[i], c.orderBy) == Get(StableSorted(c, s)[j], c.orderBy) ==>
        Origins(c, s)[i] < Origins(c, s)[j]
  {
    StabilizeDistinct(s);
    SortPairsCorrect(c, Stabilize(s));
    var p := SortPairs(c, Stabilize(s));
    forall k | 0 <= k < |s|
      ensures 0 <= p[k].1 < |s| && p[k] == (s[p[k].1], p[k].1)
    {
      SortedPairsAreStabilized(c, s, k);
    }
    forall i, j | 0 <= i < j < |s|
      ensures p[i].1 != p[j].1
    {
      if p[i].1 == p[j].1 {
        assert p[i] == p[j];
        BeforeIrreflexive(c, p[i]);
      }
    }
    forall i, j | 0 <= i < j < |s| && Get(p[i].0, c.orderBy) == Get(p[j].0, c.orderBy)
      ensures p[i].1 < p[j].1
    {
      ApplyMeaning(c, p[i].0, p[j].0);
    }
  }

  /** When no row carries the sort key, sorting leaves the rows as they were. */
  lemma UnkeyedSortIsIdentity(c: Comparator, s: seq<Row>)
    requires forall k :: 0 <= k < |s| ==> c.orderBy !in s[k]
    ensures StableSorted(c, s) == s
  {
    StabilizeDistinct(s);
    SortPairsCorrect(c, Stabilize(s));
    var t := Stabilize(s);
    forall i, j | 0 <= i < j < |t|
      ensures Before(c, t[i], t[j])
    {
      assert Get(t[i].0, c.orderBy) == Null == Get(t[j].0, c.orderBy);
    }
    SortedUnique(c, SortPairs(c, t), t);
    assert Fst(t) == s;
  }

  /**
   * The state in the middle of an insertion pass over `t[..i + 1]`: the
   * pair `x` being inserted sits at `j`, sorts before everything to its
   * right, and the other pairs are in order and have lower positions.
   */
  predicate PassState(c: Comparator, t: seq<Pair>, i: int, j: int, x: Pair)
    requires 0 <= j <= i < |t|
  {
    && t[j] == x
    && (forall k :: 0 <= k <= i && k != j ==> t[k].1 < x.1)
    && (forall l, m :: 0 <= l < m <= i && l != j && m != j ==> Before(c, t[l], t[m]))
    && (forall m :: j < m <= i ==> Before(c, t[j], t[m]))
  }

  /** Swapping `x` with the pair on its left keeps the pass state. */
  lemma PassStep(c: Comparator, t: seq<Pair>, i: int, j: int, x: Pair)
    requires 0 < j <= i < |t| && PassState(c, t, i, j, x)
    requires Before(c, t[j], t[j - 1])
    ensures PassState(c, t[j - 1 := t[j]][j := t[j - 1]], i, j - 1, x)
  {
    var u := t[j - 1 := t[j]][j := t[j - 1]];
    forall m | j - 1 < m <= i
      ensures Before(c, u[j - 1], u[m])
    {
      if m > j {
        BeforeTransitive(c, t[j], t[j - 1], t[m]);
      }
    }
  }

  /** When `x` stops, the whole of `t[..i + 1]` is in order. */
  lemma PassDone(c: Comparator, t: seq<Pair>, i: int, j: int, x: Pair)
    requires 0 <= j <= i < |t| && PassState(c, t, i, j, x)
    requires j == 0 || !Before(c, t[j], t[j - 1])
    ensures forall l, m :: 0 <= l < m <= i ==> Before(c, t[l], t[m])
    ensures forall k :: 0 <= k <= i ==> t[k].1 <= x.1
  {
    if j > 0 {
      BeforeTotal(c, t[j], t[j - 1]);
      forall l | 0 <= l < j
        ensures Before(c, t[l], t[j])
      {
        if l < j - 1 {
          BeforeTransitive(c, t[l], t[j - 1], t[j]);
        }
      }
    }
  }

  /**
   * One pass of the insertion sort: the pair at position `i` moves left
   * past every pair of the sorted prefix that it sorts before.
   */
  method InsertPass(c: Comparator, a: array<Pair>, i: int)
    requires 0 <= i < a.Length
    requires forall l, m :: 0 <= l < m < i ==> Before(c, a[l], a[m])
    requires forall k :: 0 <= k < i ==> a[k].1 < a[i].1
    modifies a
    ensures multiset(a[..]) == old(multiset(a[..]))
    ensures a[i + 1..] == old(a[i + 1..])
    ensures forall l, m :: 0 <= l < m <= i ==> Before(c, a[l], a[m])
    ensures forall k :: 0 <= k <= i ==> a[k].1 <= old(a[i].1)
  {
    ghost var x := a[i];
    var j := i;
    while j > 0 && Before(c, a[j], a[j - 1])
      invariant 0 <= j <= i
      invariant multiset(a[..]) == old(multiset(a[..]))
      invariant a[i + 1..] == old(a[i + 1..])
      invariant PassState(c, a[..], i, j, x)
    {
      PassStep(c, a[..], i, j, x);
      a[j - 1], a[j] := a[j], a[j - 1];
      j := j - 1;
    }
    PassDone(c, a[..], i, j, x);
  }

  /** `stableSort`, carried out in place on the array of (row, position) pairs. */
  method StableSort(c: Comparator, s: seq<Row>) returns (r: seq<Row>)
    ensures r == StableSorted(c, s)
  {
    var a := new Pair[|s|](k requires 0 <= k < |s| => (s[k], k));
    assert a[..] == Stabilize(s);
    var i := 0;
    while i < a.Length
      invariant 0 <= i <= a.Length
      invariant multiset(a[..]) == multiset(Stabilize(s))
      invariant forall l, m :: 0 <= l < m < i ==> Before(c, a[l], a[m])
      invariant a[i..] == Stabilize(s)[i..]
      invariant forall k :: 0 <= k < i ==> a[k].1 < i
    {
      assert a[i] == Stabilize(s)[i];
      InsertPass(c, a, i);
      i := i + 1;
    }
    StabilizeDistinct(s);
    SortPairsCorrect(c, Stabilize(s));
    SortedUnique(c, a[..], SortPairs(c, Stabilize(s)));
    r := Fst(a[..]);
  }
}
