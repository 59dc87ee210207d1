/** Counting over lists, and the list of all tuples inside a box.

    Every counting result of the builder is a statement about `Count` over
    `Tuples`, and `CountIsCardinality` says what such a count is: the number of
    distinct tuples with the property. */
module Counting {

  datatype Option<+T> = None | Some(value: T)

  function Smaller(a: int, b: int): int { if a <= b then a else b }
  function Larger(a: int, b: int): int { if a >= b then a else b }

  function Power2(n: nat): nat { if n == 0 then 1 else 2 * Power2(n - 1) }

  lemma {:induction false} SubsetSize<T>(a: set<T>, b: set<T>)
    requires a <= b
    ensures |a| <= |b|
  {
    if a != {} {
      var x :| x in a;
      SubsetSize(a - {x}, b - {x});
    }
  }

  /** A position in a box: one index per axis. */
  type Tuple = seq<nat>

  /** How many entries of `xs` satisfy `p`. */
  function Count<T>(xs: seq<T>, p: T -> bool): nat {
    if xs == [] then 0 else (if p(xs[0]) then 1 else 0) + Count(xs[1..], p)
  }

  /** The entries of `xs` on which `f` is defined, mapped through it. */
  function FilterMap<A, B>(xs: seq<A>, f: A -> Option<B>): seq<B> {
    if xs == [] then []
    else
      var rest := FilterMap(xs[1..], f);
      match f(xs[0])
      case None => rest
      case Some(y) => [y] + rest
  }

  lemma {:induction false} CountAppend<T>(xs: seq<T>, ys: seq<T>, p: T -> bool)
    ensures Count(xs + ys, p) == Count(xs, p) + Count(ys, p)
  {
    if xs == [] {
      assert xs + ys == ys;
    } else {
      assert (xs + ys)[1..] == xs[1..] + ys;
      CountAppend(xs[1..], ys, p);
    }
  }

  lemma CountFrom<T>(xs: seq<T>, i: nat, p: T -> bool)
    requires i < |xs|
    ensures Count(xs[i..], p) == (if p(xs[i]) then 1 else 0) + Count(xs[i+1..], p)
  {
    assert xs[i..][1..] == xs[i+1..];
  }

  lemma {:induction false} CountCongruent<T>(xs: seq<T>, p: T -> bool, q: T -> bool)
    requires forall x :: x in xs ==> p(x) == q(x)
    ensures Count(xs, p) == Count(xs, q)
  {
    if xs != [] {
      assert xs[0] in xs;
      assert forall x :: x in xs[1..] ==> x in xs;
      CountCongruent(xs[1..], p, q);
    }
  }

  lemma {:induction false} CountNone<T>(xs: seq<T>, p: T -> bool)
    requires forall x :: x in xs ==> !p(x)
    ensures Count(xs, p) == 0
  {
    if xs != [] {
      assert xs[0] in xs;
      assert forall x :: x in xs[1..] ==> x in xs;
      CountNone(xs[1..], p);
    }
  }

  lemma {:induction false} CountSplit<T>(xs: seq<T>, p: T -> bool, q: T -> bool, r: T -> bool)
    requires forall x :: x in xs ==> p(x) == (q(x) || r(x)) && !(q(x) && r(x))
    ensures Count(xs, p) == Count(xs, q) + Count(xs, r)
  {
    if xs != [] {
      assert xs[0] in xs;
      assert forall x :: x in xs[1..] ==> x in xs;
      CountSplit(xs[1..], p, q, r);
    }
  }

  /** A property that holds of fewer entries, and misses one, counts less. */
  lemma {:induction false} CountLess<T>(xs: seq<T>, p: T -> bool, q: T -> bool, y: T)
    requires (forall x :: x in xs && p(x) ==> q(x)) && y in xs && q(y) && !p(y)
    ensures Count(xs, p) < Count(xs, q)
  {
    assert xs[0] in xs;
    assert forall x :: x in xs[1..] ==> x in xs;
    if y in xs[1..] {
      CountLess(xs[1..], p, q, y);
    } else {
      CountAtMost(xs[1..], p, q);
    }
  }

  lemma {:induction false} CountAtMost<T>(xs: seq<T>, p: T -> bool, q: T -> bool)
    requires forall x :: x in xs && p(x) ==> q(x)
    ensures Count(xs, p) <= Count(xs, q)
  {
    if xs != [] {
      assert xs[0] in xs;
      assert forall x :: x in xs[1..] ==> x in xs;
      CountAtMost(xs[1..], p, q);
    }
  }

  lemma {:induction false} MultiplicityIsCount<T>(xs: seq<T>, y: T, p: T -> bool)
    requires forall x :: x in xs ==> p(x) == (x == y)
    ensures multiset(xs)[y] == Count(xs, p)
  {
    if xs != [] {
      assert xs[0] in xs;
      assert xs == [xs[0]] + xs[1..];
      assert multiset(xs) == multiset{xs[0]} + multiset(xs[1..]);
      MultiplicityIsCount(xs[1..], y, p);
    }
  }

  function RemoveAt<T>(xs: seq<T>, i: nat): (r: seq<T>)
    requires i < |xs|
    ensures multiset(r) == multiset(xs) - multiset{xs[i]}
  {
    assert xs == xs[..i] + ([xs[i]] + xs[i+1..]);
    xs[..i] + xs[i+1..]
  }

  /** The position in `ys` of the first entry of its permutation `xs`, the tails
      being permutations again. */
  lemma MatchFirst<T>(xs: seq<T>, ys: seq<T>) returns (i: nat)
    requires xs != [] && multiset(xs) == multiset(ys)
    ensures i < |ys| && ys[i] == xs[0] && multiset(xs[1..]) == multiset(RemoveAt(ys, i))
  {
    assert xs[0] in multiset(ys);
    i :| 0 <= i < |ys| && ys[i] == xs[0];
    assert xs == [xs[0]] + xs[1..];
    assert multiset(xs[1..]) == multiset(xs) - multiset{xs[0]};
  }

  lemma {:induction false} CountByMultiset<T>(xs: seq<T>, ys: seq<T>, p: T -> bool)
    requires multiset(xs) == multiset(ys)
    ensures Count(xs, p) == Count(ys, p)
  {
    if xs == [] {
      assert |ys| == |multiset(ys)|;
    } else {
      var i := MatchFirst(xs, ys);
      CountByMultiset(xs[1..], RemoveAt(ys, i), p);
      assert ys == ys[..i] + ([ys[i]] + ys[i+1..]);
      CountAppend(ys[..i], [ys[i]] + ys[i+1..], p);
      CountAppend([ys[i]], ys[i+1..], p);
      CountAppend(ys[..i], ys[i+1..], p);
    }
  }

  lemma {:induction false} FilterMapAppend<A, B>(xs: seq<A>, ys: seq<A>, f: A -> Option<B>)
    ensures FilterMap(xs + ys, f) == FilterMap(xs, f) + FilterMap(ys, f)
  {
    if xs == [] {
      assert xs + ys == ys;
    } else {
      assert (xs + ys)[1..] == xs[1..] + ys;
      FilterMapAppend(xs[1..], ys, f);
    }
  }

  lemma {:induction false} FilterMapCongruent<A, B>(xs: seq<A>, f: A -> Option<B>, g: A -> Option<B>)
    requires forall x :: x in xs ==> f(x) == g(x)
    ensures FilterMap(xs, f) == FilterMap(xs, g)
  {
    if xs != [] {
      assert xs[0] in xs;
      assert forall x :: x in xs[1..] ==> x in xs;
      FilterMapCongruent(xs[1..], f, g);
    }
  }

  lemma {:induction false} FilterMapMember<A, B>(xs: seq<A>, f: A -> Option<B>, y: B)
    requires y in FilterMap(xs, f)
    ensures exists x :: x in xs && f(x) == Some(y)
  {
    if f(xs[0]) == Some(y) {
      assert xs[0] in xs;
    } else {
      FilterMapMember(xs[1..], f, y);
      var x :| x in xs[1..] && f(x) == Some(y);
      assert x in xs;
    }
  }

  lemma {:induction false} CountFilterMap<A, B>(xs: seq<A>, f: A -> Option<B>, p: B -> bool, q: A -> bool)
    requires forall x :: x in xs ==> q(x) == (f(x).Some? && p(f(x).value))
    ensures Count(FilterMap(xs, f), p) == Count(xs, q)
  {
    if xs != [] {
      assert xs[0] in xs;
      assert forall x :: x in xs[1..] ==> x in xs;
      CountFilterMap(xs[1..], f, p, q);
    }
  }

  lemma {:induction false} FilterMapCompose<A, B, C>(xs: seq<A>, f: A -> Option<B>, g: B -> Option<C>, h: A -> Option<C>)
    requires forall x :: x in xs ==> h(x) == (if f(x).Some? then g(f(x).value) else None)
    ensures FilterMap(FilterMap(xs, f), g) == FilterMap(xs, h)
  {
    if xs != [] {
      assert xs[0] in xs;
      assert forall x :: x in xs[1..] ==> x in xs;
      FilterMapCompose(xs[1..], f, g, h);
      if f(xs[0]).Some? {
        var rest := FilterMap(xs[1..], f);
        assert ([f(xs[0]).value] + rest)[1..] == rest;
      }
    }
  }

  // ------------------------------------------------------------------
  // Boxes
  // ------------------------------------------------------------------

  predicate InBox(t: Tuple, sizes: seq<nat>) {
    |t| == |sizes| && forall i :: 0 <= i < |t| ==> t[i] < sizes[i]
  }

  function Extend(ts: seq<Tuple>, k: nat): (r: seq<Tuple>)
    ensures |r| == |ts| && forall i :: 0 <= i < |ts| ==> r[i] == ts[i] + [k]
  {
    seq(|ts|, i requires 0 <= i < |ts| => ts[i] + [k])
  }

  /** Every tuple of `ts` with last index 0, then every tuple with last index 1, ... */
  function Spread(ts: seq<Tuple>, size: nat): seq<Tuple> {
    if size == 0 then [] else Spread(ts, size - 1) + Extend(ts, size - 1)
  }

  /** All tuples of the box.  With every size 2 the position of a tuple in this
      list is the bitmask of its non-zero axes. */
  function Tuples(sizes: seq<nat>): seq<Tuple> {
    if sizes == [] then [[]]
    else Spread(Tuples(sizes[..|sizes|-1]), sizes[|sizes|-1])
  }

  function Product(sizes: seq<nat>): nat {
    if sizes == [] then 1 else Product(sizes[..|sizes|-1]) * sizes[|sizes|-1]
  }

  lemma {:induction false} SpreadMember(ts: seq<Tuple>, size: nat, t: Tuple)
    ensures t in Spread(ts, size) <==> t != [] && t[..|t|-1] in ts && t[|t|-1] < size
  {
    if size > 0 {
      SpreadMember(ts, size - 1, t);
      var e := Extend(ts, size - 1);
      if t in e {
        var i :| 0 <= i < |e| && e[i] == t;
        assert t[..|t|-1] == ts[i];
      }
      if t != [] && t[..|t|-1] in ts && t[|t|-1] == size - 1 {
        var i :| 0 <= i < |ts| && ts[i] == t[..|t|-1];
        assert e[i] == t;
      }
    }
  }

  lemma {:induction false} TuplesMember(sizes: seq<nat>, t: Tuple)
    ensures t in Tuples(sizes) <==> InBox(t, sizes)
  {
    if sizes == [] {
      assert t in Tuples(sizes) <==> t == [];
    } else {
      var n := |sizes| - 1;
      SpreadMember(Tuples(sizes[..n]), sizes[n], t);
      if t != [] {
        TuplesMember(sizes[..n], t[..|t|-1]);
        BoxLast(t, sizes);
      }
    }
  }

  lemma BoxLast(t: Tuple, sizes: seq<nat>)
    requires t != [] && sizes != []
    ensures InBox(t, sizes) <==> InBox(t[..|t|-1], sizes[..|sizes|-1]) && t[|t|-1] < sizes[|sizes|-1]
  {
    if InBox(t[..|t|-1], sizes[..|sizes|-1]) && t[|t|-1] < sizes[|sizes|-1] {
      forall i | 0 <= i < |t| ensures t[i] < sizes[i] {
        if i < |t| - 1 { assert t[..|t|-1][i] < sizes[..|sizes|-1][i]; }
      }
    }
  }

  predicate Distinct<T(==)>(xs: seq<T>) {
    forall i, j :: 0 <= i < j < |xs| ==> xs[i] != xs[j]
  }

  lemma ExtendDistinct(ts: seq<Tuple>, k: nat)
    requires Distinct(ts)
    ensures Distinct(Extend(ts, k))
  {
    var e := Extend(ts, k);
    forall i, j | 0 <= i < j < |e| ensures e[i] != e[j] {
      assert e[i][..|e[i]|-1] == ts[i] && e[j][..|e[j]|-1] == ts[j];
    }
  }

  lemma DistinctAppend<T>(xs: seq<T>, ys: seq<T>)
    requires Distinct(xs) && Distinct(ys)
    requires forall i, j :: 0 <= i < |xs| && 0 <= j < |ys| ==> xs[i] != ys[j]
    ensures Distinct(xs + ys)
  {
  }

  lemma {:induction false} SpreadDistinct(ts: seq<Tuple>, size: nat)
    requires Distinct(ts)
    ensures Distinct(Spread(ts, size))
  {
    if size > 0 {
      SpreadDistinct(ts, size - 1);
      var s, e := Spread(ts, size - 1), Extend(ts, size - 1);
      forall i, j | 0 <= i < |s| && 0 <= j < |e| ensures s[i] != e[j] {
        SpreadMember(ts, size - 1, s[i]);
        assert s[i] in s;
      }
      ExtendDistinct(ts, size - 1);
      DistinctAppend(s, e);
    }
  }

  lemma {:induction false} SpreadLength(ts: seq<Tuple>, size: nat)
    ensures |Spread(ts, size)| == |ts| * size
  {
    if size > 0 { SpreadLength(ts, size - 1); }
  }

  lemma {:induction false} TuplesDistinct(sizes: seq<nat>)
    ensures Distinct(Tuples(sizes)) && |Tuples(sizes)| == Product(sizes)
  {
    if sizes != [] {
      TuplesDistinct(sizes[..|sizes|-1]);
      SpreadDistinct(Tuples(sizes[..|sizes|-1]), sizes[|sizes|-1]);
      SpreadLength(Tuples(sizes[..|sizes|-1]), sizes[|sizes|-1]);
    }
  }

  /** On a list without repetitions a count is a cardinality. */
  lemma {:induction false} CountIsCardinality<T>(xs: seq<T>, p: T -> bool, s: set<T>)
    requires Distinct(xs)
    requires forall x :: x in s ==> x in xs && p(x)
    requires forall x :: x in xs && p(x) ==> x in s
    ensures Count(xs, p) == |s|
  {
    if xs == [] {
      assert s == {};
    } else {
      assert xs == [xs[0]] + xs[1..];
      assert xs[0] !in xs[1..];
      CountIsCardinality(xs[1..], p, s - {xs[0]});
    }
  }

  // ------------------------------------------------------------------
  // Sums over lists
  // ------------------------------------------------------------------

  function SumOver<T>(xs: seq<T>, f: T -> nat): nat {
    if xs == [] then 0 else f(xs[0]) + SumOver(xs[1..], f)
  }

  lemma {:induction false} SumOverAppend<T>(xs: seq<T>, ys: seq<T>, f: T -> nat)
    ensures SumOver(xs + ys, f) == SumOver(xs, f) + SumOver(ys, f)
  {
    if xs == [] {
      assert xs + ys == ys;
    } else {
      assert (xs + ys)[1..] == xs[1..] + ys;
      SumOverAppend(xs[1..], ys, f);
    }
  }

  lemma {:induction false} SumOverCongruent<T>(xs: seq<T>, f: T -> nat, g: T -> nat)
    requires forall x :: x in xs ==> f(x) == g(x)
    ensures SumOver(xs, f) == SumOver(xs, g)
  {
    if xs != [] {
      assert xs[0] in xs;
      assert forall x :: x in xs[1..] ==> x in xs;
      SumOverCongruent(xs[1..], f, g);
    }
  }

  lemma {:induction false} SumOverByMultiset<T>(xs: seq<T>, ys: seq<T>, f: T -> nat)
    requires multiset(xs) == multiset(ys)
    ensures SumOver(xs, f) == SumOver(ys, f)
  {
    if xs == [] {
      assert |ys| == |multiset(ys)|;
    } else {
      var i := MatchFirst(xs, ys);
      SumOverByMultiset(xs[1..], RemoveAt(ys, i), f);
      assert ys == ys[..i] + ([ys[i]] + ys[i+1..]);
      SumOverAppend(ys[..i], [ys[i]] + ys[i+1..], f);
      SumOverAppend(ys[..i], ys[i+1..], f);
      assert ([ys[i]] + ys[i+1..])[1..] == ys[i+1..];
    }
  }

  lemma {:induction false} ZeroSum<T>(xs: seq<T>, f: T -> nat)
    requires forall x :: x in xs ==> f(x) == 0
    ensures SumOver(xs, f) == 0
  {
    if xs != [] {
      assert xs[0] in xs;
      assert forall x :: x in xs[1..] ==> x in xs;
      ZeroSum(xs[1..], f);
    }
  }

  lemma {:induction false} AddHits<T>(xs: seq<T>, hit: T -> bool, f: T -> nat, g: T -> nat)
    requires forall x :: x in xs ==> g(x) == f(x) + if hit(x) then 1 else 0
    ensures SumOver(xs, g) == SumOver(xs, f) + Count(xs, hit)
  {
    if xs != [] {
      assert xs[0] in xs;
      assert forall x :: x in xs[1..] ==> x in xs;
      AddHits(xs[1..], hit, f, g);
    }
  }

  /** A list with repetition counts, written out. */
  function Expand<T>(entries: seq<(T, nat)>): seq<T> {
    if entries == [] then [] else Repeat(entries[0].0, entries[0].1) + Expand(entries[1..])
  }

  function Repeat<T>(x: T, n: nat): (r: seq<T>)
    ensures |r| == n && forall i :: 0 <= i < n ==> r[i] == x
  {
    seq(n, i => x)
  }

  lemma {:induction false} SumRepeat<T>(x: T, n: nat, f: T -> nat)
    ensures SumOver(Repeat(x, n), f) == n * f(x)
  {
    if n > 0 {
      assert Repeat(x, n)[1..] == Repeat(x, n - 1);
      SumRepeat(x, n - 1, f);
    }
  }

  lemma {:induction false} CountRepeat<T>(x: T, n: nat, p: T -> bool)
    ensures Count(Repeat(x, n), p) == if p(x) then n else 0
  {
    if n > 0 {
      assert Repeat(x, n)[1..] == Repeat(x, n - 1);
      CountRepeat(x, n - 1, p);
    }
  }

  /** Summing over the written-out list is summing entry by entry with multiplicity. */
  lemma {:induction false} SumExpand<T>(entries: seq<(T, nat)>, f: T -> nat, g: ((T, nat)) -> nat)
    requires forall e :: e in entries ==> g(e) == e.1 * f(e.0)
    ensures SumOver(Expand(entries), f) == SumOver(entries, g)
  {
    if entries != [] {
      assert entries[0] in entries;
      assert forall e :: e in entries[1..] ==> e in entries;
      SumExpand(entries[1..], f, g);
      SumOverAppend(Repeat(entries[0].0, entries[0].1), Expand(entries[1..]), f);
      SumRepeat(entries[0].0, entries[0].1, f);
    }
  }

  lemma {:induction false} CountExpand<T>(entries: seq<(T, nat)>, p: T -> bool, g: ((T, nat)) -> nat)
    requires forall e :: e in entries ==> g(e) == if p(e.0) then e.1 else 0
    ensures Count(Expand(entries), p) == SumOver(entries, g)
  {
    if entries != [] {
      assert entries[0] in entries;
      assert forall e :: e in entries[1..] ==> e in entries;
      CountExpand(entries[1..], p, g);
      CountAppend(Repeat(entries[0].0, entries[0].1), Expand(entries[1..]), p);
      CountRepeat(entries[0].0, entries[0].1, p);
    }
  }

  // ------------------------------------------------------------------
  // A box as the join of two boxes
  // ------------------------------------------------------------------

  function AppendTo(ts: seq<Tuple>, r: Tuple): (us: seq<Tuple>)
    ensures |us| == |ts| && forall i :: 0 <= i < |ts| ==> us[i] == ts[i] + r
  {
    seq(|ts|, i requires 0 <= i < |ts| => ts[i] + r)
  }

  /** Every tuple of `ls` followed by every tuple of `rs`. */
  function Join(ls: seq<Tuple>, rs: seq<Tuple>): seq<Tuple> {
    if rs == [] then [] else AppendTo(ls, rs[0]) + Join(ls, rs[1..])
  }

  lemma {:induction false} JoinAppend(ls: seq<Tuple>, rs: seq<Tuple>, us: seq<Tuple>)
    ensures Join(ls, rs + us) == Join(ls, rs) + Join(ls, us)
  {
    if rs == [] {
      assert rs + us == us;
    } else {
      assert (rs + us)[1..] == rs[1..] + us;
      JoinAppend(ls, rs[1..], us);
    }
  }

  lemma ExtendAppend(xs: seq<Tuple>, ys: seq<Tuple>, k: nat)
    ensures Extend(xs + ys, k) == Extend(xs, k) + Extend(ys, k)
  {
  }

  lemma {:induction false} JoinExtend(ls: seq<Tuple>, rs: seq<Tuple>, k: nat)
    ensures Join(ls, Extend(rs, k)) == Extend(Join(ls, rs), k)
  {
    if rs != [] {
      assert Extend(rs, k)[1..] == Extend(rs[1..], k);
      JoinExtend(ls, rs[1..], k);
      ExtendAppend(AppendTo(ls, rs[0]), Join(ls, rs[1..]), k);
      var a, b := AppendTo(ls, rs[0] + [k]), Extend(AppendTo(ls, rs[0]), k);
      forall i | 0 <= i < |ls| ensures a[i] == b[i] { assert ls[i] + (rs[0] + [k]) == (ls[i] + rs[0]) + [k]; }
      assert a == b;
    }
  }

  lemma JoinNothing(ls: seq<Tuple>)
    ensures Join(ls, []) == []
  {
  }

  lemma {:induction false} JoinSpread(ls: seq<Tuple>, rs: seq<Tuple>, size: nat)
    ensures Join(ls, Spread(rs, size)) == Spread(Join(ls, rs), size)
  {
    JoinNothing(ls);
    hide Join, Extend;
    if size > 0 {
      JoinSpread(ls, rs, size - 1);
      JoinAppend(ls, Spread(rs, size - 1), Extend(rs, size - 1));
      JoinExtend(ls, rs, size - 1);
    }
  }

  /** The tuples of a longer box are the pairs of tuples of its two parts. */
  lemma {:induction false} TuplesJoin(a: seq<nat>, b: seq<nat>)
    ensures Tuples(a + b) == Join(Tuples(a), Tuples(b))
    decreases |b|
  {
    var ls := Tuples(a);
    if b == [] {
      assert a + b == a;
      var e: Tuple := [];
      forall i | 0 <= i < |ls| ensures AppendTo(ls, e)[i] == ls[i] { assert ls[i] + e == ls[i]; }
      assert AppendTo(ls, e) == ls;
      assert Tuples(b) == [e] && [e][1..] == [];
      assert Join(ls, [e][1..]) == [];
    } else {
      var n := |b| - 1;
      assert (a + b)[..|a + b| - 1] == a + b[..n];
      TuplesJoin(a, b[..n]);
      JoinSpread(ls, Tuples(b[..n]), b[n]);
    }
  }

  lemma {:induction false} CountAppendTo(ls: seq<Tuple>, r: Tuple, p: Tuple -> bool)
    ensures Count(AppendTo(ls, r), p) == Count(ls, l => p(l + r))
  {
    if ls != [] {
      assert AppendTo(ls, r)[1..] == AppendTo(ls[1..], r);
      CountAppendTo(ls[1..], r, p);
      CountCongruent(ls[1..], l => p(l + r), l => p(l + r));
    }
  }

  /** Counting in a joined list is counting on the left for every entry on the right. */
  lemma {:induction false} CountJoin(ls: seq<Tuple>, rs: seq<Tuple>, p: Tuple -> bool)
    ensures Count(Join(ls, rs), p) == SumOver(rs, r => Count(ls, l => p(l + r)))
  {
    if rs != [] {
      CountJoin(ls, rs[1..], p);
      CountAppend(AppendTo(ls, rs[0]), Join(ls, rs[1..]), p);
      CountAppendTo(ls, rs[0], p);
      SumOverCongruent(rs[1..], r => Count(ls, l => p(l + r)), r => Count(ls, l => p(l + r)));
    }
  }
}
