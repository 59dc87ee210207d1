/** Splitting the subsets of a puzzle into pairs of half-subsets. */
module Halves {
  import opened Counting
  import opened Puzzle
  import opened Clip
  import opened Subsets

  /** What the meeting needs to know of a half-subset: its weight and running aggregate. */
  datatype Point = Point(weight: nat, agg: Vec)

  /** The question asked of every pair of half-subsets. */
  datatype Job = Job(aggregation: Aggregation, caps: Vec, needed: Vec, weightMax: Option<nat>)

  ghost predicate JobOk(job: Job) {
    |job.needed| == |job.caps| && forall k :: 0 <= k < |job.caps| ==> job.needed[k] <= job.caps[k]
  }

  predicate Meets(job: Job, l: Point, r: Point) {
    && Within(l.weight + r.weight, job.weightMax)
    && |l.agg| == |r.agg| == |job.caps| == |job.needed|
    && forall k :: 0 <= k < |job.caps| ==> Combine(job.aggregation, l.agg[k], r.agg[k], job.caps[k]) >= job.needed[k]
  }

  lemma MeetsSymmetric(job: Job, l: Point, r: Point)
    ensures Meets(job, l, r) == Meets(job, r, l)
  {
    if |l.agg| == |r.agg| == |job.caps| == |job.needed| {
      forall k | 0 <= k < |job.caps|
        ensures Combine(job.aggregation, l.agg[k], r.agg[k], job.caps[k]) == Combine(job.aggregation, r.agg[k], l.agg[k], job.caps[k])
      {
      }
    }
  }

  /** How many of `xs` meet `q`. */
  ghost function Partners(job: Job, q: Point, xs: seq<Point>): nat {
    Count(xs, x => Meets(job, q, x))
  }

  /** Pairs that meet. */
  ghost function PairTotal(job: Job, ls: seq<Point>, rs: seq<Point>): nat {
    SumOver(ls, l => Partners(job, l, rs))
  }

  lemma {:induction false} PairSwap(job: Job, ls: seq<Point>, rs: seq<Point>)
    ensures PairTotal(job, ls, rs) == PairTotal(job, rs, ls)
  {
    if ls == [] {
      ZeroSum(rs, r => Partners(job, r, ls));
    } else {
      PairSwap(job, ls[1..], rs);
      forall r | r in rs
        ensures Partners(job, r, ls) == Partners(job, r, ls[1..]) + if Meets(job, ls[0], r) then 1 else 0
      {
        MeetsSymmetric(job, ls[0], r);
      }
      AddHits(rs, r => Meets(job, ls[0], r), r => Partners(job, r, ls[1..]), r => Partners(job, r, ls));
      var head := ls[0];
      CountCongruent(rs, r => Meets(job, ls[0], r), r => Meets(job, head, r));
      assert Partners(job, head, rs) == Count(rs, r => Meets(job, head, r));
    }
  }

  /** Two lists no partner can tell apart. */
  ghost predicate Interchangeable(job: Job, xs: seq<Point>, ys: seq<Point>) {
    forall q: Point :: Partners(job, q, xs) == Partners(job, q, ys)
  }

  /** Replacing both sides by interchangeable lists keeps the number of pairs. */
  lemma ReplaceBoth(job: Job, ls: seq<Point>, rs: seq<Point>, ls': seq<Point>, rs': seq<Point>)
    requires Interchangeable(job, ls, ls') && Interchangeable(job, rs, rs')
    ensures PairTotal(job, ls, rs) == PairTotal(job, ls', rs')
  {
    SumOverCongruent(ls, l => Partners(job, l, rs), l => Partners(job, l, rs'));
    PairSwap(job, ls, rs');
    SumOverCongruent(rs', r => Partners(job, r, ls), r => Partners(job, r, ls'));
    PairSwap(job, rs', ls');
  }

  // ------------------------------------------------------------------
  // The halves of a puzzle
  // ------------------------------------------------------------------

  /** The part of a puzzle between two part indices. */
  function Slice(cp: ClippedPuzzle, lo: nat, hi: nat): ClippedPuzzle
    requires lo <= hi <= |cp.weights| == |cp.attrs| == |cp.qty| == |cp.slots| == |cp.costs|
  {
    cp.(weights := cp.weights[lo..hi], attrs := cp.attrs[lo..hi], qty := cp.qty[lo..hi],
        slots := cp.slots[lo..hi], costs := cp.costs[lo..hi])
  }

  lemma SliceWellFormed(cp: ClippedPuzzle, lo: nat, hi: nat)
    requires WellFormed(cp) && lo <= hi <= |cp.weights|
    ensures WellFormed(Slice(cp, lo, hi))
    ensures |Slice(cp, lo, hi).weights| == |Slice(cp, lo, hi).attrs| == hi - lo
    ensures forall k :: 0 <= k < |cp.caps| ==> AttrColumn(Slice(cp, lo, hi), k) == AttrColumn(cp, k)[lo..hi]
  {
  }

  /** Weight and running aggregate of one subset; the empty subset stays neutral. */
  function PointOf(cp: ClippedPuzzle, aggregation: Aggregation, t: Tuple): (p: Point)
    requires |t| <= |cp.weights| && |t| <= |cp.attrs| && IsMatrix(cp.attrs, |cp.caps|)
    ensures |p.agg| == |cp.caps|
  {
    Point(Dot(t, cp.weights),
          seq(|cp.caps|, k requires 0 <= k < |cp.caps| => Running(aggregation, t, AttrColumn(cp, k), cp.caps[k])))
  }

  ghost function PointsOf(cp: ClippedPuzzle, aggregation: Aggregation, ts: seq<Tuple>): (ps: seq<Point>)
    requires WellFormed(cp) && forall t :: t in ts ==> |t| == |cp.weights|
    ensures |ps| == |ts|
    ensures forall m :: 0 <= m < |ts| ==> ps[m] == PointOf(cp, aggregation, ts[m])
  {
    seq(|ts|, m requires 0 <= m < |ts| => assert ts[m] in ts; PointOf(cp, aggregation, ts[m]))
  }

  lemma {:induction false} DotJoin(l: Tuple, r: Tuple, v: seq<nat>)
    requires |l| + |r| == |v|
    ensures Dot(l + r, v) == Dot(l, v[..|l|]) + Dot(r, v[|l|..])
    decreases |r|
  {
    DotPrefix(l, v, v[..|l|]);
    DotJoinAny(l, r, v, v[|l|..]);
  }

  lemma {:induction false} DotPrefix(c: Tuple, v: seq<nat>, w: seq<nat>)
    requires |c| <= |v| && |c| <= |w| && forall i :: 0 <= i < |c| ==> v[i] == w[i]
    ensures Dot(c, v) == Dot(c, w)
    ensures LeastChosen(c, v) == LeastChosen(c, w) && GreatestChosen(c, v) == GreatestChosen(c, w)
  {
    if c != [] { DotPrefix(c[..|c|-1], v, w); }
  }

  lemma {:induction false} DotJoinAny(l: Tuple, r: Tuple, v: seq<nat>, w: seq<nat>)
    requires |l| + |r| <= |v| && |r| <= |w| && forall i :: 0 <= i < |r| ==> v[|l| + i] == w[i]
    ensures Dot(l + r, v) == Dot(l, v) + Dot(r, w)
    decreases |r|
  {
    if r == [] {
      assert l + r == l;
    } else {
      var n := |r| - 1;
      assert l + r == (l + r[..n]) + [r[n]];
      DotStep(l + r[..n], r[n], v);
      DotJoinAny(l, r[..n], v, w);
    }
  }

  function Both(a: Option<nat>, b: Option<nat>, pick: (int, int) -> int): Option<int> {
    match (a, b)
    case (None, _) => b
    case (_, None) => a
    case (Some(x), Some(y)) => Some(pick(x, y))
  }

  lemma {:induction false} LeastJoin(l: Tuple, r: Tuple, v: seq<nat>, w: seq<nat>)
    requires |l| + |r| <= |v| && |r| <= |w| && forall i :: 0 <= i < |r| ==> v[|l| + i] == w[i]
    ensures LeastChosen(l + r, v) == Both(LeastChosen(l, v), LeastChosen(r, w), Smaller)
    decreases |r|
  {
    if r == [] {
      assert l + r == l;
    } else {
      var n := |r| - 1;
      assert l + r == (l + r[..n]) + [r[n]] && r == r[..n] + [r[n]];
      ChosenPrefix(l + r[..n], r[n], v);
      ChosenPrefix(r[..n], r[n], w);
      LeastJoin(l, r[..n], v, w);
    }
  }

  lemma {:induction false} GreatestJoin(l: Tuple, r: Tuple, v: seq<nat>, w: seq<nat>)
    requires |l| + |r| <= |v| && |r| <= |w| && forall i :: 0 <= i < |r| ==> v[|l| + i] == w[i]
    ensures GreatestChosen(l + r, v) == Both(GreatestChosen(l, v), GreatestChosen(r, w), Larger)
    decreases |r|
  {
    if r == [] {
      assert l + r == l;
    } else {
      var n := |r| - 1;
      assert l + r == (l + r[..n]) + [r[n]] && r == r[..n] + [r[n]];
      ChosenPrefix(l + r[..n], r[n], v);
      ChosenPrefix(r[..n], r[n], w);
      GreatestJoin(l, r[..n], v, w);
    }
  }

  /** The running aggregate of a whole is the combination of its halves. */
  lemma RunningJoin(aggregation: Aggregation, l: Tuple, r: Tuple, v: seq<nat>, cap: nat)
    requires |l| + |r| == |v| && forall i :: 0 <= i < |v| ==> v[i] <= cap
    ensures Running(aggregation, l + r, v, cap)
         == Combine(aggregation, Running(aggregation, l, v[..|l|], cap), Running(aggregation, r, v[|l|..], cap), cap)
  {
    DotJoin(l, r, v);
    LeastJoin(l, r, v, v[|l|..]);
    GreatestJoin(l, r, v, v[|l|..]);
    DotPrefix(l, v, v[..|l|]);
    ChosenBounds(l, v[..|l|], cap);
    ChosenBounds(r, v[|l|..], cap);
    SaturatedSum(Dot(l, v[..|l|]), Dot(r, v[|l|..]), cap);
  }

  lemma SaturatedSum(x: nat, y: nat, cap: nat)
    ensures Smaller(Smaller(x, cap) + Smaller(y, cap), cap) == Smaller(x + y, cap)
  {
  }

  /** Does the whole subset pass, reading the empty build as the neutral element? */
  ghost predicate NeutralValid(cp: ClippedPuzzle, job: Job, c: Tuple)
    requires WellFormed(cp) && job.caps == cp.caps && JobOk(job)
  {
    |c| == |cp.weights| && Within(Dot(c, cp.weights), job.weightMax)
    && forall k :: 0 <= k < |cp.caps| ==> PointOf(cp, job.aggregation, c).agg[k] >= job.needed[k]
  }

  lemma SlicePoint(cp: ClippedPuzzle, aggregation: Aggregation, lo: nat, hi: nat, t: Tuple)
    requires WellFormed(cp) && lo <= hi <= |cp.weights| && |t| == hi - lo
    ensures WellFormed(Slice(cp, lo, hi)) && Slice(cp, lo, hi).caps == cp.caps
    ensures |Slice(cp, lo, hi).weights| == hi - lo
    ensures PointOf(Slice(cp, lo, hi), aggregation, t).weight == Dot(t, cp.weights[lo..hi])
    ensures forall k :: 0 <= k < |cp.caps| ==>
      PointOf(Slice(cp, lo, hi), aggregation, t).agg[k] == Running(aggregation, t, AttrColumn(cp, k)[lo..hi], cp.caps[k])
  {
    SliceWellFormed(cp, lo, hi);
  }

  lemma HalvesCombine(cp: ClippedPuzzle, aggregation: Aggregation, half: nat, l: Tuple, r: Tuple, k: nat)
    requires WellFormed(cp) && half <= |cp.weights| && |l| == half && |r| == |cp.weights| - half && k < |cp.caps|
    ensures |AttrColumn(cp, k)| == |cp.weights|
    ensures PointOf(cp, aggregation, l + r).agg[k] == Combine(aggregation,
        Running(aggregation, l, AttrColumn(cp, k)[0..half], cp.caps[k]),
        Running(aggregation, r, AttrColumn(cp, k)[half..|cp.weights|], cp.caps[k]), cp.caps[k])
  {
    hide Running, Combine;
    var v := AttrColumn(cp, k);
    assert v[0..half] == v[..|l|] && v[half..|cp.weights|] == v[|l|..];
    RunningJoin(aggregation, l, r, v, cp.caps[k]);
  }

  /** A whole passes exactly when its halves meet. */
  lemma HalvesMeet(cp: ClippedPuzzle, job: Job, half: nat, l: Tuple, r: Tuple)
    requires WellFormed(cp) && job.caps == cp.caps && JobOk(job)
    requires half <= |cp.weights| && |l| == half && |r| == |cp.weights| - half
    ensures WellFormed(Slice(cp, 0, half)) && WellFormed(Slice(cp, half, |cp.weights|))
    ensures NeutralValid(cp, job, l + r) ==
      Meets(job, PointOf(Slice(cp, 0, half), job.aggregation, l), PointOf(Slice(cp, half, |cp.weights|), job.aggregation, r))
  {
    SlicePoint(cp, job.aggregation, 0, half, l);
    SlicePoint(cp, job.aggregation, half, |cp.weights|, r);
    var lp := PointOf(Slice(cp, 0, half), job.aggregation, l);
    var rp := PointOf(Slice(cp, half, |cp.weights|), job.aggregation, r);
    assert Dot(l + r, cp.weights) == lp.weight + rp.weight by {
      assert cp.weights[0..half] == cp.weights[..|l|] && cp.weights[half..|cp.weights|] == cp.weights[|l|..];
      DotJoin(l, r, cp.weights);
    }
    forall k | 0 <= k < |cp.caps|
      ensures PointOf(cp, job.aggregation, l + r).agg[k] == Combine(job.aggregation, lp.agg[k], rp.agg[k], cp.caps[k])
    {
      HalvesCombine(cp, job.aggregation, half, l, r, k);
    }
    WholeMeets(cp, job, l + r, lp, rp);
  }

  lemma WholeMeets(cp: ClippedPuzzle, job: Job, c: Tuple, lp: Point, rp: Point)
    requires WellFormed(cp) && job.caps == cp.caps && JobOk(job) && |c| == |cp.weights|
    requires |lp.agg| == |rp.agg| == |cp.caps| && Dot(c, cp.weights) == lp.weight + rp.weight
    requires forall k :: 0 <= k < |cp.caps| ==>
      PointOf(cp, job.aggregation, c).agg[k] == Combine(job.aggregation, lp.agg[k], rp.agg[k], cp.caps[k])
    ensures NeutralValid(cp, job, c) == Meets(job, lp, rp)
  {
    hide Combine, Running, Dot;
  }

  lemma {:induction false} SumPoints(cp: ClippedPuzzle, aggregation: Aggregation, ts: seq<Tuple>, f: Point -> nat, g: Tuple -> nat)
    requires WellFormed(cp) && forall t :: t in ts ==> |t| == |cp.weights|
    requires forall t :: t in ts ==> g(t) == f(PointOf(cp, aggregation, t))
    ensures SumOver(PointsOf(cp, aggregation, ts), f) == SumOver(ts, g)
  {
    if ts != [] {
      assert ts[0] in ts;
      assert forall t :: t in ts[1..] ==> t in ts;
      assert PointsOf(cp, aggregation, ts)[1..] == PointsOf(cp, aggregation, ts[1..]);
      SumPoints(cp, aggregation, ts[1..], f, g);
    }
  }

  lemma {:induction false} CountPoints(cp: ClippedPuzzle, aggregation: Aggregation, ts: seq<Tuple>, p: Point -> bool, q: Tuple -> bool)
    requires WellFormed(cp) && forall t :: t in ts ==> |t| == |cp.weights|
    requires forall t :: t in ts ==> q(t) == p(PointOf(cp, aggregation, t))
    ensures Count(PointsOf(cp, aggregation, ts), p) == Count(ts, q)
  {
    if ts != [] {
      assert ts[0] in ts;
      assert forall t :: t in ts[1..] ==> t in ts;
      assert PointsOf(cp, aggregation, ts)[1..] == PointsOf(cp, aggregation, ts[1..]);
      CountPoints(cp, aggregation, ts[1..], p, q);
    }
  }

  lemma TwosJoin(a: nat, b: nat)
    ensures Twos(a) + Twos(b) == Twos(a + b)
  {
  }

  /** Every subset of a puzzle's parts, as a point. */
  ghost function SubsetPoints(cp: ClippedPuzzle, aggregation: Aggregation): seq<Point>
    requires WellFormed(cp)
  {
    SubsetLengths(|cp.weights|);
    PointsOf(cp, aggregation, Tuples(Twos(|cp.weights|)))
  }

  lemma SubsetPointsOf(cp: ClippedPuzzle, aggregation: Aggregation, n: nat)
    requires WellFormed(cp) && |cp.weights| == |cp.attrs| == n && IsMatrix(cp.attrs, |cp.caps|)
    ensures forall t :: t in Tuples(Twos(n)) ==> |t| == n
    ensures SubsetPoints(cp, aggregation) == PointsOf(cp, aggregation, Tuples(Twos(n)))
  {
    SubsetLengths(n);
    hide Tuples, Twos, WellFormed, IsMatrix;
  }

  lemma IsMatrixOf(cp: ClippedPuzzle)
    requires WellFormed(cp)
    ensures IsMatrix(cp.attrs, |cp.caps|) && |cp.weights| == |cp.attrs|
  {
  }

  /** Pairs of half-subsets that meet, the parts split before `half`. */
  ghost function HalfPairs(cp: ClippedPuzzle, job: Job, half: nat): nat
    requires WellFormed(cp) && job.caps == cp.caps && JobOk(job) && half <= |cp.weights|
  {
    SliceWellFormed(cp, 0, half);
    SliceWellFormed(cp, half, |cp.weights|);
    PairTotal(job, SubsetPoints(Slice(cp, 0, half), job.aggregation),
                   SubsetPoints(Slice(cp, half, |cp.weights|), job.aggregation))
  }

  lemma HalfPairsOf(cp: ClippedPuzzle, job: Job, half: nat, a: ClippedPuzzle, b: ClippedPuzzle)
    requires WellFormed(cp) && job.caps == cp.caps && JobOk(job) && half <= |cp.weights|
    requires a == Slice(cp, 0, half) && b == Slice(cp, half, |cp.weights|) && WellFormed(a) && WellFormed(b)
    ensures HalfPairs(cp, job, half) == PairTotal(job, SubsetPoints(a, job.aggregation), SubsetPoints(b, job.aggregation))
  {
    hide PairTotal, SubsetPoints, Slice, WellFormed;
  }

  /** ... over the listed half-subsets. */
  lemma HalfPairsListed(cp: ClippedPuzzle, job: Job, half: nat, a: ClippedPuzzle, b: ClippedPuzzle, ls: seq<Tuple>, rs: seq<Tuple>)
    requires WellFormed(cp) && job.caps == cp.caps && JobOk(job) && half <= |cp.weights|
    requires a == Slice(cp, 0, half) && b == Slice(cp, half, |cp.weights|) && WellFormed(a) && WellFormed(b)
    requires ls == Tuples(Twos(|a.weights|)) && rs == Tuples(Twos(|b.weights|))
    ensures (forall l :: l in ls ==> |l| == |a.weights|) && (forall r :: r in rs ==> |r| == |b.weights|)
    ensures HalfPairs(cp, job, half) == PairTotal(job, PointsOf(a, job.aggregation, ls), PointsOf(b, job.aggregation, rs))
  {
    IsMatrixOf(a);
    IsMatrixOf(b);
    hide *;
    HalfPairsOf(cp, job, half, a, b);
    SubsetPointsOf(a, job.aggregation, |a.weights|);
    SubsetPointsOf(b, job.aggregation, |b.weights|);
  }

  lemma SlicesAreHalves(cp: ClippedPuzzle, job: Job, half: nat, a: ClippedPuzzle, b: ClippedPuzzle, n: nat)
    requires WellFormed(cp) && job.caps == cp.caps && JobOk(job) && half <= n == |cp.weights|
    requires a == Slice(cp, 0, half) && b == Slice(cp, half, n) && WellFormed(a) && WellFormed(b)
    requires |a.weights| == half && |b.weights| == |b.attrs| == n - half && IsMatrix(b.attrs, |b.caps|)
    ensures HalfPairs(cp, job, half) == Count(Join(Tuples(Twos(half)), Tuples(Twos(n - half))), c => NeutralValid(cp, job, c))
  {
    hide *;
    var ls, rs := Tuples(Twos(half)), Tuples(Twos(n - half));
    HalfPairsListed(cp, job, half, a, b, ls, rs);
    PairsOfTuples(cp, job, half, ls, rs, a, b, PointsOf(a, job.aggregation, ls), PointsOf(b, job.aggregation, rs));
  }

  /** Subsets of the whole that pass correspond to pairs of half-subsets that meet. */
  lemma SubsetsArePairs(cp: ClippedPuzzle, job: Job, half: nat)
    requires WellFormed(cp) && job.caps == cp.caps && JobOk(job) && half <= |cp.weights|
    ensures HalfPairs(cp, job, half) == Count(Tuples(Twos(|cp.weights|)), c => NeutralValid(cp, job, c))
  {
    hide HalfPairs, NeutralValid, Count, Tuples, Join;
    var n := |cp.weights|;
    SliceWellFormed(cp, 0, half);
    SliceWellFormed(cp, half, n);
    HalfLists(half, n - half);
    SlicesAreHalves(cp, job, half, Slice(cp, 0, half), Slice(cp, half, n), n);
  }

  lemma HalfLists(a: nat, b: nat)
    ensures Tuples(Twos(a + b)) == Join(Tuples(Twos(a)), Tuples(Twos(b)))
  {
    TwosJoin(a, b);
    TuplesJoin(Twos(a), Twos(b));
  }

  lemma PairsOfTuples(cp: ClippedPuzzle, job: Job, half: nat, ls: seq<Tuple>, rs: seq<Tuple>, a: ClippedPuzzle, b: ClippedPuzzle,
                      lp: seq<Point>, rp: seq<Point>)
    requires WellFormed(cp) && job.caps == cp.caps && JobOk(job) && half <= |cp.weights|
    requires a == Slice(cp, 0, half) && b == Slice(cp, half, |cp.weights|) && WellFormed(a) && WellFormed(b)
    requires |a.weights| == half && |b.weights| == |b.attrs| == |cp.weights| - half && IsMatrix(b.attrs, |b.caps|)
    requires (forall l :: l in ls ==> |l| == half) && (forall r :: r in rs ==> |r| == |cp.weights| - half)
    requires lp == PointsOf(a, job.aggregation, ls) && rp == PointsOf(b, job.aggregation, rs)
    ensures PairTotal(job, lp, rp) == Count(Join(ls, rs), c => NeutralValid(cp, job, c))
  {
    var p := (c: Tuple) => NeutralValid(cp, job, c);
    var g := (r: Tuple) => Count(ls, l => p(l + r));
    CountJoin(ls, rs, p);
    SumOverCongruent(rs, r => Count(ls, l => p(l + r)), g);
    PairSwap(job, lp, rp);
    forall r | r in rs ensures g(r) == Partners(job, PointOf(b, job.aggregation, r), lp) {
      OneRight(cp, job, half, ls, r, p);
    }
    SumPoints(b, job.aggregation, rs, q => Partners(job, q, lp), g);
  }

  lemma OneRight(cp: ClippedPuzzle, job: Job, half: nat, ls: seq<Tuple>, r: Tuple, p: Tuple -> bool)
    requires WellFormed(cp) && job.caps == cp.caps && JobOk(job) && half <= |cp.weights|
    requires (forall l :: l in ls ==> |l| == half) && |r| == |cp.weights| - half
    requires forall c :: p(c) == NeutralValid(cp, job, c)
    ensures WellFormed(Slice(cp, 0, half)) && WellFormed(Slice(cp, half, |cp.weights|))
    ensures Count(ls, l => p(l + r))
         == Partners(job, PointOf(Slice(cp, half, |cp.weights|), job.aggregation, r), PointsOf(Slice(cp, 0, half), job.aggregation, ls))
  {
    SliceWellFormed(cp, 0, half);
    SliceWellFormed(cp, half, |cp.weights|);
    var a, q := Slice(cp, 0, half), PointOf(Slice(cp, half, |cp.weights|), job.aggregation, r);
    forall l | l in ls ensures p(l + r) == Meets(job, q, PointOf(a, job.aggregation, l)) {
      HalvesMeet(cp, job, half, l, r);
      MeetsSymmetric(job, PointOf(a, job.aggregation, l), q);
    }
    CountPoints(a, job.aggregation, ls, l => Meets(job, q, l), l => p(l + r));
  }

  // ------------------------------------------------------------------
  // The empty build
  // ------------------------------------------------------------------

  /** The empty build is counted as neutral but worth zero. */
  predicate EmptyMiscounted(job: Job) {
    job.aggregation.Min? && |job.caps| > 0 && exists k :: 0 <= k < |job.needed| && job.needed[k] > 0
  }

  /** Reading the empty build as neutral over-counts by exactly one, and only
      under min when something is required. */
  lemma NeutralOverCount(cp: ClippedPuzzle, rules: Rules, job: Job)
    requires WellFormed(cp) && job == Job(rules.aggregation, cp.caps, RequiredVector(cp, rules.semantics), rules.weightMax)
    requires !rules.duplicatesAllowed && rules.failureMode.AllMustPass? && rules.slotMax.None? && rules.moneyMax.None?
    ensures JobOk(job)
    ensures Count(Tuples(Twos(|cp.weights|)), c => NeutralValid(cp, job, c))
         == CountValid(cp, rules) + if EmptyMiscounted(job) then 1 else 0
  {
    var n := |cp.weights|;
    var ts := Tuples(Twos(n));
    assert CopyRanges(cp, rules) == Twos(n);
    SubsetLengths(n);
    FirstIsEmpty(n);
    TuplesDistinct(Twos(n));
    var empty := ts[0];
    forall c | c in ts
      ensures NeutralValid(cp, job, c) == (ValidBuild(cp, rules, c) || (c == empty && EmptyMiscounted(job)))
      ensures !(ValidBuild(cp, rules, c) && c == empty && EmptyMiscounted(job))
    {
      var m :| 0 <= m < |ts| && ts[m] == c;
      assert Chosen(c) <==> c != empty;
      NeutralOrEmpty(cp, rules, job, c);
    }
    var bad := c => c == empty && EmptyMiscounted(job);
    CountSplit(ts, c => NeutralValid(cp, job, c), c => ValidBuild(cp, rules, c), bad);
    if EmptyMiscounted(job) {
      MultiplicityIsCount(ts, empty, bad);
      OnceInDistinct(ts, 0);
    } else {
      CountNone(ts, bad);
    }
  }

  lemma OnceInDistinct(ts: seq<Tuple>, m: nat)
    requires Distinct(ts) && m < |ts|
    ensures multiset(ts)[ts[m]] == 1
  {
    assert ts == ts[..m] + ([ts[m]] + ts[m+1..]);
    assert ts[m] !in ts[..m] && ts[m] !in ts[m+1..];
  }

  lemma {:induction false} EmptyTotals(c: Tuple, v: seq<nat>)
    requires |c| <= |v| && !Chosen(c)
    ensures Dot(c, v) == 0
  {
    if c != [] {
      assert c[|c|-1] == 0;
      assert !Chosen(c[..|c|-1]) by { assert forall i :: 0 <= i < |c| - 1 ==> c[..|c|-1][i] == c[i]; }
      EmptyTotals(c[..|c|-1], v);
    }
  }

  lemma NeutralOrEmpty(cp: ClippedPuzzle, rules: Rules, job: Job, c: Tuple)
    requires WellFormed(cp) && job == Job(rules.aggregation, cp.caps, RequiredVector(cp, rules.semantics), rules.weightMax)
    requires JobOk(job) && |c| == |cp.weights|
    requires rules.failureMode.AllMustPass? && rules.slotMax.None? && rules.moneyMax.None?
    ensures Chosen(c) ==> NeutralValid(cp, job, c) == ValidBuild(cp, rules, c)
    ensures !Chosen(c) ==> NeutralValid(cp, job, c) == (ValidBuild(cp, rules, c) || EmptyMiscounted(job))
    ensures !Chosen(c) && EmptyMiscounted(job) ==> !ValidBuild(cp, rules, c)
  {
    RunningIsAggregate(cp, rules.aggregation, c);
    if !Chosen(c) {
      EmptyTotals(c, cp.weights);
      forall k | 0 <= k < |cp.caps|
        ensures PointOf(cp, job.aggregation, c).agg[k] == if job.aggregation.Min? then cp.caps[k] else 0
      {
        ChosenBounds(c, AttrColumn(cp, k), cp.caps[k]);
      }
    }
  }
}
