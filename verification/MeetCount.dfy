/** The meeting itself: group left keys by threshold, then repair the empty build. */
module MeetCount {
  import opened Counting
  import opened Puzzle
  import opened Clip
  import opened Subsets
  import opened Halves
  import opened MeetInMiddle

  /** Sum of the values whose key is one of `done`, over the first n rows. */
  ghost function Picked(keys: seq<Option<Vec>>, values: seq<nat>, done: seq<Vec>, n: nat): nat
    requires n <= |keys| == |values|
  {
    if n == 0 then 0
    else Picked(keys, values, done, n - 1) + if keys[n-1].Some? && keys[n-1].value in done then values[n-1] else 0
  }

  lemma {:induction false} PickedMore(keys: seq<Option<Vec>>, values: seq<nat>, done: seq<Vec>, thr: Vec, n: nat)
    requires n <= |keys| == |values| && thr !in done
    ensures Picked(keys, values, done + [thr], n) == Picked(keys, values, done, n) + Picked(keys, values, [thr], n)
  {
    if n > 0 { PickedMore(keys, values, done, thr, n - 1); }
  }

  lemma {:induction false} PickedNone(keys: seq<Option<Vec>>, values: seq<nat>, n: nat)
    requires n <= |keys| == |values|
    ensures Picked(keys, values, [], n) == 0
  {
    if n > 0 { PickedNone(keys, values, n - 1); }
  }

  lemma {:induction false} PickedAll(keys: seq<Option<Vec>>, values: seq<nat>, done: seq<Vec>, left: seq<Entry>, f: Entry -> nat, n: nat)
    requires n <= |keys| == |values| == |left|
    requires forall i :: 0 <= i < n ==> values[i] == f(left[i])
    requires forall i :: 0 <= i < n ==> if keys[i].Some? then keys[i].value in done else values[i] == 0
    ensures Picked(keys, values, done, n) == SumOver(left[..n], f)
  {
    if n > 0 {
      PickedAll(keys, values, done, left, f, n - 1);
      assert left[..n] == left[..n-1] + [left[n-1]];
      SumOverAppend(left[..n-1], [left[n-1]], f);
      var none: seq<Entry> := [];
      assert [left[n-1]][1..] == none;
    }
  }

  /** Distinct thresholds, in order of first appearance. */
  method DistinctThresholds(keys: seq<Option<Vec>>) returns (uniq: seq<Vec>)
    ensures Distinct(uniq)
    ensures forall i :: 0 <= i < |keys| && keys[i].Some? ==> keys[i].value in uniq
    ensures forall t :: t in uniq ==> Some(t) in keys
  {
    uniq := [];
    for i := 0 to |keys|
      invariant Distinct(uniq)
      invariant forall j :: 0 <= j < i && keys[j].Some? ==> keys[j].value in uniq
      invariant forall t :: t in uniq ==> Some(t) in keys
    {
      if keys[i].Some? && keys[i].value !in uniq { uniq := uniq + [keys[i].value]; }
    }
  }

  /** What a left key contributes: its multiplicity times its answer. */
  ghost function Contribution(job: Job, right: seq<Entry>, e: Entry): nat {
    e.1 * Answer(job, right, e.0)
  }

  ghost function Contributions(job: Job, left: seq<Entry>, right: seq<Entry>): (values: seq<nat>)
    ensures |values| == |left| && forall i :: 0 <= i < |left| ==> values[i] == Contribution(job, right, left[i])
  {
    seq(|left|, i requires 0 <= i < |left| => Contribution(job, right, left[i]))
  }

  ghost predicate Ready(job: Job, left: seq<Entry>, right: seq<Entry>, heaviest: nat) {
    JobOk(job) && EntriesOk(job, left) && EntriesOk(job, right) && Sorted(right) && NoHeavier(right, heaviest)
  }

  /** The threshold each left key demands; None for a key that cannot be completed. */
  function Demands(job: Job, left: seq<Entry>): (keys: seq<Option<Vec>>)
    requires forall e :: e in left ==> |e.0.agg| == |job.needed|
    ensures |keys| == |left|
    ensures forall i :: 0 <= i < |left| ==> |left[i].0.agg| == |job.needed|
    ensures forall i :: 0 <= i < |left| ==>
      keys[i] == if KeepLeft(job, left[i].0) then Some(Shortfall(job, left[i].0.agg)) else None
  {
    seq(|left|, i requires 0 <= i < |left| =>
      assert left[i] in left; if KeepLeft(job, left[i].0) then Some(Shortfall(job, left[i].0.agg)) else None)
  }

  /** Contribution of one row of a group: binary search into the prefix counts. */
  method RowContribution(job: Job, right: seq<Entry>, e: Entry, heaviest: nat, thr: Vec, prefix: seq<nat>) returns (v: nat)
    requires JobOk(job) && EntriesOk(job, right) && Sorted(right) && NoHeavier(right, heaviest)
    requires UnderCaps(e.0.agg, job.caps) && KeepLeft(job, e.0) && thr == Shortfall(job, e.0.agg)
    requires |prefix| == |right| + 1 && forall i :: 0 <= i <= |right| ==> prefix[i] == Covering(right[..i], thr)
    ensures v == Contribution(job, right, e)
  {
    var pos := SearchRight(right, Limit(job, e.0, heaviest));
    PrefixAnswers(job, right, e.0, heaviest, pos);
    v := e.1 * prefix[pos];
  }

  /** Total of one group: every row demanding `thr`, answered from one prefix array. */
  method GroupTotal(job: Job, left: seq<Entry>, right: seq<Entry>, heaviest: nat, keys: seq<Option<Vec>>, thr: Vec) returns (sum: nat)
    requires Ready(job, left, right, heaviest) && (forall e :: e in left ==> |e.0.agg| == |job.needed|)
    requires keys == Demands(job, left)
    ensures sum == Picked(keys, Contributions(job, left, right), [thr], |left|)
  {
    ghost var values := Contributions(job, left, right);
    var prefix := PrefixCounts(right, thr);
    sum := 0;
    for i := 0 to |left|
      invariant sum == Picked(keys, values, [thr], i)
    {
      if keys[i] == Some(thr) {
        assert left[i] in left;
        var v := RowContribution(job, right, left[i], heaviest, thr, prefix);
        sum := sum + v;
      }
    }
  }

  /** Total over all left keys, group by group. */
  method CountGroups(job: Job, left: seq<Entry>, right: seq<Entry>, heaviest: nat) returns (total: nat)
    requires Ready(job, left, right, heaviest)
    ensures total == SumOver(left, e => Contribution(job, right, e))
  {
    var keys := Demands(job, left);
    ghost var values := Contributions(job, left, right);
    var uniq := DistinctThresholds(keys);
    total := 0;
    PickedNone(keys, values, |left|);
    assert uniq[..0] == [];
    for g := 0 to |uniq|
      invariant total == Picked(keys, values, uniq[..g], |left|)
    {
      var sum := GroupTotal(job, left, right, heaviest, keys, uniq[g]);
      assert uniq[..g+1] == uniq[..g] + [uniq[g]];
      PickedMore(keys, values, uniq[..g], uniq[g], |left|);
      total := total + sum;
    }
    assert uniq[..|uniq|] == uniq;
    EveryGroup(job, left, right, heaviest, keys, uniq);
  }

  /** The groups of all thresholds add up to every left key's contribution. */
  lemma EveryGroup(job: Job, left: seq<Entry>, right: seq<Entry>, heaviest: nat, keys: seq<Option<Vec>>, uniq: seq<Vec>)
    requires Ready(job, left, right, heaviest) && (forall e :: e in left ==> |e.0.agg| == |job.needed|)
    requires keys == Demands(job, left) && forall i :: 0 <= i < |keys| && keys[i].Some? ==> keys[i].value in uniq
    ensures Picked(keys, Contributions(job, left, right), uniq, |left|) == SumOver(left, e => Contribution(job, right, e))
  {
    hide Contribution, Answer;
    var values := Contributions(job, left, right);
    forall i | 0 <= i < |left| && keys[i].None? ensures values[i] == 0 {
      NothingDropped(job, left, right, heaviest, i);
    }
    PickedAll(keys, values, uniq, left, e => Contribution(job, right, e), |left|);
    assert left[..|left|] == left;
  }

  /** A left key dropped before the grouping contributes nothing. */
  lemma NothingDropped(job: Job, left: seq<Entry>, right: seq<Entry>, heaviest: nat, i: nat)
    requires Ready(job, left, right, heaviest) && i < |left| && !KeepLeft(job, left[i].0)
    ensures Contribution(job, right, left[i]) == 0
  {
    assert left[i] in left;
    forall e | e in right ensures !Meets(job, left[i].0, e.0) {
      ThresholdIsExact(job, left[i].0, e.0, heaviest);
    }
    var l := left[i].0;
    ZeroSum(right, (e: Entry) => if Meets(job, l, e.0) then e.1 else 0);
    assert Answer(job, right, l) == 0;
  }

  /** The grouped total is the number of pairs of the written-out halves that meet. */
  lemma GroupsArePairs(job: Job, left: seq<Entry>, right: seq<Entry>, sorted: seq<Entry>)
    requires multiset(sorted) == multiset(right)
    ensures SumOver(left, e => Contribution(job, sorted, e)) == PairTotal(job, Expand(left), Expand(right))
  {
    forall l: Point ensures Answer(job, sorted, l) == Partners(job, l, Expand(right)) {
      var g := (e: Entry) => if Meets(job, l, e.0) then e.1 else 0;
      CountExpand(right, r => Meets(job, l, r), g);
      SumOverByMultiset(sorted, right, g);
      assert Answer(job, sorted, l) == SumOver(sorted, g);
    }
    SumExpand(left, l => Partners(job, l, Expand(right)), e => Contribution(job, sorted, e));
  }

  method Heaviest(right: seq<Entry>) returns (h: nat)
    ensures NoHeavier(right, h)
  {
    h := 0;
    for i := 0 to |right|
      invariant forall j :: 0 <= j < i ==> right[j].0.weight <= h
    {
      if right[i].0.weight > h { h := right[i].0.weight; }
    }
  }

  // ------------------------------------------------------------------
  // The halves, enumerated
  // ------------------------------------------------------------------

  /** Rows of the subset arrays as points; under min the empty half is repaired
      to the neutral caps. */
  function PointsFrom(table: SubsetTable, aggregation: Aggregation, caps: Vec): (points: seq<Point>)
    requires |table.weight| == |table.agg|
    requires forall m :: 0 <= m < |table.agg| ==> table.weight[m] >= 0 && forall k :: 0 <= k < |table.agg[m]| ==> table.agg[m][k] >= 0
    ensures |points| == |table.weight|
  {
    seq(|table.weight|, m requires 0 <= m < |table.weight| =>
      Point(table.weight[m],
            if m == 0 && aggregation.Min? && |caps| > 0 then caps
            else seq(|table.agg[m]|, k requires 0 <= k < |table.agg[m]| => table.agg[m][k])))
  }

  lemma ExactNonNegative(cp: ClippedPuzzle, aggregation: Aggregation, table: SubsetTable)
    requires WellFormed(cp) && TableExact(cp, aggregation, table)
    ensures forall m :: 0 <= m < |table.agg| ==> table.weight[m] >= 0 && forall k :: 0 <= k < |table.agg[m]| ==> table.agg[m][k] >= 0
  {
  }

  /** The repaired rows are exactly the neutral points of every subset. */
  lemma PointsExact(cp: ClippedPuzzle, aggregation: Aggregation, table: SubsetTable)
    requires WellFormed(cp) && TableExact(cp, aggregation, table)
    requires forall m :: 0 <= m < |table.agg| ==> table.weight[m] >= 0 && forall k :: 0 <= k < |table.agg[m]| ==> table.agg[m][k] >= 0
    ensures PointsFrom(table, aggregation, cp.caps) == SubsetPoints(cp, aggregation)
  {
    var ts := Tuples(Twos(|cp.weights|));
    SubsetLengths(|cp.weights|);
    FirstIsEmpty(|cp.weights|);
    var a, b := PointsFrom(table, aggregation, cp.caps), SubsetPoints(cp, aggregation);
    forall m | 0 <= m < |ts| ensures a[m] == b[m] {
      PointExact(cp, aggregation, table, m);
    }
  }

  lemma PointExact(cp: ClippedPuzzle, aggregation: Aggregation, table: SubsetTable, m: nat)
    requires WellFormed(cp) && TableExact(cp, aggregation, table) && m < |table.agg|
    requires forall m :: 0 <= m < |table.agg| ==> table.weight[m] >= 0 && forall k :: 0 <= k < |table.agg[m]| ==> table.agg[m][k] >= 0
    ensures |Tuples(Twos(|cp.weights|))[m]| == |cp.weights|
    ensures PointsFrom(table, aggregation, cp.caps)[m] == PointOf(cp, aggregation, Tuples(Twos(|cp.weights|))[m])
  {
    var t := Tuples(Twos(|cp.weights|))[m];
    FirstIsEmpty(|cp.weights|);
    RunningIsAggregate(cp, aggregation, t);
    var p, q := PointsFrom(table, aggregation, cp.caps)[m], PointOf(cp, aggregation, t);
    forall k | 0 <= k < |cp.caps| ensures p.agg[k] == q.agg[k] {
      ChosenBounds(t, AttrColumn(cp, k), cp.caps[k]);
    }
    assert p.agg == q.agg;
  }

  lemma PointUnderCaps(cp: ClippedPuzzle, aggregation: Aggregation, t: Tuple)
    requires WellFormed(cp) && |t| == |cp.weights|
    ensures UnderCaps(PointOf(cp, aggregation, t).agg, cp.caps)
  {
    forall k | 0 <= k < |cp.caps| ensures PointOf(cp, aggregation, t).agg[k] <= cp.caps[k] {
      ChosenBounds(t, AttrColumn(cp, k), cp.caps[k]);
    }
  }

  lemma SubsetPointsUnderCaps(cp: ClippedPuzzle, aggregation: Aggregation)
    requires WellFormed(cp)
    ensures forall p :: p in SubsetPoints(cp, aggregation) ==> UnderCaps(p.agg, cp.caps)
  {
    SubsetLengths(|cp.weights|);
    hide Tuples, UnderCaps, Running, Dot;
    var ts := Tuples(Twos(|cp.weights|));
    forall m | 0 <= m < |ts| ensures UnderCaps(SubsetPoints(cp, aggregation)[m].agg, cp.caps) {
      assert ts[m] in ts;
      PointUnderCaps(cp, aggregation, ts[m]);
    }
  }

  /** Every subset of one half, as points. */
  method EnumerateHalf(cp: ClippedPuzzle, aggregation: Aggregation) returns (points: seq<Point>)
    requires WellFormed(cp) && |cp.weights| <= MAX_ENUMERATE_PARTS && ArraysTrusted(cp.caps, aggregation)
    ensures points == SubsetPoints(cp, aggregation)
    ensures forall p :: p in points ==> UnderCaps(p.agg, cp.caps)
  {
    var table := SubsetArrays(cp, aggregation);
    ExactNonNegative(cp, aggregation, table.value);
    PointsExact(cp, aggregation, table.value);
    SubsetPointsUnderCaps(cp, aggregation);
    points := PointsFrom(table.value, aggregation, cp.caps);
  }

  // ------------------------------------------------------------------
  // The counter
  // ------------------------------------------------------------------

  /** What the counter accepts. */
  predicate Supported(cp: ClippedPuzzle, rules: Rules) {
    && !rules.duplicatesAllowed
    && |cp.weights| <= MAX_MITM_PARTS
    && rules.failureMode.AllMustPass?
    && rules.slotMax.None? && rules.moneyMax.None?
  }

  method CountPairs(job: Job, lp: seq<Point>, rp: seq<Point>) returns (total: nat)
    requires JobOk(job)
    requires forall p :: p in lp ==> UnderCaps(p.agg, job.caps)
    requires forall p :: p in rp ==> UnderCaps(p.agg, job.caps)
    ensures total == PairTotal(job, lp, rp)
  {
    var left := CollapseHalf(job, lp);
    var right := CollapseHalf(job, rp);
    var sorted := SortByWeight(right);
    assert EntriesOk(job, sorted) by {
      forall e | e in sorted ensures UnderCaps(e.0.agg, job.caps) { assert e in multiset(right); }
    }
    var h := Heaviest(sorted);
    total := CountGroups(job, left, sorted, h);
    GroupsArePairs(job, left, right, sorted);
    ReplaceBoth(job, lp, rp, Expand(left), Expand(right));
  }

  /** Meet in the middle counts exactly the valid builds, whenever its guards let
      it answer and the aggregate width has room. */
  method CountMeetInMiddle(cp: ClippedPuzzle, rules: Rules) returns (r: Result<nat>)
    requires WellFormed(cp) && ArraysTrusted(cp.caps, rules.aggregation)
    ensures r.Ok? <==> Supported(cp, rules)
    ensures r.Ok? ==> r.value == CountValid(cp, rules)
  {
    if rules.duplicatesAllowed { return Err(Unsupported); }
    if |cp.weights| > MAX_MITM_PARTS { return Err(TooManyParts); }
    if !rules.failureMode.AllMustPass? { return Err(Unsupported); }
    if rules.slotMax.Some? || rules.moneyMax.Some? { return Err(Unsupported); }
    var needed := RequiredCapacity(cp, rules);
    var job := Job(rules.aggregation, cp.caps, needed, rules.weightMax);
    NeutralOverCount(cp, rules, job);
    var n := |cp.weights|;
    var half := n / 2;
    SubsetsArePairs(cp, job, half);
    var total := CountHalves(cp, job, half);
    if EmptyMiscounted(job) { total := total - 1; }
    return Ok(total);
  }

  method CountHalves(cp: ClippedPuzzle, job: Job, half: nat) returns (total: nat)
    requires WellFormed(cp) && job.caps == cp.caps && JobOk(job) && ArraysTrusted(cp.caps, job.aggregation)
    requires half <= |cp.weights| && half <= MAX_ENUMERATE_PARTS && |cp.weights| - half <= MAX_ENUMERATE_PARTS
    ensures total == HalfPairs(cp, job, half)
  {
    SliceWellFormed(cp, 0, half);
    SliceWellFormed(cp, half, |cp.weights|);
    var a, b := Slice(cp, 0, half), Slice(cp, half, |cp.weights|);
    assert a.caps == b.caps == cp.caps && |a.weights| == half && |b.weights| == |cp.weights| - half;
    HalfPairsOf(cp, job, half, a, b);
    hide Slice, WellFormed, HalfPairs, ArraysTrusted;
    var lp := EnumerateHalf(a, job.aggregation);
    var rp := EnumerateHalf(b, job.aggregation);
    total := CountPairs(job, lp, rp);
  }

  /** Raw puzzle to answer: where meet in the middle answers, it answers what the
      reference counts. */
  method CountPuzzleByHalves(p: BuilderPuzzle) returns (r: Result<nat>)
    requires ArraysTrusted(ClipOf(p).caps, p.rules.aggregation)
    ensures r.Ok? <==> Supported(ClipOf(p), p.rules)
    ensures r.Ok? ==> r.value == TotalValid(Restocked(p))
    ensures r.Ok? && Stocked(p) ==> r.value == TotalValid(p)
  {
    var cp := ClipPuzzle(p);
    CountValidIsTotal(p);
    r := CountMeetInMiddle(cp, p.rules);
  }
}
