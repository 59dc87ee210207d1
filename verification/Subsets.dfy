/** The doubling recurrence: weight, slots, cost and aggregate of every subset,
    indexed by bitmask, computed in fixed-width integers. */
module Subsets {
  import opened Counting
  import opened Puzzle
  import opened Clip

  const MAX_ENUMERATE_PARTS := 24
  const INT16_MAX := 32767
  const INT32_MAX := 2147483647

  /** Largest value of the integer width picked for values up to `limit`; the
      widest width is not bounded here. */
  function WidthMax(limit: nat): Option<nat> {
    if limit <= INT16_MAX then Some(INT16_MAX)
    else if limit <= INT32_MAX then Some(INT32_MAX)
    else None
  }

  /** Two's-complement result of one addition in a width whose largest value is
      `max`; two operands of that width overflow by at most one period. */
  function Wrap(x: int, max: Option<nat>): int {
    match max
    case None => x
    case Some(m) => if x > m then x - (2 * m + 2) else if x < 0 - m - 1 then x + (2 * m + 2) else x
  }

  lemma WrapInside(x: nat, max: Option<nat>)
    requires max.Some? ==> x <= max.value
    ensures Wrap(x, max) == x
  {
  }

  function Twos(n: nat): (sizes: seq<nat>)
    ensures |sizes| == n && forall i :: 0 <= i < n ==> sizes[i] == 2
  {
    seq(n, i => 2)
  }

  lemma TwosStep(n: nat)
    ensures Tuples(Twos(0)) == [[]]
    ensures Tuples(Twos(n + 1)) == Extend(Tuples(Twos(n)), 0) + Extend(Tuples(Twos(n)), 1)
  {
    var ts := Tuples(Twos(n));
    assert Twos(n + 1)[..n] == Twos(n);
    assert Spread(ts, 1) == Spread(ts, 0) + Extend(ts, 0) == Extend(ts, 0);
    assert Spread(ts, 2) == Spread(ts, 1) + Extend(ts, 1);
  }

  lemma {:induction false} TwosLength(n: nat)
    ensures |Tuples(Twos(n))| == Power2(n)
  {
    TwosStep(n);
    if n > 0 { TwosLength(n - 1); TwosStep(n - 1); }
  }

  /** Bit i of a mask, by repeated halving. */
  function Bit(mask: nat, i: nat): nat {
    if i == 0 then mask % 2 else Bit(mask / 2, i - 1)
  }

  lemma {:induction false} LowBits(low: nat, n: nat, i: nat)
    requires i < n
    ensures Bit(low + Power2(n), i) == Bit(low, i)
  {
    if i > 0 {
      assert (low + Power2(n)) / 2 == low / 2 + Power2(n - 1);
      LowBits(low / 2, n - 1, i - 1);
    }
  }

  lemma {:induction false} TopBit(m: nat, n: nat)
    requires m < Power2(n + 1)
    ensures Bit(m, n) == if m < Power2(n) then 0 else 1
  {
    if n > 0 { TopBit(m / 2, n - 1); }
  }

  /** Entry m of the subset list holds exactly the parts whose bit is set in m. */
  lemma {:induction false} BitmaskOrder(n: nat, m: nat, i: nat)
    requires m < Power2(n) && i < n
    ensures |Tuples(Twos(n))| == Power2(n) && |Tuples(Twos(n))[m]| == n
    ensures Tuples(Twos(n))[m][i] == Bit(m, i)
  {
    var half := Power2(n - 1);
    var low, top := if m < half then m else m - half, if m < half then 0 else 1;
    SplitEntry(n - 1, m, low, top);
    TopBit(m, n - 1);
    if i < n - 1 {
      BitmaskOrder(n - 1, low, i);
      LowBits(low, n - 1, i);
    }
  }

  lemma SplitEntry(n: nat, m: nat, low: nat, top: nat)
    requires m == low + top * Power2(n) && low < Power2(n) && top < 2
    ensures |Tuples(Twos(n))| == Power2(n) && |Tuples(Twos(n + 1))| == Power2(n + 1)
    ensures |Tuples(Twos(n))[low]| == n
    ensures Tuples(Twos(n + 1))[m] == Tuples(Twos(n))[low] + [top]
  {
    TwosLength(n);
    TwosLength(n + 1);
    TwosStep(n);
    var ts := Tuples(Twos(n));
    assert ts[low] in ts;
    TuplesMember(Twos(n), ts[low]);
  }

  // ------------------------------------------------------------------
  // Doubling a scalar
  // ------------------------------------------------------------------

  function SumOfAll(v: seq<nat>): nat {
    if v == [] then 0 else SumOfAll(v[..|v|-1]) + v[|v|-1]
  }

  lemma SubsetLengths(n: nat)
    ensures forall t :: t in Tuples(Twos(n)) ==> |t| == n
  {
    forall t | t in Tuples(Twos(n)) ensures |t| == n { TuplesMember(Twos(n), t); }
  }

  lemma SumOfPrefix(v: seq<nat>, i: nat)
    requires i <= |v|
    ensures SumOfAll(v[..i]) <= SumOfAll(v)
    decreases |v|
  {
    if i < |v| {
      assert v[..i] == v[..|v|-1][..i];
      SumOfPrefix(v[..|v|-1], i);
    } else {
      assert v[..i] == v;
    }
  }

  lemma {:induction false} SubsetTotalBound(n: nat, t: Tuple, v: seq<nat>)
    requires n <= |v| && InBox(t, Twos(n))
    ensures Dot(t, v) <= SumOfAll(v[..n])
  {
    if n > 0 {
      assert Twos(n)[..n-1] == Twos(n - 1);
      assert InBox(t[..n-1], Twos(n - 1));
      SubsetTotalBound(n - 1, t[..n-1], v);
      assert v[..n][..n-1] == v[..n-1];
      assert t[n-1] * v[n-1] <= v[n-1] by { assert t[n-1] == 0 || t[n-1] == 1; }
    }
  }

  /** Doubling never overflows the width chosen from the column's total. */
  lemma DoublingFits(v: seq<nat>, i: nat, t: Tuple)
    requires i < |v| && t in Tuples(Twos(i))
    ensures |t| == i
    ensures Dot(t, v) + v[i] <= SumOfAll(v)
    ensures Dot(t + [0], v) == Dot(t, v) && Dot(t + [1], v) == Dot(t, v) + v[i]
  {
    TuplesMember(Twos(i), t);
    SubsetTotalBound(i, t, v);
    SumOfPrefix(v, i + 1);
    assert v[..i+1][..i] == v[..i];
    DotStep(t, 0, v);
    DotStep(t, 1, v);
  }

  ghost predicate HoldsTotals(acc: seq<int>, i: nat, v: seq<nat>)
    requires i <= |v|
  {
    && |acc| == |Tuples(Twos(i))|
    && forall m :: 0 <= m < |acc| ==> |Tuples(Twos(i))[m]| == i && acc[m] == Dot(Tuples(Twos(i))[m], v)
  }

  /** The list so far, plus the same list shifted by one value, in machine integers. */
  function DoubleScalars(acc: seq<int>, x: nat, width: Option<nat>): (r: seq<int>)
    ensures |r| == 2 * |acc|
    ensures forall m :: 0 <= m < |r| ==> r[m] == if m < |acc| then acc[m] else Wrap(acc[m - |acc|] + x, width)
  {
    acc + seq(|acc|, m requires 0 <= m < |acc| => Wrap(acc[m] + x, width))
  }

  /** Entry m of the next list is an entry of this one with a bit appended. */
  lemma NextEntry(i: nat, m: nat)
    requires m < 2 * |Tuples(Twos(i))|
    ensures |Tuples(Twos(i + 1))| == 2 * |Tuples(Twos(i))|
    ensures var n := |Tuples(Twos(i))|; var low := if m < n then m else m - n;
      Tuples(Twos(i))[low] in Tuples(Twos(i))
      && Tuples(Twos(i + 1))[m] == Tuples(Twos(i))[low] + [if m < n then 0 else 1]
      && |Tuples(Twos(i))[low]| == i && |Tuples(Twos(i + 1))[m]| == i + 1
  {
    TwosStep(i);
    SubsetLengths(i);
  }

  lemma HeldTotal(acc: seq<int>, i: nat, v: seq<nat>, m: nat)
    requires i <= |v| && HoldsTotals(acc, i, v) && m < |acc|
    ensures |acc| == |Tuples(Twos(i))| && |Tuples(Twos(i))[m]| == i && acc[m] == Dot(Tuples(Twos(i))[m], v)
  {
  }

  lemma DoubledAt(acc: seq<int>, i: nat, v: seq<nat>, width: Option<nat>, m: nat)
    requires i < |v| && HoldsTotals(acc, i, v) && width == WidthMax(Larger(SumOfAll(v), 1)) && m < 2 * |acc|
    ensures |Tuples(Twos(i + 1))| == 2 * |acc| && |Tuples(Twos(i + 1))[m]| == i + 1
    ensures DoubleScalars(acc, v[i], width)[m] == Dot(Tuples(Twos(i + 1))[m], v)
  {
    hide Tuples, Twos, Dot, Wrap, WidthMax, SumOfAll;
    var low := if m < |acc| then m else m - |acc|;
    HeldTotal(acc, i, v, low);
    NextEntry(i, m);
    var t := Tuples(Twos(i))[low];
    DoubledEntry(t, i, v, width);
    if m < |acc| {
      assert Tuples(Twos(i + 1))[m] == t + [0];
    } else {
      assert Tuples(Twos(i + 1))[m] == t + [1];
    }
  }

  lemma DoubleHolds(acc: seq<int>, i: nat, v: seq<nat>, width: Option<nat>)
    requires i < |v| && HoldsTotals(acc, i, v) && width == WidthMax(Larger(SumOfAll(v), 1))
    ensures HoldsTotals(DoubleScalars(acc, v[i], width), i + 1, v)
  {
    hide *;
    var next := DoubleScalars(acc, v[i], width);
    DoubledLength(acc, v[i], width);
    HeldLength(acc, i, v);
    var ts := Tuples(Twos(i + 1));
    forall m | 0 <= m < |next|
      ensures |ts[m]| == i + 1 && next[m] == Dot(ts[m], v)
    {
      DoubledAt(acc, i, v, width, m);
    }
    Held(next, ts, i + 1, v);
  }

  lemma DoubledLength(acc: seq<int>, x: nat, width: Option<nat>)
    ensures |DoubleScalars(acc, x, width)| == 2 * |acc|
  {
  }

  lemma HeldLength(acc: seq<int>, i: nat, v: seq<nat>)
    requires i < |v| && HoldsTotals(acc, i, v)
    ensures |Tuples(Twos(i + 1))| == 2 * |acc|
  {
    TwosStep(i);
  }

  lemma Held(acc: seq<int>, ts: seq<Tuple>, i: nat, v: seq<nat>)
    requires i <= |v| && ts == Tuples(Twos(i)) && |acc| == |ts|
    requires forall m :: 0 <= m < |acc| ==> |ts[m]| == i && acc[m] == Dot(ts[m], v)
    ensures HoldsTotals(acc, i, v)
  {
  }

  lemma DoubledEntry(t: Tuple, i: nat, v: seq<nat>, width: Option<nat>)
    requires i < |v| && t in Tuples(Twos(i)) && width == WidthMax(Larger(SumOfAll(v), 1))
    ensures |t| == i
    ensures Dot(t + [0], v) == Dot(t, v) && Dot(t + [1], v) == Wrap(Dot(t, v) + v[i], width)
  {
    hide Dot, SumOfAll, Tuples;
    DoublingFits(v, i, t);
    WrapInside(Dot(t, v) + v[i], width);
  }

  lemma NoScalars(v: seq<nat>)
    ensures HoldsTotals([0], 0, v)
  {
    TwosStep(0);
  }

  /** Scalar totals of every subset, by doubling in the width chosen from the grand total. */
  method ScalarDouble(v: seq<nat>) returns (acc: seq<int>)
    ensures HoldsTotals(acc, |v|, v)
  {
    var width := WidthMax(Larger(SumOfAll(v), 1));
    hide *;
    acc := [0];
    NoScalars(v);
    for i := 0 to |v|
      invariant HoldsTotals(acc, i, v)
    {
      DoubleHolds(acc, i, v, width);
      acc := DoubleScalars(acc, v[i], width);
    }
  }

  // ------------------------------------------------------------------
  // Doubling the aggregate rows
  // ------------------------------------------------------------------

  /** A row of aggregates in machine integers. */
  type Row = seq<int>

  function CapWidth(caps: Vec): Option<nat> { WidthMax(PeakOf(caps)) }

  function PeakOf(caps: Vec): (m: nat)
    ensures forall k :: 0 <= k < |caps| ==> caps[k] <= m
    ensures m > 0 ==> m in caps
  {
    if caps == [] then 0
    else
      var rest := PeakOf(caps[..|caps|-1]);
      assert forall k :: 0 <= k < |caps| - 1 ==> caps[k] == caps[..|caps|-1][k];
      Larger(rest, caps[|caps|-1])
  }

  /** The neutral row: the caps for min, zeros otherwise. */
  function Identity(aggregation: Aggregation, caps: Vec): (row: Row)
    ensures |row| == |caps|
  {
    if aggregation.Min? then seq(|caps|, k requires 0 <= k < |caps| => caps[k]) else seq(|caps|, k => 0)
  }

  /** Fold one part into a row, in machine arithmetic. */
  function FoldRow(aggregation: Aggregation, row: Row, part: Vec, caps: Vec): (r: Row)
    requires |row| == |part| == |caps|
    ensures |r| == |row|
  {
    seq(|row|, k requires 0 <= k < |row| =>
      match aggregation
      case Sum => Smaller(Wrap(row[k] + part[k], CapWidth(caps)), caps[k])
      case Min => Smaller(row[k], part[k])
      case Max => Larger(row[k], part[k]))
  }

  /** The row the recurrence leaves for a subset. */
  function MachineRow(cp: ClippedPuzzle, aggregation: Aggregation, t: Tuple): (row: Row)
    requires |t| <= |cp.attrs| && IsMatrix(cp.attrs, |cp.caps|)
    ensures |row| == |cp.caps|
  {
    if t == [] then Identity(aggregation, cp.caps)
    else
      var n := |t| - 1;
      var before := MachineRow(cp, aggregation, t[..n]);
      if t[n] == 0 then before else FoldRow(aggregation, before, cp.attrs[n], cp.caps)
  }

  ghost predicate HoldsRows(agg: seq<Row>, i: nat, cp: ClippedPuzzle, aggregation: Aggregation)
    requires IsMatrix(cp.attrs, |cp.caps|) && i <= |cp.attrs|
  {
    && |agg| == |Tuples(Twos(i))|
    && forall m :: 0 <= m < |agg| ==> |Tuples(Twos(i))[m]| == i && agg[m] == MachineRow(cp, aggregation, Tuples(Twos(i))[m])
  }

  function DoubleRows(agg: seq<Row>, aggregation: Aggregation, part: Vec, caps: Vec): (r: seq<Row>)
    requires |part| == |caps| && forall m :: 0 <= m < |agg| ==> |agg[m]| == |caps|
    ensures |r| == 2 * |agg|
    ensures forall m :: 0 <= m < |r| ==> r[m] == if m < |agg| then agg[m] else FoldRow(aggregation, agg[m - |agg|], part, caps)
  {
    agg + seq(|agg|, m requires 0 <= m < |agg| => FoldRow(aggregation, agg[m], part, caps))
  }

  lemma DoubledRow(agg: seq<Row>, i: nat, cp: ClippedPuzzle, aggregation: Aggregation, m: nat)
    requires IsMatrix(cp.attrs, |cp.caps|) && i < |cp.attrs| && HoldsRows(agg, i, cp, aggregation) && m < 2 * |agg|
    ensures forall m :: 0 <= m < |agg| ==> |agg[m]| == |cp.caps|
    ensures |Tuples(Twos(i + 1))| == 2 * |agg| && |Tuples(Twos(i + 1))[m]| == i + 1
    ensures DoubleRows(agg, aggregation, cp.attrs[i], cp.caps)[m] == MachineRow(cp, aggregation, Tuples(Twos(i + 1))[m])
  {
    hide Tuples, Twos, FoldRow;
    NextEntry(i, m);
    var low := if m < |agg| then m else m - |agg|;
    var before, t := Tuples(Twos(i))[low], Tuples(Twos(i + 1))[m];
    assert t[..i] == before;
  }

  lemma DoubleRowsHold(agg: seq<Row>, i: nat, cp: ClippedPuzzle, aggregation: Aggregation)
    requires IsMatrix(cp.attrs, |cp.caps|) && i < |cp.attrs| && HoldsRows(agg, i, cp, aggregation)
    ensures forall m :: 0 <= m < |agg| ==> |agg[m]| == |cp.caps|
    ensures |cp.attrs[i]| == |cp.caps|
    ensures HoldsRows(DoubleRows(agg, aggregation, cp.attrs[i], cp.caps), i + 1, cp, aggregation)
  {
    hide Tuples, Twos, MachineRow;
    TwosStep(i);
    forall m | 0 <= m < 2 * |agg|
      ensures |Tuples(Twos(i + 1))[m]| == i + 1
      ensures DoubleRows(agg, aggregation, cp.attrs[i], cp.caps)[m] == MachineRow(cp, aggregation, Tuples(Twos(i + 1))[m])
    {
      DoubledRow(agg, i, cp, aggregation, m);
    }
  }

  lemma NoRows(cp: ClippedPuzzle, aggregation: Aggregation)
    requires IsMatrix(cp.attrs, |cp.caps|)
    ensures HoldsRows([Identity(aggregation, cp.caps)], 0, cp, aggregation)
  {
    TwosStep(0);
  }

  /** Rows for every subset by doubling: subset m with bit i set is the old subset plus part i. */
  method AggregateDouble(cp: ClippedPuzzle, aggregation: Aggregation) returns (agg: seq<Row>)
    requires IsMatrix(cp.attrs, |cp.caps|)
    ensures HoldsRows(agg, |cp.attrs|, cp, aggregation)
  {
    hide *;
    agg := [Identity(aggregation, cp.caps)];
    NoRows(cp, aggregation);
    for i := 0 to |cp.attrs|
      invariant HoldsRows(agg, i, cp, aggregation)
    {
      DoubleRowsHold(agg, i, cp, aggregation);
      agg := DoubleRows(agg, aggregation, cp.attrs[i], cp.caps);
    }
  }

  /** The width picked from the caps alone leaves room for one uncapped addition. */
  predicate RoomToAdd(caps: Vec) {
    CapWidth(caps).Some? ==> 2 * PeakOf(caps) <= CapWidth(caps).value
  }

  /** The fixed-width aggregates can be relied on. */
  predicate ArraysTrusted(caps: Vec, aggregation: Aggregation) {
    RoomToAdd(caps) || !aggregation.Sum?
  }

  /** The row a subset should have. */
  ghost predicate ExactRow(cp: ClippedPuzzle, aggregation: Aggregation, t: Tuple, row: Row)
    requires |t| <= |cp.attrs| && IsMatrix(cp.attrs, |cp.caps|)
  {
    |row| == |cp.caps| && forall k :: 0 <= k < |cp.caps| ==> row[k] == Running(aggregation, t, AttrColumn(cp, k), cp.caps[k])
  }

  lemma {:induction false} RowsExact(cp: ClippedPuzzle, aggregation: Aggregation, t: Tuple)
    requires WellFormed(cp) && |t| <= |cp.attrs| && (forall i :: 0 <= i < |t| ==> t[i] <= 1)
    requires ArraysTrusted(cp.caps, aggregation)
    ensures ExactRow(cp, aggregation, t, MachineRow(cp, aggregation, t))
  {
    if t != [] {
      var n := |t| - 1;
      RowsExact(cp, aggregation, t[..n]);
      assert t == t[..n] + [t[n]];
      forall k | 0 <= k < |cp.caps|
        ensures MachineRow(cp, aggregation, t)[k] == Running(aggregation, t, AttrColumn(cp, k), cp.caps[k])
      {
        FoldExact(cp, aggregation, t[..n], t[n], k);
      }
    }
  }

  lemma SumFold(x: nat, v: nat, caps: Vec, k: nat)
    requires RoomToAdd(caps) && k < |caps| && v <= caps[k]
    ensures Smaller(Wrap(Smaller(x, caps[k]) + v, CapWidth(caps)), caps[k]) == Smaller(x + v, caps[k])
  {
    WrapInside(Smaller(x, caps[k]) + v, CapWidth(caps));
  }

  lemma FoldExact(cp: ClippedPuzzle, aggregation: Aggregation, t: Tuple, copies: nat, k: nat)
    requires WellFormed(cp) && |t| < |cp.attrs| && copies <= 1 && k < |cp.caps|
    requires ArraysTrusted(cp.caps, aggregation)
    ensures var x, v, cap := Running(aggregation, t, AttrColumn(cp, k), cp.caps[k]), cp.attrs[|t|][k], cp.caps[k];
      Running(aggregation, t + [copies], AttrColumn(cp, k), cap) ==
        if copies == 0 then x
        else match aggregation
          case Sum => Smaller(Wrap(x + v, CapWidth(cp.caps)), cap)
          case Min => Smaller(x, v)
          case Max => Larger(x, v)
  {
    hide Wrap, RoomToAdd, CapWidth;
    var col, cap := AttrColumn(cp, k), cp.caps[k];
    match aggregation {
      case Sum =>
        DotStep(t, copies, col);
        if copies == 1 { SumFold(Dot(t, col), col[|t|], cp.caps, k); }
      case Min =>
        ChosenBounds(t, col, cap);
        ChosenPrefix(t, copies, col);
      case Max =>
        ChosenBounds(t, col, cap);
        ChosenPrefix(t, copies, col);
    }
  }

  // ------------------------------------------------------------------
  // The arrays
  // ------------------------------------------------------------------

  datatype SubsetTable = SubsetTable(weight: seq<int>, slots: seq<int>, cost: seq<int>, agg: seq<Row>)

  /** The aggregate the machine holds for a subset; the empty subset aggregates to zero. */
  function MachineAggregate(cp: ClippedPuzzle, aggregation: Aggregation, t: Tuple): (row: Row)
    requires |t| <= |cp.attrs| && IsMatrix(cp.attrs, |cp.caps|)
    ensures |row| == |cp.caps|
  {
    if Chosen(t) then MachineRow(cp, aggregation, t) else seq(|cp.caps|, k => 0)
  }

  /** What row m of the arrays says about subset m. */
  ghost predicate Describes(cp: ClippedPuzzle, aggregation: Aggregation, t: Tuple, weight: int, slots: int, cost: int, row: Row)
    requires WellFormed(cp) && |t| == |cp.attrs|
  {
    && weight == Dot(t, cp.weights)
    && slots == Dot(t, cp.slots)
    && cost == Dot(t, cp.costs)
    && row == MachineAggregate(cp, aggregation, t)
  }

  lemma FirstIsEmpty(n: nat)
    ensures |Tuples(Twos(n))| > 0 && |Tuples(Twos(n))[0]| == n && !Chosen(Tuples(Twos(n))[0])
    ensures forall m :: 0 < m < |Tuples(Twos(n))| ==> Chosen(Tuples(Twos(n))[m])
  {
    TwosLength(n);
    PowerPositive(n);
    forall m | 0 <= m < |Tuples(Twos(n))|
      ensures |Tuples(Twos(n))[m]| == n && (Chosen(Tuples(Twos(n))[m]) <==> m > 0)
    {
      var t := Tuples(Twos(n))[m];
      assert t in Tuples(Twos(n));
      TuplesMember(Twos(n), t);
      forall i | 0 <= i < n ensures t[i] == Bit(m, i) { BitmaskOrder(n, m, i); }
      if m > 0 {
        var i := SomeBit(m, n);
        assert t[i] > 0;
      } else {
        forall i | 0 <= i < n ensures Bit(0, i) == 0 { ZeroBits(i); }
      }
    }
  }

  lemma {:induction false} ZeroBits(i: nat)
    ensures Bit(0, i) == 0
  {
    if i > 0 { ZeroBits(i - 1); }
  }

  lemma {:induction false} SomeBit(m: nat, n: nat) returns (i: nat)
    requires 0 < m < Power2(n)
    ensures i < n && Bit(m, i) > 0
  {
    if m % 2 == 1 {
      i := 0;
    } else {
      i := SomeBit(m / 2, n - 1);
      i := i + 1;
    }
  }

  lemma {:induction false} PowerPositive(n: nat)
    ensures Power2(n) > 0
  {
    if n > 0 { PowerPositive(n - 1); }
  }

  lemma RunningIsAggregate(cp: ClippedPuzzle, aggregation: Aggregation, t: Tuple)
    requires WellFormed(cp) && |t| == |cp.attrs|
    ensures Chosen(t) ==> forall k :: 0 <= k < |cp.caps| ==>
      AggregateCounts(cp, aggregation, t)[k] == Running(aggregation, t, AttrColumn(cp, k), cp.caps[k])
    ensures !Chosen(t) ==> forall k :: 0 <= k < |cp.caps| ==> AggregateCounts(cp, aggregation, t)[k] == 0
  {
    forall k | 0 <= k < |cp.caps|
      ensures AggregateCounts(cp, aggregation, t)[k] ==
        if Chosen(t) then Running(aggregation, t, AttrColumn(cp, k), cp.caps[k]) else 0
    {
      ChosenBounds(t, AttrColumn(cp, k), cp.caps[k]);
    }
  }

  /** Every row of the arrays describes the subset of its index. */
  ghost predicate TableHolds(cp: ClippedPuzzle, aggregation: Aggregation, table: SubsetTable)
    requires WellFormed(cp)
  {
    && |table.weight| == |table.slots| == |table.cost| == |table.agg| == |Tuples(Twos(|cp.attrs|))|
    && (forall m :: 0 <= m < |table.agg| ==> |Tuples(Twos(|cp.attrs|))[m]| == |cp.attrs|)
    && forall m :: 0 <= m < |table.agg| ==>
      Describes(cp, aggregation, Tuples(Twos(|cp.attrs|))[m], table.weight[m], table.slots[m], table.cost[m], table.agg[m])
  }

  /** ... and the machine's aggregates are the true ones. */
  ghost predicate TableExact(cp: ClippedPuzzle, aggregation: Aggregation, table: SubsetTable)
    requires WellFormed(cp)
  {
    && TableHolds(cp, aggregation, table)
    && forall m :: 0 <= m < |table.agg| ==> table.agg[m] == AggregateCounts(cp, aggregation, Tuples(Twos(|cp.attrs|))[m])
  }

  /** The empty subset aggregates to zero under every aggregation. */
  function ZeroFirst(agg: seq<Row>, n: nat): seq<Row>
    requires |agg| > 0
  {
    if n > 0 then agg[0 := seq(n, k => 0)] else agg
  }

  lemma ArraysHold(cp: ClippedPuzzle, aggregation: Aggregation, table: SubsetTable, agg: seq<Row>)
    requires WellFormed(cp)
    requires HoldsTotals(table.weight, |cp.attrs|, cp.weights) && HoldsTotals(table.slots, |cp.attrs|, cp.slots)
    requires HoldsTotals(table.cost, |cp.attrs|, cp.costs) && HoldsRows(agg, |cp.attrs|, cp, aggregation)
    requires |agg| > 0 && table.agg == ZeroFirst(agg, |cp.caps|)
    ensures TableHolds(cp, aggregation, table)
  {
    FirstIsEmpty(|cp.attrs|);
    var ts := Tuples(Twos(|cp.attrs|));
    forall m | 0 <= m < |agg|
      ensures |ts[m]| == |cp.attrs|
      ensures Describes(cp, aggregation, ts[m], table.weight[m], table.slots[m], table.cost[m], table.agg[m])
    {
      assert table.agg[m] == MachineAggregate(cp, aggregation, ts[m]);
    }
  }

  /** Weight, slots, cost and aggregate of every subset, index m being the subset
      with bitmask m. */
  method SubsetArrays(cp: ClippedPuzzle, aggregation: Aggregation) returns (r: Result<SubsetTable>)
    requires WellFormed(cp)
    ensures r.Err? <==> |cp.attrs| > MAX_ENUMERATE_PARTS
    ensures r.Ok? ==> TableHolds(cp, aggregation, r.value)
    ensures r.Ok? && ArraysTrusted(cp.caps, aggregation) ==> TableExact(cp, aggregation, r.value)
  {
    if |cp.attrs| > MAX_ENUMERATE_PARTS { return Err(TooManyParts); }
    var weight := ScalarDouble(cp.weights);
    var slots := ScalarDouble(cp.slots);
    var cost := ScalarDouble(cp.costs);
    var agg := AggregateDouble(cp, aggregation);
    TwosLength(|cp.attrs|);
    PowerPositive(|cp.attrs|);
    r := Ok(SubsetTable(weight, slots, cost, ZeroFirst(agg, |cp.caps|)));
    ArraysHold(cp, aggregation, r.value, agg);
    if ArraysTrusted(cp.caps, aggregation) { ArraysExact(cp, aggregation, r.value); }
  }

  lemma ArraysExact(cp: ClippedPuzzle, aggregation: Aggregation, table: SubsetTable)
    requires WellFormed(cp) && ArraysTrusted(cp.caps, aggregation) && TableHolds(cp, aggregation, table)
    ensures TableExact(cp, aggregation, table)
  {
    var ts := Tuples(Twos(|cp.attrs|));
    forall m | 0 <= m < |table.agg| ensures table.agg[m] == AggregateCounts(cp, aggregation, ts[m]) {
      assert ts[m] in ts;
      AggregateExact(cp, aggregation, ts[m]);
    }
  }

  lemma AggregateExact(cp: ClippedPuzzle, aggregation: Aggregation, t: Tuple)
    requires WellFormed(cp) && t in Tuples(Twos(|cp.attrs|)) && |t| == |cp.attrs| && ArraysTrusted(cp.caps, aggregation)
    ensures MachineAggregate(cp, aggregation, t) == AggregateCounts(cp, aggregation, t)
  {
    TuplesMember(Twos(|cp.attrs|), t);
    RowsExact(cp, aggregation, t);
    RunningIsAggregate(cp, aggregation, t);
  }

  // ------------------------------------------------------------------
  // What a counter over the arrays counts
  // ------------------------------------------------------------------

  predicate NonNegative(row: Row) { forall k :: 0 <= k < |row| ==> row[k] >= 0 }

  /** A row of non-negative machine integers, as a vector. */
  function ToVec(row: Row): (v: Vec)
    requires NonNegative(row)
    ensures |v| == |row| && forall k :: 0 <= k < |row| ==> v[k] == row[k]
  {
    seq(|row|, k requires 0 <= k < |row| => row[k])
  }

  /** Validity of a subset as the machine sees it.  A row with an entry below zero
      is below every requirement, so it clears nothing. */
  ghost predicate MachineValid(cp: ClippedPuzzle, rules: Rules, t: Tuple)
    requires WellFormed(cp)
  {
    && |t| == |cp.weights|
    && Fits(cp, rules, t)
    && var row := MachineAggregate(cp, rules.aggregation, t);
      NonNegative(row) && ValidAggregate(cp, rules, ToVec(row))
  }

  /** What counting the rows of the arrays returns. */
  ghost function CountMachine(cp: ClippedPuzzle, rules: Rules): nat
    requires WellFormed(cp)
  {
    Count(Tuples(Twos(|cp.weights|)), t => MachineValid(cp, rules, t))
  }

  lemma ExactRowIsValid(cp: ClippedPuzzle, rules: Rules, t: Tuple)
    requires WellFormed(cp) && |t| == |cp.weights|
    requires MachineAggregate(cp, rules.aggregation, t) == AggregateCounts(cp, rules.aggregation, t)
    ensures MachineValid(cp, rules, t) == ValidBuild(cp, rules, t)
  {
    assert ToVec(MachineAggregate(cp, rules.aggregation, t)) == AggregateCounts(cp, rules.aggregation, t);
  }

  /** With room to add, the machine counts the valid builds. */
  lemma MachineCountsExactly(cp: ClippedPuzzle, rules: Rules)
    requires WellFormed(cp) && !rules.duplicatesAllowed && ArraysTrusted(cp.caps, rules.aggregation)
    ensures CountMachine(cp, rules) == CountValid(cp, rules)
  {
    var ts := Tuples(Twos(|cp.weights|));
    assert CopyRanges(cp, rules) == Twos(|cp.weights|);
    SubsetLengths(|cp.weights|);
    forall t | t in ts ensures MachineValid(cp, rules, t) == ValidBuild(cp, rules, t) {
      AggregateExact(cp, rules.aggregation, t);
      ExactRowIsValid(cp, rules, t);
    }
    CountCongruent(ts, t => MachineValid(cp, rules, t), t => ValidBuild(cp, rules, t));
  }

  // ------------------------------------------------------------------
  // Without room: two parts that each meet the only obstacle
  // ------------------------------------------------------------------

  function Name(k: nat): (name: string)
    ensures |name| == k
  {
    seq(k, i => 'a')
  }

  function NamesFor(n: nat): (names: seq<string>)
    ensures |names| == n && forall k :: 0 <= k < n ==> names[k] == Name(k)
  {
    seq(n, k requires 0 <= k < n => Name(k))
  }

  function Named(v: Vec): (values: map<string, nat>)
    ensures forall k :: 0 <= k < |v| ==> Name(k) in values && values[Name(k)] == v[k]
  {
    assert forall k :: 0 <= k < |v| ==> Name(k) == NamesFor(|v|)[k];
    map name | name in NamesFor(|v|) :: v[|name|]
  }

  /** One obstacle, and two parts that reach it alone: three valid builds. */
  function FullParts(caps: Vec): BuilderPuzzle {
    var part := Part(0, 1, Named(caps), 0, 0);
    BuilderPuzzle(NamesFor(|caps|), [part, part], [Obstacle(Named(caps), false)],
      Rules(Threshold, Sum, false, Ordered, AllMustPass, None, None, None))
  }

  function FullPartsClip(caps: Vec): ClippedPuzzle {
    ClippedPuzzle(caps, [0, 0], [caps, caps], [1, 1], [0, 0], [0, 0], [caps], [false])
  }

  lemma FullPartsClipped(caps: Vec)
    ensures ClipOf(FullParts(caps)) == FullPartsClip(caps)
  {
    var p, cp := FullParts(caps), FullPartsClip(caps);
    var reqs := Requirements(p);
    assert reqs[0] == caps && reqs == [caps];
    forall k | 0 <= k < |caps| ensures Cap(Threshold, reqs, k) == caps[k] {
      assert PeakNeed(reqs[1..], k) == 0;
    }
    assert ClipOf(p).caps == caps;
    forall i | 0 <= i < 2 ensures ClipOf(p).attrs[i] == cp.attrs[i] {
      forall k | 0 <= k < |caps| ensures Attr(p.parts[i], p.names[k]) == caps[k] {}
    }
    assert ClipOf(p).attrs == cp.attrs && Kinds(p) == [false];
    assert Weights(p) == [0, 0] && Slots(p) == [0, 0] && Costs(p) == [0, 0] && ClipOf(p).qty == [1, 1];
  }

  /** Two copies' worth of the peak cap: the sum wraps below zero. */
  lemma WrapBreaks(peak: nat)
    requires WidthMax(peak).Some? && 2 * peak > WidthMax(peak).value
    ensures Wrap(peak + peak, WidthMax(peak)) < 0
  {
  }

  lemma PeakFits(caps: Vec)
    ensures CapWidth(caps).Some? ==> PeakOf(caps) <= CapWidth(caps).value
  {
  }

  /** One full part folds to the caps. */
  lemma FoldOnce(caps: Vec)
    ensures FoldRow(Sum, Identity(Sum, caps), caps, caps) == caps
  {
    hide Wrap, WidthMax, PeakOf, CapWidth;
    PeakFits(caps);
    forall k | 0 <= k < |caps| ensures Wrap(0 + caps[k], CapWidth(caps)) == caps[k] {
      BelowPeak(caps, k);
      WrapInside(caps[k], CapWidth(caps));
    }
    assert FoldRow(Sum, Identity(Sum, caps), caps, caps) == caps;
  }

  lemma BelowPeak(caps: Vec, k: nat)
    requires k < |caps|
    ensures caps[k] <= PeakOf(caps)
  {
  }

  /** A second full part drives the peak column below zero. */
  lemma FoldTwice(caps: Vec)
    requires !RoomToAdd(caps)
    ensures !NonNegative(FoldRow(Sum, caps, caps, caps))
  {
    var k :| 0 <= k < |caps| && caps[k] == PeakOf(caps);
    WrapBreaks(caps[k]);
    hide PeakOf, Wrap, WidthMax;
    assert FoldRow(Sum, caps, caps, caps)[k] < 0;
  }

  lemma FullRows(caps: Vec)
    ensures var cp := FullPartsClip(caps);
      && MachineRow(cp, Sum, [1, 0]) == caps
      && MachineRow(cp, Sum, [0, 1]) == caps
      && MachineRow(cp, Sum, [1, 1]) == FoldRow(Sum, caps, caps, caps)
  {
    hide FoldRow, Identity;
    FoldOnce(caps);
    var cp := FullPartsClip(caps);
    var none: Tuple := [];
    RowStep(cp, none, 1);
    RowStep(cp, none, 0);
    RowStep(cp, [1], 0);
    RowStep(cp, [0], 1);
    RowStep(cp, [1], 1);
  }

  lemma RowStep(cp: ClippedPuzzle, t: Tuple, copies: nat)
    requires |t| < |cp.attrs| && IsMatrix(cp.attrs, |cp.caps|)
    ensures t == [] ==> MachineRow(cp, Sum, t) == Identity(Sum, cp.caps)
    ensures MachineRow(cp, Sum, t + [copies]) ==
      if copies == 0 then MachineRow(cp, Sum, t) else FoldRow(Sum, MachineRow(cp, Sum, t), cp.attrs[|t|], cp.caps)
  {
    assert (t + [copies])[..|t|] == t;
  }

  /** The true aggregates: the caps, for every subset but the empty one. */
  lemma FullAggregates(caps: Vec, t: Tuple)
    requires InBox(t, Twos(2)) && Chosen(t)
    ensures AggregateCounts(FullPartsClip(caps), Sum, t) == caps
  {
    var cp := FullPartsClip(caps);
    forall k | 0 <= k < |caps| ensures AggregateCounts(cp, Sum, t)[k] == caps[k] {
      FullDot(t, AttrColumn(cp, k), caps[k]);
    }
  }

  lemma FullDot(t: Tuple, v: seq<nat>, cap: nat)
    requires InBox(t, Twos(2)) && Chosen(t) && |v| == 2 && v[0] == v[1] == cap
    ensures Smaller(Dot(t, v), cap) == cap
  {
    var none, one: Tuple := [], [t[0]];
    assert one == none + [t[0]] && t == one + [t[1]];
    DotStep(none, t[0], v);
    DotStep(one, t[1], v);
    assert t[0] == 1 || t[1] == 1;
  }

  lemma FullReached(caps: Vec, t: Tuple)
    requires InBox(t, Twos(2)) && Chosen(t)
    ensures WellFormed(FullPartsClip(caps)) && ValidBuild(FullPartsClip(caps), FullParts(caps).rules, t)
  {
    var cp := FullPartsClip(caps);
    FullAggregates(caps, t);
    ZeroDot(t, cp.weights);
  }

  lemma {:induction false} ZeroDot(c: Tuple, v: seq<nat>)
    requires |c| <= |v| && forall i :: 0 <= i < |v| ==> v[i] == 0
    ensures Dot(c, v) == 0
  {
    if c != [] { ZeroDot(c[..|c|-1], v); }
  }

  /** Without room the machine takes the build of both parts for invalid. */
  lemma BothMissed(caps: Vec)
    requires !RoomToAdd(caps)
    ensures WellFormed(FullPartsClip(caps)) && !MachineValid(FullPartsClip(caps), FullParts(caps).rules, [1, 1])
  {
    var both: Tuple := [1, 1];
    assert both[0] > 0;
    FullRows(caps);
    FoldTwice(caps);
    hide FoldRow, MachineRow, Fits, ValidAggregate;
    assert MachineAggregate(FullPartsClip(caps), Sum, both) == FoldRow(Sum, caps, caps, caps);
  }

  lemma MachineMissesOnly(caps: Vec, t: Tuple)
    requires InBox(t, Twos(2))
    ensures WellFormed(FullPartsClip(caps)) && |t| == 2
    ensures MachineValid(FullPartsClip(caps), FullParts(caps).rules, t) ==> ValidBuild(FullPartsClip(caps), FullParts(caps).rules, t)
  {
    if Chosen(t) { FullReached(caps, t); } else { EmptyExact(FullPartsClip(caps), FullParts(caps).rules, t); }
  }

  /** ... and so counts too few. */
  lemma FullPartsMiscounted(caps: Vec)
    requires !RoomToAdd(caps)
    ensures ClipOf(FullParts(caps)) == FullPartsClip(caps) && WellFormed(FullPartsClip(caps))
    ensures CountMachine(FullPartsClip(caps), FullParts(caps).rules) < CountValid(FullPartsClip(caps), FullParts(caps).rules)
  {
    hide ClipOf, MachineValid, ValidBuild, RoomToAdd, Tuples;
    var cp, rules, ts, both: Tuple := FullPartsClip(caps), FullParts(caps).rules, Tuples(Twos(2)), [1, 1];
    FullPartsClipped(caps);
    assert CopyRanges(cp, rules) == Twos(2);
    assert both[0] > 0;
    FullReached(caps, both);
    BothMissed(caps);
    TuplesMember(Twos(2), both);
    forall t | t in ts && MachineValid(cp, rules, t) ensures ValidBuild(cp, rules, t) {
      TuplesMember(Twos(2), t);
      MachineMissesOnly(caps, t);
    }
    CountLess(ts, t => MachineValid(cp, rules, t), t => ValidBuild(cp, rules, t), both);
  }

  lemma EmptyExact(cp: ClippedPuzzle, rules: Rules, t: Tuple)
    requires WellFormed(cp) && |t| == |cp.weights| && !Chosen(t)
    ensures MachineValid(cp, rules, t) == ValidBuild(cp, rules, t)
  {
    RunningIsAggregate(cp, rules.aggregation, t);
    ExactRowIsValid(cp, rules, t);
  }

  /** Counting over the arrays returns the number of valid builds of every puzzle
      whose sums are capped like this, exactly when twice the largest cap still
      fits the width chosen from the caps. */
  lemma ArraysCountExactlyIffRoom(caps: Vec)
    ensures RoomToAdd(caps) <==>
      forall p: BuilderPuzzle | ClipOf(p).caps == caps && p.rules.aggregation.Sum? && !p.rules.duplicatesAllowed ::
        WellFormed(ClipOf(p)) && CountMachine(ClipOf(p), p.rules) == CountValid(ClipOf(p), p.rules)
  {
    if RoomToAdd(caps) {
      forall p: BuilderPuzzle | ClipOf(p).caps == caps && p.rules.aggregation.Sum? && !p.rules.duplicatesAllowed
        ensures WellFormed(ClipOf(p)) && CountMachine(ClipOf(p), p.rules) == CountValid(ClipOf(p), p.rules)
      {
        ClipOfWellFormed(p);
        MachineCountsExactly(ClipOf(p), p.rules);
      }
    } else {
      FullPartsMiscounted(caps);
      var p := FullParts(caps);
      assert ClipOf(p).caps == caps;
    }
  }
}
