/** The counting DP: one table cell per (budgets, saturated aggregate), one fold
    per part.  It returns exactly the number of valid builds. */
module LatticeDp {
  import opened Counting
  import opened Puzzle
  import opened Clip
  import opened Grids

  const STATE_SPACE_LIMIT := 20_000_000

  datatype Axis = NonEmpty | WeightAxis | SlotAxis | CostAxis | Attribute(k: nat)

  function AttributeAxes(n: nat): (axes: seq<Axis>)
    ensures |axes| == n && forall k :: 0 <= k < n ==> axes[k] == Attribute(k)
  {
    seq(n, k requires 0 <= k < n => Attribute(k))
  }

  /** Active axes: a budget axis only exists when its budget does. */
  function Axes(cp: ClippedPuzzle, rules: Rules): seq<Axis> {
    BudgetAxes(rules) + AttributeAxes(|cp.caps|)
  }

  function BudgetAxes(rules: Rules): seq<Axis> {
    (if rules.aggregation.Min? then [NonEmpty] else [])
    + (if rules.weightMax.Some? then [WeightAxis] else [])
    + (if rules.slotMax.Some? then [SlotAxis] else [])
    + (if rules.moneyMax.Some? then [CostAxis] else [])
  }

  predicate AxisOk(cp: ClippedPuzzle, rules: Rules, axis: Axis) {
    match axis
    case NonEmpty => rules.aggregation.Min?
    case WeightAxis => rules.weightMax.Some?
    case SlotAxis => rules.slotMax.Some?
    case CostAxis => rules.moneyMax.Some?
    case Attribute(k) => k < |cp.caps|
  }

  function AxisSize(cp: ClippedPuzzle, rules: Rules, axis: Axis): (size: nat)
    requires AxisOk(cp, rules, axis)
    ensures size >= 1
  {
    match axis
    case NonEmpty => 2
    case WeightAxis => rules.weightMax.value + 1
    case SlotAxis => rules.slotMax.value + 1
    case CostAxis => rules.moneyMax.value + 1
    case Attribute(k) => cp.caps[k] + 1
  }

  lemma AxisAt(cp: ClippedPuzzle, rules: Rules, j: nat)
    ensures |Axes(cp, rules)| == |BudgetAxes(rules)| + |cp.caps|
    ensures j < |Axes(cp, rules)| ==>
      Axes(cp, rules)[j] == if j < |BudgetAxes(rules)| then BudgetAxes(rules)[j] else Attribute(j - |BudgetAxes(rules)|)
  {
    hide BudgetAxes;
  }

  lemma AxesOk(cp: ClippedPuzzle, rules: Rules)
    ensures forall j :: 0 <= j < |Axes(cp, rules)| ==> AxisOk(cp, rules, Axes(cp, rules)[j])
    ensures |Axes(cp, rules)| >= |cp.caps|
    ensures forall k :: 0 <= k < |cp.caps| ==>
      Axes(cp, rules)[|Axes(cp, rules)| - |cp.caps| + k] == Attribute(k)
    ensures rules.aggregation.Min? ==> Axes(cp, rules)[0] == NonEmpty
  {
    BudgetAxesOk(cp, rules);
    hide Axes, BudgetAxes;
    var axes, budgets := Axes(cp, rules), BudgetAxes(rules);
    AxisAt(cp, rules, 0);
    forall j | 0 <= j < |axes| ensures AxisOk(cp, rules, axes[j]) {
      AxisAt(cp, rules, j);
      if j < |budgets| { assert budgets[j] in budgets; }
    }
    forall k | 0 <= k < |cp.caps| ensures axes[|axes| - |cp.caps| + k] == Attribute(k) {
      AxisAt(cp, rules, |budgets| + k);
    }
  }

  lemma BudgetAxesOk(cp: ClippedPuzzle, rules: Rules)
    ensures forall axis :: axis in BudgetAxes(rules) ==> AxisOk(cp, rules, axis)
    ensures rules.aggregation.Min? ==> BudgetAxes(rules) != [] && BudgetAxes(rules)[0] == NonEmpty
  {
  }

  lemma BudgetAxesPresent(cp: ClippedPuzzle, rules: Rules)
    ensures rules.weightMax.Some? ==> WeightAxis in Axes(cp, rules)
    ensures rules.slotMax.Some? ==> SlotAxis in Axes(cp, rules)
    ensures rules.moneyMax.Some? ==> CostAxis in Axes(cp, rules)
  {
  }

  function AxisSizes(cp: ClippedPuzzle, rules: Rules): (sizes: seq<nat>)
    ensures |sizes| == |Axes(cp, rules)|
    ensures forall j :: 0 <= j < |sizes| ==> sizes[j] >= 1
    ensures forall j :: 0 <= j < |sizes| ==>
      AxisOk(cp, rules, Axes(cp, rules)[j]) && sizes[j] == AxisSize(cp, rules, Axes(cp, rules)[j])
  {
    AxesOk(cp, rules);
    var axes := Axes(cp, rules);
    seq(|axes|, j requires 0 <= j < |axes| => AxisSize(cp, rules, axes[j]))
  }

  // ------------------------------------------------------------------
  // Where a partial build sits in the table
  // ------------------------------------------------------------------

  /** The index of a partial build on one axis.  A budget index may run past the axis. */
  function Coordinate(cp: ClippedPuzzle, rules: Rules, axis: Axis, c: Tuple): nat
    requires WellFormed(cp) && AxisOk(cp, rules, axis) && |c| <= |cp.weights|
  {
    match axis
    case NonEmpty => if Chosen(c) then 1 else 0
    case WeightAxis => Dot(c, cp.weights)
    case SlotAxis => Dot(c, cp.slots)
    case CostAxis => Dot(c, cp.costs)
    case Attribute(k) => Running(rules.aggregation, c, AttrColumn(cp, k), cp.caps[k])
  }

  /** The index of a partial build on every axis; the first `done` of them read
      off `after`, the others off `before`. */
  function Indices(cp: ClippedPuzzle, rules: Rules, before: Tuple, after: Tuple, done: nat): (cell: Tuple)
    requires WellFormed(cp) && |before| <= |cp.weights| && |after| <= |cp.weights|
    ensures |cell| == |Axes(cp, rules)|
    ensures forall j :: 0 <= j < |cell| ==> AxisOk(cp, rules, Axes(cp, rules)[j])
    ensures forall j :: 0 <= j < |cell| ==>
      cell[j] == Coordinate(cp, rules, Axes(cp, rules)[j], if j < done then after else before)
  {
    hide Coordinate, WellFormed, Axes;
    AxesOk(cp, rules);
    var axes := Axes(cp, rules);
    seq(|axes|, j requires 0 <= j < |axes| => Coordinate(cp, rules, axes[j], if j < done then after else before))
  }

  function Inside(cell: Tuple, sizes: seq<nat>): (r: Option<Tuple>)
    ensures r.Some? ==> InBox(r.value, sizes)
  {
    if InBox(cell, sizes) then Some(cell) else None
  }

  /** The table cell of a partial build, if it fits the table. */
  function CellOf(cp: ClippedPuzzle, rules: Rules, c: Tuple): (r: Option<Tuple>)
    requires WellFormed(cp) && |c| <= |cp.weights|
  {
    Inside(Indices(cp, rules, c, c, 0), AxisSizes(cp, rules))
  }

  /** An attribute index never leaves its axis. */
  lemma AttributeInside(cp: ClippedPuzzle, rules: Rules, axis: Axis, c: Tuple)
    requires WellFormed(cp) && AxisOk(cp, rules, axis) && |c| <= |cp.weights|
    requires axis.Attribute? || axis.NonEmpty?
    ensures Coordinate(cp, rules, axis, c) < AxisSize(cp, rules, axis)
  {
    if axis.Attribute? { ChosenBounds(c, AttrColumn(cp, axis.k), cp.caps[axis.k]); }
  }

  /** A partial build has a cell exactly when it fits the budgets. */
  lemma CellExists(cp: ClippedPuzzle, rules: Rules, c: Tuple)
    requires WellFormed(cp) && |c| <= |cp.weights|
    ensures CellOf(cp, rules, c).Some? <==> Fits(cp, rules, c)
  {
    AxesOk(cp, rules);
    BudgetAxesPresent(cp, rules);
    var axes := Axes(cp, rules);
    forall j | 0 <= j < |axes| && (axes[j].Attribute? || axes[j].NonEmpty?)
      ensures Coordinate(cp, rules, axes[j], c) < AxisSizes(cp, rules)[j]
    {
      AttributeInside(cp, rules, axes[j], c);
    }
  }

  // ------------------------------------------------------------------
  // Folding in copies of one part, one axis at a time
  // ------------------------------------------------------------------

  /** Destination of every source index along one axis when `copies` of `part`
      join; None is the identity, -1 is out of the table. */
  function MappingFor(cp: ClippedPuzzle, rules: Rules, axis: Axis, part: nat, copies: nat): (r: Option<seq<int>>)
    requires WellFormed(cp) && AxisOk(cp, rules, axis) && part < |cp.weights|
    ensures r.Some? ==> |r.value| == AxisSize(cp, rules, axis)
    ensures r.Some? ==> forall x :: 0 <= x < |r.value| ==> r.value[x] < AxisSize(cp, rules, axis)
  {
    var size := AxisSize(cp, rules, axis);
    match axis
    case NonEmpty => Some([1, 1])
    case WeightAxis => BudgetMapping(size, copies * cp.weights[part])
    case SlotAxis => BudgetMapping(size, copies * cp.slots[part])
    case CostAxis => BudgetMapping(size, copies * cp.costs[part])
    case Attribute(k) =>
      match rules.aggregation
      case Sum => SumMapping(size, copies * cp.attrs[part][k])
      case Min => MinMapping(size, cp.attrs[part][k])
      case Max => MaxMapping(size, cp.attrs[part][k])
  }

  function BudgetMapping(size: nat, delta: nat): (r: Option<seq<int>>)
    ensures r.None? <==> delta == 0
    ensures r.Some? ==> |r.value| == size && forall x :: 0 <= x < size ==> r.value[x] == if x + delta < size then x + delta else -1
  {
    if delta == 0 then None
    else Some(seq(size, x requires 0 <= x < size => if x + delta >= size then -1 else x + delta))
  }

  function SumMapping(size: nat, delta: nat): (r: Option<seq<int>>)
    requires size >= 1
    ensures r.None? <==> delta == 0
    ensures r.Some? ==> |r.value| == size && forall x :: 0 <= x < size ==> r.value[x] == Smaller(x + delta, size - 1)
  {
    if delta == 0 then None
    else Some(seq(size, x requires 0 <= x < size => Smaller(x + delta, size - 1)))
  }

  function MinMapping(size: nat, value: nat): (r: Option<seq<int>>)
    ensures r.None? <==> value >= size - 1
    ensures r.Some? ==> |r.value| == size && forall x :: 0 <= x < size ==> r.value[x] == Smaller(x, value)
  {
    if value >= size - 1 then None else Some(seq(size, x requires 0 <= x < size => Smaller(x, value)))
  }

  function MaxMapping(size: nat, value: nat): (r: Option<seq<int>>)
    requires value < size
    ensures r.None? <==> value == 0
    ensures r.Some? ==> |r.value| == size && forall x :: 0 <= x < size ==> r.value[x] == Larger(x, value)
  {
    if value <= 0 then None else Some(seq(size, x requires 0 <= x < size => Larger(x, value)))
  }

  lemma SumMoves(x: nat, delta: nat, cap: nat)
    ensures match SumMapping(cap + 1, delta)
      case None => Smaller(x + delta, cap) == Smaller(x, cap)
      case Some(mapping) => mapping[Smaller(x, cap)] == Smaller(x + delta, cap)
  {
    SaturateAgain(x, delta, cap);
  }

  lemma AttributeMoves(cp: ClippedPuzzle, rules: Rules, k: nat, c: Tuple, copies: nat)
    requires WellFormed(cp) && k < |cp.caps| && |c| < |cp.weights| && copies > 0
    ensures var x, y := Coordinate(cp, rules, Attribute(k), c), Coordinate(cp, rules, Attribute(k), c + [copies]);
      x <= cp.caps[k] && y <= cp.caps[k] &&
      match MappingFor(cp, rules, Attribute(k), |c|, copies)
      case None => y == x
      case Some(mapping) => mapping[x] == y
  {
    var v, cap := AttrColumn(cp, k), cp.caps[k];
    ChosenBounds(c, v, cap);
    match rules.aggregation {
      case Sum =>
        DotStep(c, copies, v);
        SumMoves(Dot(c, v), copies * v[|c|], cap);
      case Min => ChosenPrefix(c, copies, v);
      case Max => ChosenPrefix(c, copies, v);
    }
  }

  /** One axis, one part: the mapping sends the index of a partial build to the
      index of the build with the copies added, or drops it exactly when the new
      index is past the axis; the identity mapping means the index is unchanged. */
  lemma MappingMoves(cp: ClippedPuzzle, rules: Rules, axis: Axis, c: Tuple, copies: nat)
    requires WellFormed(cp) && AxisOk(cp, rules, axis) && |c| < |cp.weights| && copies > 0
    ensures var x, y := Coordinate(cp, rules, axis, c), Coordinate(cp, rules, axis, c + [copies]);
      match MappingFor(cp, rules, axis, |c|, copies)
      case None => y == x
      case Some(mapping) =>
        if x < AxisSize(cp, rules, axis) then mapping[x] == (if y < AxisSize(cp, rules, axis) then y else -1)
        else y >= AxisSize(cp, rules, axis)
  {
    match axis {
      case NonEmpty => ChosenStep(c, copies);
      case WeightAxis => DotStep(c, copies, cp.weights);
      case SlotAxis => DotStep(c, copies, cp.slots);
      case CostAxis => DotStep(c, copies, cp.costs);
      case Attribute(k) => AttributeMoves(cp, rules, k, c, copies);
    }
  }

  lemma ZeroCopiesCoordinate(cp: ClippedPuzzle, rules: Rules, axis: Axis, c: Tuple)
    requires WellFormed(cp) && AxisOk(cp, rules, axis) && |c| < |cp.weights|
    ensures Coordinate(cp, rules, axis, c + [0]) == Coordinate(cp, rules, axis, c)
  {
    match axis {
      case NonEmpty => ChosenStep(c, 0);
      case WeightAxis => DotStep(c, 0, cp.weights);
      case SlotAxis => DotStep(c, 0, cp.slots);
      case CostAxis => DotStep(c, 0, cp.costs);
      case Attribute(k) =>
        DotStep(c, 0, AttrColumn(cp, k));
        ChosenPrefix(c, 0, AttrColumn(cp, k));
    }
  }

  lemma ZeroCopies(cp: ClippedPuzzle, rules: Rules, c: Tuple)
    requires WellFormed(cp) && |c| < |cp.weights|
    ensures CellOf(cp, rules, c + [0]) == CellOf(cp, rules, c)
  {
    var a, b := Indices(cp, rules, c, c, 0), Indices(cp, rules, c + [0], c + [0], 0);
    forall j | 0 <= j < |a| ensures a[j] == b[j] {
      ZeroCopiesCoordinate(cp, rules, Axes(cp, rules)[j], c);
    }
    assert a == b;
  }

  /** Moving along one more axis advances the indices by one axis. */
  lemma AxisAdvances(cp: ClippedPuzzle, rules: Rules, c: Tuple, copies: nat, j: nat, mapping: Option<seq<int>>)
    requires WellFormed(cp) && |c| < |cp.weights| && copies > 0 && j < |AxisSizes(cp, rules)|
    requires mapping == MappingFor(cp, rules, Axes(cp, rules)[j], |c|, copies)
    ensures var now, next := Inside(Indices(cp, rules, c, c + [copies], j), AxisSizes(cp, rules)),
                             Inside(Indices(cp, rules, c, c + [copies], j + 1), AxisSizes(cp, rules));
      next == if mapping.None? then now else if now.Some? then MoveAxis(now.value, j, mapping.value) else None
  {
    var axis, sizes := Axes(cp, rules)[j], AxisSizes(cp, rules);
    var cell, cell' := Indices(cp, rules, c, c + [copies], j), Indices(cp, rules, c, c + [copies], j + 1);
    MappingMoves(cp, rules, axis, c, copies);
    assert cell' == cell[j := cell'[j]];
    assert sizes[j] == AxisSize(cp, rules, axis);
    if mapping.None? {
      assert cell' == cell;
    } else if cell[j] >= sizes[j] {
      assert !InBox(cell, sizes) && !InBox(cell', sizes);
    } else if InBox(cell, sizes) {
      assert InBox(cell', sizes) <==> cell'[j] < sizes[j];
    } else {
      var i :| 0 <= i < |cell| && cell[i] >= sizes[i];
      assert cell'[i] >= sizes[i];
    }
  }

  /** Before the first axis nothing has moved, after the last everything has. */
  lemma AllAxesMoved(cp: ClippedPuzzle, rules: Rules, c: Tuple, copies: nat)
    requires WellFormed(cp) && |c| < |cp.weights|
    ensures Indices(cp, rules, c, c + [copies], 0) == Indices(cp, rules, c, c, 0)
    ensures Indices(cp, rules, c, c + [copies], |Axes(cp, rules)|) == Indices(cp, rules, c + [copies], c + [copies], 0)
  {
  }
}
