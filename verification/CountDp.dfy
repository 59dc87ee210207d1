/** The table-filling loops of the counting DP, and the theorem that the DP on
    the clipped puzzle equals the reference on the raw one. */
module CountDp {
  import opened Counting
  import opened Puzzle
  import opened Clip
  import opened Grids
  import opened LatticeDp

  ghost function Placed(cp: ClippedPuzzle, rules: Rules, c: Tuple): Option<Tuple>
    requires WellFormed(cp)
  {
    if |c| <= |cp.weights| then CellOf(cp, rules, c) else None
  }

  /** The cells of the builds in `ts` that fit the table. */
  ghost function Cells(cp: ClippedPuzzle, rules: Rules, ts: seq<Tuple>): seq<Tuple>
    requires WellFormed(cp)
  {
    FilterMap(ts, c => Placed(cp, rules, c))
  }

  ghost predicate AllLong(ts: seq<Tuple>, n: nat) {
    forall c :: c in ts ==> |c| == n
  }

  /** A part-way move: the cells of `ts` with `j` axes advanced by the copies. */
  ghost function Advanced(cp: ClippedPuzzle, rules: Rules, c: Tuple, copies: nat, j: nat): Option<Tuple>
    requires WellFormed(cp)
  {
    if |c| < |cp.weights| then Inside(Indices(cp, rules, c, c + [copies], j), AxisSizes(cp, rules)) else None
  }

  ghost function AdvancedCells(cp: ClippedPuzzle, rules: Rules, ts: seq<Tuple>, copies: nat, j: nat): seq<Tuple>
    requires WellFormed(cp)
  {
    FilterMap(ts, c => Advanced(cp, rules, c, copies, j))
  }

  lemma {:induction false} FilterMapExtend(ts: seq<Tuple>, k: nat, f: Tuple -> Option<Tuple>, g: Tuple -> Option<Tuple>)
    requires forall t :: t in ts ==> f(t + [k]) == g(t)
    ensures FilterMap(Extend(ts, k), f) == FilterMap(ts, g)
  {
    if ts != [] {
      assert ts[0] in ts;
      assert Extend(ts, k)[1..] == Extend(ts[1..], k);
      FilterMapExtend(ts[1..], k, f, g);
    }
  }

  lemma AxisStep(cp: ClippedPuzzle, rules: Rules, ts: seq<Tuple>, i: nat, copies: nat, j: nat, mapping: Option<seq<int>>)
    requires WellFormed(cp) && AllLong(ts, i) && i < |cp.weights| && copies > 0 && j < |AxisSizes(cp, rules)|
    requires mapping == MappingFor(cp, rules, Axes(cp, rules)[j], i, copies)
    ensures AdvancedCells(cp, rules, ts, copies, j + 1)
         == if mapping.None? then AdvancedCells(cp, rules, ts, copies, j)
            else FilterMap(AdvancedCells(cp, rules, ts, copies, j), t => MoveAxis(t, j, mapping.value))
  {
    forall c | c in ts
      ensures Advanced(cp, rules, c, copies, j + 1) ==
        var now := Advanced(cp, rules, c, copies, j);
        if mapping.None? then now else if now.Some? then MoveAxis(now.value, j, mapping.value) else None
    {
      AxisAdvances(cp, rules, c, copies, j, mapping);
    }
    if mapping.None? {
      FilterMapCongruent(ts, c => Advanced(cp, rules, c, copies, j + 1), c => Advanced(cp, rules, c, copies, j));
    } else {
      FilterMapCompose(ts, c => Advanced(cp, rules, c, copies, j), t => MoveAxis(t, j, mapping.value),
        c => Advanced(cp, rules, c, copies, j + 1));
    }
  }

  lemma FirstAndLast(cp: ClippedPuzzle, rules: Rules, ts: seq<Tuple>, i: nat, copies: nat)
    requires WellFormed(cp) && AllLong(ts, i) && i < |cp.weights|
    ensures AdvancedCells(cp, rules, ts, copies, 0) == Cells(cp, rules, ts)
    ensures AdvancedCells(cp, rules, ts, copies, |Axes(cp, rules)|) == Cells(cp, rules, Extend(ts, copies))
  {
    forall c | c in ts
      ensures Advanced(cp, rules, c, copies, 0) == Placed(cp, rules, c)
      ensures Advanced(cp, rules, c, copies, |Axes(cp, rules)|) == Placed(cp, rules, c + [copies])
    {
      AllAxesMoved(cp, rules, c, copies);
    }
    FilterMapCongruent(ts, c => Advanced(cp, rules, c, copies, 0), c => Placed(cp, rules, c));
    FilterMapExtend(ts, copies, c => Placed(cp, rules, c), c => Advanced(cp, rules, c, copies, |Axes(cp, rules)|));
  }

  lemma PastTheAxis(c: Tuple, copies: nat, more: nat, v: seq<nat>, size: nat)
    requires |c| < |v| && copies <= more && copies * v[|c|] >= size
    ensures Dot(c + [more], v) >= size
  {
    DotStep(c, more, v);
    CopiesMonotone(v[|c|], copies, more);
    assert copies * v[|c|] == v[|c|] * copies && more * v[|c|] == v[|c|] * more;
  }

  /** Once one axis drops everything for some copy count, every larger copy count is off the table. */
  lemma NothingFits(cp: ClippedPuzzle, rules: Rules, axis: Axis, c: Tuple, copies: nat, more: nat)
    requires WellFormed(cp) && AxisOk(cp, rules, axis) && |c| < |cp.weights| && 0 < copies <= more
    requires MappingFor(cp, rules, axis, |c|, copies).Some?
    requires forall x :: 0 <= x < AxisSize(cp, rules, axis) ==> MappingFor(cp, rules, axis, |c|, copies).value[x] < 0
    ensures !Fits(cp, rules, c + [more])
  {
    assert MappingFor(cp, rules, axis, |c|, copies).value[0] < 0;
    match axis {
      case WeightAxis => PastTheAxis(c, copies, more, cp.weights, rules.weightMax.value + 1);
      case SlotAxis => PastTheAxis(c, copies, more, cp.slots, rules.slotMax.value + 1);
      case CostAxis => PastTheAxis(c, copies, more, cp.costs, rules.moneyMax.value + 1);
      case NonEmpty =>
      case Attribute(k) =>
    }
  }

  lemma {:induction false} FilterMapEmpty(ts: seq<Tuple>, f: Tuple -> Option<Tuple>)
    requires forall t :: t in ts ==> f(t).None?
    ensures FilterMap(ts, f) == []
  {
    if ts != [] {
      assert ts[0] in ts;
      FilterMapEmpty(ts[1..], f);
    }
  }

  lemma NoCellsFrom(cp: ClippedPuzzle, rules: Rules, axis: Axis, ts: seq<Tuple>, i: nat, copies: nat, more: nat)
    requires WellFormed(cp) && AxisOk(cp, rules, axis) && AllLong(ts, i) && i < |cp.weights| && 0 < copies <= more
    requires MappingFor(cp, rules, axis, i, copies).Some?
    requires forall x :: 0 <= x < AxisSize(cp, rules, axis) ==> MappingFor(cp, rules, axis, i, copies).value[x] < 0
    ensures Cells(cp, rules, Extend(ts, more)) == []
  {
    var e := Extend(ts, more);
    forall d | d in e ensures Placed(cp, rules, d).None? {
      var j :| 0 <= j < |e| && e[j] == d;
      assert ts[j] in ts && d == ts[j] + [more];
      NothingFits(cp, rules, axis, ts[j], copies, more);
      CellExists(cp, rules, d);
    }
    FilterMapEmpty(e, c => Placed(cp, rules, c));
  }

  /** The grid is the table of these cells. */
  ghost predicate Tables(grid: Grid, sizes: seq<nat>, cells: seq<Tuple>)
    reads grid, grid.data
  {
    grid.Valid() && grid.sizes == sizes && grid.mass == multiset(cells)
  }

  /** One axis of a move; not feasible when the mapping drops everything. */
  method MoveOneAxis(cp: ClippedPuzzle, rules: Rules, grid: Grid, i: nat, copies: nat, j: nat, ghost ts: seq<Tuple>)
    returns (feasible: bool, moved: Grid)
    requires WellFormed(cp) && i < |cp.weights| && copies > 0 && AllLong(ts, i) && j < |AxisSizes(cp, rules)|
    requires Tables(grid, AxisSizes(cp, rules), AdvancedCells(cp, rules, ts, copies, j))
    ensures feasible ==> Tables(moved, AxisSizes(cp, rules), AdvancedCells(cp, rules, ts, copies, j + 1))
    ensures !feasible ==> forall more :: more >= copies ==> Cells(cp, rules, Extend(ts, more)) == []
  {
    var axis := Axes(cp, rules)[j];
    var mapping := MappingFor(cp, rules, axis, i, copies);
    AxisStep(cp, rules, ts, i, copies, j, mapping);
    feasible, moved := true, grid;
    if mapping.Some? {
      if forall x :: 0 <= x < |mapping.value| ==> mapping.value[x] < 0 {
        forall more | more >= copies ensures Cells(cp, rules, Extend(ts, more)) == [] {
          NoCellsFrom(cp, rules, axis, ts, i, copies, more);
        }
        feasible := false;
      } else {
        moved := grid.AxisMapApply(j, mapping.value, AdvancedCells(cp, rules, ts, copies, j));
      }
    }
  }

  /** Table the builds of `ts` with `copies` of part i added: move the table
      axis by axis, giving up when an axis drops everything. */
  method MoveCopies(cp: ClippedPuzzle, rules: Rules, grid: Grid, i: nat, copies: nat, ghost ts: seq<Tuple>)
    returns (feasible: bool, moved: Grid)
    requires WellFormed(cp) && i < |cp.weights| && copies > 0 && AllLong(ts, i)
    requires Tables(grid, AxisSizes(cp, rules), Cells(cp, rules, ts))
    ensures feasible ==> Tables(moved, AxisSizes(cp, rules), Cells(cp, rules, Extend(ts, copies)))
    ensures !feasible ==> forall more :: more >= copies ==> Cells(cp, rules, Extend(ts, more)) == []
  {
    hide *;
    feasible, moved := true, grid;
    FirstAndLast(cp, rules, ts, i, copies);
    for j := 0 to |Axes(cp, rules)|
      invariant Tables(moved, AxisSizes(cp, rules), AdvancedCells(cp, rules, ts, copies, j))
    {
      feasible, moved := MoveOneAxis(cp, rules, moved, i, copies, j, ts);
      if !feasible { return; }
    }
  }

  lemma {:induction false} SpreadStops(cp: ClippedPuzzle, rules: Rules, ts: seq<Tuple>, lo: nat, hi: nat)
    requires WellFormed(cp) && lo <= hi
    requires forall more :: more >= lo ==> Cells(cp, rules, Extend(ts, more)) == []
    ensures Cells(cp, rules, Spread(ts, hi)) == Cells(cp, rules, Spread(ts, lo))
    decreases hi
  {
    if lo < hi {
      SpreadStops(cp, rules, ts, lo, hi - 1);
      FilterMapAppend(Spread(ts, hi - 1), Extend(ts, hi - 1), c => Placed(cp, rules, c));
    }
  }

  lemma OneRange(cp: ClippedPuzzle, rules: Rules, ts: seq<Tuple>, i: nat)
    requires WellFormed(cp) && AllLong(ts, i) && i < |cp.weights|
    ensures Cells(cp, rules, Spread(ts, 1)) == Cells(cp, rules, ts)
  {
    assert Spread(ts, 1) == [] + Extend(ts, 0) == Extend(ts, 0);
    forall c | c in ts ensures Placed(cp, rules, c + [0]) == Placed(cp, rules, c) { ZeroCopies(cp, rules, c); }
    FilterMapExtend(ts, 0, c => Placed(cp, rules, c), c => Placed(cp, rules, c));
  }

  /** The table of one more copy count joins the table so far. */
  method JoinCopies(cp: ClippedPuzzle, rules: Rules, acc: Grid, moved: Grid, copies: nat, ghost ts: seq<Tuple>) returns (out: Grid)
    requires WellFormed(cp)
    requires Tables(acc, AxisSizes(cp, rules), Cells(cp, rules, Spread(ts, copies)))
    requires Tables(moved, AxisSizes(cp, rules), Cells(cp, rules, Extend(ts, copies)))
    ensures Tables(out, AxisSizes(cp, rules), Cells(cp, rules, Spread(ts, copies + 1)))
  {
    FilterMapAppend(Spread(ts, copies), Extend(ts, copies), c => Placed(cp, rules, c));
    out := acc.Sum(moved);
  }

  /** Fold part i in: 0, 1, ..., maxCopies copies of it. */
  method FoldPart(cp: ClippedPuzzle, rules: Rules, grid: Grid, i: nat, maxCopies: nat, ghost ts: seq<Tuple>) returns (acc: Grid)
    requires WellFormed(cp) && i < |cp.weights| && AllLong(ts, i)
    requires Tables(grid, AxisSizes(cp, rules), Cells(cp, rules, ts))
    ensures Tables(acc, AxisSizes(cp, rules), Cells(cp, rules, Spread(ts, maxCopies + 1)))
  {
    hide *;
    OneRange(cp, rules, ts, i);
    acc := grid;
    var copies := 1;
    while copies <= maxCopies
      invariant 1 <= copies <= maxCopies + 1
      invariant Tables(grid, AxisSizes(cp, rules), Cells(cp, rules, ts))
      invariant Tables(acc, AxisSizes(cp, rules), Cells(cp, rules, Spread(ts, copies)))
    {
      var feasible, moved := MoveCopies(cp, rules, grid, i, copies, ts);
      if !feasible {
        SpreadStops(cp, rules, ts, copies, maxCopies + 1);
        return;
      }
      acc := JoinCopies(cp, rules, acc, moved, copies, ts);
      copies := copies + 1;
    }
  }

  lemma TuplesAllLong(sizes: seq<nat>)
    ensures AllLong(Tuples(sizes), |sizes|)
  {
    forall c | c in Tuples(sizes) ensures |c| == |sizes| { TuplesMember(sizes, c); }
  }

  /** The table with nothing chosen yet: one build, in the start cell. */
  method StartTable(cp: ClippedPuzzle, rules: Rules) returns (grid: Grid)
    requires WellFormed(cp)
    ensures Tables(grid, AxisSizes(cp, rules), Cells(cp, rules, [[]]))
  {
    var start := StartIndices(cp, rules);
    StartCell(cp, rules, start);
    grid := OneBuild(AxisSizes(cp, rules), start);
  }

  /** The start cell: zero everywhere, except that min starts from the caps. */
  function StartIndices(cp: ClippedPuzzle, rules: Rules): (start: Tuple)
    ensures |start| == |Axes(cp, rules)|
    ensures forall j :: 0 <= j < |start| ==> AxisOk(cp, rules, Axes(cp, rules)[j])
    ensures forall j :: 0 <= j < |start| ==>
      start[j] == if Axes(cp, rules)[j].Attribute? && rules.aggregation.Min? then cp.caps[Axes(cp, rules)[j].k] else 0
  {
    AxesOk(cp, rules);
    var axes := Axes(cp, rules);
    seq(|axes|, j requires 0 <= j < |axes| =>
      if axes[j].Attribute? && rules.aggregation.Min? then cp.caps[axes[j].k] else 0)
  }

  method OneBuild(sizes: seq<nat>, start: Tuple) returns (grid: Grid)
    requires InBox(start, sizes)
    ensures Tables(grid, sizes, [start])
  {
    grid := new Grid.Zeros(sizes);
    grid.Add(start, 1);
  }

  lemma StartCell(cp: ClippedPuzzle, rules: Rules, start: Tuple)
    requires WellFormed(cp) && |start| == |Axes(cp, rules)|
    requires forall j :: 0 <= j < |start| ==> AxisOk(cp, rules, Axes(cp, rules)[j])
    requires forall j :: 0 <= j < |start| ==>
      start[j] == if Axes(cp, rules)[j].Attribute? && rules.aggregation.Min? then cp.caps[Axes(cp, rules)[j].k] else 0
    ensures InBox(start, AxisSizes(cp, rules)) && Cells(cp, rules, [[]]) == [start]
  {
    var cell := Indices(cp, rules, [], [], 0);
    assert start == cell;
    CellExists(cp, rules, []);
    assert Placed(cp, rules, []) == Some(start);
    var none: seq<Tuple> := [];
    assert [[]][1..] == none;
  }

  lemma NextPart(cp: ClippedPuzzle, rules: Rules, i: nat)
    requires WellFormed(cp) && i < |cp.weights|
    ensures |CopyRanges(cp, rules)| == |cp.weights| == |cp.qty|
    ensures AllLong(Tuples(CopyRanges(cp, rules)[..i]), i)
    ensures Tuples(CopyRanges(cp, rules)[..i+1])
         == Spread(Tuples(CopyRanges(cp, rules)[..i]), (if rules.duplicatesAllowed then cp.qty[i] else 1) + 1)
  {
    var ranges := CopyRanges(cp, rules);
    TuplesAllLong(ranges[..i]);
    TuplesSnoc(ranges, i);
  }

  lemma TuplesSnoc(ranges: seq<nat>, i: nat)
    requires i < |ranges|
    ensures Tuples(ranges[..i+1]) == Spread(Tuples(ranges[..i]), ranges[i])
  {
    assert ranges[..i+1][..i] == ranges[..i];
  }

  lemma NoParts(cp: ClippedPuzzle, rules: Rules)
    requires WellFormed(cp)
    ensures |CopyRanges(cp, rules)| == |cp.weights| == |cp.qty|
    ensures Tuples(CopyRanges(cp, rules)[..0]) == [[]]
    ensures CopyRanges(cp, rules)[..|cp.weights|] == CopyRanges(cp, rules)
  {
  }

  /** The raw table: the cell of every build that fits, with multiplicity. */
  method RunDp(cp: ClippedPuzzle, rules: Rules) returns (grid: Grid)
    requires WellFormed(cp)
    ensures Tables(grid, AxisSizes(cp, rules), Cells(cp, rules, Tuples(CopyRanges(cp, rules))))
  {
    hide *;
    ghost var ranges := CopyRanges(cp, rules);
    grid := StartTable(cp, rules);
    NoParts(cp, rules);
    for i := 0 to |cp.weights|
      invariant Tables(grid, AxisSizes(cp, rules), Cells(cp, rules, Tuples(ranges[..i])))
    {
      NextPart(cp, rules, i);
      var maxCopies := if rules.duplicatesAllowed then cp.qty[i] else 1;
      if maxCopies <= 0 {
        OneRange(cp, rules, Tuples(ranges[..i]), i);
      } else {
        grid := FoldPart(cp, rules, grid, i, maxCopies, Tuples(ranges[..i]));
      }
    }
  }

  // ------------------------------------------------------------------
  // Reading the answer off the table
  // ------------------------------------------------------------------

  /** Capability recorded by a cell: the empty build, flagged as such, is all zero. */
  function CellAggregate(cp: ClippedPuzzle, rules: Rules, cell: Tuple): (agg: Vec)
    requires |cell| == |Axes(cp, rules)|
    ensures |agg| == |cp.caps|
  {
    AxesOk(cp, rules);
    if rules.aggregation.Min? && cell[0] == 0 then Zeros(|cp.caps|) else cell[|cell|-|cp.caps|..]
  }

  lemma AttributeRecords(cp: ClippedPuzzle, rules: Rules, k: nat, c: Tuple)
    requires WellFormed(cp) && |c| == |cp.weights| && k < |cp.caps|
    ensures AggregateCounts(cp, rules.aggregation, c)[k] ==
      if rules.aggregation.Min? && !Chosen(c) then 0 else Coordinate(cp, rules, Attribute(k), c)
  {
    ChosenBounds(c, AttrColumn(cp, k), cp.caps[k]);
  }

  /** The cell of a build records its capability. */
  lemma CellRecords(cp: ClippedPuzzle, rules: Rules, c: Tuple)
    requires WellFormed(cp) && |c| == |cp.weights|
    ensures CellAggregate(cp, rules, Indices(cp, rules, c, c, 0)) == AggregateCounts(cp, rules.aggregation, c)
  {
    var cell := Indices(cp, rules, c, c, 0);
    forall k | 0 <= k < |cp.caps|
      ensures CellAggregate(cp, rules, cell)[k] == AggregateCounts(cp, rules.aggregation, c)[k]
    {
      AttributeRecords(cp, rules, k, c);
      CellReads(cp, rules, k, c);
    }
  }

  lemma CellReads(cp: ClippedPuzzle, rules: Rules, k: nat, c: Tuple)
    requires WellFormed(cp) && |c| == |cp.weights| && k < |cp.caps|
    ensures CellAggregate(cp, rules, Indices(cp, rules, c, c, 0))[k] ==
      if rules.aggregation.Min? && !Chosen(c) then 0 else Coordinate(cp, rules, Attribute(k), c)
  {
    hide Coordinate, WellFormed, Axes;
    AxesOk(cp, rules);
    var cell := Indices(cp, rules, c, c, 0);
    var j := |cell| - |cp.caps| + k;
    assert cell[j] == Coordinate(cp, rules, Attribute(k), c);
    if rules.aggregation.Min? { FlagIndex(cp, rules, c); }
  }

  lemma FlagIndex(cp: ClippedPuzzle, rules: Rules, c: Tuple)
    requires WellFormed(cp) && |c| == |cp.weights| && rules.aggregation.Min?
    ensures |Indices(cp, rules, c, c, 0)| > 0 && Indices(cp, rules, c, c, 0)[0] == if Chosen(c) then 1 else 0
  {
    AxesOk(cp, rules);
  }

  ghost predicate CellValid(cp: ClippedPuzzle, rules: Rules, cell: Tuple)
    requires WellFormed(cp)
  {
    |cell| == |Axes(cp, rules)| && ValidAggregate(cp, rules, CellAggregate(cp, rules, cell))
  }

  /** Counting cells is counting builds: only the cells of valid builds count. */
  lemma ValidCellsAreValidBuilds(cp: ClippedPuzzle, rules: Rules)
    requires WellFormed(cp)
    ensures Count(Cells(cp, rules, Tuples(CopyRanges(cp, rules))), cell => CellValid(cp, rules, cell)) == CountValid(cp, rules)
  {
    var ts := Tuples(CopyRanges(cp, rules));
    TuplesAllLong(CopyRanges(cp, rules));
    forall c | c in ts
      ensures ValidBuild(cp, rules, c) == (Placed(cp, rules, c).Some? && CellValid(cp, rules, Placed(cp, rules, c).value))
    {
      CellExists(cp, rules, c);
      CellRecords(cp, rules, c);
    }
    CountFilterMap(ts, c => Placed(cp, rules, c), cell => CellValid(cp, rules, cell), c => ValidBuild(cp, rules, c));
  }

  /** Cells of a list that lie in `done` and satisfy `p`. */
  ghost function CountIn(builds: seq<Tuple>, done: seq<Tuple>, p: Tuple -> bool): nat {
    Count(builds, b => b in done && p(b))
  }

  lemma CountInStep(builds: seq<Tuple>, cells: seq<Tuple>, n: nat, p: Tuple -> bool)
    requires Distinct(cells) && n < |cells|
    ensures CountIn(builds, cells[..n+1], p)
         == CountIn(builds, cells[..n], p) + if p(cells[n]) then multiset(builds)[cells[n]] else 0
  {
    assert cells[..n+1] == cells[..n] + [cells[n]];
    assert cells[n] !in cells[..n];
    var here := b => b == cells[n] && p(cells[n]);
    CountSplit(builds, b => b in cells[..n+1] && p(b), b => b in cells[..n] && p(b), here);
    if p(cells[n]) { MultiplicityIsCount(builds, cells[n], here); } else { CountNone(builds, here); }
  }

  lemma CountInEnds(builds: seq<Tuple>, sizes: seq<nat>, p: Tuple -> bool)
    requires forall b :: b in multiset(builds) ==> InBox(b, sizes)
    ensures CountIn(builds, Tuples(sizes)[..0], p) == 0
    ensures CountIn(builds, Tuples(sizes)[..|Tuples(sizes)|], p) == Count(builds, p)
    ensures Distinct(Tuples(sizes)) && |Tuples(sizes)| == Product(sizes)
  {
    var cells := Tuples(sizes);
    TuplesDistinct(sizes);
    CountNone(builds, b => b in cells[..0] && p(b));
    assert cells[..|cells|] == cells;
    forall b | b in builds ensures b in cells { assert b in multiset(builds); TuplesMember(sizes, b); }
    CountCongruent(builds, b => b in cells[..|cells|] && p(b), p);
  }

  lemma {:induction false} ProductPositive(sizes: seq<nat>)
    requires forall j :: 0 <= j < |sizes| ==> sizes[j] >= 1
    ensures Product(sizes) >= 1
  {
    if sizes != [] {
      ProductPositive(sizes[..|sizes|-1]);
      ProductGrows(1, Product(sizes[..|sizes|-1]), 1, sizes[|sizes|-1]);
    }
  }

  /** The mass of one cell, if its aggregate is valid. */
  method CellContribution(cp: ClippedPuzzle, rules: Rules, grid: Grid, cell: Tuple) returns (r: Result<nat>)
    requires WellFormed(cp) && grid.Valid() && grid.sizes == AxisSizes(cp, rules) && InBox(cell, grid.sizes)
    ensures ValidityUndecidable(cp, rules) ==> r == Err(TooManyObstacles)
    ensures !ValidityUndecidable(cp, rules) ==> r == Ok(if CellValid(cp, rules, cell) then grid.mass[cell] else 0)
  {
    var ok := ValidMask(CellAggregate(cp, rules, cell), cp, rules);
    match ok
    case Err(e) => return Err(e);
    case Ok(valid) => return Ok(if valid then grid.data[Offset(cell, grid.sizes)] else 0);
  }

  lemma TableFacts(grid: Grid, sizes: seq<nat>, cells: seq<Tuple>)
    requires Tables(grid, sizes, cells)
    ensures grid.Valid() && grid.sizes == sizes && grid.mass == multiset(cells)
    ensures forall b :: b in multiset(cells) ==> InBox(b, sizes)
  {
  }

  lemma SizesPositive(cp: ClippedPuzzle, rules: Rules)
    ensures Product(AxisSizes(cp, rules)) >= 1
  {
    ProductPositive(AxisSizes(cp, rules));
  }

  lemma InTuples(sizes: seq<nat>, n: nat)
    requires n < |Tuples(sizes)|
    ensures InBox(Tuples(sizes)[n], sizes)
  {
    assert Tuples(sizes)[n] in Tuples(sizes);
    TuplesMember(sizes, Tuples(sizes)[n]);
  }

  /** Sum the mass of every cell whose aggregate satisfies the obstacles. */
  method SumValid(cp: ClippedPuzzle, rules: Rules, grid: Grid, ghost cells: seq<Tuple>) returns (r: Result<nat>)
    requires WellFormed(cp) && Tables(grid, AxisSizes(cp, rules), cells)
    ensures ValidityUndecidable(cp, rules) ==> r == Err(TooManyObstacles)
    ensures !ValidityUndecidable(cp, rules) ==> r == Ok(Count(cells, cell => CellValid(cp, rules, cell)))
  {
    hide *;
    var all := Tuples(grid.sizes);
    ghost var valid := (cell: Tuple) => CellValid(cp, rules, cell);
    TableFacts(grid, AxisSizes(cp, rules), cells);
    CountInEnds(cells, grid.sizes, valid);
    SizesPositive(cp, rules);
    var total := 0;
    for n := 0 to |all|
      invariant total == CountIn(cells, all[..n], valid)
      invariant n > 0 ==> !ValidityUndecidable(cp, rules)
    {
      CountInStep(cells, all, n, valid);
      InTuples(grid.sizes, n);
      var mass := CellContribution(cp, rules, grid, all[n]);
      match mass {
        case Err(e) => return Err(e);
        case Ok(m) => total := total + m;
      }
    }
    return Ok(total);
  }

  /** The counter: fill the table part by part, then sum its valid cells. */
  method CountByDp(cp: ClippedPuzzle, rules: Rules) returns (r: Result<nat>)
    requires WellFormed(cp)
    ensures Product(AxisSizes(cp, rules)) > STATE_SPACE_LIMIT ==> r == Err(StateSpaceTooLarge)
    ensures Product(AxisSizes(cp, rules)) <= STATE_SPACE_LIMIT && ValidityUndecidable(cp, rules) ==> r == Err(TooManyObstacles)
    ensures Product(AxisSizes(cp, rules)) <= STATE_SPACE_LIMIT && !ValidityUndecidable(cp, rules) ==> r == Ok(CountValid(cp, rules))
  {
    hide *;
    if Product(AxisSizes(cp, rules)) > STATE_SPACE_LIMIT { return Err(StateSpaceTooLarge); }
    var grid := RunDp(cp, rules);
    ValidCellsAreValidBuilds(cp, rules);
    r := SumValid(cp, rules, grid, Cells(cp, rules, Tuples(CopyRanges(cp, rules))));
  }

  /** THE THEOREM: whenever the DP on the clipped puzzle answers, it answers with
      the number of builds the reference accepts on the raw puzzle, reading an
      out-of-stock part as one copy where only subsets are counted. */
  method CountPuzzle(p: BuilderPuzzle) returns (r: Result<nat>)
    ensures r.Ok? ==> r.value == TotalValid(Restocked(p))
    ensures r.Ok? && Stocked(p) ==> r.value == TotalValid(p)
    ensures r.Err? <==> Product(AxisSizes(ClipOf(p), p.rules)) > STATE_SPACE_LIMIT || ValidityUndecidable(ClipOf(p), p.rules)
  {
    var cp := ClipPuzzle(p);
    CountValidIsTotal(p);
    r := CountByDp(cp, p.rules);
  }

  // ------------------------------------------------------------------
  // Per-obstacle eliminations, off the same table
  // ------------------------------------------------------------------

  ghost predicate CellMisses(cp: ClippedPuzzle, rules: Rules, o: nat, cell: Tuple)
    requires WellFormed(cp) && o < |cp.reqs|
  {
    |cell| == |Axes(cp, rules)| && !Dominates(CellAggregate(cp, rules, cell), cp.reqs[o])
  }

  lemma SaturationKeepsOneObstacle(p: BuilderPuzzle, raw: Vec, o: nat)
    requires |raw| == |p.names| && o < |p.obstacles|
    ensures |ClipOf(p).caps| == |raw|
    ensures Dominates(Saturate(raw, ClipOf(p).caps), Requirements(p)[o]) == Dominates(raw, Requirements(p)[o])
  {
    var reqs, caps := Requirements(p), ClipOf(p).caps;
    forall k | 0 <= k < |caps| ensures reqs[o][k] <= caps[k] { PeakBounds(reqs, k); }
  }

  lemma MissingCellsAreEliminated(p: BuilderPuzzle, o: nat)
    requires o < |p.obstacles|
    ensures WellFormed(ClipOf(p)) && o < |ClipOf(p).reqs| && o < |Restocked(p).obstacles|
    ensures Count(Cells(ClipOf(p), p.rules, Tuples(CopyRanges(ClipOf(p), p.rules))), cell => CellMisses(ClipOf(p), p.rules, o, cell))
         == Eliminated(Restocked(p), o)
  {
    var cp, rules, q := ClipOf(p), p.rules, Restocked(p);
    ClipOfWellFormed(p);
    RestockedAccepts(p);
    var ts := Tuples(RawRanges(q));
    TuplesAllLong(RawRanges(q));
    forall c | c in ts
      ensures Eliminates(q, o, c) == (Placed(cp, rules, c).Some? && CellMisses(cp, rules, o, Placed(cp, rules, c).value))
    {
      MissIsElimination(p, o, c);
    }
    CountFilterMap(ts, c => Placed(cp, rules, c), cell => CellMisses(cp, rules, o, cell), c => Eliminates(q, o, c));
  }

  /** On a stocked shelf restocking changes no tally. */
  lemma RestockedEliminations(p: BuilderPuzzle, o: nat)
    requires Stocked(p) && o < |p.obstacles|
    ensures o < |Restocked(p).obstacles| && Eliminated(Restocked(p), o) == Eliminated(p, o)
  {
    RestockedAccepts(p);
    var ts := Tuples(RawRanges(p));
    TuplesAllLong(RawRanges(p));
    CountCongruent(ts, c => Eliminates(Restocked(p), o, c), c => Eliminates(p, o, c));
  }

  lemma MissIsElimination(p: BuilderPuzzle, o: nat, c: Tuple)
    requires o < |p.obstacles| && |c| == |p.parts|
    ensures WellFormed(ClipOf(p)) && o < |ClipOf(p).reqs|
    ensures Eliminates(p, o, c) ==
      (Placed(ClipOf(p), p.rules, c).Some? && CellMisses(ClipOf(p), p.rules, o, Placed(ClipOf(p), p.rules, c).value))
  {
    var cp, rules := ClipOf(p), p.rules;
    ClipOfWellFormed(p);
    CellExists(cp, rules, c);
    CellRecords(cp, rules, c);
    ClippedAggregateIsSaturated(p, c);
    SaturationKeepsOneObstacle(p, RawAggregate(p, c), o);
  }

  /** Builds inside the budgets whose aggregate misses obstacle o. */
  method SumMissing(cp: ClippedPuzzle, rules: Rules, grid: Grid, o: nat, ghost cells: seq<Tuple>) returns (total: nat)
    requires WellFormed(cp) && o < |cp.reqs| && Tables(grid, AxisSizes(cp, rules), cells)
    ensures total == Count(cells, cell => CellMisses(cp, rules, o, cell))
  {
    hide Tables, Grid.Valid, Axes, AxisSizes, WellFormed, Product;
    var all := Tuples(grid.sizes);
    ghost var misses := (cell: Tuple) => CellMisses(cp, rules, o, cell);
    TableFacts(grid, AxisSizes(cp, rules), cells);
    CountInEnds(cells, grid.sizes, misses);
    total := 0;
    for n := 0 to |all|
      invariant total == CountIn(cells, all[..n], misses)
    {
      CountInStep(cells, all, n, misses);
      InTuples(grid.sizes, n);
      var agg := CellAggregate(cp, rules, all[n]);
      if !Dominates(agg, cp.reqs[o]) { total := total + grid.MassAt(all[n]); }
    }
  }

  /** Per-obstacle eliminations agree with the reference tallies. */
  method EliminatedByDp(p: BuilderPuzzle) returns (r: Result<seq<nat>>)
    ensures r.Err? <==> Product(AxisSizes(ClipOf(p), p.rules)) > STATE_SPACE_LIMIT
    ensures r.Ok? ==> |r.value| == |p.obstacles| == |Restocked(p).obstacles|
    ensures r.Ok? ==> forall o :: 0 <= o < |p.obstacles| ==> r.value[o] == Eliminated(Restocked(p), o)
    ensures r.Ok? && Stocked(p) ==> forall o :: 0 <= o < |p.obstacles| ==> r.value[o] == Eliminated(p, o)
  {
    RestockedAccepts(p);
    hide *;
    var cp := ClipPuzzle(p);
    ClipOfWellFormed(p);
    if Product(AxisSizes(cp, p.rules)) > STATE_SPACE_LIMIT { return Err(StateSpaceTooLarge); }
    var grid := RunDp(cp, p.rules);
    var out: seq<nat> := [];
    for o := 0 to |p.obstacles|
      invariant |out| == o && forall i :: 0 <= i < o ==> out[i] == Eliminated(Restocked(p), i)
      invariant Tables(grid, AxisSizes(cp, p.rules), Cells(cp, p.rules, Tuples(CopyRanges(cp, p.rules))))
    {
      MissingCellsAreEliminated(p, o);
      var n := SumMissing(cp, p.rules, grid, o, Cells(cp, p.rules, Tuples(CopyRanges(cp, p.rules))));
      out := out + [n];
    }
    if Stocked(p) {
      forall o | 0 <= o < |p.obstacles| ensures out[o] == Eliminated(p, o) { RestockedEliminations(p, o); }
    }
    return Ok(out);
  }
}
