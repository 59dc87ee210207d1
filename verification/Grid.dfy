/** A dense table of counts over a box, stored flat in row-major order.

    `mass` is the table read as a multiset: how many builds sit in each cell. */
module Grids {
  import opened Counting

  /** Row-major position of a cell. */
  function Offset(t: Tuple, sizes: seq<nat>): (r: nat)
    requires InBox(t, sizes)
    ensures r < Product(sizes)
  {
    if t == [] then 0
    else
      var n := |t| - 1;
      var outer := Offset(t[..n], sizes[..n]);
      OffsetBound(outer, Product(sizes[..n]), t[n], sizes[n]);
      outer * sizes[n] + t[n]
  }

  lemma OffsetBound(outer: nat, count: nat, inner: nat, size: nat)
    requires outer < count && inner < size
    ensures outer * size + inner < count * size
  {
    assert (outer + 1) * size <= count * size by { assert (count - outer - 1) * size >= 0; }
  }

  lemma DivideOut(q1: nat, r1: nat, q2: nat, r2: nat, size: nat)
    requires r1 < size && r2 < size && q1 * size + r1 == q2 * size + r2
    ensures q1 == q2 && r1 == r2
  {
    if q1 < q2 { OffsetBound(q1, q2, r1, size); }
    if q2 < q1 { OffsetBound(q2, q1, r2, size); }
  }

  /** Different cells have different positions. */
  lemma {:induction false} OffsetInjective(t: Tuple, u: Tuple, sizes: seq<nat>)
    requires InBox(t, sizes) && InBox(u, sizes) && Offset(t, sizes) == Offset(u, sizes)
    ensures t == u
  {
    if t != [] {
      var n := |t| - 1;
      DivideOut(Offset(t[..n], sizes[..n]), t[n], Offset(u[..n], sizes[..n]), u[n], sizes[n]);
      OffsetInjective(t[..n], u[..n], sizes[..n]);
      assert t == t[..n] + [t[n]] && u == u[..n] + [u[n]];
    }
  }

  /** Where one cell's mass goes when it moves along an axis; nowhere on a negative entry. */
  function MoveAxis(t: Tuple, axis: nat, mapping: seq<int>): Option<Tuple> {
    if axis < |t| && t[axis] < |mapping| && mapping[t[axis]] >= 0
    then Some(t[axis := mapping[t[axis]]])
    else None
  }

  /** A build in a cell of `done` that the move takes to `t`. */
  ghost predicate Lands(b: Tuple, done: seq<Tuple>, axis: nat, mapping: seq<int>, t: Tuple) {
    b in done && MoveAxis(b, axis, mapping) == Some(t)
  }

  /** The mass of the builds that some cell of `done` has carried over. */
  ghost predicate CarriedOver(mass: multiset<Tuple>, builds: seq<Tuple>, done: seq<Tuple>, axis: nat, mapping: seq<int>) {
    forall t :: mass[t] == Count(builds, b => Lands(b, done, axis, mapping, t))
  }

  class Grid {
    const sizes: seq<nat>
    const data: array<nat>
    ghost var mass: multiset<Tuple>

    ghost predicate Valid()
      reads this, data
    {
      && data.Length == Product(sizes)
      && (forall t :: InBox(t, sizes) ==> data[Offset(t, sizes)] == mass[t])
      && (forall t :: t in mass ==> InBox(t, sizes))
    }

    constructor Zeros(sizes: seq<nat>)
      ensures Valid() && fresh(data) && this.sizes == sizes && mass == multiset{}
    {
      this.sizes := sizes;
      data := new nat[Product(sizes)](i => 0);
      mass := multiset{};
    }

    method Add(t: Tuple, amount: nat)
      requires Valid() && InBox(t, sizes)
      modifies this, data
      ensures Valid() && mass == old(mass)[t := old(mass)[t] + amount]
    {
      var i := Offset(t, sizes);
      data[i] := data[i] + amount;
      mass := mass[t := mass[t] + amount];
      forall u | InBox(u, sizes) ensures data[Offset(u, sizes)] == mass[u] {
        if Offset(u, sizes) == i { OffsetInjective(t, u, sizes); }
      }
    }

    /** Add mass to a cell, or drop it. */
    method Receive(target: Option<Tuple>, amount: nat)
      requires Valid() && (target.Some? ==> InBox(target.value, sizes))
      modifies this, data
      ensures Valid()
      ensures forall t :: mass[t] == old(mass)[t] + if target == Some(t) then amount else 0
    {
      if target.Some? { Add(target.value, amount); }
    }

    /** Elementwise sum. */
    method Sum(other: Grid) returns (out: Grid)
      requires Valid() && other.Valid() && other.sizes == sizes
      ensures fresh(out) && fresh(out.data) && out.Valid() && out.sizes == sizes
      ensures out.mass == mass + other.mass
    {
      out := new Grid.Zeros(sizes);
      AddArrays(data, other.data, out.data);
      out.mass := mass + other.mass;
      SumIsValid(other, out);
    }

    static method AddArrays(a: array<nat>, b: array<nat>, c: array<nat>)
      requires a.Length == b.Length == c.Length && c != a && c != b
      modifies c
      ensures forall j :: 0 <= j < c.Length ==> c[j] == a[j] + b[j]
    {
      for i := 0 to c.Length
        invariant forall j :: 0 <= j < i ==> c[j] == a[j] + b[j]
      {
        c[i] := a[i] + b[i];
      }
    }

    lemma SumIsValid(other: Grid, out: Grid)
      requires Valid() && other.Valid() && other.sizes == sizes
      requires out.sizes == sizes && out.data.Length == data.Length == other.data.Length && out.mass == mass + other.mass
      requires forall j :: 0 <= j < data.Length ==> out.data[j] == data[j] + other.data[j]
      ensures out.Valid()
    {
      forall t | InBox(t, sizes) ensures out.data[Offset(t, sizes)] == out.mass[t] {
        assert data[Offset(t, sizes)] == mass[t] && other.data[Offset(t, sizes)] == other.mass[t];
      }
      hide Offset, InBox;
    }

    /** Move the whole table along one axis.  `builds` lists the cell of every
        build in the table; the result tables the moved list. */
    method AxisMapApply(axis: nat, mapping: seq<int>, ghost builds: seq<Tuple>) returns (out: Grid)
      requires Valid() && mass == multiset(builds)
      requires axis < |sizes| && |mapping| == sizes[axis]
      requires forall j :: 0 <= j < |mapping| ==> mapping[j] < sizes[axis]
      ensures fresh(out) && fresh(out.data) && out.Valid() && out.sizes == sizes
      ensures out.mass == multiset(FilterMap(builds, t => MoveAxis(t, axis, mapping)))
    {
      Inhabited(builds);
      hide Valid, CarriedOver, Tuples, Offset, FilterMap;
      out := new Grid.Zeros(sizes);
      var cells := Tuples(sizes);
      NothingCarried(builds, axis, mapping);
      assert cells[..0] == [];
      for n := 0 to |cells|
        invariant out.Valid() && out.sizes == sizes && fresh(out) && fresh(out.data)
        invariant CarriedOver(out.mass, builds, cells[..n], axis, mapping)
      {
        CarryOne(out, cells, n, axis, mapping, builds);
      }
      assert cells[..|cells|] == cells;
      EveryCell(builds, cells, axis, mapping, sizes, out.mass);
    }

    /** Carry the mass of one cell over. */
    method CarryOne(out: Grid, cells: seq<Tuple>, n: nat, axis: nat, mapping: seq<int>, ghost builds: seq<Tuple>)
      requires Valid() && out.Valid() && mass == multiset(builds) && out.sizes == sizes && out != this && out.data != data
      requires cells == Tuples(sizes) && n < |cells| && axis < |sizes| && |mapping| == sizes[axis]
      requires forall j :: 0 <= j < |mapping| ==> mapping[j] < sizes[axis]
      requires CarriedOver(out.mass, builds, cells[..n], axis, mapping)
      modifies out, out.data
      ensures out.Valid() && CarriedOver(out.mass, builds, cells[..n+1], axis, mapping)
    {
      hide CarriedOver, Tuples, Offset, FilterMap;
      CellMoves(cells, n, sizes, axis, mapping);
      ghost var before := out.mass;
      out.Receive(MoveAxis(cells[n], axis, mapping), MassAt(cells[n]));
      CarryCell(before, out.mass, builds, cells, n, axis, mapping, sizes);
    }

    /** The number stored for a cell. */
    function MassAt(cell: Tuple): (m: nat)
      requires Valid() && InBox(cell, sizes)
      reads this, data
      ensures m == mass[cell]
    {
      data[Offset(cell, sizes)]
    }

    lemma Inhabited(builds: seq<Tuple>)
      requires Valid() && mass == multiset(builds)
      ensures forall b :: b in multiset(builds) ==> InBox(b, sizes)
    {
    }
  }

  lemma CellMoves(cells: seq<Tuple>, n: nat, sizes: seq<nat>, axis: nat, mapping: seq<int>)
    requires cells == Tuples(sizes) && n < |cells| && axis < |sizes| && |mapping| == sizes[axis]
    requires forall j :: 0 <= j < |mapping| ==> mapping[j] < sizes[axis]
    ensures InBox(cells[n], sizes)
    ensures MoveAxis(cells[n], axis, mapping).Some? ==> InBox(MoveAxis(cells[n], axis, mapping).value, sizes)
  {
    assert cells[n] in cells;
    TuplesMember(sizes, cells[n]);
  }

  lemma NothingCarried(builds: seq<Tuple>, axis: nat, mapping: seq<int>)
    ensures CarriedOver(multiset{}, builds, [], axis, mapping)
  {
    forall t ensures multiset{}[t] == Count(builds, b => Lands(b, [], axis, mapping, t)) {
      CountNone(builds, b => Lands(b, [], axis, mapping, t));
    }
  }

  lemma CarryCell(before: multiset<Tuple>, after: multiset<Tuple>, builds: seq<Tuple>, cells: seq<Tuple>, n: nat, axis: nat,
                  mapping: seq<int>, sizes: seq<nat>)
    requires cells == Tuples(sizes) && n < |cells| && CarriedOver(before, builds, cells[..n], axis, mapping)
    requires forall t :: after[t] == before[t] + if MoveAxis(cells[n], axis, mapping) == Some(t) then multiset(builds)[cells[n]] else 0
    ensures CarriedOver(after, builds, cells[..n+1], axis, mapping)
  {
    hide Tuples, MoveAxis, Lands;
    forall t ensures after[t] == Count(builds, b => Lands(b, cells[..n+1], axis, mapping, t)) {
      OneMoreCell(builds, cells, n, axis, mapping, t, sizes);
    }
  }

  lemma OneMoreCell(builds: seq<Tuple>, cells: seq<Tuple>, n: nat, axis: nat, mapping: seq<int>, t: Tuple, sizes: seq<nat>)
    requires cells == Tuples(sizes) && n < |cells|
    ensures Count(builds, b => Lands(b, cells[..n+1], axis, mapping, t))
         == Count(builds, b => Lands(b, cells[..n], axis, mapping, t))
          + (if MoveAxis(cells[n], axis, mapping) == Some(t) then multiset(builds)[cells[n]] else 0)
  {
    TuplesDistinct(sizes);
    var hit := MoveAxis(cells[n], axis, mapping) == Some(t);
    assert cells[..n+1] == cells[..n] + [cells[n]];
    assert cells[n] !in cells[..n];
    var here := b => b == cells[n] && hit;
    CountSplit(builds, b => Lands(b, cells[..n+1], axis, mapping, t), b => Lands(b, cells[..n], axis, mapping, t), here);
    if hit { MultiplicityIsCount(builds, cells[n], here); } else { CountNone(builds, here); }
  }

  lemma EveryCell(builds: seq<Tuple>, cells: seq<Tuple>, axis: nat, mapping: seq<int>, sizes: seq<nat>, mass: multiset<Tuple>)
    requires cells == Tuples(sizes)
    requires forall b :: b in multiset(builds) ==> InBox(b, sizes)
    requires CarriedOver(mass, builds, cells, axis, mapping)
    ensures mass == multiset(FilterMap(builds, t => MoveAxis(t, axis, mapping)))
  {
    var image := FilterMap(builds, t => MoveAxis(t, axis, mapping));
    forall b | b in builds ensures b in cells { assert b in multiset(builds); TuplesMember(sizes, b); }
    forall t ensures mass[t] == multiset(image)[t] {
      var here := (z: Tuple) => z == t;
      MultiplicityIsCount(image, t, here);
      CountFilterMap(builds, t => MoveAxis(t, axis, mapping), here, b => Lands(b, cells, axis, mapping, t));
    }
    assert mass == multiset(image);
  }
}
