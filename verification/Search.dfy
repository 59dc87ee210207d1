/** The optimiser around the simulator: clamping, inert knobs, the archive of tried
    configurations, and the endgame drain schedule. */
module Search {
  import opened Counting
  import opened Factory
  import opened FactoryHours
  import opened FastPath
  import opened Simulation
  import FactoryGraph
  import Configs

  /** What a drive is worth. */
  function Value(b: Board, d: Drive): real
    requires BoardOk(b) && DriveOk(b, d)
  {
    Run(b, d, b.horizon).money
  }

  lemma {:induction false} SeriesEndsInMoney(b: Board, d: Drive, h: nat)
    requires BoardOk(b) && DriveOk(b, d) && h <= b.horizon
    ensures MoneySeries(b, d, h)[h] == Run(b, d, h).money
  {
    if h == 0 { assert Run(b, d, 0) == Start(b); }
  }

  /** What constant settings are worth. */
  function Worth(b: Board, k: Knobs): real
    requires BoardOk(b) && KnobsOk(b, k)
  {
    Value(b, Constant(k))
  }

  /** Machines that starved under constant settings. */
  function Starved(b: Board, k: Knobs): set<nat>
    requires BoardOk(b) && KnobsOk(b, k)
  {
    Run(b, Constant(k), b.horizon).skipped
  }

  /** Evaluate a drive on a fresh run. */
  method Evaluate(b: Board, d: Drive) returns (value: real, skips: set<nat>)
    requires BoardOk(b) && DriveOk(b, d)
    ensures value == Value(b, d) && skips == Run(b, d, b.horizon).skipped
  {
    var sim := new Simulator(b);
    var series := sim.Play(d);
    SeriesEndsInMoney(b, d, b.horizon);
    assert sim.View().skipped == sim.skipped;
    return series[b.horizon], sim.skipped;
  }

  // ------------------------------------------------------------------
  // Clamping
  // ------------------------------------------------------------------

  const NO_MODS := Mods(false, false, false, false)

  function Common(m: Mods, avail: Mods): Mods {
    Mods(m.doubleOutput && avail.doubleOutput, m.halfMaterials && avail.halfMaterials,
         m.oneHour && avail.oneHour, m.doubleStorage && avail.doubleStorage)
  }

  function ClampRecipe(m: Machine, ri: int): int {
    if |m.recipes| == 0 then -1 else ri % |m.recipes|
  }

  function ClampMods(m: Machine, avail: Mods, mods: Mods): Mods {
    if |m.recipes| == 0 then NO_MODS else Common(mods, avail)
  }

  function ClampSetting(m: Machine, mods: Mods, setting: int): int {
    if |m.recipes| == 0 || setting < 0 then 0
    else if setting > OutputMax(m, mods) then OutputMax(m, mods) else setting
  }

  /** The nearest dials the game allows. */
  function Clamped(b: Board, avail: seq<Mods>, k: Knobs): (c: Knobs)
    requires KnobsOk(b, k) && |avail| == |b.machines|
    ensures KnobsOk(b, c)
  {
    var n := |b.machines|;
    var mods := seq(n, i requires 0 <= i < n => ClampMods(b.machines[i], avail[i], k.mods[i]));
    Knobs(seq(n, i requires 0 <= i < n => ClampRecipe(b.machines[i], k.recipe[i])),
          seq(n, i requires 0 <= i < n => ClampSetting(b.machines[i], mods[i], k.setting[i])), mods)
  }

  /** Dials inside the allowed range. */
  predicate InRange(b: Board, avail: seq<Mods>, k: Knobs)
    requires KnobsOk(b, k) && |avail| == |b.machines|
  {
    forall i :: 0 <= i < |b.machines| ==> DialInRange(b.machines[i], avail[i], k.recipe[i], k.setting[i], k.mods[i])
  }

  predicate DialInRange(m: Machine, avail: Mods, ri: int, setting: int, mods: Mods) {
    if |m.recipes| == 0 then ri == -1 && setting == 0 && mods == NO_MODS
    else 0 <= ri < |m.recipes| && mods == Common(mods, avail) && 0 <= setting <= OutputMax(m, mods)
  }

  lemma Modulo(ri: int, n: nat)
    requires n > 0
    ensures 0 <= ri % n < n && (0 <= ri < n ==> ri % n == ri)
  {
  }

  lemma ClampDial(m: Machine, avail: Mods, ri: int, setting: int, mods: Mods)
    ensures var c := ClampMods(m, avail, mods);
      DialInRange(m, avail, ClampRecipe(m, ri), ClampSetting(m, c, setting), c)
    ensures DialInRange(m, avail, ri, setting, mods) ==>
      ClampRecipe(m, ri) == ri && ClampMods(m, avail, mods) == mods && ClampSetting(m, mods, setting) == setting
  {
    if |m.recipes| > 0 { Modulo(ri, |m.recipes|); }
    assert ClampRecipe(m, ri) == if |m.recipes| == 0 then -1 else ri % |m.recipes|;
    hide ClampRecipe, OutputMax;
  }

  /** Clamping lands in range and moves only what was out of range. */
  lemma ClampLandsInRange(b: Board, avail: seq<Mods>, k: Knobs)
    requires KnobsOk(b, k) && |avail| == |b.machines|
    ensures InRange(b, avail, Clamped(b, avail, k))
    ensures Clamped(b, avail, k) == k <==> InRange(b, avail, k)
  {
    var c := Clamped(b, avail, k);
    forall i | 0 <= i < |b.machines|
      ensures DialInRange(b.machines[i], avail[i], c.recipe[i], c.setting[i], c.mods[i])
      ensures DialInRange(b.machines[i], avail[i], k.recipe[i], k.setting[i], k.mods[i]) ==>
        c.recipe[i] == k.recipe[i] && c.setting[i] == k.setting[i] && c.mods[i] == k.mods[i]
    {
      ClampDial(b.machines[i], avail[i], k.recipe[i], k.setting[i], k.mods[i]);
    }
    if InRange(b, avail, k) { assert c.recipe == k.recipe && c.setting == k.setting && c.mods == k.mods; }
  }

  /** Every dial in range that is above zero can run: what the fast path relies on. */
  lemma InRangeIsHonest(b: Board, avail: seq<Mods>, k: Knobs)
    requires BoardOk(b) && KnobsOk(b, k) && |avail| == |b.machines| && InRange(b, avail, k)
    ensures Honest(b, k)
  {
    forall i | 0 <= i < |b.machines| && k.setting[i] > 0
      ensures |b.machines[i].modCosts| == 4 && PlanOf(b, i, k.recipe[i], k.setting[i], k.mods[i]).Some?
    {
      assert MachineOk(b, b.machines[i]) && DialInRange(b.machines[i], avail[i], k.recipe[i], k.setting[i], k.mods[i]);
    }
  }

  /** For every clamped vector, under every flag, the fast value is the plain value. */
  lemma ClampedValueIsPlain(b: Board, avail: seq<Mods>, k: Knobs)
    requires BoardOk(b) && KnobsOk(b, k) && |avail| == |b.machines|
    ensures var c := Clamped(b, avail, k); Value(b, Constant(c)) == Value(b, Hourly(c, ConstantMatrix(b, c)))
  {
    var c := Clamped(b, avail, k);
    ClampLandsInRange(b, avail, k);
    InRangeIsHonest(b, avail, c);
    FastRunIsPlain(b, c, b.horizon);
  }

  /** The clamp itself, rewriting the three blocks of the vector in place. */
  method ClampInPlace(b: Board, avail: seq<Mods>, recipe: array<int>, setting: array<int>, mods: array<Mods>)
    requires recipe.Length == setting.Length == mods.Length == |b.machines| == |avail| && recipe != setting
    modifies recipe, setting, mods
    ensures Knobs(recipe[..], setting[..], mods[..]) == Clamped(b, avail, old(Knobs(recipe[..], setting[..], mods[..])))
  {
    ghost var k := Knobs(recipe[..], setting[..], mods[..]);
    ghost var c := Clamped(b, avail, k);
    for i := 0 to |b.machines|
      invariant forall j :: 0 <= j < i ==> recipe[j] == c.recipe[j] && setting[j] == c.setting[j] && mods[j] == c.mods[j]
      invariant forall j :: i <= j < |b.machines| ==> recipe[j] == k.recipe[j] && setting[j] == k.setting[j] && mods[j] == k.mods[j]
    {
      var m := b.machines[i];
      if |m.recipes| == 0 {
        recipe[i], setting[i], mods[i] := -1, 0, NO_MODS;
      } else {
        recipe[i] := recipe[i] % |m.recipes|;
        mods[i] := Common(mods[i], avail[i]);
        var top, v := OutputMax(m, mods[i]), setting[i];
        setting[i] := if v < 0 then 0 else if v > top then top else v;
      }
    }
    assert recipe[..] == c.recipe && setting[..] == c.setting && mods[..] == c.mods;
  }

  // ------------------------------------------------------------------
  // Inert knobs
  // ------------------------------------------------------------------

  /** Knobs of a machine that is off, put back to what the board shows. */
  function Canonical(b: Board, base: Knobs, k: Knobs): (c: Knobs)
    requires KnobsOk(b, base) && KnobsOk(b, k)
    ensures KnobsOk(b, c)
  {
    var n := |b.machines|;
    Knobs(seq(n, i requires 0 <= i < n => if k.setting[i] == 0 then base.recipe[i] else k.recipe[i]), k.setting,
          seq(n, i requires 0 <= i < n => if k.setting[i] == 0 then base.mods[i] else k.mods[i]))
  }

  lemma ClearShape(b: Board, s: State)
    requires Shape(b, s)
    ensures Shape(b, s.(overfull := []))
  {
  }

  lemma SamePlansSameHour(b: Board, k: Knobs, c: Knobs, s: State, h: nat)
    requires BoardOk(b) && KnobsOk(b, k) && KnobsOk(b, c) && h <= b.horizon && Shape(b, s)
    requires PlansAt(b, Constant(k), h) == PlansAt(b, Constant(c), h)
    ensures Hour(b, Constant(k), s, h) == Hour(b, Constant(c), s, h)
  {
    hide AdvanceAll, RestOfHour, DynamicOrder, PlansAt, Shape, BoardOk, WithPlan;
    var plans := PlansAt(b, Constant(k), h);
    PlansAtOk(b, Constant(k), h);
    ClearShape(b, s);
    var s1 := AdvanceAll(b, s.(overfull := []), h, TakingPart(b, Constant(k), AllIds(|b.machines|), plans));
    assert LiveNow(b, Constant(k), s1, h, plans) == LiveNow(b, Constant(c), s1, h, plans);
  }

  lemma {:induction false} SamePlansSameRun(b: Board, k: Knobs, c: Knobs, h: nat)
    requires BoardOk(b) && KnobsOk(b, k) && KnobsOk(b, c) && h <= b.horizon
    requires forall g :: 0 <= g <= b.horizon ==> PlansAt(b, Constant(k), g) == PlansAt(b, Constant(c), g)
    ensures Run(b, Constant(k), h) == Run(b, Constant(c), h)
  {
    hide BoardOk, Shape, Start, PlansAt, Hour;
    if h > 0 {
      SamePlansSameRun(b, k, c, h - 1);
      SamePlansSameHour(b, k, c, Run(b, Constant(k), h - 1), h);
    }
  }

  /** INERT KNOBS: recipes and mods of switched-off machines change nothing at all. */
  lemma CanonicalRunsTheSame(b: Board, base: Knobs, k: Knobs, h: nat)
    requires BoardOk(b) && KnobsOk(b, base) && KnobsOk(b, k) && h <= b.horizon
    ensures Run(b, Constant(Canonical(b, base, k)), h) == Run(b, Constant(k), h)
  {
    var c := Canonical(b, base, k);
    forall g | 0 <= g <= b.horizon ensures PlansAt(b, Constant(k), g) == PlansAt(b, Constant(c), g) {
    }
    SamePlansSameRun(b, k, c, h);
  }

  // ------------------------------------------------------------------
  // The archive and the incumbent
  // ------------------------------------------------------------------

  method Try(b: Board, k: Knobs) returns (value: real, skips: set<nat>)
    requires BoardOk(b) && KnobsOk(b, k)
    ensures value == Worth(b, k) && skips == Starved(b, k)
  {
    value, skips := Evaluate(b, Constant(k));
  }

  lemma CanonicalIsWorthTheSame(b: Board, base: Knobs, k: Knobs)
    requires BoardOk(b) && KnobsOk(b, base) && KnobsOk(b, k)
    ensures Worth(b, Canonical(b, base, k)) == Worth(b, k)
  {
    CanonicalRunsTheSame(b, base, k, b.horizon);
  }

  const ARCHIVE_LIMIT := 400
  const ARCHIVE_CUT := 200

  ghost predicate AllTrue(b: Board, m: map<Knobs, real>)
    requires BoardOk(b)
  {
    forall k :: k in m ==> KnobsOk(b, k) && m[k] == Worth(b, k)
  }

  lemma FiledIsTrue(b: Board, base: Knobs, m: map<Knobs, real>, k: Knobs, value: real)
    requires BoardOk(b) && KnobsOk(b, base) && KnobsOk(b, k) && AllTrue(b, m) && value == Worth(b, k)
    ensures AllTrue(b, m[Canonical(b, base, k) := value])
    ensures Canonical(b, base, k) in m ==> m[Canonical(b, base, k)] == value
  {
    CanonicalIsWorthTheSame(b, base, k);
    var c := Canonical(b, base, k);
    hide Worth, Canonical, BoardOk, KnobsOk;
    forall o | o in m[c := value] ensures KnobsOk(b, o) && m[c := value][o] == Worth(b, o) {
      if o != c { assert o in m; }
    }
  }

  lemma NothingIsTrue(b: Board)
    requires BoardOk(b)
    ensures AllTrue(b, map[])
  {
  }

  lemma FewerIsTrue(b: Board, m: map<Knobs, real>, fewer: map<Knobs, real>)
    requires BoardOk(b) && AllTrue(b, m) && forall o :: o in fewer ==> o in m && fewer[o] == m[o]
    ensures AllTrue(b, fewer)
  {
  }

  /** `top` is the greatest value of the archive. */
  ghost predicate Topped(m: map<Knobs, real>, top: real) {
    (exists k :: k in m && m[k] == top) && forall k :: k in m ==> m[k] <= top
  }

  lemma FiledIsTopped(m: map<Knobs, real>, top: real, k: Knobs, value: real)
    requires Topped(m, top) && (k in m ==> value == m[k])
    ensures Topped(m[k := value], if value > top then value else top)
    ensures k in m ==> value <= top
  {
    var o :| o in m && m[o] == top;
    var r := m[k := value];
    assert k in r && r[k] == value;
    if value <= top { assert o in r && r[o] == top; }
  }

  lemma FirstIsTopped(k: Knobs, value: real)
    ensures Topped(map[][k := value], value)
  {
    var m: map<Knobs, real> := map[];
    assert k in m[k := value];
  }

  lemma TopSurvives(m: map<Knobs, real>, low: Knobs, top: real)
    requires low in m && |m| > 1 && Topped(m, top) && forall o :: o in m ==> m[low] <= m[o]
    ensures |m - {low}| == |m| - 1 && Topped(m - {low}, top)
  {
    var rest := m - {low};
    assert rest.Keys == m.Keys - {low};
    var o :| o in m && m[o] == top;
    if o != low {
      assert o in rest && rest[o] == top;
    } else {
      assert |rest.Keys| > 0;
      var p :| p in rest;
      assert m[p] == top && rest[p] == top;
    }
  }

  lemma FiledSize(m: map<Knobs, real>, k: Knobs, value: real)
    ensures m[k := value].Keys == m.Keys + {k} && |m.Keys + {k}| <= |m| + 1
  {
  }

  class Explorer {
    const b: Board
    const base: Knobs
    var archive: map<Knobs, real>
    var best: Knobs
    var bestValue: real
    var current: Knobs
    var currentValue: real
    var currentSkips: set<nat>

    /** Every recorded value is what simulating its configuration gives. */
    ghost predicate Truthful()
      reads this
    {
      && BoardOk(b) && KnobsOk(b, base) && KnobsOk(b, best) && KnobsOk(b, current)
      && bestValue == Worth(b, best)
      && currentValue == Worth(b, current) && currentSkips == Starved(b, current)
      && AllTrue(b, archive)
    }

    /** The incumbent is the best of the archive. */
    ghost predicate Valid()
      reads this
    {
      Truthful() && Topped(archive, bestValue)
    }

    /** The search opens on the board as it stands. */
    constructor (board: Board, shown: Knobs)
      requires BoardOk(board) && KnobsOk(board, shown)
      ensures Valid() && b == board && base == shown && bestValue == Worth(board, shown) && best == current == shown
    {
      hide Worth, Starved, BoardOk, Canonical, AllTrue, KnobsOk, Topped;
      var v, sk := Try(board, shown);
      b, base, best, bestValue := board, shown, shown, v;
      current, currentValue, currentSkips := shown, v, sk;
      var empty: map<Knobs, real> := map[];
      var canon := Canonical(board, shown, shown);
      NothingIsTrue(board);
      FirstIsTopped(canon, v);
      FiledIsTrue(board, shown, empty, shown, v);
      archive := empty[canon := v];
    }

    /** File a tried vector under its canonical form; keep the dictionary small. */
    method Remember(k: Knobs, value: real)
      requires Valid() && KnobsOk(b, k) && value == Worth(b, k)
      modifies `archive
      ensures Truthful() && Topped(archive, if value > bestValue then value else bestValue)
      ensures archive.Keys <= old(archive).Keys + {Canonical(b, base, k)}
      ensures |old(archive)| < ARCHIVE_LIMIT ==> archive.Keys == old(archive).Keys + {Canonical(b, base, k)}
    {
      hide Worth, BoardOk, Canonical, Topped, AllTrue, KnobsOk;
      var canon := Canonical(b, base, k);
      FiledIsTrue(b, base, archive, k, value);
      FiledIsTopped(archive, bestValue, canon, value);
      if canon !in archive || value > archive[canon] {
        archive := archive[canon := value];
      }
      FiledSize(old(archive), canon, value);
      assert archive.Keys == old(archive).Keys + {canon};
      if |archive| > ARCHIVE_LIMIT {
        ghost var filed := archive;
        DropLowest(if value > bestValue then value else bestValue);
        FewerIsTrue(b, filed, archive);
      }
    }

    /** Forget the lowest entries; the maximum survives. */
    method DropLowest(ghost top: real)
      requires |archive| > ARCHIVE_LIMIT && Topped(archive, top)
      modifies `archive
      ensures |archive| == old(|archive|) - ARCHIVE_CUT && Topped(archive, top)
      ensures forall o :: o in archive ==> o in old(archive) && archive[o] == old(archive)[o]
      ensures forall o, p :: o in archive && p in old(archive) && p !in archive ==> old(archive)[p] <= archive[o]
    {
      ghost var was := archive;
      for n := 0 to ARCHIVE_CUT
        invariant |archive| == |was| - n && Topped(archive, top)
        invariant forall o :: o in archive ==> o in was && archive[o] == was[o]
        invariant forall o, p :: o in archive && p in was && p !in archive ==> was[p] <= archive[o]
      {
        var low := Lowest();
        TopSurvives(archive, low, top);
        archive := archive - {low};
      }
    }

    method Lowest() returns (low: Knobs)
      requires |archive| > 0
      ensures low in archive && forall o :: o in archive ==> archive[low] <= archive[o]
    {
      var left := archive.Keys;
      low :| low in left;
      while left != {}
        invariant left <= archive.Keys && low in archive
        invariant forall o :: o in archive && o !in left ==> archive[low] <= archive[o]
        decreases |left|
      {
        var k :| k in left;
        if archive[k] < archive[low] { low := k; }
        left := left - {k};
      }
    }

    /** The cliff guard: a newly starved machine and no more money. */
    ghost predicate Refuses(k: Knobs)
      requires BoardOk(b) && KnobsOk(b, k)
      reads this
    {
      Starved(b, k) - currentSkips != {} && Worth(b, k) <= currentValue
    }

    /** The opening: every seed is filed, the best of them crowned, and the walk
        starts at the incumbent. */
    method PlantSeeds(seeds: seq<Knobs>)
      requires Valid() && current == best && forall n :: 0 <= n < |seeds| ==> KnobsOk(b, seeds[n])
      modifies this
      ensures Valid() && current == best && bestValue >= old(bestValue)
      ensures forall n :: 0 <= n < |seeds| ==> bestValue >= Worth(b, seeds[n])
      ensures best == old(best) || best in seeds
    {
      hide Worth, Starved, BoardOk, AllTrue, Topped, KnobsOk, Canonical;
      for n := 0 to |seeds|
        invariant Valid() && current == best && bestValue >= old(bestValue)
        invariant forall j :: 0 <= j < n ==> bestValue >= Worth(b, seeds[j])
        invariant best == old(best) || best in seeds
      {
        PlantSeed(seeds[n]);
      }
    }

    method PlantSeed(k: Knobs)
      requires Valid() && current == best && KnobsOk(b, k)
      modifies this
      ensures Valid() && current == best
      ensures bestValue == if Worth(b, k) > old(bestValue) then Worth(b, k) else old(bestValue)
      ensures best == if bestValue > old(bestValue) then k else old(best)
    {
      hide Worth, Starved, BoardOk, AllTrue, Topped, KnobsOk, Canonical;
      var value, skips := Try(b, k);
      Remember(k, value);
      if value > bestValue {
        best, bestValue := k, value;
        current, currentValue, currentSkips := k, value, skips;
      }
    }

    /** One candidate: refused outright when it newly starves a machine without
        earning more; otherwise filed, perhaps moved to, and crowned if it is better. */
    method Consider(k: Knobs, luck: bool)
      requires Valid() && KnobsOk(b, k)
      modifies this
      ensures Valid() && bestValue >= old(bestValue)
      ensures old(Refuses(k)) ==> bestValue == old(bestValue) && current == old(current)
      ensures !old(Refuses(k)) ==> bestValue == if Worth(b, k) > old(bestValue) then Worth(b, k) else old(bestValue)
      ensures !old(Refuses(k)) ==> current == if Worth(b, k) >= old(currentValue) || luck then k else old(current)
      ensures best == if bestValue > old(bestValue) then k else old(best)
    {
      hide Worth, Starved, BoardOk, AllTrue, Topped, KnobsOk;
      var value, skips := Try(b, k);
      if skips - currentSkips != {} && value <= currentValue { return; }
      Remember(k, value);
      if value - currentValue >= 0.0 || luck {
        current, currentValue, currentSkips := k, value, skips;
      }
      if value > bestValue {
        best, bestValue := k, value;
      }
    }

    /** A variant tried outside the walk is taken only when it beats the incumbent. */
    method Promote(k: Knobs)
      requires Valid() && KnobsOk(b, k)
      modifies this
      ensures Valid() && bestValue == if Worth(b, k) > old(bestValue) then Worth(b, k) else old(bestValue)
      ensures current == old(current) && best == if bestValue > old(bestValue) then k else old(best)
    {
      hide Worth, Starved, BoardOk, AllTrue, Topped, KnobsOk;
      var value, skips := Try(b, k);
      if value > bestValue {
        Remember(k, value);
        best, bestValue := k, value;
      }
    }

    /** A restart moves without filing: the archive and the incumbent do not notice. */
    method Restart(k: Knobs)
      requires Valid() && KnobsOk(b, k)
      modifies `current, `currentValue, `currentSkips
      ensures Valid() && current == k
    {
      hide Worth, Starved, BoardOk, AllTrue, Topped, KnobsOk;
      var value, skips := Try(b, k);
      current, currentValue, currentSkips := k, value, skips;
    }
  }

  // ------------------------------------------------------------------
  // The endgame
  // ------------------------------------------------------------------

  type Cell = (nat, nat)

  /** The per-hour settings when the cells of `off` are switched off. */
  function MatrixOf(b: Board, k: Knobs, off: set<Cell>): (m: seq<seq<int>>)
    requires KnobsOk(b, k)
    ensures |m| == |b.machines| && forall i :: 0 <= i < |m| ==> |m[i]| == b.horizon + 1
  {
    seq(|b.machines|, i requires 0 <= i < |b.machines| => seq(b.horizon + 1, h requires 0 <= h <= b.horizon => if (i, h) in off then 0 else k.setting[i]))
  }

  /** How a configuration with these hourly overrides is simulated: none means constant settings. */
  function Resimulated(b: Board, k: Knobs, off: set<Cell>): (d: Drive)
    requires KnobsOk(b, k)
    ensures DriveOk(b, d)
  {
    if off == {} then Constant(k) else Hourly(k, MatrixOf(b, k, off))
  }

  function SwitchOff(m: seq<seq<int>>, i: nat, h: nat): (r: seq<seq<int>>)
    requires i < |m| && h < |m[i]|
    ensures |r| == |m|
  {
    m[i := m[i][h := 0]]
  }

  lemma SwitchOffCell(b: Board, k: Knobs, off: set<Cell>, i: nat, h: nat)
    requires KnobsOk(b, k) && i < |b.machines| && h <= b.horizon
    ensures SwitchOff(MatrixOf(b, k, off), i, h) == MatrixOf(b, k, off + {(i, h)})
  {
    var m, r := MatrixOf(b, k, off), MatrixOf(b, k, off + {(i, h)});
    forall j | 0 <= j < |m| ensures SwitchOff(m, i, h)[j] == r[j] {
      assert |SwitchOff(m, i, h)[j]| == |r[j]|;
    }
  }

  /** A run started here can no longer reach a seller before the end. */
  predicate TooLate(b: Board, k: Knobs, lead: seq<nat>, start: nat, i: nat, h: nat)
    requires KnobsOk(b, k) && i < |b.machines| == |lead|
  {
    k.setting[i] > 0 && lead[i] < FactoryGraph.NEVER && start <= h <= b.horizon && h + lead[i] > b.horizon
  }

  /** The cells of the window that are too late. */
  ghost function LateCells(b: Board, k: Knobs, lead: seq<nat>, start: nat): set<Cell>
    requires KnobsOk(b, k) && |lead| == |b.machines|
  {
    set i: nat, h: nat | i < |b.machines| && h <= b.horizon && TooLate(b, k, lead, start, i, h) :: (i, h)
  }

  lemma LateCellsAre(b: Board, k: Knobs, lead: seq<nat>, start: nat, off: set<Cell>)
    requires KnobsOk(b, k) && |lead| == |b.machines|
    requires forall i: nat, h: nat :: (i, h) in off <==> i < |b.machines| && TooLate(b, k, lead, start, i, h)
    ensures off == LateCells(b, k, lead, start)
  {
    forall c: Cell ensures c in off <==> c in LateCells(b, k, lead, start) {
      assert c == (c.0, c.1);
    }
  }

  method DrainMachine(b: Board, k: Knobs, lead: seq<nat>, start: nat, i: nat, was: set<Cell>) returns (off: set<Cell>, hourly: seq<seq<int>>)
    requires KnobsOk(b, k) && i < |b.machines| == |lead| && forall h: nat :: (i, h) !in was
    ensures hourly == MatrixOf(b, k, off)
    ensures forall j: nat, h: nat :: (j, h) in off <==> (j, h) in was || (j == i && TooLate(b, k, lead, start, i, h))
  {
    off, hourly := was, MatrixOf(b, k, was);
    if k.setting[i] > 0 && lead[i] < FactoryGraph.NEVER && start <= b.horizon {
      for h := start to b.horizon + 1
        invariant hourly == MatrixOf(b, k, off)
        invariant forall j: nat, g: nat :: (j, g) in off <==> (j, g) in was || (j == i && g < h && TooLate(b, k, lead, start, i, g))
      {
        if h + lead[i] > b.horizon && hourly[i][h] != 0 {
          SwitchOffCell(b, k, off, i, h);
          hourly := SwitchOff(hourly, i, h);
          off := off + {(i, h)};
        }
      }
    }
  }

  /** The drain schedule: exactly the cells of the window that are too late. */
  method DrainSchedule(b: Board, k: Knobs, lead: seq<nat>, start: nat) returns (hourly: seq<seq<int>>, off: set<Cell>)
    requires KnobsOk(b, k) && |lead| == |b.machines|
    ensures hourly == MatrixOf(b, k, off) && off == LateCells(b, k, lead, start)
  {
    hide TooLate, MatrixOf;
    hourly, off := MatrixOf(b, k, {}), {};
    for i := 0 to |b.machines|
      invariant hourly == MatrixOf(b, k, off)
      invariant forall j: nat, h: nat :: (j, h) in off <==> j < i && TooLate(b, k, lead, start, j, h)
    {
      off, hourly := DrainMachine(b, k, lead, start, i, off);
    }
    LateCellsAre(b, k, lead, start, off);
  }

  // The greedy pass, one cell after another

  /** What a configuration with these cells off is worth. */
  function Drained(b: Board, k: Knobs, off: set<Cell>): real
    requires BoardOk(b) && KnobsOk(b, k)
  {
    Value(b, Resimulated(b, k, off))
  }

  /** Hours start..h of one machine. */
  function RowCells(i: nat, start: nat, h: nat): seq<Cell> {
    if h <= start then [] else RowCells(i, start, h - 1) + [(i, h - 1)]
  }

  /** The window of the first n machines, those that are on, machine by machine. */
  function WindowCells(b: Board, k: Knobs, start: nat, n: nat): seq<Cell>
    requires KnobsOk(b, k) && n <= |b.machines|
  {
    if n == 0 then []
    else WindowCells(b, k, start, n - 1) + if k.setting[n-1] > 0 then RowCells(n - 1, start, b.horizon + 1) else []
  }

  /** A cell is switched off for good when that earns more than the tolerance. */
  ghost function Greedy(b: Board, k: Knobs, off: set<Cell>, cells: seq<Cell>): set<Cell>
    requires BoardOk(b) && KnobsOk(b, k)
  {
    if cells == [] then off
    else
      var before, c := Greedy(b, k, off, cells[..|cells|-1]), cells[|cells|-1];
      if c !in before && Drained(b, k, before + {c}) > Drained(b, k, before) + EPS then before + {c} else before
  }

  lemma GreedySnoc(b: Board, k: Knobs, off: set<Cell>, cells: seq<Cell>, c: Cell)
    requires BoardOk(b) && KnobsOk(b, k)
    ensures var before := Greedy(b, k, off, cells);
      Greedy(b, k, off, cells + [c]) == if c !in before && Drained(b, k, before + {c}) > Drained(b, k, before) + EPS then before + {c} else before
  {
    hide Drained, BoardOk, KnobsOk;
    assert (cells + [c])[..|cells|] == cells;
  }

  /** Every switch the greedy pass makes earns more than the tolerance. */
  lemma {:induction false} GreedyEarns(b: Board, k: Knobs, off: set<Cell>, cells: seq<Cell>)
    requires BoardOk(b) && KnobsOk(b, k)
    ensures var r := Greedy(b, k, off, cells);
      off <= r && (forall c :: c in r ==> c in off || c in cells) && Drained(b, k, r) >= Drained(b, k, off) + |r - off| as real * EPS
  {
    hide Drained;
    if cells == [] {
      assert off - off == {};
    } else {
      var front, c := cells[..|cells|-1], cells[|cells|-1];
      GreedyEarns(b, k, off, front);
      var before := Greedy(b, k, off, front);
      assert cells == front + [c];
      if c !in before { assert (before + {c}) - off == (before - off) + {c}; }
    }
  }

  /** The better of the flat configuration and the drain schedule. */
  ghost function Opening(b: Board, k: Knobs, late: set<Cell>): set<Cell>
    requires BoardOk(b) && KnobsOk(b, k)
  {
    if Drained(b, k, late) < Drained(b, k, {}) then {} else late
  }

  function WindowStart(b: Board, depth: nat): (start: nat)
    ensures 1 <= start && b.horizon < start + depth + 2
  {
    if b.horizon < depth + 2 then 1 else b.horizon - (depth + 2) + 1
  }

  /** The drain schedule tried as a whole. */
  method TryDrain(b: Board, k: Knobs, flat: real, lead: seq<nat>, start: nat) returns (hourly: seq<seq<int>>, off: set<Cell>, value: real)
    requires BoardOk(b) && KnobsOk(b, k) && |lead| == |b.machines| && flat == Value(b, Constant(k))
    ensures hourly == MatrixOf(b, k, off) && off == Opening(b, k, LateCells(b, k, lead, start)) && value == Drained(b, k, off)
  {
    hide Run, BoardOk, MatrixOf, LateCells;
    hourly, off := DrainSchedule(b, k, lead, start);
    value := flat;
    if off != {} {
      var drained, _ := Evaluate(b, Hourly(k, hourly));
      value := drained;
      if value < flat {
        hourly, off, value := MatrixOf(b, k, {}), {}, flat;
      }
    }
  }

  /** One cell of the greedy pass. */
  method GreedyStep(b: Board, k: Knobs, i: nat, h: nat, ghost first: set<Cell>, ghost done: seq<Cell>,
                    wasHourly: seq<seq<int>>, was: set<Cell>, wasValue: real)
    returns (hourly: seq<seq<int>>, off: set<Cell>, value: real)
    requires BoardOk(b) && KnobsOk(b, k) && i < |b.machines| && h <= b.horizon && k.setting[i] > 0
    requires wasHourly == MatrixOf(b, k, was) && was == Greedy(b, k, first, done) && wasValue == Drained(b, k, was)
    ensures hourly == MatrixOf(b, k, off) && off == Greedy(b, k, first, done + [(i, h)]) && value == Drained(b, k, off)
  {
    hourly, off, value := wasHourly, was, wasValue;
    OnCell(b, k, off, i, h);
    GreedySnoc(b, k, first, done, (i, h));
    hide BoardOk, MatrixOf, SwitchOff, Greedy, Drained;
    if hourly[i][h] != 0 {
      SwitchOffCell(b, k, off, i, h);
      var trial := TryOff(b, k, off, i, h, SwitchOff(hourly, i, h));
      if trial > value + EPS {
        hourly, off, value := SwitchOff(hourly, i, h), off + {(i, h)}, trial;
      }
    }
  }

  /** One machine of the greedy pass. */
  method GreedyRow(b: Board, k: Knobs, start: nat, i: nat, ghost first: set<Cell>, ghost done: seq<Cell>,
                   wasHourly: seq<seq<int>>, was: set<Cell>, wasValue: real)
    returns (hourly: seq<seq<int>>, off: set<Cell>, value: real)
    requires BoardOk(b) && KnobsOk(b, k) && i < |b.machines| && k.setting[i] > 0
    requires wasHourly == MatrixOf(b, k, was) && was == Greedy(b, k, first, done) && wasValue == Drained(b, k, was)
    ensures hourly == MatrixOf(b, k, off) && off == Greedy(b, k, first, done + RowCells(i, start, b.horizon + 1)) && value == Drained(b, k, off)
  {
    hide BoardOk, MatrixOf, Greedy, Drained;
    hourly, off, value := wasHourly, was, wasValue;
    assert done + [] == done;
    if start <= b.horizon {
      for h := start to b.horizon + 1
        invariant hourly == MatrixOf(b, k, off) && off == Greedy(b, k, first, done + RowCells(i, start, h)) && value == Drained(b, k, off)
      {
        assert done + RowCells(i, start, h + 1) == (done + RowCells(i, start, h)) + [(i, h)];
        hourly, off, value := GreedyStep(b, k, i, h, first, done + RowCells(i, start, h), hourly, off, value);
      }
    }
  }

  lemma OnCell(b: Board, k: Knobs, off: set<Cell>, i: nat, h: nat)
    requires KnobsOk(b, k) && i < |b.machines| && h <= b.horizon && k.setting[i] > 0
    ensures |MatrixOf(b, k, off)[i]| == b.horizon + 1 && (MatrixOf(b, k, off)[i][h] != 0 <==> (i, h) !in off)
  {
  }

  method TryOff(b: Board, k: Knobs, off: set<Cell>, i: nat, h: nat, hourly: seq<seq<int>>) returns (trial: real)
    requires BoardOk(b) && KnobsOk(b, k) && i < |b.machines| && h <= b.horizon && hourly == MatrixOf(b, k, off + {(i, h)})
    ensures trial == Drained(b, k, off + {(i, h)})
  {
    hide BoardOk, MatrixOf, Run;
    var value, _ := Evaluate(b, Hourly(k, hourly));
    trial := value;
  }

  lemma GreedyNone(b: Board, k: Knobs, off: set<Cell>)
    requires BoardOk(b) && KnobsOk(b, k)
    ensures Greedy(b, k, off, []) == off
  {
  }

  lemma {:induction false} RowInside(i: nat, start: nat, h: nat, c: Cell)
    requires c in RowCells(i, start, h)
    ensures c.0 == i && start <= c.1 < h
  {
    if h > start && c != (i, h - 1) { RowInside(i, start, h - 1, c); }
  }

  lemma {:induction false} WindowInside(b: Board, k: Knobs, start: nat, n: nat, c: Cell)
    requires KnobsOk(b, k) && n <= |b.machines| && c in WindowCells(b, k, start, n)
    ensures c.0 < n && start <= c.1 <= b.horizon && k.setting[c.0] > 0
  {
    hide RowCells;
    if n > 0 {
      var front, row := WindowCells(b, k, start, n - 1), RowCells(n - 1, start, b.horizon + 1);
      if c in front {
        WindowInside(b, k, start, n - 1, c);
      } else {
        assert k.setting[n-1] > 0 && c in row;
        RowInside(n - 1, start, b.horizon + 1, c);
      }
    }
  }

  /** NEVER WORSE: the endgame value is at least the flat value and the value of the
      whole drain schedule. */
  lemma EndgameNeverWorse(b: Board, k: Knobs, late: set<Cell>, cells: seq<Cell>)
    requires BoardOk(b) && KnobsOk(b, k)
    ensures var off := Greedy(b, k, Opening(b, k, late), cells);
      Drained(b, k, off) >= Value(b, Constant(k)) && Drained(b, k, off) >= Drained(b, k, late)
  {
    assert Drained(b, k, {}) == Value(b, Constant(k));
    hide Drained, Greedy, Value, BoardOk, DriveOk;
    GreedyEarns(b, k, Opening(b, k, late), cells);
  }

  /** Only cells of machines that are on, in the last depth + 2 hours, are switched off. */
  lemma EndgameStaysInWindow(b: Board, k: Knobs, lead: seq<nat>, depth: nat)
    requires BoardOk(b) && KnobsOk(b, k) && |lead| == |b.machines|
    ensures var start := WindowStart(b, depth);
      forall c :: c in Greedy(b, k, Opening(b, k, LateCells(b, k, lead, start)), WindowCells(b, k, start, |b.machines|))
        ==> InWindow(b, k, depth, c)
  {
    var start := WindowStart(b, depth);
    var late, cells := LateCells(b, k, lead, start), WindowCells(b, k, start, |b.machines|);
    hide Drained, Greedy, BoardOk, DriveOk, LateCells, WindowCells, InWindow;
    GreedyEarns(b, k, Opening(b, k, late), cells);
    forall c | c in Greedy(b, k, Opening(b, k, late), cells) ensures InWindow(b, k, depth, c) {
      CellInWindow(b, k, lead, depth, c);
    }
  }

  lemma CellInWindow(b: Board, k: Knobs, lead: seq<nat>, depth: nat, c: Cell)
    requires KnobsOk(b, k) && |lead| == |b.machines|
    requires var start := WindowStart(b, depth);
      c in LateCells(b, k, lead, start) || c in WindowCells(b, k, start, |b.machines|)
    ensures InWindow(b, k, depth, c)
  {
    var start := WindowStart(b, depth);
    if c in LateCells(b, k, lead, start) { assert TooLate(b, k, lead, start, c.0, c.1); }
    else { WindowInside(b, k, start, |b.machines|, c); }
    hide LateCells, WindowCells;
  }

  // ------------------------------------------------------------------
  // The configuration the endgame returns
  // ------------------------------------------------------------------

  /** The overrides that switch the cells of `off` off, machine by machine. */
  function SwitchedOff(n: nat, off: set<Cell>): (r: seq<map<int, int>>)
    ensures |r| == n
  {
    seq(n, i requires 0 <= i < n => map c | c in off && c.0 == i :: c.1 := 0)
  }

  /** What simulating a configuration drives: its vector, at its hourly settings if
      it has any. */
  function DriveOf(cat: Configs.Catalog, horizon: nat, config: Configs.FactoryConfig): Drive
    requires |cat.machines| == |cat.recipes|
  {
    match Configs.HourlyMatrix(cat, horizon, config)
    case None => Constant(Configs.VectorOf(cat, config))
    case Some(m) => Hourly(Configs.VectorOf(cat, config), m)
  }

  ghost predicate Inside(b: Board, off: set<Cell>) {
    forall c :: c in off ==> c.0 < |b.machines| && c.1 <= b.horizon
  }

  lemma SwitchedOffCells(b: Board, k: Knobs, off: set<Cell>)
    requires KnobsOk(b, k) && Inside(b, off)
    ensures Configs.Overridden(k.setting, SwitchedOff(|b.machines|, off), b.horizon) == MatrixOf(b, k, off)
    ensures (forall i :: 0 <= i < |b.machines| ==> SwitchedOff(|b.machines|, off)[i] == map[]) <==> off == {}
  {
    var n := |b.machines|;
    var over := SwitchedOff(n, off);
    var got, want := Configs.Overridden(k.setting, over, b.horizon), MatrixOf(b, k, off);
    forall i | 0 <= i < n ensures got[i] == want[i] {
      forall h | 0 <= h <= b.horizon ensures got[i][h] == want[i][h] {
        assert h in over[i] <==> (i, h) in off by {
          if (i, h) in off { assert (i, h).0 == i; }
        }
      }
    }
    assert got == want;
    if c :| c in off { assert c.1 in over[c.0]; }
  }

  /** The returned overrides are what was simulated: the configuration's hourly
      matrix is the schedule, none where nothing is off, and its vector the vector. */
  lemma EndgameReadsBack(b: Board, cat: Configs.Catalog, k: Knobs, off: set<Cell>)
    requires KnobsOk(b, k) && Configs.CatalogOk(b, cat) && Configs.Nameable(cat, k) && Inside(b, off)
    ensures var config := Configs.ConfigOf(cat, k, SwitchedOff(|b.machines|, off));
      && Configs.HourlyMatrix(cat, b.horizon, config) == (if off == {} then None else Some(MatrixOf(b, k, off)))
      && Configs.VectorOf(cat, config) == k
      && DriveOf(cat, b.horizon, config) == Resimulated(b, k, off)
    ensures BoardOk(b) ==> Drained(b, k, off) == Value(b, Resimulated(b, k, off))
  {
    hide BoardOk, DriveOk, Run;
    var over := SwitchedOff(|b.machines|, off);
    SwitchedOffCells(b, k, off);
    Configs.MatrixReadsOverrides(b, cat, k, over);
    Configs.ConfigRoundTrip(b, cat, k, over);
    hide SwitchedOff, MatrixOf, Configs.ConfigOf, Configs.HourlyMatrix, Configs.VectorOf, Configs.Overridden;
  }

  lemma OneMoreOff(n: nat, off: set<Cell>, i: nat, h: nat)
    requires i < n
    ensures SwitchedOff(n, off + {(i, h)}) == SwitchedOff(n, off)[i := SwitchedOff(n, off)[i][h := 0]]
  {
    var before, after := SwitchedOff(n, off), SwitchedOff(n, off + {(i, h)});
    forall j | 0 <= j < n ensures after[j] == if j == i then before[j][h := 0] else before[j] {
      if j == i { assert (i, h).0 == i && h in after[i]; }
    }
  }

  /** Copy the switched-off cells into the configuration, in whatever order. */
  method WithOverrides(b: Board, cat: Configs.Catalog, k: Knobs, off: set<Cell>) returns (config: Configs.FactoryConfig)
    requires KnobsOk(b, k) && Configs.CatalogOk(b, cat) && Inside(b, off)
    ensures config == Configs.ConfigOf(cat, k, SwitchedOff(|b.machines|, off))
  {
    hide SwitchedOff, Configs.ConfigOf;
    config := Configs.ConfigOf(cat, k, SwitchedOff(|b.machines|, {}));
    var left := off;
    assert off - left == {};
    while left != {}
      invariant left <= off && config == Configs.ConfigOf(cat, k, SwitchedOff(|b.machines|, off - left))
      decreases |left|
    {
      var c :| c in left;
      OneMoreOff(|b.machines|, off - left, c.0, c.1);
      Configs.OverrideOne(b, cat, k, SwitchedOff(|b.machines|, off - left), c.0, c.1, 0);
      assert off - (left - {c}) == (off - left) + {(c.0, c.1)};
      var mc := config[cat.machines[c.0]];
      config := config[cat.machines[c.0] := mc.(overrides := mc.overrides[c.1 := 0])];
      left := left - {c};
    }
    assert off - left == off;
  }

  /** The schedule: the drain schedule if it does not hurt, then every cell of the
      window once, in order. */
  method Schedule(b: Board, k: Knobs, flat: real, lead: seq<nat>, depth: nat) returns (off: set<Cell>, value: real)
    requires BoardOk(b) && KnobsOk(b, k) && |lead| == |b.machines| && flat == Value(b, Constant(k))
    ensures value == Drained(b, k, off)
    ensures var start := WindowStart(b, depth);
      off == Greedy(b, k, Opening(b, k, LateCells(b, k, lead, start)), WindowCells(b, k, start, |b.machines|))
  {
    hide BoardOk, MatrixOf, Greedy, Drained, RowCells, Opening, LateCells, Value, DriveOk;
    var start := WindowStart(b, depth);
    var hourly;
    hourly, off, value := TryDrain(b, k, flat, lead, start);
    ghost var first := off;
    GreedyNone(b, k, first);
    for i := 0 to |b.machines|
      invariant hourly == MatrixOf(b, k, off) && off == Greedy(b, k, first, WindowCells(b, k, start, i)) && value == Drained(b, k, off)
    {
      if k.setting[i] > 0 {
        hourly, off, value := GreedyRow(b, k, start, i, first, WindowCells(b, k, start, i), hourly, off, value);
      } else {
        assert WindowCells(b, k, start, i) + [] == WindowCells(b, k, start, i);
      }
    }
  }

  /** Switched off in the last depth + 2 hours, on a machine that is on. */
  predicate InWindow(b: Board, k: Knobs, depth: nat, c: Cell)
    requires KnobsOk(b, k)
  {
    c.0 < |b.machines| && 1 <= c.1 <= b.horizon && b.horizon < c.1 + depth + 2 && k.setting[c.0] > 0
  }

  /** ENDGAME: simulating the returned configuration gives the returned value; it is
      no less than the flat value; only cells of the last hours are switched off,
      and they are the ones the greedy pass takes. */
  method Endgame(b: Board, cat: Configs.Catalog, k: Knobs, flat: real, lead: seq<nat>, depth: nat)
    returns (config: Configs.FactoryConfig, value: real, off: set<Cell>)
    requires BoardOk(b) && KnobsOk(b, k) && |lead| == |b.machines| && flat == Value(b, Constant(k))
    requires Configs.CatalogOk(b, cat) && Configs.Nameable(cat, k)
    ensures DriveOk(b, DriveOf(cat, b.horizon, config)) && value == Value(b, DriveOf(cat, b.horizon, config))
    ensures Configs.HourlyMatrix(cat, b.horizon, config) == if off == {} then None else Some(MatrixOf(b, k, off))
    ensures Configs.VectorOf(cat, config) == k
    ensures value >= flat && value >= Drained(b, k, LateCells(b, k, lead, WindowStart(b, depth)))
    ensures forall c :: c in off ==> InWindow(b, k, depth, c)
    ensures var start := WindowStart(b, depth);
      off == Greedy(b, k, Opening(b, k, LateCells(b, k, lead, start)), WindowCells(b, k, start, |b.machines|))
  {
    hide BoardOk, Greedy, Opening, LateCells, WindowCells, WindowStart, Value, Drained, InWindow, Inside, Resimulated, DriveOf, MatrixOf,
      Configs.ConfigOf, Configs.HourlyMatrix, Configs.VectorOf;
    off, value := Schedule(b, k, flat, lead, depth);
    ghost var start := WindowStart(b, depth);
    EndgameNeverWorse(b, k, LateCells(b, k, lead, start), WindowCells(b, k, start, |b.machines|));
    EndgameStaysInWindow(b, k, lead, depth);
    WindowIsInside(b, k, depth, off);
    config := WithOverrides(b, cat, k, off);
    EndgameReadsBack(b, cat, k, off);
  }

  lemma WindowIsInside(b: Board, k: Knobs, depth: nat, off: set<Cell>)
    requires KnobsOk(b, k) && forall c :: c in off ==> InWindow(b, k, depth, c)
    ensures Inside(b, off)
  {
  }
}
