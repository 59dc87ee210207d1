/** The optimiser's vector against the configuration a player reads: recipe ids,
    output settings, lists of mods and overrides by the hour. */
module Configs {
  import opened Counting
  import opened Factory

  datatype Mod = DoubleOutput | HalfMaterials | OneHour | DoubleStorage

  const MOD_ORDER: seq<Mod> := [DoubleOutput, HalfMaterials, OneHour, DoubleStorage]

  /** `overrides` maps an hour to the output setting that replaces `setting` in it. */
  datatype MachineConfig = MachineConfig(recipe: Option<string>, setting: int, mods: seq<Mod>, overrides: map<int, int>)

  type FactoryConfig = map<string, MachineConfig>

  /** Names of the machines and, machine by machine, of their recipes. */
  datatype Catalog = Catalog(machines: seq<string>, recipes: seq<seq<string>>)

  ghost predicate CatalogOk(b: Board, cat: Catalog) {
    && |cat.machines| == |cat.recipes| == |b.machines| && Distinct(cat.machines)
    && forall i :: 0 <= i < |cat.recipes| ==> Distinct(cat.recipes[i]) && |cat.recipes[i]| == |b.machines[i].recipes|
  }

  predicate HasMod(m: Mods, mod: Mod) {
    match mod
    case DoubleOutput => m.doubleOutput
    case HalfMaterials => m.halfMaterials
    case OneHour => m.oneHour
    case DoubleStorage => m.doubleStorage
  }

  function Listed(m: Mods, order: seq<Mod>): seq<Mod> {
    if order == [] then []
    else (if HasMod(m, order[0]) then [order[0]] else []) + Listed(m, order[1..])
  }

  function MaskOf(mods: seq<Mod>): Mods {
    Mods(DoubleOutput in mods, HalfMaterials in mods, OneHour in mods, DoubleStorage in mods)
  }

  /** Position of a recipe id, or -1. */
  function IndexOf(ids: seq<string>, id: string): (r: int)
    ensures -1 <= r < |ids|
    ensures r >= 0 ==> ids[r] == id && forall k :: 0 <= k < r ==> ids[k] != id
    ensures r == -1 ==> id !in ids
  {
    if ids == [] then -1
    else if ids[0] == id then 0
    else
      var rest := IndexOf(ids[1..], id);
      if rest == -1 then -1 else rest + 1
  }

  /** One machine of a vector as a configuration entry. */
  function ToConfig(ids: seq<string>, ri: int, setting: int, mods: Mods): MachineConfig {
    MachineConfig(if 0 <= ri < |ids| then Some(ids[ri]) else None, setting, Listed(mods, MOD_ORDER), map[])
  }

  /** A configuration entry, or none, as one machine of a vector. */
  function FromConfig(ids: seq<string>, entry: Option<MachineConfig>): (r: (int, int, Mods)) {
    match entry
    case None => (-1, 0, Mods(false, false, false, false))
    case Some(c) =>
      var found := if c.recipe.Some? then IndexOf(ids, c.recipe.value) else -1;
      (if found >= 0 then found else if ids != [] then 0 else -1, c.setting, MaskOf(c.mods))
  }

  lemma {:induction false} ListedHas(m: Mods, order: seq<Mod>, mod: Mod)
    ensures mod in Listed(m, order) <==> mod in order && HasMod(m, mod)
  {
    if order != [] {
      ListedHas(m, order[1..], mod);
      assert order == [order[0]] + order[1..];
    }
  }

  /** ROUND TRIP: with distinct recipe ids a vector survives the trip through its
      configuration exactly when its recipe index exists, or is -1 on a machine
      without recipes. */
  lemma VectorRoundTrip(ids: seq<string>, ri: int, setting: int, mods: Mods)
    requires Distinct(ids)
    ensures FromConfig(ids, Some(ToConfig(ids, ri, setting, mods))) == (ri, setting, mods)
       <==> 0 <= ri < |ids| || (ids == [] && ri == -1)
    ensures FromConfig(ids, Some(ToConfig(ids, ri, setting, mods))).2 == mods
  {
    forall mod | mod in MOD_ORDER ensures mod in Listed(mods, MOD_ORDER) <==> HasMod(mods, mod) {
      ListedHas(mods, MOD_ORDER, mod);
    }
    assert DoubleOutput in MOD_ORDER && HalfMaterials in MOD_ORDER && OneHour in MOD_ORDER && DoubleStorage in MOD_ORDER;
    if 0 <= ri < |ids| {
      var found := IndexOf(ids, ids[ri]);
      assert found == ri;
    }
  }

  // ------------------------------------------------------------------
  // Whole configurations
  // ------------------------------------------------------------------

  function OutputAt(c: MachineConfig, hour: int): int {
    if hour in c.overrides then c.overrides[hour] else c.setting
  }

  /** A vector with some settings overridden, as a configuration; `overrides` gives
      each machine's. */
  function ConfigOf(cat: Catalog, k: Knobs, overrides: seq<map<int, int>>): (config: FactoryConfig)
    requires |k.recipe| == |k.setting| == |k.mods| == |overrides| == |cat.machines| == |cat.recipes|
  {
    map id | id in cat.machines ::
      var i := IndexOf(cat.machines, id);
      ToConfig(cat.recipes[i], k.recipe[i], k.setting[i], k.mods[i]).(overrides := overrides[i])
  }

  lemma NameOf(cat: Catalog, i: nat)
    requires i < |cat.machines| && Distinct(cat.machines)
    ensures IndexOf(cat.machines, cat.machines[i]) == i
  {
  }

  function Entry(config: FactoryConfig, id: string): Option<MachineConfig> {
    if id in config then Some(config[id]) else None
  }

  /** The vector a configuration stands for. */
  function VectorOf(cat: Catalog, config: FactoryConfig): (k: Knobs)
    requires |cat.machines| == |cat.recipes|
    ensures |k.recipe| == |k.setting| == |k.mods| == |cat.machines|
  {
    var n := |cat.machines|;
    var read := seq(n, i requires 0 <= i < n => FromConfig(cat.recipes[i], Entry(config, cat.machines[i])));
    Knobs(seq(n, i requires 0 <= i < n => read[i].0), seq(n, i requires 0 <= i < n => read[i].1),
          seq(n, i requires 0 <= i < n => read[i].2))
  }

  /** Settings hour by hour, or none where no machine has an override. */
  function HourlyMatrix(cat: Catalog, horizon: nat, config: FactoryConfig): Option<seq<seq<int>>> {
    if forall id :: id in config ==> config[id].overrides == map[] then None
    else
      var n := |cat.machines|;
      Some(seq(n, i requires 0 <= i < n =>
        seq(horizon + 1, h requires 0 <= h <= horizon =>
          match Entry(config, cat.machines[i]) case None => 0 case Some(c) => OutputAt(c, h))))
  }

  /** Recipe positions that the configuration can name. */
  predicate Nameable(cat: Catalog, k: Knobs)
    requires |k.recipe| == |cat.recipes|
  {
    forall i :: 0 <= i < |k.recipe| ==> CanName(cat.recipes[i], k.recipe[i])
  }

  /** The position exists, or is -1 where there are no recipes. */
  predicate CanName(ids: seq<string>, ri: int) { 0 <= ri < |ids| || (ids == [] && ri == -1) }

  predicate SameDials(a: Knobs, b: Knobs, i: nat)
    requires i < |a.recipe| == |a.setting| == |a.mods| && i < |b.recipe| == |b.setting| == |b.mods|
  {
    a.recipe[i] == b.recipe[i] && a.setting[i] == b.setting[i] && a.mods[i] == b.mods[i]
  }

  lemma SameKnobs(a: Knobs, b: Knobs)
    requires |a.recipe| == |a.setting| == |a.mods| == |b.recipe| == |b.setting| == |b.mods|
    ensures a == b <==> forall i :: 0 <= i < |a.recipe| ==> SameDials(a, b, i)
  {
    if forall i :: 0 <= i < |a.recipe| ==> SameDials(a, b, i) {
      forall i | 0 <= i < |a.recipe|
        ensures a.recipe[i] == b.recipe[i] && a.setting[i] == b.setting[i] && a.mods[i] == b.mods[i]
      {
        assert SameDials(a, b, i);
      }
      assert a.recipe == b.recipe && a.setting == b.setting && a.mods == b.mods;
    }
  }

  lemma MachineRoundTrip(b: Board, cat: Catalog, k: Knobs, overrides: seq<map<int, int>>, i: nat)
    requires CatalogOk(b, cat) && |k.recipe| == |k.setting| == |k.mods| == |overrides| == |b.machines| && i < |b.machines|
    ensures var r := VectorOf(cat, ConfigOf(cat, k, overrides));
      SameDials(r, k, i) <==> CanName(cat.recipes[i], k.recipe[i])
  {
    NameOf(cat, i);
    VectorRoundTrip(cat.recipes[i], k.recipe[i], k.setting[i], k.mods[i]);
    hide IndexOf, MaskOf, Listed;
    var entry := Entry(ConfigOf(cat, k, overrides), cat.machines[i]);
    var plain := ToConfig(cat.recipes[i], k.recipe[i], k.setting[i], k.mods[i]);
    assert entry == Some(plain.(overrides := overrides[i]));
    assert FromConfig(cat.recipes[i], entry) == FromConfig(cat.recipes[i], Some(plain));
  }

  /** The vector survives the trip through a configuration with any overrides
      exactly when all its recipes can be named. */
  lemma ConfigRoundTrip(b: Board, cat: Catalog, k: Knobs, overrides: seq<map<int, int>>)
    requires CatalogOk(b, cat) && |k.recipe| == |k.setting| == |k.mods| == |overrides| == |b.machines|
    ensures VectorOf(cat, ConfigOf(cat, k, overrides)) == k <==> Nameable(cat, k)
  {
    var r := VectorOf(cat, ConfigOf(cat, k, overrides));
    SameKnobs(r, k);
    hide ConfigOf, VectorOf, SameDials, CanName;
    forall i | 0 <= i < |b.machines| ensures SameDials(r, k, i) <==> CanName(cat.recipes[i], k.recipe[i]) {
      MachineRoundTrip(b, cat, k, overrides, i);
    }
  }

  /** The settings of a vector, hour by hour, overrides first. */
  function Overridden(setting: seq<int>, overrides: seq<map<int, int>>, horizon: nat): (m: seq<seq<int>>)
    requires |setting| == |overrides|
    ensures |m| == |setting| && forall i :: 0 <= i < |m| ==> |m[i]| == horizon + 1
  {
    seq(|setting|, i requires 0 <= i < |setting| =>
      seq(horizon + 1, h requires 0 <= h <= horizon => if h in overrides[i] then overrides[i][h] else setting[i]))
  }

  lemma EntryOf(b: Board, cat: Catalog, k: Knobs, overrides: seq<map<int, int>>, i: nat)
    requires CatalogOk(b, cat) && |k.recipe| == |k.setting| == |k.mods| == |overrides| == |b.machines| && i < |b.machines|
    ensures var entry := Entry(ConfigOf(cat, k, overrides), cat.machines[i]);
      entry.Some? && entry.value.overrides == overrides[i] && entry.value.setting == k.setting[i]
  {
    NameOf(cat, i);
  }

  lemma NoOverrides(b: Board, cat: Catalog, k: Knobs, overrides: seq<map<int, int>>)
    requires CatalogOk(b, cat) && |k.recipe| == |k.setting| == |k.mods| == |overrides| == |b.machines|
    ensures var config := ConfigOf(cat, k, overrides);
      (forall id :: id in config ==> config[id].overrides == map[]) <==> forall i :: 0 <= i < |overrides| ==> overrides[i] == map[]
  {
    var config := ConfigOf(cat, k, overrides);
    forall i | 0 <= i < |b.machines|
      ensures cat.machines[i] in config && config[cat.machines[i]].overrides == overrides[i]
    {
      EntryOf(b, cat, k, overrides, i);
    }
    forall id | id in config ensures config[id].overrides == overrides[IndexOf(cat.machines, id)] {
    }
    hide ConfigOf, IndexOf;
    if i :| 0 <= i < |overrides| && overrides[i] != map[] {
      assert config[cat.machines[i]].overrides != map[];
    }
  }

  /** ... and its settings read back hour by hour, overrides first. */
  lemma MatrixReadsOverrides(b: Board, cat: Catalog, k: Knobs, overrides: seq<map<int, int>>)
    requires CatalogOk(b, cat) && |k.recipe| == |k.setting| == |k.mods| == |overrides| == |b.machines|
    ensures HourlyMatrix(cat, b.horizon, ConfigOf(cat, k, overrides)) ==
      if forall i :: 0 <= i < |overrides| ==> overrides[i] == map[] then None
      else Some(Overridden(k.setting, overrides, b.horizon))
  {
    var config, want := ConfigOf(cat, k, overrides), Overridden(k.setting, overrides, b.horizon);
    NoOverrides(b, cat, k, overrides);
    hide ConfigOf, IndexOf;
    var got := HourlyMatrix(cat, b.horizon, config);
    if got.Some? {
      forall i | 0 <= i < |b.machines| ensures got.value[i] == want[i] {
        EntryOf(b, cat, k, overrides, i);
        hide Entry;
        assert |got.value[i]| == |want[i]|;
      }
      assert got.value == want;
    }
  }

  lemma OverrideAt(b: Board, cat: Catalog, k: Knobs, overrides: seq<map<int, int>>, i: nat, over: map<int, int>, name: string)
    requires CatalogOk(b, cat) && |k.recipe| == |k.setting| == |k.mods| == |overrides| == |b.machines| && i < |b.machines|
    requires name in cat.machines
    ensures ConfigOf(cat, k, overrides[i := over])[name] ==
      var mc := ConfigOf(cat, k, overrides)[name]; if name == cat.machines[i] then mc.(overrides := over) else mc
  {
    NameOf(cat, i);
    hide ToConfig;
  }

  /** Adding one override to one machine's entry. */
  lemma OverrideOne(b: Board, cat: Catalog, k: Knobs, overrides: seq<map<int, int>>, i: nat, hour: int, value: int)
    requires CatalogOk(b, cat) && |k.recipe| == |k.setting| == |k.mods| == |overrides| == |b.machines| && i < |b.machines|
    ensures var config := ConfigOf(cat, k, overrides);
      var id := cat.machines[i];
      id in config
      && config[id := config[id].(overrides := config[id].overrides[hour := value])]
         == ConfigOf(cat, k, overrides[i := overrides[i][hour := value]])
  {
    var over := overrides[i][hour := value];
    var config, more, id := ConfigOf(cat, k, overrides), ConfigOf(cat, k, overrides[i := over]), cat.machines[i];
    assert config.Keys == more.Keys && id in config;
    EntryOf(b, cat, k, overrides, i);
    hide ConfigOf, IndexOf;
    var got := config[id := config[id].(overrides := over)];
    forall name | name in config ensures got[name] == more[name] {
      OverrideAt(b, cat, k, overrides, i, over, name);
    }
    assert got.Keys == more.Keys;
    assert got == more;
  }
}
