/** Rebuilding a document from dotted paths, and the round trip. */
module Unflattening {
  import opened Counting
  import opened Documents
  import opened Flattening

  // ------------------------------------------------------------------
  // Inserting one path
  // ------------------------------------------------------------------

  /** Walk the tokens of one path down from a dictionary and write the value.  A list
      step goes through the list marker; a scalar found in place of the marked
      dictionary ends the walk. */
  function Insert(d: Dict, path: seq<Token>, value: Doc): Dict
    decreases |path|, 1
  {
    if path == [] then d
    else
      match path[0]
      case Key(k) => InsertAt(d, k, path[1..], value)
      case Slot(l) =>
        var inner := if Has(d, LIST) then Lookup(d, LIST) else Obj([]);
        if inner.Obj? then Assign(d, LIST, Obj(InsertAt(inner.fields, l, path[1..], value))) else d
  }

  /** A dictionary already there beats the value; anything else gives way to a subtree. */
  function InsertAt(d: Dict, name: string, rest: seq<Token>, value: Doc): Dict
    decreases |rest|, 2
  {
    var held := Has(d, name) && Lookup(d, name).Obj?;
    if rest == [] then
      if held then d else Assign(d, name, value)
    else
      Assign(d, name, Obj(Insert(if held then Lookup(d, name).fields else [], rest, value)))
  }

  function InsertAll(d: Dict, flat: Dict): Dict {
    if flat == [] then d
    else
      var n := |flat| - 1;
      Insert(InsertAll(d, flat[..n]), Tokenize(flat[n].key), flat[n].value)
  }

  // ------------------------------------------------------------------
  // Collapsing marked dictionaries into lists
  // ------------------------------------------------------------------

  predicate IsMarked(fields: Dict) { |fields| == 1 && fields[0].key == LIST }

  /** Every marked dictionary really holds a dictionary: what the collapse takes for granted. */
  predicate Collapsible(d: Doc)
    decreases d
  {
    d.Obj? ==>
      if IsMarked(d.fields) then
        var inner := d.fields[0].value;
        assert inner < d;
        inner.Obj? && forall k :: 0 <= k < |inner.fields| ==> Collapsible(inner.fields[k].value)
      else forall k :: 0 <= k < |d.fields| ==> Collapsible(d.fields[k].value)
  }

  /** Depth first: a marked dictionary becomes the list of its values. */
  function Collapse(d: Doc): Doc
    requires Collapsible(d)
    decreases d
  {
    if !d.Obj? then d
    else if IsMarked(d.fields) then
      assert d.fields[0].value < d;
      Arr(CollapseValues(d.fields[0].value.fields))
    else Obj(CollapseFields(d.fields))
  }

  function CollapseValues(fields: Dict): (r: seq<Doc>)
    requires forall k :: 0 <= k < |fields| ==> Collapsible(fields[k].value)
    ensures |r| == |fields|
    decreases fields
  {
    if fields == [] then [] else CollapseValues(fields[..|fields|-1]) + [Collapse(fields[|fields|-1].value)]
  }

  function CollapseFields(fields: Dict): (r: Dict)
    requires forall k :: 0 <= k < |fields| ==> Collapsible(fields[k].value)
    ensures |r| == |fields|
    decreases fields
  {
    if fields == [] then []
    else
      var f := fields[|fields|-1];
      CollapseFields(fields[..|fields|-1]) + [Field(f.key, Collapse(f.value))]
  }

  /** UNFLATTEN; None is the failure on a list marker that holds no dictionary. */
  function Unflatten(flat: Dict): Option<Doc> {
    var root := Obj(InsertAll([], flat));
    if Collapsible(root) then Some(Collapse(root)) else None
  }

  /** The loop over the flat dictionary. */
  method Rebuild(flat: Dict) returns (r: Option<Doc>)
    ensures r == Unflatten(flat)
  {
    var root: Dict := [];
    for k := 0 to |flat|
      invariant root == InsertAll([], flat[..k])
    {
      var parts := PathTokens(flat[k].key);
      root := Insert(root, parts, flat[k].value);
      assert flat[..k+1][..k] == flat[..k];
    }
    assert flat[..|flat|] == flat;
    r := if Collapsible(Obj(root)) then Some(Collapse(Obj(root))) else None;
  }

  // ------------------------------------------------------------------
  // The tree a document becomes on the way
  // ------------------------------------------------------------------

  function Marked(show: Doc -> string, d: Doc): Doc
    decreases d, 1
  {
    if IsEmptyOrLeaf(d) then d else Obj(MarkedDict(show, d))
  }

  function MarkedDict(show: Doc -> string, d: Doc): Dict
    requires !IsEmptyOrLeaf(d)
    decreases d, 0
  {
    match d
    case Obj(fields) => MarkedFields(show, fields)
    case Arr(items) => [Field(LIST, Obj(MarkedItems(show, items)))]
  }

  function MarkedFields(show: Doc -> string, fields: Dict): (r: Dict)
    ensures |r| == |fields| && forall k :: 0 <= k < |r| ==> r[k].key == fields[k].key
    decreases fields
  {
    if fields == [] then []
    else
      var f := fields[|fields|-1];
      MarkedFields(show, fields[..|fields|-1]) + [Field(f.key, Marked(show, f.value))]
  }

  function MarkedItems(show: Doc -> string, items: seq<Doc>): (r: Dict)
    ensures |r| == |items| && forall k :: 0 <= k < |r| ==> r[k].key == TagOf(show, items[k], k)
    decreases items
  {
    if items == [] then []
    else
      var n := |items| - 1;
      MarkedItems(show, items[..n]) + [Field(TagOf(show, items[n], n), Marked(show, items[n]))]
  }

  /** Collapsing the marked tree gives the document back. */
  lemma {:induction false} CollapseMarked(show: Doc -> string, d: Doc)
    requires WellFormed(show, d)
    ensures Collapsible(Marked(show, d)) && Collapse(Marked(show, d)) == d
    decreases d
  {
    if IsEmptyOrLeaf(d) {
      if d.Obj? { assert Collapse(d) == Obj(CollapseFields([])); }
    } else if d.Obj? {
      CollapseMarkedFields(show, d.fields);
      assert MarkedFields(show, d.fields)[0].key == d.fields[0].key;
    } else {
      CollapseMarkedItems(show, d.items);
      assert Marked(show, d) == Obj([Field(LIST, Obj(MarkedItems(show, d.items)))]);
    }
  }

  lemma {:induction false} CollapseMarkedFields(show: Doc -> string, fields: Dict)
    requires WellFormed(show, Obj(fields))
    ensures var m := MarkedFields(show, fields);
      (forall k :: 0 <= k < |m| ==> Collapsible(m[k].value)) && CollapseFields(m) == fields
    decreases fields
  {
    if fields != [] {
      var n := |fields| - 1;
      FieldsPrefix(show, fields, n);
      CollapseMarkedFields(show, fields[..n]);
      CollapseMarked(show, fields[n].value);
      hide Collapsible, Collapse, Marked, WellFormed;
      var m := MarkedFields(show, fields);
      assert m[..n] == MarkedFields(show, fields[..n]);
      assert Field(fields[n].key, fields[n].value) == fields[n];
    }
  }

  lemma {:induction false} CollapseMarkedItems(show: Doc -> string, items: seq<Doc>)
    requires WellFormed(show, Arr(items))
    ensures var m := MarkedItems(show, items);
      (forall k :: 0 <= k < |m| ==> Collapsible(m[k].value)) && CollapseValues(m) == items
    decreases items
  {
    if items != [] {
      var n := |items| - 1;
      ItemsPrefix(show, items, n);
      CollapseMarkedItems(show, items[..n]);
      CollapseMarked(show, items[n]);
      hide Collapsible, Collapse, Marked, TagOf, WellFormed;
      var m := MarkedItems(show, items);
      assert m[..n] == MarkedItems(show, items[..n]);
    }
  }

  // ------------------------------------------------------------------
  // Inserting the entries builds the marked tree
  // ------------------------------------------------------------------

  function InsertEntries(d: Dict, es: seq<Entry>): Dict {
    if es == [] then d
    else
      var n := |es| - 1;
      Insert(InsertEntries(d, es[..n]), es[n].path, es[n].value)
  }

  lemma {:induction false} InsertEntriesJoin(d: Dict, xs: seq<Entry>, ys: seq<Entry>)
    ensures InsertEntries(d, xs + ys) == InsertEntries(InsertEntries(d, xs), ys)
  {
    if ys == [] {
      assert xs + ys == xs;
    } else {
      var n := |ys| - 1;
      assert (xs + ys)[..|xs + ys| - 1] == xs + ys[..n];
      InsertEntriesJoin(d, xs, ys[..n]);
    }
  }

  lemma {:induction false} InsertRendered(d: Dict, es: seq<Entry>)
    requires Readable([], es)
    ensures InsertAll(d, Rendered([], es)) == InsertEntries(d, es)
  {
    if es != [] {
      var n := |es| - 1;
      InsertRendered(d, es[..n]);
      assert Rendered([], es)[..n] == Rendered([], es[..n]);
      assert [] + es[n].path == es[n].path;
      TokenizeRender(es[n].path);
    }
  }

  lemma AssignFresh(d: Dict, name: string, value: Doc)
    requires !Has(d, name)
    ensures Assign(d, name, value) == d + [Field(name, value)]
  {
  }

  lemma AssignLast(d: Dict, name: string, was: Doc, value: Doc)
    requires !Has(d, name)
    ensures Has(d + [Field(name, was)], name) && Lookup(d + [Field(name, was)], name) == was
    ensures Assign(d + [Field(name, was)], name, value) == d + [Field(name, value)]
  {
    AtIs(d + [Field(name, was)], name, |d|);
  }

  /** Entries below a fresh key fill one new child. */
  lemma {:induction false} InsertBelow(d: Dict, name: string, es: seq<Entry>)
    requires !Has(d, name) && es != [] && forall k :: 0 <= k < |es| ==> es[k].path != []
    ensures InsertEntries(d, Under(Key(name), es)) == d + [Field(name, Obj(InsertEntries([], es)))]
  {
    var n := |es| - 1;
    var below := Under(Key(name), es);
    assert below[..n] == Under(Key(name), es[..n]);
    assert below[n].path[1..] == es[n].path;
    if n == 0 {
      var built := Insert([], es[0].path, es[0].value);
      AssignFresh(d, name, Obj(built));
      assert below[..0] == [] && es[..0] == [];
      assert InsertEntries([], es) == built;
      assert InsertEntries(d, below) == Insert(d, below[0].path, es[0].value) == InsertAt(d, name, es[0].path, es[0].value);
    } else {
      InsertBelow(d, name, es[..n]);
      var child := InsertEntries([], es[..n]);
      var d1 := d + [Field(name, Obj(child))];
      AssignLast(d, name, Obj(child), Obj(Insert(child, es[n].path, es[n].value)));
      assert InsertEntries(d, below) == Insert(d1, below[n].path, es[n].value) == InsertAt(d1, name, es[n].path, es[n].value);
    }
  }

  /** Entries that start with tags land inside one marked dictionary. */
  function Rekeyed(es: seq<Entry>): (r: seq<Entry>)
    requires forall k :: 0 <= k < |es| ==> es[k].path != [] && es[k].path[0].Slot?
    ensures |r| == |es| && forall k :: 0 <= k < |r| ==> r[k] == Entry([Key(es[k].path[0].tag)] + es[k].path[1..], es[k].value)
  {
    seq(|es|, k requires 0 <= k < |es| => Entry([Key(es[k].path[0].tag)] + es[k].path[1..], es[k].value))
  }

  lemma {:induction false} InsertTagged(es: seq<Entry>)
    requires es != [] && forall k :: 0 <= k < |es| ==> es[k].path != [] && es[k].path[0].Slot?
    ensures InsertEntries([], es) == [Field(LIST, Obj(InsertEntries([], Rekeyed(es))))]
  {
    var n := |es| - 1;
    assert Rekeyed(es)[..n] == Rekeyed(es[..n]);
    assert Rekeyed(es)[n].path[1..] == es[n].path[1..];
    if n == 0 {
      AssignFresh([], LIST, Obj(InsertEntries([], Rekeyed(es))));
    } else {
      InsertTagged(es[..n]);
      AssignLast([], LIST, Obj(InsertEntries([], Rekeyed(es[..n]))), Obj(InsertEntries([], Rekeyed(es))));
    }
  }

  lemma FreshKey(d: Dict, name: string)
    requires forall k :: 0 <= k < |d| ==> d[k].key != name
    ensures !Has(d, name)
  {
  }

  /** One child: its entries below a fresh key append its marked tree. */
  lemma InsertChild(show: Doc -> string, d: Dict, name: string, v: Doc)
    requires !Has(d, name)
    requires IsEmptyOrLeaf(v) || (EntriesAreDeep(show, v) && InsertEntries([], Entries(show, v)) == MarkedDict(show, v))
    ensures InsertEntries(d, Under(Key(name), Entries(show, v))) == d + [Field(name, Marked(show, v))]
  {
    var es := Entries(show, v);
    if IsEmptyOrLeaf(v) {
      assert es == [Entry([], v)];
      var below := Under(Key(name), es);
      assert below[..0] == [] && below[0].path[1..] == [];
      AssignFresh(d, name, v);
      assert InsertEntries(d, below) == Insert(d, below[0].path, v) == InsertAt(d, name, [], v);
    } else {
      InsertBelow(d, name, es);
    }
  }

  ghost predicate EntriesAreDeep(show: Doc -> string, v: Doc) {
    Entries(show, v) != [] && forall k :: 0 <= k < |Entries(show, v)| ==> Entries(show, v)[k].path != []
  }

  lemma {:induction false} SomeEntries(show: Doc -> string, v: Doc)
    ensures Entries(show, v) != []
    decreases v
  {
    if !IsEmptyOrLeaf(v) {
      match v
      case Obj(fields) => SomeEntries(show, fields[|fields|-1].value);
      case Arr(items) => SomeEntries(show, items[|items|-1]);
    }
  }

  /** Inserting a container's entries into an empty dictionary builds its marked tree. */
  lemma {:induction false} InsertBuilds(show: Doc -> string, v: Doc)
    requires WellFormed(show, v) && !IsEmptyOrLeaf(v)
    ensures EntriesAreDeep(show, v) && InsertEntries([], Entries(show, v)) == MarkedDict(show, v)
    decreases v, 0
  {
    SomeEntries(show, v);
    if v.Obj? {
      FieldEntriesSound(show, v.fields);
      FieldsBuild(show, v.fields);
    } else {
      ItemEntriesSound(show, v.items);
      TagsAreSlots(show, v.items);
      ItemsBuild(show, v.items);
      InsertTagged(ItemEntries(show, v.items));
    }
  }

  lemma {:induction false} FieldsBuild(show: Doc -> string, fields: Dict)
    requires WellFormed(show, Obj(fields))
    ensures InsertEntries([], FieldEntries(show, fields)) == MarkedFields(show, fields)
    decreases fields, 1
  {
    if fields != [] {
      var n := |fields| - 1;
      var f := fields[n];
      FieldsPrefix(show, fields, n);
      FieldsBuild(show, fields[..n]);
      if !IsEmptyOrLeaf(f.value) { InsertBuilds(show, f.value); }
      var before := MarkedFields(show, fields[..n]);
      FreshKey(before, f.key);
      InsertEntriesJoin([], FieldEntries(show, fields[..n]), Under(Key(f.key), Entries(show, f.value)));
      InsertChild(show, before, f.key, f.value);
    }
  }

  lemma {:induction false} TagsAreSlots(show: Doc -> string, items: seq<Doc>)
    ensures var es := ItemEntries(show, items);
      forall k :: 0 <= k < |es| ==> es[k].path != [] && es[k].path[0].Slot?
  {
    if items != [] {
      var n := |items| - 1;
      TagsAreSlots(show, items[..n]);
      var last := Under(Slot(TagOf(show, items[n], n)), Entries(show, items[n]));
      var m := |ItemEntries(show, items[..n])|;
      forall k | 0 <= k < |ItemEntries(show, items)|
        ensures ItemEntries(show, items)[k].path != [] && ItemEntries(show, items)[k].path[0].Slot?
      {
        if k < m {
          assert ItemEntries(show, items)[k] == ItemEntries(show, items[..n])[k];
        } else {
          assert ItemEntries(show, items)[k] == last[k - m];
        }
      }
    }
  }

  lemma {:induction false} ItemsBuild(show: Doc -> string, items: seq<Doc>)
    requires WellFormed(show, Arr(items))
    ensures var es := ItemEntries(show, items);
      && (forall k :: 0 <= k < |es| ==> es[k].path != [] && es[k].path[0].Slot?)
      && InsertEntries([], Rekeyed(es)) == MarkedItems(show, items)
    decreases items, 1
  {
    TagsAreSlots(show, items);
    if items != [] {
      var n := |items| - 1;
      var tag, v := TagOf(show, items[n], n), items[n];
      ItemsPrefix(show, items, n);
      ItemsBuild(show, items[..n]);
      if !IsEmptyOrLeaf(v) { InsertBuilds(show, v); }
      var before := MarkedItems(show, items[..n]);
      forall k | 0 <= k < |before| ensures before[k].key != tag { assert items[..n][k] == items[k]; }
      FreshKey(before, tag);
      var front, last := ItemEntries(show, items[..n]), Under(Slot(tag), Entries(show, v));
      RekeyJoin(front, last, tag, Entries(show, v));
      InsertEntriesJoin([], Rekeyed(front), Under(Key(tag), Entries(show, v)));
      InsertChild(show, before, tag, v);
    }
  }

  lemma RekeyJoin(front: seq<Entry>, last: seq<Entry>, tag: string, es: seq<Entry>)
    requires forall k :: 0 <= k < |front| ==> front[k].path != [] && front[k].path[0].Slot?
    requires last == Under(Slot(tag), es)
    ensures forall k :: 0 <= k < |front + last| ==> (front + last)[k].path != [] && (front + last)[k].path[0].Slot?
    ensures Rekeyed(front + last) == Rekeyed(front) + Under(Key(tag), es)
  {
    forall k | 0 <= k < |es| ensures last[k].path[1..] == es[k].path {
    }
  }

  // ------------------------------------------------------------------
  // The round trip
  // ------------------------------------------------------------------

  /** ROUND TRIP: unflatten undoes flatten on every document with a dictionary root
      whose keys and tags can be told apart, with list order and empty containers kept. */
  lemma UnflattenUndoesFlatten(show: Doc -> string, d: Doc)
    requires d.Obj? && WellFormed(show, d)
    ensures Unflatten(Flatten(show, d, "")) == Some(d)
  {
    var es := FieldEntries(show, d.fields);
    FieldsFlatten(show, d.fields, []);
    FieldEntriesSound(show, d.fields);
    ReadableUnder([], es);
    InsertRendered([], es);
    FieldsBuild(show, d.fields);
    RootCollapses(show, d.fields);
    hide InsertEntries, Rendered, Readable, InsertAll, MarkedFields, FieldEntries, FlattenFields, WellFormed, Collapse, Collapsible, Sound;
  }

  lemma RootCollapses(show: Doc -> string, fields: Dict)
    requires WellFormed(show, Obj(fields))
    ensures Collapsible(Obj(MarkedFields(show, fields))) && Collapse(Obj(MarkedFields(show, fields))) == Obj(fields)
  {
    CollapseMarkedFields(show, fields);
    if fields != [] { assert MarkedFields(show, fields)[0].key == fields[0].key; }
  }

  // ------------------------------------------------------------------
  // Conflicting path sets
  // ------------------------------------------------------------------

  lemma AssignTwice(d: Dict, name: string, x: Doc, y: Doc)
    ensures Assign(Assign(d, name, x), name, y) == Assign(d, name, y)
  {
    var k, once := At(d, name), Assign(d, name, x);
    AtIs(once, name, k);
  }

  /** What a flat dictionary holds: scalars and empty containers. */
  predicate IsMarker(v: Doc) { v.Obj? ==> v.fields == [] }

  /** CHILDREN WIN: a scalar or empty container at a path and a value below that path
      leave the same tree, whichever arrives first. */
  lemma {:induction false} ChildrenWin(d: Dict, p: seq<Token>, q: seq<Token>, v: Doc, w: Doc)
    requires p != [] && q != [] && IsMarker(v)
    ensures Insert(Insert(d, p, v), p + q, w) == Insert(Insert(d, p + q, w), p, v)
    decreases |p|, 1
  {
    assert (p + q)[1..] == p[1..] + q && (p + q)[0] == p[0];
    match p[0]
    case Key(k) => ChildrenWinAt(d, k, p[1..], q, v, w);
    case Slot(l) =>
      var inner := if Has(d, LIST) then Lookup(d, LIST) else Obj([]);
      if inner.Obj? {
        var c := inner.fields;
        ChildrenWinAt(c, l, p[1..], q, v, w);
        var first, second := InsertAt(c, l, p[1..], v), InsertAt(c, l, p[1..] + q, w);
        AssignTwice(d, LIST, Obj(first), Obj(InsertAt(first, l, p[1..] + q, w)));
        AssignTwice(d, LIST, Obj(second), Obj(InsertAt(second, l, p[1..], v)));
      }
  }

  lemma {:induction false} ChildrenWinAt(d: Dict, name: string, p: seq<Token>, q: seq<Token>, v: Doc, w: Doc)
    requires q != [] && IsMarker(v)
    ensures InsertAt(InsertAt(d, name, p, v), name, p + q, w) == InsertAt(InsertAt(d, name, p + q, w), name, p, v)
    decreases |p|, 2
  {
    var child := if Has(d, name) && Lookup(d, name).Obj? then Lookup(d, name).fields else [];
    if p == [] {
      assert p + q == q;
      AssignTwice(d, name, v, Obj(Insert(child, q, w)));
    } else {
      ChildrenWin(child, p, q, v, w);
      var first, second := Insert(child, p, v), Insert(child, p + q, w);
      AssignTwice(d, name, Obj(first), Obj(Insert(first, p + q, w)));
      AssignTwice(d, name, Obj(second), Obj(Insert(second, p, v)));
    }
  }
}
