/** Flattening a document into dotted paths. */
module Flattening {
  import opened Documents

  /** Python truth: what `or` passes over. */
  predicate Truthy(d: Doc) {
    match d
    case Leaf(Null) => false
    case Leaf(Flag(on)) => on
    case Leaf(Int(n)) => n != 0
    case Leaf(Float(r)) => r != 0.0
    case Leaf(Text(t)) => t != ""
    case Obj(fields) => fields != []
    case Arr(items) => items != []
  }

  const DIGITS := "0123456789"

  function Decimal(n: nat): string {
    if n < 10 then [DIGITS[n]] else Decimal(n / 10) + [DIGITS[n % 10]]
  }

  /** The tag of a list element: its id, else its name, else its index.  `show` is how
      a value that is not text is written. */
  function TagOf(show: Doc -> string, v: Doc, i: nat): string {
    if v.Obj? && Has(v.fields, "id") && Truthy(Lookup(v.fields, "id")) then Written(show, Lookup(v.fields, "id"))
    else if v.Obj? && Has(v.fields, "name") && Truthy(Lookup(v.fields, "name")) then Written(show, Lookup(v.fields, "name"))
    else Decimal(i)
  }

  function Written(show: Doc -> string, key: Doc): string {
    if key.Leaf? && key.scalar.Text? then key.scalar.t else show(key)
  }

  /** FLATTEN, as the recursion builds and merges its dictionaries. */
  function Flatten(show: Doc -> string, d: Doc, prefix: string): Dict
    decreases d
  {
    match d
    case Leaf(_) => [Field(prefix, d)]
    case Obj(fields) => if fields == [] && prefix != "" then [Field(prefix, d)] else FlattenFields(show, fields, prefix)
    case Arr(items) => if items == [] && prefix != "" then [Field(prefix, d)] else FlattenItems(show, items, prefix)
  }

  function FlattenFields(show: Doc -> string, fields: Dict, prefix: string): Dict
    decreases fields
  {
    if fields == [] then []
    else
      var n := |fields| - 1;
      Merge(FlattenFields(show, fields[..n], prefix), Flatten(show, fields[n].value, Extend(prefix, Key(fields[n].key))))
  }

  function FlattenItems(show: Doc -> string, items: seq<Doc>, prefix: string): Dict
    decreases items
  {
    if items == [] then []
    else
      var n := |items| - 1;
      Merge(FlattenItems(show, items[..n], prefix), Flatten(show, items[n], Extend(prefix, Slot(TagOf(show, items[n], n)))))
  }

  // ------------------------------------------------------------------
  // Documents whose paths can be told apart
  // ------------------------------------------------------------------

  const LIST := "__list__"

  /** Keys are distinct, non-empty, free of the path punctuation and of the list
      marker; tags are distinct within their list and free of the closing bracket. */
  ghost predicate WellFormed(show: Doc -> string, d: Doc)
    decreases d
  {
    match d
    case Leaf(_) => true
    case Obj(fields) =>
      && DistinctKeys(fields)
      && forall k :: 0 <= k < |fields| ==> TokenOk(Key(fields[k].key)) && fields[k].key != LIST && WellFormed(show, fields[k].value)
    case Arr(items) =>
      && (forall i, j :: 0 <= i < j < |items| ==> TagOf(show, items[i], i) != TagOf(show, items[j], j))
      && forall i :: 0 <= i < |items| ==> TokenOk(Slot(TagOf(show, items[i], i))) && WellFormed(show, items[i])
  }

  lemma FieldsPrefix(show: Doc -> string, fields: Dict, n: nat)
    requires WellFormed(show, Obj(fields)) && n <= |fields|
    ensures WellFormed(show, Obj(fields[..n]))
  {
  }

  lemma ItemsPrefix(show: Doc -> string, items: seq<Doc>, n: nat)
    requires WellFormed(show, Arr(items)) && n <= |items|
    ensures WellFormed(show, Arr(items[..n]))
  {
  }

  // ------------------------------------------------------------------
  // Entries: what flattening says, as token paths
  // ------------------------------------------------------------------

  datatype Entry = Entry(path: seq<Token>, value: Doc)

  function Under(t: Token, es: seq<Entry>): (r: seq<Entry>)
    ensures |r| == |es| && forall k :: 0 <= k < |r| ==> r[k] == Entry([t] + es[k].path, es[k].value)
  {
    seq(|es|, k requires 0 <= k < |es| => Entry([t] + es[k].path, es[k].value))
  }

  predicate IsEmptyOrLeaf(d: Doc) { d.Leaf? || (d.Obj? && d.fields == []) || (d.Arr? && d.items == []) }

  function Entries(show: Doc -> string, d: Doc): seq<Entry>
    decreases d
  {
    match d
    case Leaf(_) => [Entry([], d)]
    case Obj(fields) => if fields == [] then [Entry([], d)] else FieldEntries(show, fields)
    case Arr(items) => if items == [] then [Entry([], d)] else ItemEntries(show, items)
  }

  function FieldEntries(show: Doc -> string, fields: Dict): seq<Entry>
    decreases fields
  {
    if fields == [] then []
    else
      var n := |fields| - 1;
      FieldEntries(show, fields[..n]) + Under(Key(fields[n].key), Entries(show, fields[n].value))
  }

  function ItemEntries(show: Doc -> string, items: seq<Doc>): seq<Entry>
    decreases items
  {
    if items == [] then []
    else
      var n := |items| - 1;
      ItemEntries(show, items[..n]) + Under(Slot(TagOf(show, items[n], n)), Entries(show, items[n]))
  }

  /** Paths are distinct, writable, and start as told. */
  ghost predicate Sound(es: seq<Entry>) {
    && (forall k, l :: 0 <= k < l < |es| ==> es[k].path != es[l].path)
    && forall k, c :: 0 <= k < |es| && 0 <= c < |es[k].path| ==> TokenOk(es[k].path[c])
  }

  /** Every path starts with one of these tokens. */
  ghost predicate StartsIn(es: seq<Entry>, first: set<Token>) {
    forall k :: 0 <= k < |es| ==> es[k].path != [] && es[k].path[0] in first
  }

  lemma UnderSound(t: Token, es: seq<Entry>)
    requires Sound(es) && TokenOk(t)
    ensures Sound(Under(t, es)) && StartsIn(Under(t, es), {t})
  {
    var r := Under(t, es);
    forall k, l | 0 <= k < l < |r| ensures r[k].path != r[l].path {
      assert r[k].path[1..] == es[k].path && r[l].path[1..] == es[l].path;
    }
  }

  lemma JoinSound(xs: seq<Entry>, ys: seq<Entry>, first: set<Token>, t: Token)
    requires Sound(xs) && StartsIn(xs, first) && Sound(ys) && StartsIn(ys, {t}) && t !in first
    ensures Sound(xs + ys) && StartsIn(xs + ys, first + {t})
  {
    var r := xs + ys;
    forall k, l | 0 <= k < l < |r| ensures r[k].path != r[l].path {
      if k < |xs| <= l { assert r[k].path[0] in first && r[l].path[0] == t; }
    }
  }

  lemma {:induction false} EntriesSound(show: Doc -> string, d: Doc)
    requires WellFormed(show, d)
    ensures Sound(Entries(show, d))
    decreases d
  {
    match d
    case Leaf(_) =>
    case Obj(fields) => FieldEntriesSound(show, fields);
    case Arr(items) => ItemEntriesSound(show, items);
  }

  ghost function KeysOf(fields: Dict): set<Token> { set k | 0 <= k < |fields| :: Key(fields[k].key) }

  ghost function TagsOf(show: Doc -> string, items: seq<Doc>): set<Token> {
    set i | 0 <= i < |items| :: Slot(TagOf(show, items[i], i))
  }

  lemma {:induction false} FieldEntriesSound(show: Doc -> string, fields: Dict)
    requires WellFormed(show, Obj(fields))
    ensures Sound(FieldEntries(show, fields)) && StartsIn(FieldEntries(show, fields), KeysOf(fields))
    decreases fields
  {
    if fields != [] {
      var n := |fields| - 1;
      var t := Key(fields[n].key);
      FieldsPrefix(show, fields, n);
      FieldEntriesSound(show, fields[..n]);
      EntriesSound(show, fields[n].value);
      UnderSound(t, Entries(show, fields[n].value));
      assert t !in KeysOf(fields[..n]);
      assert KeysOf(fields) == KeysOf(fields[..n]) + {t};
      JoinSound(FieldEntries(show, fields[..n]), Under(t, Entries(show, fields[n].value)), KeysOf(fields[..n]), t);
    }
  }

  lemma NewTag(show: Doc -> string, items: seq<Doc>, t: Token)
    requires WellFormed(show, Arr(items)) && items != []
    requires t == Slot(TagOf(show, items[|items|-1], |items| - 1))
    ensures t !in TagsOf(show, items[..|items|-1]) && TagsOf(show, items) == TagsOf(show, items[..|items|-1]) + {t}
  {
    hide TagOf;
  }

  lemma {:induction false} ItemEntriesSound(show: Doc -> string, items: seq<Doc>)
    requires WellFormed(show, Arr(items))
    ensures Sound(ItemEntries(show, items)) && StartsIn(ItemEntries(show, items), TagsOf(show, items))
    decreases items
  {
    if items != [] {
      var n := |items| - 1;
      var t := Slot(TagOf(show, items[n], n));
      ItemsPrefix(show, items, n);
      ItemEntriesSound(show, items[..n]);
      EntriesSound(show, items[n]);
      UnderSound(t, Entries(show, items[n]));
      NewTag(show, items, t);
      hide Sound, StartsIn, TagsOf, TagOf;
      JoinSound(ItemEntries(show, items[..n]), Under(t, Entries(show, items[n])), TagsOf(show, items[..n]), t);
    }
  }

  // ------------------------------------------------------------------
  // Flattening writes the entries
  // ------------------------------------------------------------------

  function Rendered(p: seq<Token>, es: seq<Entry>): (r: Dict)
    ensures |r| == |es|
  {
    seq(|es|, k requires 0 <= k < |es| => Field(Render(p + es[k].path), es[k].value))
  }

  /** Every full path can be read back. */
  ghost predicate Readable(p: seq<Token>, es: seq<Entry>) {
    forall k :: 0 <= k < |es| ==> PathOk(p + es[k].path)
  }

  lemma RenderedDistinct(p: seq<Token>, es: seq<Entry>)
    requires Sound(es) && Readable(p, es)
    ensures DistinctKeys(Rendered(p, es))
  {
    forall k, l | 0 <= k < l < |es| ensures Render(p + es[k].path) != Render(p + es[l].path) {
      TokenizeRender(p + es[k].path);
      TokenizeRender(p + es[l].path);
      assert (p + es[k].path)[|p|..] == es[k].path && (p + es[l].path)[|p|..] == es[l].path;
    }
  }

  lemma ReadableUnder(p: seq<Token>, es: seq<Entry>)
    requires PathOk(p) && Sound(es) && (p == [] ==> forall k :: 0 <= k < |es| ==> es[k].path != [] && es[k].path[0].Key?)
    ensures Readable(p, es)
  {
  }

  lemma RenderedUnder(p: seq<Token>, t: Token, es: seq<Entry>)
    ensures Rendered(p, Under(t, es)) == Rendered(p + [t], es)
  {
    forall k | 0 <= k < |es| ensures Rendered(p, Under(t, es))[k] == Rendered(p + [t], es)[k] {
      assert p + ([t] + es[k].path) == (p + [t]) + es[k].path;
    }
  }

  lemma MergeRendered(p: seq<Token>, xs: seq<Entry>, ys: seq<Entry>)
    requires Sound(xs + ys) && Readable(p, xs + ys)
    ensures Merge(Rendered(p, xs), Rendered(p, ys)) == Rendered(p, xs + ys)
  {
    RenderedDistinct(p, xs + ys);
    assert Rendered(p, xs + ys) == Rendered(p, xs) + Rendered(p, ys);
    MergeFresh(Rendered(p, xs), Rendered(p, ys));
  }

  lemma RenderExtend(p: seq<Token>, t: Token)
    ensures Extend(Render(p), t) == Render(p + [t])
  {
    assert (p + [t])[..|p|] == p;
  }

  lemma PathSnoc(p: seq<Token>, t: Token)
    requires PathOk(p) && TokenOk(t) && (p == [] ==> t.Key?)
    ensures PathOk(p + [t])
  {
  }

  lemma {:induction false} FlattenIsEntries(show: Doc -> string, d: Doc, p: seq<Token>)
    requires WellFormed(show, d) && PathOk(p) && p != []
    ensures Flatten(show, d, Render(p)) == Rendered(p, Entries(show, d))
    decreases d
  {
    RenderIsTail(p);
    assert p + [] == p;
    match d
    case Leaf(_) =>
    case Obj(fields) => if fields != [] { FieldsFlatten(show, fields, p); }
    case Arr(items) => if items != [] { ItemsFlatten(show, items, p); }
  }

  lemma {:induction false} FieldsFlatten(show: Doc -> string, fields: Dict, p: seq<Token>)
    requires WellFormed(show, Obj(fields)) && PathOk(p)
    ensures FlattenFields(show, fields, Render(p)) == Rendered(p, FieldEntries(show, fields))
    decreases fields
  {
    if fields != [] {
      var n := |fields| - 1;
      var t, v := Key(fields[n].key), fields[n].value;
      FieldsPrefix(show, fields, n);
      FieldsFlatten(show, fields[..n], p);
      PathSnoc(p, t);
      FlattenIsEntries(show, v, p + [t]);
      RenderExtend(p, t);
      RenderedUnder(p, t, Entries(show, v));
      FieldEntriesSound(show, fields);
      ReadableUnder(p, FieldEntries(show, fields));
      MergeRendered(p, FieldEntries(show, fields[..n]), Under(t, Entries(show, v)));
    }
  }

  lemma {:induction false} ItemsFlatten(show: Doc -> string, items: seq<Doc>, p: seq<Token>)
    requires WellFormed(show, Arr(items)) && PathOk(p) && p != []
    ensures FlattenItems(show, items, Render(p)) == Rendered(p, ItemEntries(show, items))
    decreases items
  {
    if items != [] {
      var n := |items| - 1;
      var t, v := Slot(TagOf(show, items[n], n)), items[n];
      ItemsPrefix(show, items, n);
      ItemsFlatten(show, items[..n], p);
      PathSnoc(p, t);
      FlattenIsEntries(show, v, p + [t]);
      RenderExtend(p, t);
      RenderedUnder(p, t, Entries(show, v));
      ItemEntriesSound(show, items);
      ReadableUnder(p, ItemEntries(show, items));
      MergeRendered(p, ItemEntries(show, items[..n]), Under(t, Entries(show, v)));
    }
  }
}
