/** Nested documents, their insertion-ordered dictionaries, and field paths. */
module Documents {
  datatype Scalar = Null | Flag(on: bool) | Int(n: int) | Float(r: real) | Text(t: string)

  datatype Field = Field(key: string, value: Doc)

  type Dict = seq<Field>

  datatype Doc = Leaf(scalar: Scalar) | Obj(fields: Dict) | Arr(items: seq<Doc>)

  // ------------------------------------------------------------------
  // Dictionaries
  // ------------------------------------------------------------------

  /** Position of a key, or the length. */
  function At(d: Dict, key: string): (k: nat)
    ensures k <= |d|
    ensures k < |d| ==> d[k].key == key
    ensures forall l :: 0 <= l < k ==> d[l].key != key
  {
    if d == [] || d[0].key == key then 0 else 1 + At(d[1..], key)
  }

  predicate Has(d: Dict, key: string) { At(d, key) < |d| }

  function Lookup(d: Dict, key: string): Doc
    requires Has(d, key)
  {
    d[At(d, key)].value
  }

  /** Assign: an existing key keeps its place, a new one goes to the end. */
  function Assign(d: Dict, key: string, value: Doc): (r: Dict)
    ensures Has(r, key) && Lookup(r, key) == value
  {
    var k := At(d, key);
    if k < |d| then
      var r := d[k := Field(key, value)];
      AtIs(r, key, k);
      r
    else
      var r := d + [Field(key, value)];
      AtIs(r, key, k);
      r
  }

  lemma AtIs(d: Dict, key: string, k: nat)
    requires k < |d| && d[k].key == key && forall l :: 0 <= l < k ==> d[l].key != key
    ensures At(d, key) == k
  {
  }

  /** Assigning one key leaves the others alone. */
  lemma AssignOther(d: Dict, key: string, value: Doc, other: string)
    requires other != key
    ensures Has(Assign(d, key, value), other) == Has(d, other)
    ensures Has(d, other) ==> Lookup(Assign(d, key, value), other) == Lookup(d, other)
  {
    var r, k := Assign(d, key, value), At(d, other);
    if Has(d, other) { AtIs(r, other, k); }
  }

  ghost predicate DistinctKeys(d: Dict) {
    forall k, l :: 0 <= k < l < |d| ==> d[k].key != d[l].key
  }

  /** Assign every entry of `more` in turn. */
  function Merge(d: Dict, more: Dict): Dict
    decreases |more|
  {
    if more == [] then d else Merge(Assign(d, more[0].key, more[0].value), more[1..])
  }

  /** Fresh keys are simply appended. */
  lemma {:induction false} MergeFresh(d: Dict, more: Dict)
    requires DistinctKeys(d + more)
    ensures Merge(d, more) == d + more
    decreases |more|
  {
    if more == [] {
      assert d + more == d;
    } else {
      var f := more[0];
      forall l | 0 <= l < |d| ensures d[l].key != f.key {
        assert (d + more)[l] == d[l] && (d + more)[|d|] == f;
      }
      assert Field(f.key, f.value) == f;
      assert (d + [f]) + more[1..] == d + more;
      MergeFresh(d + [f], more[1..]);
    }
  }

  // ------------------------------------------------------------------
  // Paths
  // ------------------------------------------------------------------

  /** One step of a path: into a dictionary by key, or into a list by label. */
  datatype Token = Key(name: string) | Slot(tag: string)

  predicate Plain(c: char) { c != '.' && c != '[' && c != ']' }

  function Extend(prefix: string, t: Token): string {
    match t
    case Key(k) => if prefix != "" then prefix + "." + k else k
    case Slot(l) => prefix + "[" + l + "]"
  }

  function Render(path: seq<Token>): string {
    if path == [] then "" else Extend(Render(path[..|path|-1]), path[|path|-1])
  }

  /** Length of the run of plain characters at the front. */
  function Run(s: string): (n: nat)
    ensures n <= |s| && (forall k :: 0 <= k < n ==> Plain(s[k])) && (n < |s| ==> !Plain(s[n]))
  {
    if s == "" || !Plain(s[0]) then 0 else 1 + Run(s[1..])
  }

  /** Position of the first closing bracket, or the length. */
  function Closing(s: string): (n: nat)
    ensures n <= |s| && (forall k :: 0 <= k < n ==> s[k] != ']') && (n < |s| ==> s[n] == ']')
  {
    if s == "" || s[0] == ']' then 0 else 1 + Closing(s[1..])
  }

  /** One match of the token pattern at the front, and how far it reaches: a run of
      plain characters, or a bracketed tag; any other character is passed over. */
  function Match(s: string): (m: (seq<Token>, nat))
    requires s != ""
    ensures 1 <= m.1 <= |s|
  {
    if Run(s) > 0 then ([Key(s[..Run(s)])], Run(s))
    else if s[0] == '[' && Closing(s) < |s| then ([Slot(s[1..Closing(s)])], Closing(s) + 1)
    else ([], 1)
  }

  /** All matches, left to right. */
  function Tokenize(s: string): (r: seq<Token>)
    decreases |s|
  {
    if s == "" then [] else Match(s).0 + Tokenize(s[Match(s).1..])
  }

  /** The scan over the path string. */
  method PathTokens(path: string) returns (out: seq<Token>)
    ensures out == Tokenize(path)
  {
    hide Match;
    out := [];
    var k := 0;
    assert path[0..] == path;
    while k < |path|
      invariant k <= |path|
      invariant out + Tokenize(path[k..]) == Tokenize(path)
      decreases |path| - k
    {
      var (found, width) := MatchAt(path, k);
      assert path[k..][width..] == path[k+width..];
      out := out + found;
      k := k + width;
    }
    assert path[k..] == "";
  }

  function MatchAt(path: string, k: nat): (m: (seq<Token>, nat))
    requires k < |path|
    ensures m == Match(path[k..]) && 1 <= m.1 <= |path| - k
  {
    Match(path[k..])
  }

  /** Tokens that survive being written out. */
  predicate TokenOk(t: Token) {
    match t
    case Key(k) => k != "" && forall c :: 0 <= c < |k| ==> Plain(k[c])
    case Slot(l) => forall c :: 0 <= c < |l| ==> l[c] != ']'
  }

  ghost predicate PathOk(path: seq<Token>) {
    (path != [] ==> path[0].Key?) && forall k :: 0 <= k < |path| ==> TokenOk(path[k])
  }

  function Suffix(t: Token): string {
    match t
    case Key(k) => "." + k
    case Slot(l) => "[" + l + "]"
  }

  function Tail(path: seq<Token>): string {
    if path == [] then "" else Suffix(path[0]) + Tail(path[1..])
  }

  lemma {:induction false} TailSnoc(path: seq<Token>, t: Token)
    ensures Tail(path + [t]) == Tail(path) + Suffix(t)
  {
    if path == [] {
      assert [t][1..] == [];
    } else {
      assert (path + [t])[1..] == path[1..] + [t];
      TailSnoc(path[1..], t);
    }
  }

  lemma RenderSnoc(path: seq<Token>, t: Token)
    requires Render(path) != ""
    ensures Render(path + [t]) == Render(path) + Suffix(t)
  {
    assert (path + [t])[..|path|] == path;
  }

  lemma RenderOne(path: seq<Token>)
    requires PathOk(path) && |path| == 1
    ensures Render(path) == path[0].name + Tail(path[1..]) && Render(path) != ""
  {
    assert TokenOk(path[0]) && path[..0] == [] && path[1..] == [];
  }

  lemma FrontAndLast(path: seq<Token>)
    requires |path| > 1
    ensures var n := |path| - 1; path[..n] + [path[n]] == path && path[..n][1..] + [path[n]] == path[1..]
  {
  }

  lemma RenderMore(front: seq<Token>, t: Token)
    requires front != [] && front[0].Key? && Render(front) == front[0].name + Tail(front[1..]) && Render(front) != ""
    ensures Render(front + [t]) == front[0].name + Tail(front[1..] + [t]) && Render(front + [t]) != ""
  {
    hide Render, Tail, Suffix;
    RenderSnoc(front, t);
    TailSnoc(front[1..], t);
    var a, b, c := front[0].name, Tail(front[1..]), Suffix(t);
    assert (a + b) + c == a + (b + c);
  }

  lemma {:induction false} RenderIsTail(path: seq<Token>)
    requires PathOk(path) && path != []
    ensures Render(path) == path[0].name + Tail(path[1..]) && Render(path) != ""
  {
    var n := |path| - 1;
    if n == 0 { RenderOne(path); }
    hide Render, Tail, TokenOk;
    if n > 0 {
      RenderIsTail(path[..n]);
      RenderMore(path[..n], path[n]);
      FrontAndLast(path);
    }
  }

  lemma RunIs(k: string, rest: string)
    requires (forall c :: 0 <= c < |k| ==> Plain(k[c])) && (rest != "" ==> !Plain(rest[0]))
    ensures Run(k + rest) == |k|
  {
    var s := k + rest;
    assert forall c :: 0 <= c < |k| ==> s[c] == k[c];
    assert rest != "" ==> s[|k|] == rest[0];
  }

  lemma ClosingIs(l: string, rest: string)
    requires forall c :: 0 <= c < |l| ==> l[c] != ']'
    ensures Closing("[" + l + "]" + rest) == |l| + 1
  {
    var s := "[" + l + "]" + rest;
    assert s[0] == '[' && s[|l| + 1] == ']';
    assert forall c :: 1 <= c < |l| + 1 ==> s[c] == l[c-1];
  }

  lemma TokenizeKey(k: string, rest: string)
    requires k != "" && (forall c :: 0 <= c < |k| ==> Plain(k[c])) && (rest != "" ==> !Plain(rest[0]))
    ensures Tokenize(k + rest) == [Key(k)] + Tokenize(rest)
  {
    RunIs(k, rest);
    assert (k + rest)[..|k|] == k && (k + rest)[|k|..] == rest;
  }

  lemma TokenizeDot(k: string, rest: string)
    requires k != "" && (forall c :: 0 <= c < |k| ==> Plain(k[c])) && (rest != "" ==> !Plain(rest[0]))
    ensures Tokenize("." + k + rest) == [Key(k)] + Tokenize(rest)
  {
    var s := "." + k + rest;
    assert s[1..] == k + rest;
    assert Match(s) == ([], 1);
    TokenizeKey(k, rest);
  }

  lemma TokenizeSlot(l: string, rest: string)
    requires forall c :: 0 <= c < |l| ==> l[c] != ']'
    ensures Tokenize("[" + l + "]" + rest) == [Slot(l)] + Tokenize(rest)
  {
    var s := "[" + l + "]" + rest;
    ClosingIs(l, rest);
    assert s[1..|l|+1] == l && s[|l|+2..] == rest;
    assert Match(s) == ([Slot(l)], |l| + 2);
  }

  lemma TokenizeSuffix(t: Token, rest: string)
    requires TokenOk(t) && (rest != "" ==> !Plain(rest[0]))
    ensures Tokenize(Suffix(t) + rest) == [t] + Tokenize(rest)
    ensures Suffix(t) + rest != "" && !Plain((Suffix(t) + rest)[0])
  {
    hide Tokenize;
    match t
    case Key(k) => TokenizeDot(k, rest);
    case Slot(l) => TokenizeSlot(l, rest);
  }

  lemma {:induction false} TokenizeTail(path: seq<Token>)
    requires forall k :: 0 <= k < |path| ==> TokenOk(path[k])
    ensures Tokenize(Tail(path)) == path && (path != [] ==> Tail(path) != "" && !Plain(Tail(path)[0]))
  {
    if path != [] {
      TokenizeTail(path[1..]);
      TokenizeSuffix(path[0], Tail(path[1..]));
      assert [path[0]] + path[1..] == path;
    }
    hide Tokenize, TokenOk, Plain, Suffix;
  }

  /** A written path is read back token for token. */
  lemma TokenizeRender(path: seq<Token>)
    requires PathOk(path)
    ensures Tokenize(Render(path)) == path
  {
    if path != [] {
      RenderIsTail(path);
      assert TokenOk(path[0]);
      TokenizeTail(path[1..]);
      TokenizeKey(path[0].name, Tail(path[1..]));
    }
  }
}
