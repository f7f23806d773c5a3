/** JSON values, the printer behind JSON.stringify(v, null, 2), and the size of what it prints. */
module Json {
  import opened Option
  import opened Utf8

  /** A parsed JSON value. A number is kept as the text it prints as; object members keep their order. */
  datatype Json = Null | Bool(value: bool) | Num(text: string) | Str(s: string)
                | Arr(items: seq<Json>) | Obj(members: seq<Member>)

  datatype Member = Member(key: string, value: Json)

  // ---- decimal numbers ----

  function Digit(n: nat): char
    requires n < 16
  {
    "0123456789abcdef"[n]
  }

  function Decimal(n: nat): (s: string)
    ensures s != "" && Ascii(s)
  {
    if n < 10 then [Digit(n)] else Decimal(n / 10) + [Digit(n % 10)]
  }

  function Digits(n: nat): nat {
    if n < 10 then 1 else 1 + Digits(n / 10)
  }

  lemma {:induction false} DecimalLength(n: nat)
    ensures |Decimal(n)| == Digits(n) && Bytes(Decimal(n)) == Digits(n)
  {
    if n >= 10 {
      DecimalLength(n / 10);
    }
    AsciiBytes(Decimal(n));
  }

  // ---- the number that digits name ----

  predicate IsDecimal(s: string) {
    s != "" && (forall i :: 0 <= i < |s| ==> '0' <= s[i] <= '9') && (s[0] == '0' ==> |s| == 1)
  }

  /** The value of a row of digits, read from the left: ten times the value so far, plus the next digit. */
  function NumberOf(s: string): int {
    if s == "" then 0 else 10 * NumberOf(s[..|s| - 1]) + (s[|s| - 1] as int - '0' as int)
  }

  /** The text is the decimal notation of this number. */
  predicate Names(s: string, n: nat) {
    IsDecimal(s) && NumberOf(s) == n
  }

  lemma {:induction false} DecimalNames(n: nat)
    ensures Names(Decimal(n), n)
    ensures Decimal(n)[0] == '0' ==> n == 0
  {
    if n >= 10 {
      DecimalNames(n / 10);
      var s := Decimal(n);
      assert s[..|s| - 1] == Decimal(n / 10) && s[|s| - 1] == Digit(n % 10);
    }
  }

  // ---- strings ----

  function EscapedChar(c: char): (s: string)
    ensures s != ""
  {
    if c == '\"' then "\\\""
    else if c == '\\' then "\\\\"
    else if c == '\U{8}' then "\\b"
    else if c == '\U{c}' then "\\f"
    else if c == '\n' then "\\n"
    else if c == '\r' then "\\r"
    else if c == '\t' then "\\t"
    else if c < ' ' then "\\u00" + [Digit(c as int / 16), Digit(c as int % 16)]
    else [c]
  }

  function Escaped(s: string): string {
    if s == "" then "" else EscapedChar(s[0]) + Escaped(s[1..])
  }

  function Quoted(s: string): string {
    "\"" + Escaped(s) + "\""
  }

  predicate NeedsEscape(c: char) {
    c < ' ' || c == '\"' || c == '\\'
  }

  /** How many bytes a character takes inside a printed string. */
  function EscapeCost(c: char): nat {
    if !NeedsEscape(c) then CharBytes(c)
    else if c in {'\"', '\\', '\U{8}', '\U{c}', '\n', '\r', '\t'} then 2
    else 6
  }

  function EscapedBytes(s: string): nat {
    if s == "" then 0 else EscapeCost(s[0]) + EscapedBytes(s[1..])
  }

  lemma EscapedCharBytes(c: char)
    ensures Bytes(EscapedChar(c)) == EscapeCost(c) >= CharBytes(c)
  {
    if NeedsEscape(c) {
      AsciiBytes(EscapedChar(c));
    } else {
      assert [c][1..] == "";
    }
  }

  lemma {:induction false} EscapedConcat(a: string, b: string)
    ensures EscapedBytes(a + b) == EscapedBytes(a) + EscapedBytes(b)
  {
    if a == "" {
      assert a + b == b;
    } else {
      EscapedConcat(a[1..], b);
      assert (a + b)[0] == a[0] && (a + b)[1..] == a[1..] + b;
    }
  }

  lemma {:induction false} EscapedSize(s: string)
    ensures Bytes(Escaped(s)) == EscapedBytes(s) >= Bytes(s)
  {
    if s != "" {
      EscapedSize(s[1..]);
      EscapedCharBytes(s[0]);
      BytesConcat(EscapedChar(s[0]), Escaped(s[1..]));
    }
  }

  // ---- the printer ----

  /** JSON.stringify(v, null, 2) at a nesting depth, or JSON.stringify(v) without white space. */
  datatype Style = Pretty(depth: nat) | Tight {
    function Deeper(): Style {
      if Pretty? then Pretty(depth + 1) else Tight
    }

    /** The line break and indentation in front of an item or a closing bracket. */
    function Break(): string {
      if Pretty? then "\n" + Indent(depth) else ""
    }

    function BreakSize(): nat {
      if Pretty? then 1 + 2 * depth else 0
    }

    function Colon(): string {
      if Pretty? then ": " else ":"
    }

    function ColonSize(): nat {
      if Pretty? then 2 else 1
    }
  }

  function Indent(depth: nat): string {
    if depth == 0 then "" else "  " + Indent(depth - 1)
  }

  function Print(v: Json, style: Style): string
    decreases v, 0
  {
    match v
    case Null => "null"
    case Bool(b) => if b then "true" else "false"
    case Num(text) => text
    case Str(s) => Quoted(s)
    case Arr(items) =>
      if items == [] then "[]" else "[" + PrintItems(items, style.Deeper()) + style.Break() + "]"
    case Obj(members) =>
      if members == [] then "{}" else "{" + PrintMembers(members, style.Deeper()) + style.Break() + "}"
  }

  function PrintItems(items: seq<Json>, style: Style): string
    requires items != []
    decreases items, 1
  {
    var first := style.Break() + Print(items[0], style);
    if |items| == 1 then first else first + "," + PrintItems(items[1..], style)
  }

  function PrintMembers(members: seq<Member>, style: Style): string
    requires members != []
    decreases members, 1
  {
    var first := style.Break() + Quoted(members[0].key) + style.Colon() + Print(members[0].value, style);
    if |members| == 1 then first else first + "," + PrintMembers(members[1..], style)
  }

  // ---- how long the printed text is ----

  /** Bytes of the printed value, computed from the tree. */
  function Size(v: Json, style: Style): nat
    decreases v, 0
  {
    match v
    case Null => 4
    case Bool(b) => if b then 4 else 5
    case Num(text) => Bytes(text)
    case Str(s) => 2 + EscapedBytes(s)
    case Arr(items) => if items == [] then 2 else 1 + ItemsSize(items, style.Deeper()) + style.BreakSize()
    case Obj(members) => if members == [] then 2 else 1 + MembersSize(members, style.Deeper()) + style.BreakSize()
  }

  /** Break, value and the separator or bracket behind it, for every item. */
  function ItemsSize(items: seq<Json>, style: Style): nat
    decreases items, 1
  {
    if items == [] then 0 else style.BreakSize() + Size(items[0], style) + 1 + ItemsSize(items[1..], style)
  }

  function MembersSize(members: seq<Member>, style: Style): nat
    decreases members, 1
  {
    if members == [] then 0
    else
      style.BreakSize() + 2 + EscapedBytes(members[0].key) + style.ColonSize() + Size(members[0].value, style) + 1
      + MembersSize(members[1..], style)
  }

  lemma IndentBytes(depth: nat)
    ensures Bytes(Indent(depth)) == 2 * depth
  {
    if depth > 0 {
      IndentBytes(depth - 1);
      BytesConcat("  ", Indent(depth - 1));
      AsciiBytes("  ");
    }
  }

  lemma StyleBytes(style: Style)
    ensures Bytes(style.Break()) == style.BreakSize() && Bytes(style.Colon()) == style.ColonSize()
  {
    if style.Pretty? {
      IndentBytes(style.depth);
      AsciiBytes("\n");
      BytesConcat("\n", Indent(style.depth));
    }
    AsciiBytes(style.Colon());
  }

  lemma QuotedBytes(s: string)
    ensures Bytes(Quoted(s)) == 2 + EscapedBytes(s)
  {
    EscapedSize(s);
    AsciiBytes("\"");
    BytesConcat("\"", Escaped(s));
    BytesConcat("\"" + Escaped(s), "\"");
  }

  lemma Bytes3(a: string, b: string, c: string)
    ensures Bytes(a + b + c) == Bytes(a) + Bytes(b) + Bytes(c)
  {
    BytesConcat(a, b);
    BytesConcat(a + b, c);
  }

  lemma Bracketed(open: string, body: string, style: Style, close: string)
    requires Ascii(open) && |open| == 1 && Ascii(close) && |close| == 1
    ensures Bytes(open + body + style.Break() + close) == 2 + Bytes(body) + style.BreakSize()
  {
    AsciiBytes(open);
    AsciiBytes(close);
    StyleBytes(style);
    Bytes3(open, body, style.Break());
    BytesConcat(open + body + style.Break(), close);
  }

  lemma LiteralBytes()
    ensures Bytes("null") == Bytes("true") == 4 && Bytes("false") == 5 && Bytes("[]") == Bytes("{}") == 2
  {
    AsciiBytes("null");
    AsciiBytes("true");
    AsciiBytes("false");
    AsciiBytes("[]");
    AsciiBytes("{}");
  }

  lemma PrintedArr(items: seq<Json>, style: Style)
    requires items != [] && Bytes(PrintItems(items, style.Deeper())) + 1 == ItemsSize(items, style.Deeper())
    ensures Bytes(Print(Arr(items), style)) == Size(Arr(items), style)
  {
    Bracketed("[", PrintItems(items, style.Deeper()), style, "]");
  }

  lemma PrintedObj(members: seq<Member>, style: Style)
    requires members != [] && Bytes(PrintMembers(members, style.Deeper())) + 1 == MembersSize(members, style.Deeper())
    ensures Bytes(Print(Obj(members), style)) == Size(Obj(members), style)
  {
    Bracketed("{", PrintMembers(members, style.Deeper()), style, "}");
  }

  /** The printed text is exactly as long as computed. */
  lemma {:induction false} PrintedSize(v: Json, style: Style)
    ensures Bytes(Print(v, style)) == Size(v, style)
    decreases v, 0
  {
    if v.Arr? && v.items != [] {
      PrintedItems(v.items, style.Deeper());
      PrintedArr(v.items, style);
    } else if v.Obj? && v.members != [] {
      PrintedMembers(v.members, style.Deeper());
      PrintedObj(v.members, style);
    } else if v.Str? {
      QuotedBytes(v.s);
    } else {
      LiteralBytes();
    }
  }

  lemma {:induction false} PrintedItems(items: seq<Json>, style: Style)
    requires items != []
    ensures Bytes(PrintItems(items, style)) + 1 == ItemsSize(items, style)
    decreases items, 1
  {
    var first := style.Break() + Print(items[0], style);
    PrintedSize(items[0], style);
    StyleBytes(style);
    BytesConcat(style.Break(), Print(items[0], style));
    if |items| > 1 {
      PrintedItems(items[1..], style);
      AsciiBytes(",");
      Bytes3(first, ",", PrintItems(items[1..], style));
    }
  }

  lemma {:induction false} PrintedMembers(members: seq<Member>, style: Style)
    requires members != []
    ensures Bytes(PrintMembers(members, style)) + 1 == MembersSize(members, style)
    decreases members, 1
  {
    var key := Quoted(members[0].key);
    var first := style.Break() + key + style.Colon() + Print(members[0].value, style);
    PrintedSize(members[0].value, style);
    StyleBytes(style);
    QuotedBytes(members[0].key);
    Bytes3(style.Break(), key, style.Colon());
    BytesConcat(style.Break() + key + style.Colon(), Print(members[0].value, style));
    if |members| > 1 {
      PrintedMembers(members[1..], style);
      AsciiBytes(",");
      Bytes3(first, ",", PrintMembers(members[1..], style));
    }
  }

  // ---- keys of an object ----

  /** The position of a key, or the number of members when it is absent. */
  function Find(members: seq<Member>, key: string): (i: nat)
    ensures i <= |members|
    ensures i < |members| ==> members[i].key == key
    ensures forall j :: 0 <= j < i ==> members[j].key != key
  {
    if members == [] || members[0].key == key then 0 else 1 + Find(members[1..], key)
  }

  /** obj[key] = value. */
  function SetMember(members: seq<Member>, key: string, value: Json): seq<Member> {
    var i := Find(members, key);
    if i < |members| then members[i := Member(key, value)] else members + [Member(key, value)]
  }

  predicate UniqueKeys(members: seq<Member>) {
    forall i, j :: 0 <= i < j < |members| ==> members[i].key != members[j].key
  }

  // ---- nodes of the tree ----

  /** A path names a node by the position of each child on the way down. */
  type Path = seq<nat>

  predicate HasChild(v: Json, i: nat) {
    (v.Arr? && i < |v.items|) || (v.Obj? && i < |v.members|)
  }

  function Child(v: Json, i: nat): (child: Json)
    requires HasChild(v, i)
  {
    if v.Arr? then v.items[i] else v.members[i].value
  }

  function WithChild(v: Json, i: nat, child: Json): Json
    requires HasChild(v, i)
  {
    if v.Arr? then Arr(v.items[i := child]) else Obj(v.members[i := Member(v.members[i].key, child)])
  }

  predicate Reaches(v: Json, path: Path)
    decreases |path|
  {
    path == [] || (HasChild(v, path[0]) && Reaches(Child(v, path[0]), path[1..]))
  }

  function At(v: Json, path: Path): Json
    requires Reaches(v, path)
    decreases |path|
  {
    if path == [] then v else At(Child(v, path[0]), path[1..])
  }

  /** Rewrite the node at a path. */
  function SetAt(v: Json, path: Path, node: Json): Json
    requires Reaches(v, path)
    decreases |path|
  {
    if path == [] then node else WithChild(v, path[0], SetAt(Child(v, path[0]), path[1..], node))
  }

  /** Rewriting one node changes that node and nothing that is not above or below it. */
  lemma {:induction false} SetAtChangesOneNode(v: Json, path: Path, node: Json, other: Path)
    requires Reaches(v, path) && !(path <= other) && !(other <= path)
    ensures Reaches(SetAt(v, path, node), path) && At(SetAt(v, path, node), path) == node
    ensures Reaches(v, other) <==> Reaches(SetAt(v, path, node), other)
    ensures Reaches(v, other) ==> At(SetAt(v, path, node), other) == At(v, other)
    decreases |path|
  {
    var v' := SetAt(v, path, node);
    var child := SetAt(Child(v, path[0]), path[1..], node);
    assert Child(v', path[0]) == child;
    if path[0] == other[0] {
      assert path == [path[0]] + path[1..] && other == [other[0]] + other[1..];
      SetAtChangesOneNode(Child(v, path[0]), path[1..], node, other[1..]);
    } else {
      SetAtReaches(Child(v, path[0]), path[1..], node);
      if HasChild(v, other[0]) {
        assert Child(v', other[0]) == Child(v, other[0]);
      }
    }
  }

  lemma {:induction false} SetAtReaches(v: Json, path: Path, node: Json)
    requires Reaches(v, path)
    ensures Reaches(SetAt(v, path, node), path) && At(SetAt(v, path, node), path) == node
    decreases |path|
  {
    if path != [] {
      SetAtReaches(Child(v, path[0]), path[1..], node);
      assert Child(SetAt(v, path, node), path[0]) == SetAt(Child(v, path[0]), path[1..], node);
    }
  }

  lemma {:induction false} ItemsSizeUpdate(items: seq<Json>, i: nat, v: Json, style: Style)
    requires i < |items|
    ensures ItemsSize(items[i := v], style) == ItemsSize(items, style) - Size(items[i], style) + Size(v, style)
    decreases i
  {
    if i == 0 {
      assert items[0 := v][1..] == items[1..];
    } else {
      ItemsSizeUpdate(items[1..], i - 1, v, style);
      assert items[i := v][1..] == items[1..][i - 1 := v];
    }
  }

  lemma {:induction false} MembersSizeUpdate(members: seq<Member>, i: nat, v: Json, style: Style)
    requires i < |members|
    ensures MembersSize(members[i := Member(members[i].key, v)], style)
         == MembersSize(members, style) - Size(members[i].value, style) + Size(v, style)
    decreases i
  {
    var changed := members[i := Member(members[i].key, v)];
    if i == 0 {
      assert changed[1..] == members[1..];
    } else {
      MembersSizeUpdate(members[1..], i - 1, v, style);
      assert changed[1..] == members[1..][i - 1 := Member(members[i].key, v)];
    }
  }

  lemma WithChildSize(v: Json, i: nat, child: Json, style: Style)
    requires HasChild(v, i)
    ensures Size(WithChild(v, i, child), style) == Size(v, style) - Size(Child(v, i), style.Deeper()) + Size(child,
              style.Deeper())
  {
    if v.Arr? {
      ItemsSizeUpdate(v.items, i, child, style.Deeper());
    } else {
      MembersSizeUpdate(v.members, i, child, style.Deeper());
    }
  }

  /** Rewriting one node changes the printed size by exactly that node's change. */
  lemma {:induction false} SetAtSize(v: Json, path: Path, node: Json, depth: nat)
    requires Reaches(v, path)
    ensures Size(SetAt(v, path, node), Pretty(depth))
         == Size(v, Pretty(depth)) - Size(At(v, path), Pretty(depth + |path|)) + Size(node, Pretty(depth + |path|))
    decreases |path|
  {
    if path != [] {
      SetAtSize(Child(v, path[0]), path[1..], node, depth + 1);
      WithChildSize(v, path[0], SetAt(Child(v, path[0]), path[1..], node), Pretty(depth));
    }
  }
}
