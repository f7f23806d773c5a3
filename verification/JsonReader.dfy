/**
 * A reader for JSON text, and the proof that it gives back exactly the value that
 * was printed. It accepts what JSON.parse accepts, except for escapes of single
 * surrogates, and reads it the same way.
 */
module JsonReader {
  import opened Option
  import opened Utf8
  import opened Json

  datatype Read<T> = Read(value: T, rest: string)

  predicate IsSpace(c: char) {
    c == ' ' || c == '\n' || c == '\r' || c == '\t'
  }

  function Skip(s: string): (rest: string)
    ensures |rest| <= |s| && (rest == "" || !IsSpace(rest[0]))
  {
    if s != "" && IsSpace(s[0]) then Skip(s[1..]) else s
  }

  // ---- strings ----

  function HexValue(c: char): Option<nat> {
    if '0' <= c <= '9' then Some(c as int - '0' as int)
    else if 'a' <= c <= 'f' then Some(c as int - 'a' as int + 10)
    else if 'A' <= c <= 'F' then Some(c as int - 'A' as int + 10)
    else None
  }

  /** The character a two-character escape stands for. */
  function ShortEscape(c: char): Option<char> {
    if c == '\"' then Some('\"') else if c == '\\' then Some('\\') else if c == '/' then Some('/')
    else if c == 'b' then Some('\U{8}') else if c == 'f' then Some('\U{c}')
    else if c == 'n' then Some('\n') else if c == 'r' then Some('\r') else if c == 't' then Some('\t')
    else None
  }

  /** The UTF-16 unit that four hexadecimal digits name. */
  function CodeUnit(s: string): (n: Option<nat>)
    ensures n.Some? ==> n.value < 0x1_0000 && |s| >= 4
  {
    if |s| < 4 then None
    else
      var a, b, c, d := HexValue(s[0]), HexValue(s[1]), HexValue(s[2]), HexValue(s[3]);
      if a.None? || b.None? || c.None? || d.None? then None
      else Some(a.value * 4096 + b.value * 256 + c.value * 16 + d.value)
  }

  /** The low surrogate escaped at the start of a text. */
  function LowSurrogate(s: string): (n: Option<nat>)
    ensures n.Some? ==> 0xDC00 <= n.value < 0xE000 && |s| >= 6
  {
    if |s| < 6 || s[0] != '\\' || s[1] != 'u' then None
    else
      match CodeUnit(s[2..])
      case None => None
      case Some(n) => if 0xDC00 <= n < 0xE000 then Some(n) else None
  }

  /** What follows a backslash and a u: a character, or the first half of one and then the second. */
  function UnicodeEscape(s: string): (r: Option<Read<char>>)
    ensures r.Some? ==> |r.value.rest| < |s|
  {
    match CodeUnit(s)
    case None => None
    case Some(n) =>
      if n < 0xD800 then Some(Read(n as char, s[4..]))
      else if n >= 0xE000 then Some(Read(n as char, s[4..]))
      else if n >= 0xDC00 then None
      else
        match LowSurrogate(s[4..])
        case None => None
        case Some(low) => Some(Read((0x1_0000 + (n - 0xD800) * 0x400 + (low - 0xDC00)) as char, s[10..]))
  }

  /** One character of a string, escaped or not. */
  function ReadChar(s: string): (r: Option<Read<char>>)
    ensures r.Some? ==> |r.value.rest| < |s|
  {
    if s == "" || s[0] == '\"' || s[0] < ' ' then None
    else if s[0] != '\\' then Some(Read(s[0], s[1..]))
    else if |s| < 2 then None
    else if s[1] == 'u' then UnicodeEscape(s[2..])
    else
      match ShortEscape(s[1])
      case None => None
      case Some(c) => Some(Read(c, s[2..]))
  }

  /** What follows an opening quote, up to the closing one. */
  function ReadString(s: string): (r: Option<Read<string>>)
    ensures r.Some? ==> |r.value.rest| < |s|
    decreases |s|
  {
    if s != "" && s[0] == '\"' then Some(Read("", s[1..]))
    else
      match ReadChar(s)
      case None => None
      case Some(c) =>
        match ReadString(c.rest)
        case None => None
        case Some(more) => Some(Read([c.value] + more.value, more.rest))
  }

  // ---- numbers ----

  predicate IsDigit(c: char) {
    '0' <= c <= '9'
  }

  predicate IsNumberChar(c: char) {
    IsDigit(c) || c == '-' || c == '+' || c == '.' || c == 'e' || c == 'E'
  }

  function DigitRun(s: string): (n: nat)
    ensures n <= |s|
  {
    if s != "" && IsDigit(s[0]) then 1 + DigitRun(s[1..]) else 0
  }

  /** An exponent, or nothing. */
  predicate IsExponent(s: string) {
    s == "" ||
    ((s[0] == 'e' || s[0] == 'E') && |s| > 1 &&
     var digits := if s[1] == '+' || s[1] == '-' then s[2..] else s[1..];
     digits != "" && DigitRun(digits) == |digits|)
  }

  /** A fraction and an exponent, or nothing. */
  predicate IsFraction(s: string) {
    if s != "" && s[0] == '.' then
      var n := DigitRun(s[1..]);
      n > 0 && IsExponent(s[1 + n..])
    else IsExponent(s)
  }

  /** A number by the JSON grammar: no leading zeros, no empty parts. */
  predicate IsNumber(s: string) {
    var unsigned := if s != "" && s[0] == '-' then s[1..] else s;
    var n := DigitRun(unsigned);
    n > 0 && (unsigned[0] == '0' ==> n == 1) && IsFraction(unsigned[n..])
  }

  function NumberRun(s: string): (n: nat)
    ensures n <= |s|
  {
    if s != "" && IsNumberChar(s[0]) then 1 + NumberRun(s[1..]) else 0
  }

  // ---- values ----

  /** A repeated key keeps its first place and takes its last value. */
  function Merged(members: seq<Member>): seq<Member>
    decreases |members|
  {
    if members == [] then []
    else
      var last := members[|members| - 1];
      SetMember(Merged(members[..|members| - 1]), last.key, last.value)
  }

  function ReadValue(s: string): (r: Option<Read<Json>>)
    ensures r.Some? ==> |r.value.rest| < |s|
    decreases |s|, 1
  {
    var t := Skip(s);
    if t == "" then None
    else if t[0] == '\"' then
      match ReadString(t[1..])
      case None => None
      case Some(r) => Some(Read(Str(r.value), r.rest))
    else if t[0] == '[' then
      var u := Skip(t[1..]);
      if u != "" && u[0] == ']' then Some(Read(Arr([]), u[1..]))
      else
        match ReadItems(t[1..])
        case None => None
        case Some(r) => Some(Read(Arr(r.value), r.rest))
    else if t[0] == '{' then
      var u := Skip(t[1..]);
      if u != "" && u[0] == '}' then Some(Read(Obj([]), u[1..]))
      else
        match ReadMembers(t[1..])
        case None => None
        case Some(r) => Some(Read(Obj(Merged(r.value)), r.rest))
    else if "null" <= t then Some(Read(Null, t[4..]))
    else if "true" <= t then Some(Read(Bool(true), t[4..]))
    else if "false" <= t then Some(Read(Bool(false), t[5..]))
    else
      var n := NumberRun(t);
      if n > 0 && IsNumber(t[..n]) then Some(Read(Num(t[..n]), t[n..])) else None
  }

  /** Items up to and including the closing bracket. */
  function ReadItems(s: string): (r: Option<Read<seq<Json>>>)
    ensures r.Some? ==> |r.value.rest| < |s|
    decreases |s|, 2
  {
    match ReadValue(s)
    case None => None
    case Some(first) =>
      var t := Skip(first.rest);
      if t == "" then None
      else if t[0] == ']' then Some(Read([first.value], t[1..]))
      else if t[0] != ',' then None
      else
        match ReadItems(t[1..])
        case None => None
        case Some(more) => Some(Read([first.value] + more.value, more.rest))
  }

  /** A key and the colon behind it. */
  function ReadKey(s: string): (r: Option<Read<string>>)
    ensures r.Some? ==> |r.value.rest| < |s|
  {
    var t := Skip(s);
    if t == "" || t[0] != '\"' then None
    else
      match ReadString(t[1..])
      case None => None
      case Some(key) =>
        var u := Skip(key.rest);
        if u == "" || u[0] != ':' then None else Some(Read(key.value, u[1..]))
  }

  function ReadMembers(s: string): (r: Option<Read<seq<Member>>>)
    ensures r.Some? ==> |r.value.rest| < |s|
    decreases |s|, 2
  {
    match ReadKey(s)
    case None => None
    case Some(key) =>
      match ReadValue(key.rest)
      case None => None
      case Some(first) =>
        var m := Member(key.value, first.value);
        var t := Skip(first.rest);
        if t == "" then None
        else if t[0] == '}' then Some(Read([m], t[1..]))
        else if t[0] != ',' then None
        else
          match ReadMembers(t[1..])
          case None => None
          case Some(more) => Some(Read([m] + more.value, more.rest))
  }

  /** The whole text is one JSON value. */
  function Parse(s: string): Option<Json> {
    match ReadValue(s)
    case None => None
    case Some(r) => if Skip(r.rest) == "" then Some(r.value) else None
  }

  // ---- what was printed is read back ----

  /** Every number in the tree prints as a JSON number, and no object repeats a key: what JSON.parse can return. */
  predicate Printable(v: Json)
    decreases v
  {
    match v
    case Num(text) => IsNumber(text) && NumberRun(text) == |text|
    case Arr(items) => forall i :: 0 <= i < |items| ==> Printable(items[i])
    case Obj(members) => UniqueKeys(members) && forall i :: 0 <= i < |members| ==> Printable(members[i].value)
    case _ => true
  }

  lemma {:induction false} MergedIsUnique(members: seq<Member>)
    ensures UniqueKeys(Merged(members)) && forall m :: m in Merged(members) ==> m in members
    decreases |members|
  {
    if members != [] {
      var last := members[|members| - 1];
      var rest := Merged(members[..|members| - 1]);
      MergedIsUnique(members[..|members| - 1]);
      SetMemberMeans(rest, last.key, last.value);
      assert last in members;
    }
  }

  /** Setting a key changes or adds one member and keeps keys unique. */
  lemma SetMemberMeans(members: seq<Member>, key: string, value: Json)
    requires UniqueKeys(members)
    ensures UniqueKeys(SetMember(members, key, value))
    ensures forall m :: m in SetMember(members, key, value) ==> m == Member(key, value) || m in members
  {
  }

  lemma {:induction false} UniqueMerged(members: seq<Member>)
    requires UniqueKeys(members)
    ensures Merged(members) == members
    decreases |members|
  {
    if members != [] {
      var n := |members| - 1;
      UniqueMerged(members[..n]);
      SetFreshMember(members[..n], members[n]);
      assert members == members[..n] + [members[n]];
    }
  }

  lemma SetFreshMember(members: seq<Member>, m: Member)
    requires forall j :: 0 <= j < |members| ==> members[j].key != m.key
    ensures SetMember(members, m.key, m.value) == members + [m]
  {
  }

  lemma DigitReadsBack(n: nat)
    requires n < 16
    ensures HexValue(Digit(n)) == Some(n) && !NeedsEscape(Digit(n))
  {
  }

  lemma CharReadsBack(c: char, rest: string)
    ensures ReadChar(EscapedChar(c) + rest) == Some(Read(c, rest)) && EscapedChar(c)[0] != '\"'
  {
    var s := EscapedChar(c) + rest;
    if !NeedsEscape(c) {
      assert s[1..] == rest;
    } else if EscapeCost(c) == 2 {
      assert s[2..] == rest;
    } else {
      var n := c as int;
      DigitReadsBack(n / 16);
      DigitReadsBack(n % 16);
      assert s[2..][0] == '0' && s[2..][1] == '0' && s[2..][2] == Digit(n / 16) && s[2..][3] == Digit(n % 16);
      assert s[6..] == rest;
    }
  }

  /** The four hexadecimal digits of a UTF-16 unit. */
  function FourDigits(n: nat): string
    requires n < 0x1_0000
  {
    [Digit(n / 0x1000), Digit(n / 0x100 % 0x10), Digit(n / 0x10 % 0x10), Digit(n % 0x10)]
  }

  /** The two surrogates of a character beyond the first plane. */
  function HighHalf(n: nat): (high: nat)
    requires 0x1_0000 <= n < 0x11_0000
    ensures 0xD800 <= high < 0xDC00
  {
    0xD800 + (n - 0x1_0000) / 0x400
  }

  function LowHalf(n: nat): (low: nat)
    requires 0x1_0000 <= n
    ensures 0xDC00 <= low < 0xE000
  {
    0xDC00 + (n - 0x1_0000) % 0x400
  }

  lemma HalvesMakeTheWhole(n: nat)
    requires 0x1_0000 <= n < 0x11_0000
    ensures 0x1_0000 + (HighHalf(n) - 0xD800) * 0x400 + (LowHalf(n) - 0xDC00) == n
  {
  }

  function PairEscaped(high: nat, low: nat): string
    requires high < 0x1_0000 && low < 0x1_0000
  {
    "\\u" + (FourDigits(high) + ("\\u" + FourDigits(low)))
  }

  /** Any character as an escape: one unit, or the two surrogates of one beyond the first plane. */
  function FullyEscaped(c: char): string {
    var n := c as int;
    if n < 0x1_0000 then "\\u" + FourDigits(n) else PairEscaped(HighHalf(n), LowHalf(n))
  }

  lemma UnitReadsBack(n: nat, s: string, rest: string)
    requires n < 0x1_0000 && s == FourDigits(n) + rest
    ensures CodeUnit(s) == Some(n) && s[4..] == rest
  {
    var d := FourDigits(n);
    assert s[0] == d[0] && s[1] == d[1] && s[2] == d[2] && s[3] == d[3];
    DigitReadsBack(n / 0x1000);
    DigitReadsBack(n / 0x100 % 0x10);
    DigitReadsBack(n / 0x10 % 0x10);
    DigitReadsBack(n % 0x10);
    HexGroups(n);
  }

  lemma HexGroups(n: nat)
    ensures n / 0x1000 * 0x1000 + n / 0x100 % 0x10 * 0x100 + n / 0x10 % 0x10 * 0x10 + n % 0x10 == n
  {
    assert n / 0x100 == n / 0x10 / 0x10 && n / 0x1000 == n / 0x100 / 0x10;
  }

  lemma LowSurrogateReadsBack(low: nat, s: string, rest: string)
    requires 0xDC00 <= low < 0xE000 && s == "\\u" + (FourDigits(low) + rest)
    ensures LowSurrogate(s) == Some(low) && s[6..] == rest
  {
    assert s[2..] == FourDigits(low) + rest;
    UnitReadsBack(low, s[2..], rest);
    assert s[6..] == s[2..][4..];
  }

  lemma EscapeStarts(s: string, behind: string)
    requires s == "\\u" + behind
    ensures ReadChar(s) == UnicodeEscape(behind)
  {
    assert s[0] == '\\' && s[1] == 'u' && s[2..] == behind;
  }

  lemma UnitEscapeReads(n: nat, s: string, rest: string)
    requires n < 0xD800 || 0xE000 <= n < 0x1_0000
    requires s == FourDigits(n) + rest
    ensures UnicodeEscape(s) == Some(Read(n as char, rest))
  {
    UnitReadsBack(n, s, rest);
  }

  lemma PairText(u: string, a: string, b: string, rest: string)
    ensures u + (a + (u + b)) + rest == u + (a + (u + (b + rest)))
  {
    assert u + (a + (u + b)) + rest == u + ((a + (u + b)) + rest);
    assert (a + (u + b)) + rest == a + ((u + b) + rest);
    assert (u + b) + rest == u + (b + rest);
  }

  lemma PairEscapeReads(high: nat, low: nat, s: string, rest: string)
    requires 0xD800 <= high < 0xDC00 <= low < 0xE000
    requires s == FourDigits(high) + ("\\u" + (FourDigits(low) + rest))
    ensures UnicodeEscape(s)
         == Some(Read((0x1_0000 + (high - 0xD800) * 0x400 + (low - 0xDC00)) as char, rest))
  {
    var tail := "\\u" + (FourDigits(low) + rest);
    UnitReadsBack(high, s, tail);
    LowSurrogateReadsBack(low, tail, rest);
    assert s[10..] == s[4..][6..];
  }

  lemma NarrowReads(c: char, n: nat, rest: string)
    requires c as int == n < 0x1_0000
    ensures ReadChar("\\u" + FourDigits(n) + rest) == Some(Read(c, rest))
  {
    var behind := FourDigits(n) + rest;
    assert "\\u" + FourDigits(n) + rest == "\\u" + behind;
    EscapeStarts("\\u" + FourDigits(n) + rest, behind);
    UnitEscapeReads(n, behind, rest);
  }

  lemma WideReads(c: char, high: nat, low: nat, rest: string)
    requires 0xD800 <= high < 0xDC00 <= low < 0xE000
    requires c as int == 0x1_0000 + (high - 0xD800) * 0x400 + (low - 0xDC00)
    ensures ReadChar(PairEscaped(high, low) + rest) == Some(Read(c, rest))
  {
    var behind := FourDigits(high) + ("\\u" + (FourDigits(low) + rest));
    PairText("\\u", FourDigits(high), FourDigits(low), rest);
    EscapeStarts(PairEscaped(high, low) + rest, behind);
    PairEscapeReads(high, low, behind, rest);
  }

  /** Every character reads back from its escape, also in two halves. */
  lemma EscapesReadBack(c: char, rest: string)
    ensures ReadChar(FullyEscaped(c) + rest) == Some(Read(c, rest))
  {
    var n := c as int;
    if n < 0x1_0000 {
      NarrowReads(c, n, rest);
    } else {
      HalvesMakeTheWhole(n);
      WideReads(c, HighHalf(n), LowHalf(n), rest);
    }
  }

  lemma {:induction false} StringReadsBack(str: string, rest: string)
    ensures ReadString(Escaped(str) + ("\"" + rest)) == Some(Read(str, rest))
  {
    var s := Escaped(str) + ("\"" + rest);
    if str == "" {
      assert s[1..] == rest;
    } else {
      var tail := Escaped(str[1..]) + ("\"" + rest);
      assert s == EscapedChar(str[0]) + tail;
      CharReadsBack(str[0], tail);
      StringReadsBack(str[1..], rest);
      assert [str[0]] + str[1..] == str;
    }
  }

  lemma QuotedReadsBack(str: string, rest: string)
    ensures (Quoted(str) + rest)[0] == '\"' && ReadString((Quoted(str) + rest)[1..]) == Some(Read(str, rest))
  {
    StringReadsBack(str, rest);
    Behind4("\"", Escaped(str), "\"", rest);
    assert ("\"" + (Escaped(str) + ("\"" + rest)))[1..] == Escaped(str) + ("\"" + rest);
  }

  predicate Spaces(s: string) {
    forall i :: 0 <= i < |s| ==> IsSpace(s[i])
  }

  lemma {:induction false} SkipSpaces(space: string, s: string)
    requires Spaces(space)
    ensures Skip(space + s) == Skip(s)
  {
    if space == "" {
      assert space + s == s;
    } else {
      assert (space + s)[1..] == space[1..] + s;
      SkipSpaces(space[1..], s);
    }
  }

  lemma IndentIsSpace(depth: nat)
    ensures Spaces(Indent(depth))
  {
  }

  lemma ReadSkips(space: string, s: string)
    requires Spaces(space)
    ensures ReadValue(space + s).Some? == ReadValue(s).Some?
    ensures ReadValue(s).Some? ==> ReadValue(space + s) == ReadValue(s)
  {
    SkipSpaces(space, s);
  }

  lemma {:induction false} NumberRunStops(text: string, rest: string)
    requires NumberRun(text) == |text| && (rest == "" || !IsNumberChar(rest[0]))
    ensures NumberRun(text + rest) == |text|
  {
    if text == "" {
      assert text + rest == rest;
    } else {
      assert (text + rest)[1..] == text[1..] + rest;
      NumberRunStops(text[1..], rest);
    }
  }

  /** Nothing that could prolong a number. */
  predicate Stops(rest: string) {
    rest == "" || !IsNumberChar(rest[0])
  }

  lemma NumberReadsBack(text: string, rest: string)
    requires IsNumber(text) && NumberRun(text) == |text| && Stops(rest)
    ensures ReadValue(text + rest) == Some(Read(Num(text), rest))
  {
    var s := text + rest;
    NumberRunStops(text, rest);
    assert text != "" && IsNumberChar(text[0]) && s[0] == text[0];
    assert Skip(s) == s;
    assert s[..|text|] == text && s[|text|..] == rest;
    assert !("null" <= s) && !("true" <= s) && !("false" <= s);
  }

  lemma LiteralReadsBack(v: Json, style: Style, rest: string)
    requires v.Null? || v.Bool? || v == Arr([]) || v == Obj([])
    ensures ReadValue(Print(v, style) + rest) == Some(Read(v, rest))
  {
    var s := Print(v, style) + rest;
    assert Skip(s) == s;
    assert s[|Print(v, style)|..] == rest;
    if v.Arr? || v.Obj? {
      assert Skip(s[1..]) == s[1..];
      assert s[1..][1..] == rest;
    } else if v.Bool? && !v.value {
      assert !("true" <= s);
    } else if v.Bool? {
      assert !("null" <= s);
    }
  }

  lemma BreakIsSpace(style: Style)
    ensures Spaces(style.Break()) && Spaces(style.Colon()[1..]) && style.Colon()[0] == ':'
  {
    if style.Pretty? {
      IndentIsSpace(style.depth);
    }
  }

  /** A value never starts with white space or a closing bracket. */
  lemma PrintHead(v: Json, style: Style)
    requires Printable(v)
    ensures Print(v, style) != ""
    ensures var c := Print(v, style)[0]; !IsSpace(c) && c != ']' && c != '}'
  {
    if v.Num? {
      assert v.text != "" && IsNumberChar(v.text[0]);
    }
  }

  lemma SkipTo(space: string, s: string)
    requires Spaces(space) && s != "" && !IsSpace(s[0])
    ensures Skip(space + s) == s
  {
    SkipSpaces(space, s);
  }

  lemma Behind3(a: string, b: string, c: string)
    ensures a + b + c == a + (b + c)
  {
  }

  lemma Behind4(a: string, b: string, c: string, d: string)
    ensures a + b + c + d == a + (b + (c + d))
  {
    Behind3(a + b, c, d);
    Behind3(a, b, c + d);
  }

  lemma Behind5(a: string, b: string, c: string, d: string, e: string)
    ensures a + b + c + d + e == a + (b + (c + (d + e)))
  {
    Behind4(a + b, c, d, e);
    Behind3(a, b, c + (d + e));
  }

  /** What follows the last item: white space and a closing bracket. */
  predicate Closes(tail: string, close: char, rest: string) {
    (close == ']' || close == '}') && Skip(tail) == [close] + rest && Stops(tail)
  }

  lemma CloseCloses(space: string, close: char, rest: string)
    requires Spaces(space) && (close == ']' || close == '}')
    ensures Closes(space + ([close] + rest), close, rest)
  {
    SkipTo(space, [close] + rest);
  }

  lemma LastItem(s: string, v: Json, tail: string, rest: string)
    requires Closes(tail, ']', rest) && ReadValue(s) == Some(Read(v, tail))
    ensures ReadItems(s) == Some(Read([v], rest))
  {
    assert ([']'] + rest)[1..] == rest;
  }

  lemma AnotherItem(s: string, v: Json, more: string, items: seq<Json>, rest: string)
    requires ReadValue(s) == Some(Read(v, "," + more)) && ReadItems(more) == Some(Read(items, rest))
    ensures ReadItems(s) == Some(Read([v] + items, rest))
  {
    assert Skip("," + more) == "," + more;
    assert ("," + more)[1..] == more;
  }

  lemma LastMember(s: string, key: string, behind: string, v: Json, tail: string, rest: string)
    requires ReadKey(s) == Some(Read(key, behind)) && ReadValue(behind) == Some(Read(v, tail))
               && Closes(tail, '}', rest)
    ensures ReadMembers(s) == Some(Read([Member(key, v)], rest))
  {
    assert (['}'] + rest)[1..] == rest;
  }

  lemma AnotherMember(s: string, key: string, behind: string, v: Json, more: string, members: seq<Member>, rest: string)
    requires ReadKey(s) == Some(Read(key, behind)) && ReadValue(behind) == Some(Read(v, "," + more))
    requires ReadMembers(more) == Some(Read(members, rest))
    ensures ReadMembers(s) == Some(Read([Member(key, v)] + members, rest))
  {
    assert Skip("," + more) == "," + more;
    assert ("," + more)[1..] == more;
  }

  lemma KeyOf(s: string, t: string, key: string, u: string)
    requires Skip(s) == t && t != "" && t[0] == '\"' && ReadString(t[1..]) == Some(Read(key, u))
    requires u != "" && u[0] == ':'
    ensures ReadKey(s) == Some(Read(key, u[1..]))
  {
  }

  lemma KeyReadsBack(space: string, key: string, colon: string, behind: string)
    requires Spaces(space) && colon != "" && colon[0] == ':'
    ensures ReadKey(space + (Quoted(key) + (colon + behind))) == Some(Read(key, colon[1..] + behind))
  {
    var s, u := Quoted(key) + (colon + behind), colon + behind;
    QuotedReadsBack(key, u);
    SkipTo(space, s);
    KeyOf(space + s, s, key, u);
    assert u[1..] == colon[1..] + behind;
  }

  lemma ArrayOf(items: seq<Json>, head: string, body: string, rest: string)
    requires Skip(body) == head && head != "" && head[0] != ']' && ReadItems(body) == Some(Read(items, rest))
    ensures ReadValue("[" + body) == Some(Read(Arr(items), rest))
  {
    assert Skip("[" + body) == "[" + body;
    assert ("[" + body)[1..] == body;
  }

  lemma ObjectOf(members: seq<Member>, head: string, body: string, rest: string)
    requires Skip(body) == head && head != "" && head[0] != '}' && ReadMembers(body) == Some(Read(members, rest))
    ensures ReadValue("{" + body) == Some(Read(Obj(Merged(members)), rest))
  {
    assert Skip("{" + body) == "{" + body;
    assert ("{" + body)[1..] == body;
  }

  // ---- printed items and members, with a text behind them ----

  /** The same texts, associated so that the reader meets them piece by piece. */
  function ItemsThen(items: seq<Json>, style: Style, tail: string): string
    requires items != []
  {
    style.Break() + (Print(items[0], style) + (if |items| == 1 then tail else "," + ItemsThen(items[1..], style, tail)))
  }

  function MembersThen(members: seq<Member>, style: Style, tail: string): string
    requires members != []
  {
    style.Break() + (Quoted(members[0].key) + (style.Colon() + (Print(members[0].value, style)
      + (if |members| == 1 then tail else "," + MembersThen(members[1..], style, tail)))))
  }

  lemma {:induction false} ItemsText(items: seq<Json>, style: Style, tail: string)
    requires items != []
    ensures PrintItems(items, style) + tail == ItemsThen(items, style, tail)
  {
    var brk, first := style.Break(), Print(items[0], style);
    if |items| == 1 {
      Behind3(brk, first, tail);
    } else {
      ItemsText(items[1..], style, tail);
      Behind4(brk + first, ",", PrintItems(items[1..], style), tail);
      Behind3(brk, first, "," + ItemsThen(items[1..], style, tail));
    }
  }

  lemma {:induction false} MembersText(members: seq<Member>, style: Style, tail: string)
    requires members != []
    ensures PrintMembers(members, style) + tail == MembersThen(members, style, tail)
  {
    var brk, key, colon, first := style.Break(), Quoted(members[0].key), style.Colon(), Print(members[0].value, style);
    if |members| == 1 {
      Behind5(brk, key, colon, first, tail);
    } else {
      MembersText(members[1..], style, tail);
      Behind4(brk + key + colon + first, ",", PrintMembers(members[1..], style), tail);
      Behind5(brk, key, colon, first, "," + MembersThen(members[1..], style, tail));
    }
  }

  lemma ArrText(body: string, space: string, rest: string, close: string, open: string, items: string)
    requires body == items + (space + (close + rest))
    ensures open + items + space + close + rest == open + body
  {
    Behind5(open, items, space, close, rest);
  }

  lemma ArrReadsBack(items: seq<Json>, style: Style, rest: string)
    requires items != [] && Printable(items[0])
    requires ReadItems(ItemsThen(items, style.Deeper(), style.Break() + ("]" + rest))) == Some(Read(items, rest))
    ensures ReadValue(Print(Arr(items), style) + rest) == Some(Read(Arr(items), rest))
  {
    var tail := style.Break() + ("]" + rest);
    var body := ItemsThen(items, style.Deeper(), tail);
    ItemsText(items, style.Deeper(), tail);
    ArrText(body, style.Break(), rest, "]", "[", PrintItems(items, style.Deeper()));
    BreakIsSpace(style.Deeper());
    PrintHead(items[0], style.Deeper());
    var head := body[|style.Deeper().Break()|..];
    SkipTo(style.Deeper().Break(), head);
    ArrayOf(items, head, body, rest);
  }

  lemma ObjReadsBack(members: seq<Member>, style: Style, rest: string)
    requires members != [] && UniqueKeys(members)
    requires ReadMembers(MembersThen(members, style.Deeper(), style.Break() + ("}" + rest))) == Some(Read(members,
               rest))
    ensures ReadValue(Print(Obj(members), style) + rest) == Some(Read(Obj(members), rest))
  {
    var tail := style.Break() + ("}" + rest);
    var body := MembersThen(members, style.Deeper(), tail);
    MembersText(members, style.Deeper(), tail);
    ArrText(body, style.Break(), rest, "}", "{", PrintMembers(members, style.Deeper()));
    BreakIsSpace(style.Deeper());
    var head := body[|style.Deeper().Break()|..];
    SkipTo(style.Deeper().Break(), head);
    ObjectOf(members, head, body, rest);
    UniqueMerged(members);
  }

  /** A printed value is read back whole, and nothing behind it is touched. */
  lemma {:induction false} ValueReadsBack(v: Json, style: Style, rest: string)
    requires Printable(v) && Stops(rest)
    ensures ReadValue(Print(v, style) + rest) == Some(Read(v, rest))
    decreases v, 0
  {
    if v.Num? {
      NumberReadsBack(v.text, rest);
    } else if v.Str? {
      QuotedReadsBack(v.s, rest);
      assert Skip(Quoted(v.s) + rest) == Quoted(v.s) + rest;
    } else if v.Arr? && v.items != [] {
      BreakIsSpace(style);
      CloseCloses(style.Break(), ']', rest);
      ItemsReadBack(v.items, style.Deeper(), style.Break() + ("]" + rest), rest);
      ArrReadsBack(v.items, style, rest);
    } else if v.Obj? && v.members != [] {
      BreakIsSpace(style);
      CloseCloses(style.Break(), '}', rest);
      MembersReadBack(v.members, style.Deeper(), style.Break() + ("}" + rest), rest);
      ObjReadsBack(v.members, style, rest);
    } else {
      LiteralReadsBack(v, style, rest);
    }
  }

  lemma LastItemReads(space: string, text: string, v: Json, tail: string, rest: string)
    requires Spaces(space) && Closes(tail, ']', rest) && ReadValue(text + tail) == Some(Read(v, tail))
    ensures ReadItems(space + (text + tail)) == Some(Read([v], rest))
  {
    ReadSkips(space, text + tail);
    LastItem(space + (text + tail), v, tail, rest);
  }

  lemma AnotherItemReads(space: string, text: string, v: Json, more: string, items: seq<Json>, rest: string)
    requires Spaces(space) && ReadItems(more) == Some(Read(items, rest))
    requires ReadValue(text + ("," + more)) == Some(Read(v, "," + more))
    ensures ReadItems(space + (text + ("," + more))) == Some(Read([v] + items, rest))
  {
    ReadSkips(space, text + ("," + more));
    AnotherItem(space + (text + ("," + more)), v, more, items, rest);
  }

  lemma {:induction false} ItemsReadBack(items: seq<Json>, style: Style, tail: string, rest: string)
    requires items != [] && Closes(tail, ']', rest)
    requires forall i :: 0 <= i < |items| ==> Printable(items[i])
    ensures ReadItems(ItemsThen(items, style, tail)) == Some(Read(items, rest))
    decreases items, 1
  {
    BreakIsSpace(style);
    if |items| == 1 {
      ValueReadsBack(items[0], style, tail);
      LastItemReads(style.Break(), Print(items[0], style), items[0], tail, rest);
      assert items == [items[0]];
    } else {
      var more := ItemsThen(items[1..], style, tail);
      ItemsReadBack(items[1..], style, tail, rest);
      ValueReadsBack(items[0], style, "," + more);
      AnotherItemReads(style.Break(), Print(items[0], style), items[0], more, items[1..], rest);
      assert items == [items[0]] + items[1..];
    }
  }

  lemma MemberKeyReads(space: string, key: string, colon: string, text: string, v: Json, tail: string)
    requires Spaces(space) && colon != "" && colon[0] == ':' && Spaces(colon[1..])
    requires ReadValue(text + tail) == Some(Read(v, tail))
    ensures ReadKey(space + (Quoted(key) + (colon + (text + tail)))) == Some(Read(key, colon[1..] + (text + tail)))
    ensures ReadValue(colon[1..] + (text + tail)) == Some(Read(v, tail))
  {
    ReadSkips(colon[1..], text + tail);
    KeyReadsBack(space, key, colon, text + tail);
  }

  lemma LastMemberReads(space: string, key: string, colon: string, text: string, v: Json, tail: string, rest: string)
    requires Spaces(space) && colon != "" && colon[0] == ':' && Spaces(colon[1..])
    requires Closes(tail, '}', rest) && ReadValue(text + tail) == Some(Read(v, tail))
    ensures ReadMembers(space + (Quoted(key) + (colon + (text + tail)))) == Some(Read([Member(key, v)], rest))
  {
    MemberKeyReads(space, key, colon, text, v, tail);
    LastMember(space + (Quoted(key) + (colon + (text + tail))), key, colon[1..] + (text + tail), v, tail, rest);
  }

  lemma AnotherMemberReads(space: string, key: string, colon: string, text: string, v: Json, more: string,
      members: seq<Member>, rest: string)
    requires Spaces(space) && colon != "" && colon[0] == ':' && Spaces(colon[1..])
    requires ReadMembers(more) == Some(Read(members, rest))
               && ReadValue(text + ("," + more)) == Some(Read(v, "," + more))
    ensures ReadMembers(space + (Quoted(key) + (colon + (text + ("," + more))))) == Some(Read([Member(key,
              v)] + members, rest))
  {
    var tail := "," + more;
    MemberKeyReads(space, key, colon, text, v, tail);
    AnotherMember(space + (Quoted(key) + (colon + (text + tail))), key, colon[1..] + (text + tail), v, more, members,
        rest);
  }

  lemma OnlyMemberReads(members: seq<Member>, style: Style, tail: string, rest: string)
    requires |members| == 1 && Closes(tail, '}', rest)
    requires ReadValue(Print(members[0].value, style) + tail) == Some(Read(members[0].value, tail))
    ensures ReadMembers(MembersThen(members, style, tail)) == Some(Read(members, rest))
  {
    var m := members[0];
    BreakIsSpace(style);
    LastMemberReads(style.Break(), m.key, style.Colon(), Print(m.value, style), m.value, tail, rest);
    assert members == [m];
  }

  lemma FirstMemberReads(members: seq<Member>, style: Style, tail: string, more: string, rest: string)
    requires |members| > 1 && more == MembersThen(members[1..], style, tail)
    requires ReadMembers(more) == Some(Read(members[1..], rest))
    requires ReadValue(Print(members[0].value, style) + ("," + more)) == Some(Read(members[0].value, "," + more))
    ensures ReadMembers(MembersThen(members, style, tail)) == Some(Read(members, rest))
  {
    var m := members[0];
    BreakIsSpace(style);
    AnotherMemberReads(style.Break(), m.key, style.Colon(), Print(m.value, style), m.value, more, members[1..], rest);
    assert members == [m] + members[1..];
  }

  lemma {:induction false} MembersReadBack(members: seq<Member>, style: Style, tail: string, rest: string)
    requires members != [] && Closes(tail, '}', rest)
    requires forall i :: 0 <= i < |members| ==> Printable(members[i].value)
    ensures ReadMembers(MembersThen(members, style, tail)) == Some(Read(members, rest))
    decreases members, 1
  {
    if |members| == 1 {
      ValueReadsBack(members[0].value, style, tail);
      OnlyMemberReads(members, style, tail, rest);
    } else {
      var more := MembersThen(members[1..], style, tail);
      MembersReadBack(members[1..], style, tail, rest);
      ValueReadsBack(members[0].value, style, "," + more);
      FirstMemberReads(members, style, tail, more, rest);
    }
  }

  /** Printing and parsing is a round trip, with and without white space. */
  lemma PrintedTextParses(v: Json, style: Style)
    requires Printable(v)
    ensures Parse(Print(v, style)) == Some(v)
  {
    ValueReadsBack(v, style, "");
    assert Print(v, style) + "" == Print(v, style);
  }

  // ---- what is read can be printed ----

  lemma {:induction false} NumberRunOfPrefix(s: string)
    ensures NumberRun(s[..NumberRun(s)]) == NumberRun(s)
  {
    if s != "" && IsNumberChar(s[0]) {
      NumberRunOfPrefix(s[1..]);
      assert s[..NumberRun(s)][1..] == s[1..][..NumberRun(s[1..])];
    }
  }

  lemma {:induction false} ReadValueIsPrintable(s: string)
    ensures ReadValue(s).Some? ==> Printable(ReadValue(s).value.value)
    decreases |s|, 1
  {
    var t := Skip(s);
    if t != "" {
      if t[0] == '[' {
        ReadItemsArePrintable(t[1..]);
      } else if t[0] == '{' {
        ReadMembersArePrintable(t[1..]);
        if ReadMembers(t[1..]).Some? {
          MergedIsUnique(ReadMembers(t[1..]).value.value);
        }
      } else {
        NumberRunOfPrefix(t);
      }
    }
  }

  lemma {:induction false} ReadItemsArePrintable(s: string)
    ensures ReadItems(s).Some? ==> forall v :: v in ReadItems(s).value.value ==> Printable(v)
    decreases |s|, 2
  {
    ReadValueIsPrintable(s);
    if ReadValue(s).Some? {
      var t := Skip(ReadValue(s).value.rest);
      if t != "" && t[0] == ',' {
        ReadItemsArePrintable(t[1..]);
      }
    }
  }

  lemma {:induction false} ReadMembersArePrintable(s: string)
    ensures ReadMembers(s).Some? ==> forall m :: m in ReadMembers(s).value.value ==> Printable(m.value)
    decreases |s|, 2
  {
    if ReadKey(s).Some? {
      var behind := ReadKey(s).value.rest;
      ReadValueIsPrintable(behind);
      if ReadValue(behind).Some? {
        var t := Skip(ReadValue(behind).value.rest);
        if t != "" && t[0] == ',' {
          ReadMembersArePrintable(t[1..]);
        }
      }
    }
  }

  /** Parsing and printing is a round trip the other way, too: what was read prints and parses to itself. */
  lemma ParsedIsPrintable(text: string, style: Style)
    requires Parse(text).Some?
    ensures Printable(Parse(text).value) && Parse(Print(Parse(text).value, style)) == Parse(text)
  {
    ReadValueIsPrintable(text);
    PrintedTextParses(Parse(text).value, style);
  }

  /** White space behind a value does not matter. */
  lemma {:induction false} ParsesBeforeSpace(v: Json, style: Style, space: string)
    requires Printable(v) && Spaces(space)
    ensures Parse(Print(v, style) + space) == Some(v)
  {
    ValueReadsBack(v, style, space);
    SkipSpaces(space, "");
    assert space + "" == space;
  }
}
