/** The loops of guard.ts: shrinking to the budget, filling in returned_size, and cutting plain text. */
module GuardResponse {
  import opened Option
  import opened Utf8
  import opened Json
  import opened GuardFields
  import opened GuardTree
  import opened Guard

  /** Sizes a JavaScript number counts exactly; every string in memory is far shorter. */
  predicate Countable(n: nat) {
    Digits(n) <= 16
  }

  // ---- the embedded size reaches its fixed point ----

  function Pow10(k: nat): (p: nat)
    ensures p > k
  {
    if k == 0 then 1 else 10 * Pow10(k - 1)
  }

  lemma {:induction false} DigitsBelow(n: nat)
    ensures n < Pow10(Digits(n))
  {
    if n >= 10 {
      DigitsBelow(n / 10);
    } else {
      assert Pow10(0) == 1;
    }
  }

  lemma {:induction false} BelowDigits(n: nat, k: nat)
    requires k >= 1 && n < Pow10(k)
    ensures Digits(n) <= k
  {
    assert Pow10(k) == 10 * Pow10(k - 1) && (k == 1 ==> Pow10(k - 1) == 1);
    if n >= 10 {
      BelowDigits(n / 10, k - 1);
    }
  }

  lemma {:induction false} DigitsMonotone(a: nat, b: nat)
    requires a <= b
    ensures Digits(a) <= Digits(b)
  {
    if a >= 10 {
      DigitsMonotone(a / 10, b / 10);
    }
  }

  /** What the loop writes after i rounds, with `rest` bytes around the number. */
  function Written(rest: nat, i: nat): nat {
    if i == 0 then 0 else rest + Digits(Written(rest, i - 1))
  }

  /** Three rounds are enough, also across a power of ten. */
  lemma ThreeRoundsSuffice(rest: nat)
    ensures Written(rest, 3) == rest + Digits(Written(rest, 3))
    ensures Written(rest, 4) == Written(rest, 3)
  {
    var r1, r2, r3 := Written(rest, 1), Written(rest, 2), Written(rest, 3);
    assert Written(rest, 0) == 0 && r1 == rest + 1;
    var k := Digits(r1);
    assert r2 == rest + k && r3 == rest + Digits(r2);
    DigitsBelow(r1);
    BelowDigits(r2, k + 1);
    DigitsMonotone(r1, r2);
    if Digits(r2) == k + 1 {
      BelowDigits(r3, k + 1);
      DigitsMonotone(r2, r3);
    }
  }

  /** The serialized root is as long as its digits of returned_size, plus a rest that does not depend on them. */
  lemma MarkedSize(root: seq<Member>, original: nat, returned: nat, tool: string) returns (rest: nat)
    requires Find(root, SKIP_KEY) < |root|
    ensures rest + 1 == Bytes(Serialized(Marked(root, original, 0, tool)))
    ensures Bytes(Serialized(Marked(root, original, returned, tool))) == rest + Digits(returned)
  {
    var i := Find(root, SKIP_KEY);
    var v := Obj(Marked(root, original, 0, tool));
    var number := Num(Decimal(returned));
    OneMemberDiffers(root, i, original, returned, tool);
    SetAtSize(v, [i, 1], number, 0);
    SerializedSize(Marked(root, original, 0, tool));
    SerializedSize(Marked(root, original, returned, tool));
    DecimalLength(0);
    DecimalLength(returned);
    rest := Bytes(Serialized(Marked(root, original, 0, tool))) - 1;
  }

  lemma OneMemberDiffers(root: seq<Member>, i: nat, original: nat, returned: nat, tool: string)
    requires i == Find(root, SKIP_KEY) < |root|
    ensures var v := Obj(Marked(root, original, 0, tool));
            && Reaches(v, [i, 1]) && At(v, [i, 1]) == Num(Decimal(0))
            && SetAt(v, [i, 1], Num(Decimal(returned))) == Obj(Marked(root, original, returned, tool))
  {
    var v := Obj(Marked(root, original, 0, tool));
    var meta := Meta(original, 0, tool);
    assert Child(v, i) == meta && [i, 1][1..] == [1] && [1][1..] == [];
    assert Child(meta, 1) == Num(Decimal(0));
    assert SetAt(meta, [1], Num(Decimal(returned))) == Meta(original, returned, tool);
  }

  // ---- what a reader of the metadata learns ----

  /** The number a response reports in a field of its "truncated" member. */
  function Reported(v: Json, field: string): Option<nat> {
    if !v.Obj? then None
    else
      var i := Find(v.members, "truncated");
      if i == |v.members| || !v.members[i].value.Obj? then None
      else
        var meta := v.members[i].value.members;
        var j := Find(meta, field);
        if j == |meta| || !meta[j].value.Num? || !IsDecimal(meta[j].value.text) then None
        else if NumberOf(meta[j].value.text) >= 0 then Some(NumberOf(meta[j].value.text)) else None
  }

  /** The tool a response names in its "truncated" member. */
  function ReportedTool(v: Json): Option<string> {
    if !v.Obj? then None
    else
      var i := Find(v.members, "truncated");
      if i == |v.members| || !v.members[i].value.Obj? then None
      else
        var meta := v.members[i].value.members;
        var j := Find(meta, "tool");
        if j == |meta| || !meta[j].value.Str? then None else Some(meta[j].value.s)
  }

  lemma MetaReports(members: seq<Member>, i: nat, original: nat, returned: nat, tool: string)
    requires i < |members| && members[i] == Member("truncated", Meta(original, returned, tool))
    requires Find(members, "truncated") == i
    ensures Reported(Obj(members), "original_size") == Some(original)
    ensures Reported(Obj(members), "returned_size") == Some(returned) && ReportedTool(Obj(members)) == Some(tool)
  {
    DecimalNames(original);
    DecimalNames(returned);
    assert "original_size"[0] != "returned_size"[0] && |"tool"| < |"returned_size"|;
    var meta := Meta(original, returned, tool).members;
    assert meta[0].key == "original_size" && meta[1].key == "returned_size";
    assert meta[2].key == "tool";
    assert Find(meta, "original_size") == 0 && Find(meta, "returned_size") == 1 && Find(meta, "tool") == 2;
  }

  lemma MarkedReports(root: seq<Member>, original: nat, returned: nat, tool: string)
    ensures Reported(Obj(Marked(root, original, returned, tool)), "original_size") == Some(original)
    ensures Reported(Obj(Marked(root, original, returned, tool)), "returned_size") == Some(returned)
    ensures ReportedTool(Obj(Marked(root, original, returned, tool))) == Some(tool)
  {
    FirstMarkFound(root, Meta(original, returned, tool));
    var marked := Marked(root, original, returned, tool);
    MetaReports(marked, Find(marked, SKIP_KEY), original, returned, tool);
  }

  /** The 4-round loop: the size it embeds is the size of the text it returns. */
  method BackfillReturnedSize(root: seq<Member>, original: nat, tool: string) returns (s: string, returned: nat)
    requires Find(root, SKIP_KEY) < |root|
    ensures s == Serialized(Marked(root, original, returned, tool)) && returned == Bytes(s)
    ensures Reported(Obj(Marked(root, original, returned, tool)), "returned_size") == Some(Bytes(s))
    ensures Reported(Obj(Marked(root, original, returned, tool)), "original_size") == Some(original)
  {
    returned := 0;
    s := Serialized(Marked(root, original, returned, tool));
    ghost var rest := MarkedSize(root, original, returned, tool);
    var i := 0;
    while i < 4 && returned != Bytes(s)
      invariant i <= 4 && returned == Written(rest, i)
      invariant s == Serialized(Marked(root, original, returned, tool)) && Bytes(s) == rest + Digits(returned)
      decreases 4 - i
    {
      returned := Bytes(s);
      s := Serialized(Marked(root, original, returned, tool));
      ghost var rest' := MarkedSize(root, original, returned, tool);
      i := i + 1;
    }
    ThreeRoundsSuffice(rest);
    MarkedReports(root, original, returned, tool);
  }

  // ---- structured truncation ----

  const ERROR := "error"
  const TOO_LARGE := "response too large to truncate within guard budget"

  function Fallback(original: nat, returned: nat, tool: string): Json {
    Obj([Member(ERROR, Str(TOO_LARGE)),
         Member(SKIP_KEY, Meta(original, returned, tool))])
  }

  /** The root with its metadata, before and after all rounds. */
  function StartRoot(data: Json, original: nat, tool: string): seq<Member> {
    Marked(BaseMembers(data), original, 0, tool)
  }

  function FinalRoot(data: Json, original: nat, tool: string): seq<Member> {
    Shrunk(StartRoot(data, original, tool), MAX_ITERATIONS)
  }

  /** The metadata member, found by its key. */
  function MetaOf(root: seq<Member>): Option<Json> {
    var i := Find(root, SKIP_KEY);
    if i < |root| then Some(root[i].value) else None
  }

  /** Rounds never touch the metadata. */
  lemma {:induction false} MetaStays(root: seq<Member>, rounds: nat)
    ensures MetaOf(Shrunk(root, rounds)) == MetaOf(root)
    decreases rounds
  {
    if rounds > 0 && !Fits(root) {
      RoundKeepsMeta(root);
      MetaStays(Round(root), rounds - 1);
    }
  }

  lemma RoundKeepsMeta(root: seq<Member>)
    requires !Fits(root)
    ensures MetaOf(Round(root)) == MetaOf(root)
  {
    var shrink := Decide(root, Bytes(Serialized(root)));
    DecisionsAreSensible(root, Bytes(Serialized(root)));
    ApplyKeepsMeta(root, shrink);
  }

  lemma ApplyKeepsMeta(root: seq<Member>, shrink: Shrink)
    requires Sensible(root, shrink)
    ensures MetaOf(Applied(root, shrink)) == MetaOf(root)
  {
    var k := Find(root, SKIP_KEY);
    var root' := Applied(root, shrink);
    var k' := Find(root', SKIP_KEY);
    match shrink
    case Rewrite(path, node) =>
      assert forall j :: 0 <= j < |root| ==> root'[j].key == root[j].key;
      assert k == k';
    case Remove(i) =>
      assert forall j :: 0 <= j < |root'| ==> root'[j] == root[if j < i then j else j + 1];
      if k < |root| {
        assert root'[if k < i then k else k - 1] == root[k];
        assert k' == if k < i then k else k - 1;
      }
    case GiveUp =>
  }

  /** A round that gives up would give up forever, so leaving the loop loses nothing. */
  lemma {:induction false} GivingUpIsFinal(root: seq<Member>, rounds: nat)
    requires !Fits(root) ==> Round(root) == root
    ensures Shrunk(root, rounds) == root
    decreases rounds
  {
    if rounds > 0 && !Fits(root) {
      GivingUpIsFinal(root, rounds - 1);
    }
  }

  /** The string kept of a field: what fits before the suffix. */
  method CutField(value: string, target: int) returns (cut: string)
    ensures cut == CutValue(value, target)
  {
    if target > |FIELD_SUFFIX| {
      cut := ByteSlice(value, target);
      cut := cut + FIELD_SUFFIX;
    } else {
      cut := FIELD_SUFFIX;
    }
  }

  /** One pass of the loop body. */
  method ShrinkRound(root: seq<Member>, serialized: string) returns (next: seq<Member>, gaveUp: bool)
    requires serialized == Serialized(root) && !Fits(root)
    ensures next == Round(root) && (gaveUp ==> next == root)
  {
    var cur := Bytes(serialized);
    var largest := PickStringField(Strings(Obj(root), [], ""));
    var widest := WidestArray(Arrays(Obj(root), []));
    next, gaveUp := root, false;
    if Dominates(cur, largest) {
      var cut := CutField(largest.value.value, DominantTarget(cur, largest.value.Size()));
      next := Applied(root, Rewrite(largest.value.path, Str(cut)));
    } else if widest.Some? && |widest.value.items| > 1 {
      next := Applied(root, Rewrite(widest.value.path, Arr(Kept(widest.value.items, cur))));
    } else if largest.Some? {
      if largest.value.Size() <= |FIELD_SUFFIX| {
        return root, true;
      }
      var cut := CutField(largest.value.value, 0);
      next := Applied(root, Rewrite(largest.value.path, Str(cut)));
    } else {
      var biggest := LargestKeyBySize(root);
      if biggest.None? || root[biggest.value].key == "" {
        return root, true;
      }
      next := root[..biggest.value] + root[biggest.value + 1..];
    }
  }

  /** The rounds: until the text fits, the budget of rounds is used up, or one gives up. */
  method ShrinkToFit(start: seq<Member>) returns (root: seq<Member>)
    ensures root == Shrunk(start, MAX_ITERATIONS)
  {
    root := start;
    var serialized := Serialized(root);
    var i := 0;
    while i < MAX_ITERATIONS && Bytes(serialized) > MAX_RESPONSE_BYTES
      invariant i <= MAX_ITERATIONS && serialized == Serialized(root)
      invariant Shrunk(start, MAX_ITERATIONS) == Shrunk(root, MAX_ITERATIONS - i)
      decreases MAX_ITERATIONS - i
    {
      var next, gaveUp := ShrinkRound(root, serialized);
      if gaveUp {
        GivingUpIsFinal(root, MAX_ITERATIONS - i);
        return;
      }
      root := next;
      serialized := Serialized(root);
      i := i + 1;
    }
  }

  method SmartTruncateJson(data: Json, tool: string, original: nat) returns (text: string, fallback: bool,
      returned: nat)
    ensures fallback <==> returned > MAX_RESPONSE_BYTES
    ensures returned == Bytes(Serialized(Marked(FinalRoot(data, original, tool), original, returned, tool)))
    ensures !fallback ==> text == Serialized(Marked(FinalRoot(data, original, tool), original, returned, tool))
    ensures fallback ==> text == Print(Fallback(original, returned, tool), Tight)
  {
    var start := StartRoot(data, original, tool);
    FirstMarkFound(BaseMembers(data), Meta(original, 0, tool));
    MetaStays(start, MAX_ITERATIONS);
    var root := ShrinkToFit(start);
    var s, size := BackfillReturnedSize(root, original, tool);
    returned := size;
    if Bytes(s) > MAX_RESPONSE_BYTES {
      return Print(Fallback(original, returned, tool), Tight), true, returned;
    }
    return s, false, returned;
  }

  lemma FirstMarkFound(base: seq<Member>, meta: Json)
    ensures MetaOf(SetMember(base, SKIP_KEY, meta)) == Some(meta)
  {
    var root := SetMember(base, SKIP_KEY, meta);
    assert root[Find(base, SKIP_KEY)].key == SKIP_KEY;
    assert Find(root, SKIP_KEY) == Find(base, SKIP_KEY);
  }

  /**
   * What a structured response holds: the metadata with its true size, and otherwise only pruned
   * members of the input.
   */
  lemma StructuredResponseIsPruned(data: Json, tool: string, original: nat, returned: nat)
    requires UniqueKeys(BaseMembers(data))
    ensures GuardedRoot(BaseMembers(data), Marked(FinalRoot(data, original, tool), original, returned, tool),
                        Meta(original, returned, tool))
  {
    var base := BaseMembers(data);
    var meta := Meta(original, 0, tool);
    FirstMarkingGuards(base, meta);
    ShrunkIsGuarded(base, StartRoot(data, original, tool), meta, MAX_ITERATIONS);
    MarkingGuards(base, FinalRoot(data, original, tool), meta, Meta(original, returned, tool));
  }

  // ---- plain text ----

  function Marker(original: nat, returned: nat): string {
    "\n... [truncated original=" + Decimal(original) + " returned=" + Decimal(returned) + "]"
  }

  /** A cut text: a body, and behind it a marker that names two numbers. */
  ghost predicate CutText(out: string, body: string, original: nat, returned: nat) {
    exists a, b ::
      && Names(a, original) && Names(b, returned)
      && out == body + ("\n... [truncated original=" + a + " returned=" + b + "]")
  }

  lemma MarkerNames(body: string, original: nat, returned: nat)
    ensures CutText(body + Marker(original, returned), body, original, returned)
  {
    DecimalNames(original);
    DecimalNames(returned);
  }

  lemma MarkerBytes(original: nat, returned: nat)
    ensures Bytes(Marker(original, returned)) == 36 + Digits(original) + Digits(returned)
  {
    DecimalLength(original);
    DecimalLength(returned);
    FiveParts("\n... [truncated original=", Decimal(original), " returned=", Decimal(returned), "]");
  }

  lemma FiveParts(a: string, b: string, c: string, d: string, e: string)
    requires Ascii(a) && Ascii(c) && Ascii(e)
    ensures Bytes(a + b + c + d + e) == |a| + |c| + |e| + Bytes(b) + Bytes(d)
  {
    AsciiBytes(a);
    AsciiBytes(c);
    AsciiBytes(e);
    Bytes3(a, b, c);
    Bytes3(a + b + c, d, e);
  }

  /** What fits in front of a marker of the given length. */
  function BodyBefore(text: string, marker: nat): string {
    Sliced(text, Larger(0, MAX_RESPONSE_BYTES - marker))
  }

  function Body(text: string, original: nat, returned: nat): string {
    BodyBefore(text, Bytes(Marker(original, returned)))
  }

  /** The size a round computes from the number it wrote. */
  function NextSize(text: string, original: nat, returned: nat): nat {
    Bytes(Body(text, original, returned)) + Bytes(Marker(original, returned))
  }

  lemma FiveDigits(n: nat)
    requires MAX_RESPONSE_BYTES - 2 <= n <= MAX_RESPONSE_BYTES
    ensures Digits(n) == 5
  {
    assert Digits(n / 10) == 4 && Digits(n / 100) == 3 && Digits(n / 1000) == 2;
  }

  lemma FiveDigitMarker(original: nat, returned: nat)
    requires MAX_RESPONSE_BYTES - 2 <= returned <= MAX_RESPONSE_BYTES
    ensures Bytes(Marker(original, returned)) == 41 + Digits(original)
  {
    MarkerBytes(original, returned);
    FiveDigits(returned);
  }

  lemma BodyFillsTheBudget(text: string, marker: nat)
    requires Bytes(text) > MAX_RESPONSE_BYTES && marker < MAX_RESPONSE_BYTES
    ensures MAX_RESPONSE_BYTES - 2 <= Bytes(BodyBefore(text, marker)) + marker <= MAX_RESPONSE_BYTES
  {
    SlicedMeaning(text, MAX_RESPONSE_BYTES - marker);
  }

  /** Whatever five-digit number was written, the next one is the same, and within two bytes of the limit. */
  lemma NextSizeSettles(text: string, original: nat, returned: nat)
    requires original == Bytes(text) > MAX_RESPONSE_BYTES && Countable(original)
    requires MAX_RESPONSE_BYTES - 2 <= returned <= MAX_RESPONSE_BYTES
    ensures NextSize(text, original, returned) == NextSize(text, original, MAX_RESPONSE_BYTES)
    ensures MAX_RESPONSE_BYTES - 2 <= NextSize(text, original, returned) <= MAX_RESPONSE_BYTES
  {
    FiveDigitMarker(original, MAX_RESPONSE_BYTES);
    FiveDigitMarker(original, returned);
    BodyFillsTheBudget(text, 41 + Digits(original));
  }

  method CutAndMark(text: string, original: nat, returned: nat) returns (body: string, marker: string)
    ensures body == Body(text, original, returned) && marker == Marker(original, returned)
  {
    marker := Marker(original, returned);
    body := ByteSlice(text, Larger(0, MAX_RESPONSE_BYTES - Bytes(marker)));
  }

  /** The text cut to its budget, and a marker whose number is the size of the whole. */
  method TruncatePlainText(text: string, original: nat) returns (out: string, returned: nat)
    requires original == Bytes(text) > MAX_RESPONSE_BYTES
    ensures out == Body(text, original, returned) + Marker(original, returned)
    ensures CutText(out, Body(text, original, returned), Bytes(text), returned)
    ensures Countable(original) ==> returned == Bytes(out) && MAX_RESPONSE_BYTES - 2 <= returned <= MAX_RESPONSE_BYTES
  {
    returned := MAX_RESPONSE_BYTES;
    ghost var settled := NextSize(text, original, returned);
    if Countable(original) {
      NextSizeSettles(text, original, returned);
    }
    var i := 0;
    while i < 8
      invariant i <= 8
      invariant Countable(original) ==> returned == (if i == 0 then MAX_RESPONSE_BYTES else settled)
      decreases 8 - i
    {
      var body, marker := CutAndMark(text, original, returned);
      var next := Bytes(body) + Bytes(marker);
      assert next == NextSize(text, original, returned);
      if Countable(original) {
        NextSizeSettles(text, original, returned);
      }
      if next == returned {
        break;
      }
      returned := next;
      i := i + 1;
    }
    var body, marker := CutAndMark(text, original, returned);
    out := body + marker;
    MarkerNames(body, original, returned);
    BytesConcat(body, marker);
    if Countable(original) {
      NextSizeSettles(text, original, returned);
    }
  }

  // ---- the fallback ----

  lemma MembersSizeCons(m: Member, rest: seq<Member>)
    ensures MembersSize([m] + rest, Tight) == 4 + EscapedBytes(m.key) + Size(m.value, Tight) + MembersSize(rest, Tight)
  {
    assert ([m] + rest)[1..] == rest;
  }

  lemma TwoMembersSize(a: Member, b: Member)
    ensures Size(Obj([a, b]), Tight)
         == 9 + EscapedBytes(a.key) + Size(a.value, Tight) + EscapedBytes(b.key) + Size(b.value, Tight)
  {
    MembersSizeCons(b, []);
    MembersSizeCons(a, [b]);
    assert [a] + [b] == [a, b] && [b] + [] == [b];
  }

  lemma ThreeMembersSize(a: Member, b: Member, c: Member)
    ensures Size(Obj([a, b, c]), Tight)
         == 13 + EscapedBytes(a.key) + Size(a.value, Tight) + EscapedBytes(b.key) + Size(b.value, Tight)
            + EscapedBytes(c.key) + Size(c.value, Tight)
  {
    MembersSizeCons(c, []);
    MembersSizeCons(b, [c]);
    MembersSizeCons(a, [b, c]);
    assert [a] + [b, c] == [a, b, c] && [b] + [c] == [b, c] && [c] + [] == [c];
  }

  lemma EscapesAtMostSix(s: string)
    ensures EscapedBytes(s) <= 6 * |s|
  {
  }

  lemma KeySizes()
    ensures EscapedBytes(ORIGINAL_SIZE) + EscapedBytes(RETURNED_SIZE) + EscapedBytes(TOOL)
          + EscapedBytes(SKIP_KEY) + EscapedBytes(ERROR) + EscapedBytes(TOO_LARGE) <= 600
  {
    EscapesAtMostSix(ORIGINAL_SIZE);
    EscapesAtMostSix(RETURNED_SIZE);
    EscapesAtMostSix(TOOL);
    EscapesAtMostSix(SKIP_KEY);
    EscapesAtMostSix(ERROR);
    EscapesAtMostSix(TOO_LARGE);
  }

  lemma ReportSize(fb: Json, outer: Member, k: string, a: Member, b: Member, c: Member)
    requires fb == Obj([outer, Member(k, Obj([a, b, c]))])
    ensures Size(fb, Tight) == 22 + EscapedBytes(outer.key) + Size(outer.value, Tight) + EscapedBytes(k)
                               + EscapedBytes(a.key) + Size(a.value, Tight) + EscapedBytes(b.key) + Size(b.value, Tight)
                               + EscapedBytes(c.key) + Size(c.value, Tight)
  {
    ThreeMembersSize(a, b, c);
    TwoMembersSize(outer, Member(k, Obj([a, b, c])));
  }

  /** The fallback is small unless the tool's name is long. */
  lemma FallbackSize(original: nat, returned: nat, tool: string)
    requires Countable(original) && Countable(returned)
    ensures Bytes(Print(Fallback(original, returned, tool), Tight)) <= 700 + EscapedBytes(tool)
  {
    var fb := Fallback(original, returned, tool);
    DecimalLength(original);
    DecimalLength(returned);
    ReportSize(fb, Member(ERROR, Str(TOO_LARGE)), SKIP_KEY, Member(ORIGINAL_SIZE, Num(Decimal(original))),
               Member(RETURNED_SIZE, Num(Decimal(returned))), Member(TOOL, Str(tool)));
    PrintedSize(fb, Tight);
    KeySizes();
  }

  // ---- the whole guard ----

  /** Everything the guard counts stays within exact numbers, and the tool's name is short. */
  predicate Bounded(text: string, parsed: Option<Json>, tool: string) {
    && Countable(Bytes(text))
    && (parsed.Some? ==> Countable(Bytes(Serialized(StartRoot(parsed.value, Bytes(text), tool))) + 16))
    && EscapedBytes(tool) <= 40_000
  }

  /**
   * applyGuard on the text of a response, with `parse` standing for JSON.parse:
   * small texts pass through, JSON stays JSON with only pruned contents and its
   * true size, anything else is cut with a marker carrying its true size.
   */
  method ApplyGuard(text: string, tool: string, parse: string -> Option<Json>) returns (out: string)
    ensures Bytes(text) <= MAX_RESPONSE_BYTES ==> out == text
    ensures Bounded(text, parse(text), tool) ==> Bytes(out) <= MAX_RESPONSE_BYTES
    ensures Bytes(text) > MAX_RESPONSE_BYTES && parse(text).Some? ==>
              StructuredResponse(text, parse(text).value, tool, out)
                  || FallbackResponse(text, parse(text).value, tool, out)
    ensures Bytes(text) > MAX_RESPONSE_BYTES && parse(text).None? ==>
              exists returned: nat ::
                && CutText(out, Body(text, Bytes(text), returned), Bytes(text), returned)
                && (Countable(Bytes(text)) ==> returned == Bytes(out))
  {
    var original := Bytes(text);
    if original <= MAX_RESPONSE_BYTES {
      return text;
    }
    var parsed := parse(text);
    if parsed.Some? {
      var t, fallback, returned := SmartTruncateJson(parsed.value, tool, original);
      if fallback && Bounded(text, parsed, tool) {
        FallbackIsSmall(text, parsed.value, tool, returned);
      }
      return t;
    }
    var t, returned := TruncatePlainText(text, original);
    return t;
  }

  /** The response is the printed final tree, its size embedded in it. */
  ghost predicate StructuredResponse(text: string, data: Json, tool: string, out: string) {
    && out == Serialized(Marked(FinalRoot(data, Bytes(text), tool), Bytes(text), Bytes(out), tool))
    && Bytes(out) <= MAX_RESPONSE_BYTES
  }

  /** No round brought the response under the limit; the size embedded is the rejected one. */
  ghost predicate FallbackResponse(text: string, data: Json, tool: string, out: string) {
    exists rejected: nat ::
      && rejected > MAX_RESPONSE_BYTES
      && rejected == Bytes(Serialized(Marked(FinalRoot(data, Bytes(text), tool), Bytes(text), rejected, tool)))
      && out == Print(Fallback(Bytes(text), rejected, tool), Tight)
  }

  lemma FallbackIsSmall(text: string, data: Json, tool: string, rejected: nat)
    requires Bounded(text, Some(data), tool)
    requires rejected == Bytes(Serialized(Marked(FinalRoot(data, Bytes(text), tool), Bytes(text), rejected, tool)))
    ensures Bytes(Print(Fallback(Bytes(text), rejected, tool), Tight)) <= MAX_RESPONSE_BYTES
  {
    RejectedSizeIsCountable(data, Bytes(text), rejected, tool);
    FallbackFits(Bytes(text), rejected, tool);
  }

  lemma RejectedSizeIsCountable(data: Json, original: nat, rejected: nat, tool: string)
    requires Countable(Bytes(Serialized(StartRoot(data, original, tool))) + 16)
    requires rejected == Bytes(Serialized(Marked(FinalRoot(data, original, tool), original, rejected, tool)))
    ensures Countable(rejected)
  {
    var start := StartRoot(data, original, tool);
    assert MetaOf(start) == Some(Meta(original, 0, tool)) by {
      FirstMarkFound(BaseMembers(data), Meta(original, 0, tool));
    }
    WrittenSizeIsCountable(start, MAX_ITERATIONS, FinalRoot(data, original, tool), original, rejected, tool);
  }

  lemma FallbackFits(original: nat, rejected: nat, tool: string)
    requires Countable(original) && Countable(rejected) && EscapedBytes(tool) <= 40_000
    ensures Bytes(Print(Fallback(original, rejected, tool), Tight)) <= MAX_RESPONSE_BYTES
  {
    FallbackSize(original, rejected, tool);
  }

  /**
   * The code corrects returned_size only after it has printed the fallback: the
   * number inside is the size of the text that was rejected, never its own.
   */
  lemma FallbackOverstatesItsSize(text: string, data: Json, tool: string, out: string)
    requires Bounded(text, Some(data), tool) && FallbackResponse(text, data, tool, out)
    ensures exists written: nat :: written > Bytes(out) && out == Print(Fallback(Bytes(text), written, tool), Tight)
  {
    var rejected: nat :|
      && rejected > MAX_RESPONSE_BYTES
      && rejected == Bytes(Serialized(Marked(FinalRoot(data, Bytes(text), tool), Bytes(text), rejected, tool)))
      && out == Print(Fallback(Bytes(text), rejected, tool), Tight);
    FallbackIsSmall(text, data, tool, rejected);
  }

  lemma {:induction false} RoundsNeverGrow(root: seq<Member>, rounds: nat)
    requires Find(root, SKIP_KEY) < |root|
    ensures Bytes(Serialized(Shrunk(root, rounds))) <= Bytes(Serialized(root))
    decreases rounds
  {
    if rounds > 0 && !Fits(root) {
      RoundKeepsMeta(root);
      RoundNeverGrows(root);
      RoundsNeverGrow(Round(root), rounds - 1);
    }
  }

  lemma RoundNeverGrows(root: seq<Member>)
    requires Find(root, SKIP_KEY) < |root| && !Fits(root)
    ensures Bytes(Serialized(Round(root))) <= Bytes(Serialized(root))
  {
    RoundsShrink(root, Find(root, SKIP_KEY));
  }

  /** The size written after the rounds is only a few bytes longer than the start. */
  lemma WrittenSizeIsCountable(start: seq<Member>, rounds: nat, final: seq<Member>, original: nat, returned: nat,
      tool: string)
    requires MetaOf(start) == Some(Meta(original, 0, tool)) && final == Shrunk(start, rounds)
    requires returned == Bytes(Serialized(Marked(final, original, returned, tool)))
    requires Countable(Bytes(Serialized(start)) + 16)
    ensures Countable(returned)
  {
    MetaStays(start, rounds);
    RoundsNeverGrow(start, rounds);
    SizeAroundTheNumber(final, Bytes(Serialized(start)), original, returned, tool);
  }

  lemma SizeAroundTheNumber(final: seq<Member>, n: nat, original: nat, returned: nat, tool: string)
    requires MetaOf(final) == Some(Meta(original, 0, tool)) && Bytes(Serialized(final)) <= n && Countable(n + 16)
    requires returned == Bytes(Serialized(Marked(final, original, returned, tool)))
    ensures Countable(returned)
  {
    var rest := MarkedSize(final, original, returned, tool);
    assert Marked(final, original, 0, tool) == final;
    SelfCountingSizeIsSmall(n, returned, 16);
  }

  lemma {:induction false} OneMoreDigit(n: nat)
    ensures Digits(n + 1) <= Digits(n) + 1
  {
    if n >= 10 {
      OneMoreDigit(n / 10);
      assert (n + 1) / 10 == n / 10 || (n + 1) / 10 == n / 10 + 1;
    }
  }

  lemma {:induction false} DigitsGrowSlowly(n: nat, d: nat)
    ensures Digits(n + d) <= Digits(n) + d
    decreases d
  {
    if d > 0 {
      DigitsGrowSlowly(n, d - 1);
      OneMoreDigit(n + d - 1);
    }
  }

  lemma {:induction false} Pow10Monotone(a: nat, b: nat)
    requires a <= b
    ensures Pow10(a) <= Pow10(b)
    decreases b
  {
    if a < b {
      Pow10Monotone(a, b - 1);
    }
  }

  /** A size that counts its own digits needs no more digits than the rest leaves room for. */
  lemma SelfCountingSizeIsSmall(n: nat, returned: nat, k: nat)
    requires k >= 1 && returned + 1 <= n + Digits(returned) && Digits(n + k) <= k
    ensures Digits(returned) <= k
  {
    var p := Pow10(k);
    if returned >= p {
      assert p < Pow10(k + 1);
      BelowDigits(p, k + 1);
      DigitsGrowSlowly(p, returned - p);
      assert n + k >= p;
      DigitsBelow(n + k);
      Pow10Monotone(Digits(n + k), k);
    } else {
      BelowDigits(returned, k);
    }
  }
}
