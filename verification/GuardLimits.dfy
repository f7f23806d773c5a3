/** When the guard of guard.ts succeeds: exactly when it falls back, and when one cut is enough. */
module GuardLimits {
  import opened Option
  import opened Utf8
  import opened Json
  import opened JsonReader
  import opened GuardFields
  import opened GuardTree
  import opened Guard
  import opened GuardResponse

  // ---- exactly when it falls back ----

  lemma {:induction false} DigitsAreFew(n: nat)
    ensures Digits(n) <= 1 + n / 10
  {
    if n >= 10 {
      DigitsAreFew(n / 10);
    }
  }

  lemma FiveDigitNumbers(n: nat)
    requires 10_000 <= n < 100_000
    ensures Digits(n) == 5
  {
    assert Digits(n / 10) == 4 && Digits(n / 100) == 3 && Digits(n / 1000) == 2;
  }

  /** A size that counts its own digits passes the limit exactly when five digits do not fit behind the rest. */
  lemma SelfCountingSizeOverLimit(rest: nat, returned: nat)
    requires returned == rest + Digits(returned)
    ensures returned > MAX_RESPONSE_BYTES <==> rest + 5 > MAX_RESPONSE_BYTES
  {
    DigitsAreFew(returned);
    if 10_000 <= returned < 100_000 {
      FiveDigitNumbers(returned);
    }
  }

  lemma OverLimitExactly(final: seq<Member>, original: nat, returned: nat, tool: string)
    requires MetaOf(final) == Some(Meta(original, 0, tool))
    requires returned == Bytes(Serialized(Marked(final, original, returned, tool)))
    ensures returned > MAX_RESPONSE_BYTES <==> Bytes(Serialized(final)) > MAX_RESPONSE_BYTES - 4
  {
    var rest := MarkedSize(final, original, returned, tool);
    assert Marked(final, original, 0, tool) == final;
    SelfCountingSizeOverLimit(rest, returned);
  }

  lemma FinalMeta(data: Json, original: nat, tool: string)
    ensures MetaOf(StartRoot(data, original, tool)) == Some(Meta(original, 0, tool))
    ensures MetaOf(FinalRoot(data, original, tool)) == Some(Meta(original, 0, tool))
  {
    FirstMarkFound(BaseMembers(data), Meta(original, 0, tool));
    MetaStays(StartRoot(data, original, tool), MAX_ITERATIONS);
  }

  /**
   * The response falls back exactly when the rounds end less than four bytes below the
   * limit: the digit already printed for returned_size grows to five.
   */
  lemma FallbackExactly(data: Json, original: nat, returned: nat, tool: string)
    requires returned == Bytes(Serialized(Marked(FinalRoot(data, original, tool), original, returned, tool)))
    ensures returned > MAX_RESPONSE_BYTES <==>
              Bytes(Serialized(FinalRoot(data, original, tool))) > MAX_RESPONSE_BYTES - 4
  {
    FinalMeta(data, original, tool);
    OverLimitExactly(FinalRoot(data, original, tool), original, returned, tool);
  }

  /** For a response that fits from the start, exactly when it leaves less than four bytes below the limit. */
  lemma FittingFallsBackExactly(data: Json, original: nat, returned: nat, tool: string)
    requires Fits(StartRoot(data, original, tool))
    requires returned == Bytes(Serialized(Marked(FinalRoot(data, original, tool), original, returned, tool)))
    ensures returned > MAX_RESPONSE_BYTES <==>
              Bytes(Serialized(StartRoot(data, original, tool))) > MAX_RESPONSE_BYTES - 4
  {
    FallbackExactly(data, original, returned, tool);
    assert FinalRoot(data, original, tool) == StartRoot(data, original, tool);
  }

  // ---- one cut is enough ----

  lemma PrefixSaves(s: string, j: nat, r: string, suffix: string)
    requires j <= |s| && EscapedBytes(r) == 3 && EscapedBytes(suffix) == 14
    ensures EscapedBytes(s[..j] + suffix) + Bytes(s) <= EscapedBytes(s) + Bytes(s[..j]) + 14
    ensures EscapedBytes(s[..j] + r + suffix) + Bytes(s) <= EscapedBytes(s) + Bytes(s[..j]) + 17
  {
    BytesSplit(s, j);
    EscapedConcat(s[..j], s[j..]);
    assert s[..j] + s[j..] == s;
    EscapedSize(s[j..]);
    EscapedConcat(s[..j], suffix);
    EscapedConcat(s[..j], r);
    EscapedConcat(s[..j] + r, suffix);
  }

  /** A cut saves, in print, every byte it takes off the string, less the suffix. */
  lemma CutSaves(s: string, target: int, r: string, suffix: string)
    requires 14 < target < Bytes(s) && r == [REPLACEMENT] && Bytes(r) == EscapedBytes(r) == 3
    requires suffix == FIELD_SUFFIX && EscapedBytes(suffix) == 14
    ensures EscapedBytes(Sliced(s, target) + suffix) + Bytes(s) <= EscapedBytes(s) + target + 14
  {
    SlicedMeaning(s, target);
    var j: nat :| j < |s| && Bytes(s[..j]) <= target && (Sliced(s, target) == s[..j]
        || Sliced(s, target) == s[..j] + r);
    BytesConcat(s[..j], r);
    PrefixSaves(s, j, r, suffix);
  }

  lemma CutValueSaves(s: string, target: int)
    requires |FIELD_SUFFIX| < target < Bytes(s)
    ensures EscapedBytes(CutValue(s, target)) + Bytes(s) <= EscapedBytes(s) + target + 14
  {
    SuffixBytes(FIELD_SUFFIX);
    ReplacementBytes([REPLACEMENT]);
    CutSaves(s, target, [REPLACEMENT], FIELD_SUFFIX);
  }

  /** One string is long enough to take the whole excess and still keep something. */
  predicate OneStringCoversTheExcess(root: seq<Member>) {
    var largest := PickStringField(Strings(Obj(root), [], ""));
    largest.Some? && largest.value.Size() > Bytes(Serialized(root)) - MAX_RESPONSE_BYTES + SLACK_BYTES + |FIELD_SUFFIX|
  }

  lemma CutNodeSize(root: seq<Member>, path: Path, s: string, cut: string)
    requires OpenNode(root, path, Str(s))
    ensures Bytes(Serialized(Applied(root, Rewrite(path, Str(cut))))) + EscapedBytes(s)
         == Bytes(Serialized(root)) + EscapedBytes(cut)
  {
    SetAtSize(Obj(root), path, Str(cut), 0);
    SerializedSize(root);
    SerializedSize(Applied(root, Rewrite(path, Str(cut))));
  }

  lemma CutFieldFits(root: seq<Member>, path: Path, s: string, cur: nat)
    requires OpenNode(root, path, Str(s)) && cur == Bytes(Serialized(root)) > MAX_RESPONSE_BYTES
    requires Bytes(s) > cur - MAX_RESPONSE_BYTES + SLACK_BYTES + |FIELD_SUFFIX|
    ensures var cut := CutValue(s, DominantTarget(cur, Bytes(s)));
            Bytes(Serialized(Applied(root, Rewrite(path, Str(cut))))) + 50 <= MAX_RESPONSE_BYTES
  {
    var target := DominantTarget(cur, Bytes(s));
    CutValueSaves(s, target);
    CutNodeSize(root, path, s, CutValue(s, target));
  }

  lemma CoveringStringDominates(root: seq<Member>, cur: nat, widest: Option<ArrayField>)
    requires cur == Bytes(Serialized(root)) > MAX_RESPONSE_BYTES && OneStringCoversTheExcess(root)
    ensures var largest := PickStringField(Strings(Obj(root), [], ""));
            Choose(root, cur, largest, widest)
              == Rewrite(largest.value.path, Str(CutValue(largest.value.value, DominantTarget(cur,
                  largest.value.Size()))))
  {
  }

  /** Then one round brings the text under the limit, with 50 bytes to spare for the size to be filled in. */
  lemma OneRoundFits(root: seq<Member>)
    requires !Fits(root) && OneStringCoversTheExcess(root)
    ensures Bytes(Serialized(Round(root))) + 50 <= MAX_RESPONSE_BYTES
  {
    var cur := Bytes(Serialized(root));
    var largest := PickStringField(Strings(Obj(root), [], ""));
    LargestIsOpen(root);
    CoveringStringDominates(root, cur, WidestArray(Arrays(Obj(root), [])));
    CutFieldFits(root, largest.value.path, largest.value.value, cur);
  }

  lemma OneRoundEnds(root: seq<Member>, rounds: nat)
    requires rounds >= 2 && !Fits(root) && Fits(Round(root))
    ensures Shrunk(root, rounds) == Round(root)
  {
    assert Shrunk(Round(root), rounds - 1) == Round(root);
  }

  /** So a response with one such string is cut once and never falls back. */
  lemma OneCutIsEnough(data: Json, original: nat, returned: nat, tool: string)
    requires var start := StartRoot(data, original, tool); !Fits(start) && OneStringCoversTheExcess(start)
    requires returned == Bytes(Serialized(Marked(FinalRoot(data, original, tool), original, returned, tool)))
    ensures FinalRoot(data, original, tool) == Round(StartRoot(data, original, tool)) && returned <= MAX_RESPONSE_BYTES
  {
    OneRoundFits(StartRoot(data, original, tool));
    OneRoundEnds(StartRoot(data, original, tool), MAX_ITERATIONS);
    FallbackExactly(data, original, returned, tool);
  }

  // ---- a response that fits and still falls back ----

  function Filler(n: nat): (s: string)
    ensures Plain(s) && |s| == n
  {
    seq(n, i => 'x')
  }

  function FilledResponse(n: nat): Json {
    Obj([Member("a", Str(Filler(n)))])
  }

  lemma FilledSize(n: nat, original: nat, tool: string)
    ensures Bytes(Serialized(StartRoot(FilledResponse(n), original, tool)))
         == Bytes(Serialized(StartRoot(FilledResponse(0), original, tool))) + n
  {
    var empty, filled := StartRoot(FilledResponse(0), original, tool), StartRoot(FilledResponse(n), original, tool);
    assert Child(Obj(empty), 0) == Str(Filler(0)) && [0][1..] == [];
    assert SetAt(Obj(empty), [0], Str(Filler(n))) == Obj(filled);
    SetAtSize(Obj(empty), [0], Str(Filler(n)), 0);
    SerializedSize(empty);
    SerializedSize(filled);
    PlainBytes(Filler(n));
    PlainBytes(Filler(0));
  }

  lemma StartIsNotShort(original: nat, tool: string)
    ensures Bytes(Serialized(StartRoot(FilledResponse(0), original, tool))) >= 9
  {
    SerializedSize(StartRoot(FilledResponse(0), original, tool));
  }

  function Blank(n: nat): (s: string)
    ensures Spaces(s) && Ascii(s) && |s| == n
  {
    seq(n, i => ' ')
  }

  /** The response as compact JSON, with blanks behind it up to the given number of bytes. */
  function PaddedText(n: nat, total: nat): string
    requires n + 8 <= total
  {
    Print(FilledResponse(n), Tight) + Blank(total - n - 8)
  }

  lemma CompactSize(n: nat)
    ensures Size(FilledResponse(n), Tight) == n + 8
  {
    var m := Member("a", Str(Filler(n)));
    assert EscapedBytes("a") == 1;
    PlainBytes(Filler(n));
    MembersSizeCons(m, []);
    assert [m] + [] == [m];
  }

  lemma PadsToSize(v: Json, space: string, total: nat)
    requires Spaces(space) && Ascii(space) && Printable(v) && Size(v, Tight) + |space| == total
    ensures Bytes(Print(v, Tight) + space) == total && Parse(Print(v, Tight) + space) == Some(v)
  {
    PrintedSize(v, Tight);
    AsciiBytes(space);
    BytesConcat(Print(v, Tight), space);
    ParsesBeforeSpace(v, Tight, space);
  }

  lemma PaddedTextMeans(n: nat, total: nat)
    requires n + 8 <= total
    ensures Bytes(PaddedText(n, total)) == total && Parse(PaddedText(n, total)) == Some(FilledResponse(n))
  {
    CompactSize(n);
    PadsToSize(FilledResponse(n), Blank(total - n - 8), total);
  }

  lemma SomeSizeIsReturned(data: Json, original: nat, tool: string) returns (returned: nat)
    ensures returned == Bytes(Serialized(Marked(FinalRoot(data, original, tool), original, returned, tool)))
  {
    FinalMeta(data, original, tool);
    var rest := MarkedSize(FinalRoot(data, original, tool), original, 0, tool);
    returned := Written(rest, 3);
    ThreeRoundsSuffice(rest);
    var again := MarkedSize(FinalRoot(data, original, tool), original, returned, tool);
  }

  /**
   * For every size over the limit there is a JSON text of that size whose response has exactly
   * the limit: the rounds leave it as it is, and still it falls back, since no slack is kept.
   */
  lemma AFittingResponseCanFallBack(original: nat, tool: string) returns (text: string, n: nat)
    requires original > MAX_RESPONSE_BYTES && Fits(StartRoot(FilledResponse(0), original, tool))
    ensures Bytes(text) == original && Parse(text) == Some(FilledResponse(n))
    ensures Fits(StartRoot(FilledResponse(n), Bytes(text), tool))
    ensures exists out :: FallbackResponse(text, FilledResponse(n), tool, out)
    ensures forall out :: !StructuredResponse(text, FilledResponse(n), tool, out)
  {
    StartIsNotShort(original, tool);
    n := MAX_RESPONSE_BYTES - Bytes(Serialized(StartRoot(FilledResponse(0), original, tool)));
    text := PaddedText(n, original);
    PaddedTextMeans(n, original);
    FilledSize(n, original, tool);
    var data := FilledResponse(n);
    var rejected := SomeSizeIsReturned(data, original, tool);
    FittingFallsBackExactly(data, original, rejected, tool);
    assert FallbackResponse(text, data, tool, Print(Fallback(original, rejected, tool), Tight));
    forall out | StructuredResponse(text, data, tool, out)
      ensures false
    {
      FittingFallsBackExactly(data, original, Bytes(out), tool);
    }
  }
}
