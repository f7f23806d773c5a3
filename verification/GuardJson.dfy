/** What the guard sends out is valid JSON: it parses back to a pruning of the response it was given. */
module GuardJson {
  import opened Option
  import opened Utf8
  import opened Json
  import opened JsonReader
  import opened GuardFields
  import opened GuardTree
  import opened Guard
  import opened GuardResponse

  lemma {:induction false} DigitsReadOn(n: nat)
    ensures DigitRun(Decimal(n)) == NumberRun(Decimal(n)) == |Decimal(n)|
    ensures Decimal(n)[0] == '0' ==> n == 0
  {
    if n >= 10 {
      DigitsReadOn(n / 10);
      RunsGrow(Decimal(n / 10), Digit(n % 10));
    }
  }

  lemma {:induction false} RunsGrow(s: string, c: char)
    requires DigitRun(s) == NumberRun(s) == |s| && IsDigit(c)
    ensures DigitRun(s + [c]) == NumberRun(s + [c]) == |s| + 1
  {
    if s != "" {
      RunsGrow(s[1..], c);
      assert (s + [c])[1..] == s[1..] + [c];
    }
  }

  lemma DecimalIsPrintable(n: nat)
    ensures Printable(Num(Decimal(n)))
  {
    DigitsReadOn(n);
    var s := Decimal(n);
    assert IsDigit(s[0]);
    assert s[|s|..] == "";
  }

  lemma KeysDiffer()
    ensures ORIGINAL_SIZE != RETURNED_SIZE && ORIGINAL_SIZE != TOOL && RETURNED_SIZE != TOOL && ERROR != SKIP_KEY
  {
    assert |ORIGINAL_SIZE| == |RETURNED_SIZE| && ORIGINAL_SIZE[0] != RETURNED_SIZE[0];
    assert |TOOL| < |ORIGINAL_SIZE| && |ERROR| < |SKIP_KEY|;
  }

  lemma MetaIsPrintable(original: nat, returned: nat, tool: string)
    ensures Printable(Meta(original, returned, tool))
  {
    DecimalIsPrintable(original);
    DecimalIsPrintable(returned);
    KeysDiffer();
  }

  lemma {:induction false} PrunedIsPrintable(o: Json, v: Json)
    requires Printable(o) && Pruned(o, v)
    ensures Printable(v)
    decreases v
  {
    match v
    case Arr(items) =>
      forall i | 0 <= i < |items|
        ensures Printable(items[i])
      {
        PrunedIsPrintable(o.items[i], items[i]);
      }
    case Obj(members) =>
      forall i | 0 <= i < |members|
        ensures Printable(members[i].value)
      {
        PrunedIsPrintable(o.members[i].value, members[i].value);
      }
    case _ =>
  }

  lemma GuardedIsPrintable(base: seq<Member>, root: seq<Member>, meta: Json)
    requires GuardedRoot(base, root, meta) && Printable(Obj(base)) && Printable(meta)
    ensures Printable(Obj(root))
  {
    forall i | 0 <= i < |root|
      ensures Printable(root[i].value)
    {
      if root[i].key == SKIP_KEY {
        var k :| 0 <= k < |root| && root[k] == Member(SKIP_KEY, meta);
        assert k == i;
      } else {
        var b :| b in base && b.key == root[i].key && Pruned(b.value, root[i].value);
        PrunedIsPrintable(b.value, root[i].value);
      }
    }
  }

  lemma BaseIsPrintable(data: Json)
    requires Printable(data)
    ensures Printable(Obj(BaseMembers(data))) && UniqueKeys(BaseMembers(data))
  {
  }

  /**
   * From text to text: a structured response to a text that parses itself parses, to an object that
   * holds the metadata with the response's own length and otherwise only prunings of what was there.
   */
  lemma StructuredResponseParses(text: string, data: Json, tool: string, out: string) returns (root: seq<Member>)
    requires Parse(text) == Some(data) && StructuredResponse(text, data, tool, out)
    ensures Parse(out) == Some(Obj(root))
    ensures GuardedRoot(BaseMembers(data), root, Meta(Bytes(text), Bytes(out), tool))
    ensures Reported(Obj(root), "original_size") == Some(Bytes(text))
    ensures Reported(Obj(root), "returned_size") == Some(Bytes(out)) && ReportedTool(Obj(root)) == Some(tool)
  {
    ParsedIsPrintable(text, Tight);
    BaseIsPrintable(data);
    root := Marked(FinalRoot(data, Bytes(text), tool), Bytes(text), Bytes(out), tool);
    StructuredResponseIsPruned(data, tool, Bytes(text), Bytes(out));
    MarkedReports(FinalRoot(data, Bytes(text), tool), Bytes(text), Bytes(out), tool);
    MetaIsPrintable(Bytes(text), Bytes(out), tool);
    GuardedIsPrintable(BaseMembers(data), root, Meta(Bytes(text), Bytes(out), tool));
    PrintedTextParses(Obj(root), Pretty(0));
  }

  lemma FallbackResponseParses(text: string, data: Json, tool: string, out: string) returns (rejected: nat)
    requires FallbackResponse(text, data, tool, out)
    ensures rejected > MAX_RESPONSE_BYTES && Parse(out) == Some(Fallback(Bytes(text), rejected, tool))
    ensures Reported(Parse(out).value, "original_size") == Some(Bytes(text))
    ensures Reported(Parse(out).value, "returned_size") == Some(rejected)
    ensures ReportedTool(Parse(out).value) == Some(tool)
  {
    rejected :|
      && rejected > MAX_RESPONSE_BYTES
      && rejected == Bytes(Serialized(Marked(FinalRoot(data, Bytes(text), tool), Bytes(text), rejected, tool)))
      && out == Print(Fallback(Bytes(text), rejected, tool), Tight);
    FallbackIsPrintable(Bytes(text), rejected, tool);
    PrintedTextParses(Fallback(Bytes(text), rejected, tool), Tight);
    FallbackReports(Bytes(text), rejected, tool);
  }

  lemma FallbackReports(original: nat, returned: nat, tool: string)
    ensures Reported(Fallback(original, returned, tool), "original_size") == Some(original)
    ensures Reported(Fallback(original, returned, tool), "returned_size") == Some(returned)
    ensures ReportedTool(Fallback(original, returned, tool)) == Some(tool)
  {
    KeysDiffer();
    var members := Fallback(original, returned, tool).members;
    assert Find(members, "truncated") == 1;
    MetaReports(members, 1, original, returned, tool);
  }

  lemma FallbackIsPrintable(original: nat, returned: nat, tool: string)
    ensures Printable(Fallback(original, returned, tool))
  {
    MetaIsPrintable(original, returned, tool);
    KeysDiffer();
  }

  /** The guard over the reader itself: whatever JSON text goes in, JSON text comes out. */
  method GuardJsonText(text: string, tool: string) returns (out: string)
    ensures Bytes(text) <= MAX_RESPONSE_BYTES ==> out == text
    ensures Parse(text).Some? ==> Parse(out).Some?
  {
    out := ApplyGuard(text, tool, Parse);
    if Bytes(text) > MAX_RESPONSE_BYTES && Parse(text).Some? {
      var data := Parse(text).value;
      if StructuredResponse(text, data, tool, out) {
        ghost var root := StructuredResponseParses(text, data, tool, out);
      } else {
        ghost var rejected := FallbackResponseParses(text, data, tool, out);
      }
    }
  }
}
