/** What one round of the guard does to a response, case by case, and when it gives up (guard.ts:95-123). */
module GuardRounds {
  import opened Option
  import opened Utf8
  import opened Json
  import opened GuardFields
  import opened GuardTree
  import opened Guard
  import opened GuardResponse

  /** The string and the array a round looks at. */
  function Largest(root: seq<Member>): Option<StringField> {
    PickStringField(Strings(Obj(root), [], ""))
  }

  function Widest(root: seq<Member>): Option<ArrayField> {
    WidestArray(Arrays(Obj(root), []))
  }

  function Excess(root: seq<Member>): int {
    Bytes(Serialized(root)) - 50_000
  }

  /** A string of some size that could take the whole excess four times over comes first. */
  predicate StringFirst(root: seq<Member>) {
    Largest(root).Some? && Bytes(Largest(root).value.value) >= 64
        && Excess(root) <= 4 * Bytes(Largest(root).value.value)
  }

  /** Otherwise an array that can still lose an item. */
  predicate ArrayNext(root: seq<Member>) {
    !StringFirst(root) && Widest(root).Some? && |Widest(root).value.items| > 1
  }

  /** Only the node at this path is new; every node beside it is what it was. */
  ghost predicate OnlyAt(root: seq<Member>, root': seq<Member>, path: Path, node: Json) {
    && Reaches(Obj(root'), path) && At(Obj(root'), path) == node
    && forall other: Path :: !(path <= other) && !(other <= path) ==>
         (Reaches(Obj(root), other) <==> Reaches(Obj(root'), other))
         && (Reaches(Obj(root), other) ==> At(Obj(root'), other) == At(Obj(root), other))
  }

  lemma RewritingIsLocal(root: seq<Member>, path: Path, node: Json)
    requires path != [] && Reaches(Obj(root), path)
    ensures OnlyAt(root, Applied(root, Rewrite(path, node)), path, node)
  {
    SetAtReaches(Obj(root), path, node);
    forall other: Path | !(path <= other) && !(other <= path)
      ensures Reaches(Obj(root), other) <==> Reaches(SetAt(Obj(root), path, node), other)
      ensures Reaches(Obj(root), other) ==> At(SetAt(Obj(root), path, node), other) == At(Obj(root), other)
    {
      SetAtChangesOneNode(Obj(root), path, node, other);
    }
  }

  lemma RewrittenRound(root: seq<Member>, path: Path, old_node: Json, node: Json)
    requires !Fits(root) && Decide(root, Bytes(Serialized(root))) == Rewrite(path, node)
    requires OpenNode(root, path, old_node)
    ensures OnlyAt(root, Round(root), path, node)
  {
    RewritingIsLocal(root, path, node);
  }

  /** What is left of a string cut to a byte budget: the suffix alone, or all but at most two bytes of the budget. */
  ghost predicate KeptBytes(o: string, s: string, budget: int) {
    if budget <= 14 then s == "...[truncated]"
    else Cut(o, s) && budget + 12 <= Bytes(s) <= budget + 14
  }

  lemma CutKeeps(o: string, budget: int)
    requires budget < Bytes(o)
    ensures KeptBytes(o, CutValue(o, budget), budget)
  {
    SuffixBytes(FIELD_SUFFIX);
    if budget > |FIELD_SUFFIX| {
      SlicedMeaning(o, budget);
      var j: nat :| j < |o| && Bytes(o[..j]) <= budget
                    && (Sliced(o, budget) == o[..j] || Sliced(o, budget) == o[..j] + [REPLACEMENT]);
      assert CutAt(o, CutValue(o, budget), j);
      BytesConcat(Sliced(o, budget), FIELD_SUFFIX);
    }
  }

  lemma StringFirstDecides(root: seq<Member>, largest: StringField)
    requires !Fits(root) && StringFirst(root) && Largest(root) == Some(largest)
    ensures Decide(root, Bytes(Serialized(root)))
         == Rewrite(largest.path, Str(CutValue(largest.value, Larger(0, Bytes(largest.value) - Excess(root) - 64))))
  {
  }

  lemma CutKeepsAtLeastNothing(o: string, budget: int)
    requires budget < Bytes(o)
    ensures KeptBytes(o, CutValue(o, Larger(0, budget)), budget)
  {
    if budget >= 0 {
      CutKeeps(o, budget);
    }
  }

  /** A string that comes first loses the excess and 64 bytes, and nothing more than a cut character; all else stays. */
  lemma TheStringTakesTheExcess(root: seq<Member>) returns (kept: string)
    requires !Fits(root) && StringFirst(root)
    ensures var largest := Largest(root).value;
            && OnlyAt(root, Round(root), largest.path, Str(kept))
            && KeptBytes(largest.value, kept, Bytes(largest.value) - Excess(root) - 64)
  {
    LargestIsOpen(root);
    var largest := Largest(root).value;
    var budget := Bytes(largest.value) - Excess(root) - 64;
    StringFirstDecides(root, largest);
    kept := CutValue(largest.value, Larger(0, budget));
    CutKeepsAtLeastNothing(largest.value, budget);
    RewrittenRound(root, largest.path, Str(largest.value), Str(kept));
  }

  /** Otherwise the widest array keeps its share of the budget, at least one item and never all; all else stays. */
  lemma TheArrayKeepsItsShare(root: seq<Member>) returns (keep: nat)
    requires !Fits(root) && ArrayNext(root)
    ensures var items, cur := Widest(root).value.items, Bytes(Serialized(root));
            && 1 <= keep < |items| && OnlyAt(root, Round(root), Widest(root).value.path, Arr(items[..keep]))
            && (keep == 1 || keep * cur <= |items| * 50_000) && |items| * 50_000 < (keep + 1) * cur
  {
    WidestIsOpen(root);
    var kept := Kept(Widest(root).value.items, Bytes(Serialized(root)));
    keep := |kept|;
    RewrittenRound(root, Widest(root).value.path, Arr(Widest(root).value.items), Arr(kept));
  }

  /** Otherwise the largest string, unless it is that short already, becomes the suffix alone. */
  lemma TheStringIsGivenUp(root: seq<Member>)
    requires !Fits(root) && !StringFirst(root) && !ArrayNext(root)
    requires Largest(root).Some? && Bytes(Largest(root).value.value) > 14
    ensures OnlyAt(root, Round(root), Largest(root).value.path, Str("...[truncated]"))
  {
    LargestIsOpen(root);
    var largest := Largest(root).value;
    assert Decide(root, Bytes(Serialized(root))) == Rewrite(largest.path, Str("...[truncated]"));
    RewrittenRound(root, largest.path, Str(largest.value), Str("...[truncated]"));
  }

  /** The last resort, in a response without strings: the largest member besides the metadata goes. */
  lemma TheLargestMemberGoes(root: seq<Member>) returns (i: nat)
    requires !Fits(root) && Largest(root).None? && !ArrayNext(root) && Decide(root, Bytes(Serialized(root))) != GiveUp
    ensures i < |root| && root[i].key != "truncated" && root[i].key != "" && Round(root) == root[..i] + root[i + 1..]
    ensures forall j :: 0 <= j < |root| && root[j].key != "truncated" ==>
              Bytes(Print(root[j].value, Tight)) <= Bytes(Print(root[i].value, Tight))
  {
    BiggestMeaning(root, |root|);
    i := BiggestMember(root, |root|).value;
    forall j | 0 <= j < |root| && root[j].key != "truncated"
      ensures Bytes(Print(root[j].value, Tight)) <= Bytes(Print(root[i].value, Tight))
    {
      assert MemberSize(root[j]) <= MemberSize(root[i]);
    }
  }

  /**
   * A round gives up exactly when no array can lose an item and the string it would cut is as short as the
   * suffix, or when there is neither string nor such array and no member can go: none but the metadata is
   * there, or the first of the largest is filed under the empty key.
   */
  lemma GivesUpExactly(root: seq<Member>)
    requires !Fits(root)
    ensures Decide(root, Bytes(Serialized(root))) == GiveUp <==>
              && (Widest(root).None? || |Widest(root).value.items| <= 1)
              && if Largest(root).Some? then Bytes(Largest(root).value.value) <= 14
                 else forall i :: 0 <= i < |root| && IsFirstLargest(root, i) ==> root[i].key == ""
  {
    BiggestMeaning(root, |root|);
    var best := BiggestMember(root, |root|);
    if best.Some? {
      assert IsFirstLargest(root, best.value);
      forall i | 0 <= i < |root| && IsFirstLargest(root, i)
        ensures i == best.value
      {
      }
    }
  }

  /** The first of the members besides the metadata that none prints longer than. */
  predicate IsFirstLargest(root: seq<Member>, i: nat)
    requires i < |root|
  {
    root[i].key != "truncated" &&
    forall j :: 0 <= j < |root| && root[j].key != "truncated" ==>
      if j < i then MemberSize(root[j]) < MemberSize(root[i]) else MemberSize(root[j]) <= MemberSize(root[i])
  }

  /** There are at most twenty-four rounds. */
  lemma TwentyFourRounds(data: Json, original: nat, tool: string)
    ensures FinalRoot(data, original, tool) == Shrunk(StartRoot(data, original, tool), 24)
  {
  }

  // ---- what carries the metadata ----

  /** An object carries the metadata itself, an array under "data" beside it, anything else under "value". */
  lemma WhatCarriesTheMetadata(data: Json, original: nat, tool: string)
    ensures var start := StartRoot(data, original, tool);
            && (data.Obj? ==> forall m: Member :: m.key != "truncated" ==> (m in start <==> m in data.members))
            && (!data.Obj? ==> |start| == 2 && start[0] == Member(if data.Arr? then "data" else "value", data)
                               && start[1].key == "truncated")
  {
    var start := StartRoot(data, original, tool);
    var base := BaseMembers(data);
    var k := Find(base, SKIP_KEY);
    if data.Obj? {
      forall m: Member | m.key != "truncated"
        ensures m in start <==> m in data.members
      {
        if m in data.members {
          var j :| 0 <= j < |base| && base[j] == m;
          assert start[j] == m;
        }
      }
    } else {
      assert |"data"| == 4 && |"value"| == 5 && |SKIP_KEY| == 9;
      assert k == 1;
    }
  }

  /** A structured response that fitted from the start has lost nothing. */
  lemma AFittingResponseIsWhole(text: string, data: Json, tool: string, out: string)
    requires StructuredResponse(text, data, tool, out) && Fits(StartRoot(data, Bytes(text), tool))
    ensures out == Serialized(SetMember(StartRoot(data, Bytes(text), tool), "truncated",
                                        Meta(Bytes(text), Bytes(out), tool)))
  {
    assert FinalRoot(data, Bytes(text), tool) == StartRoot(data, Bytes(text), tool);
  }
}
