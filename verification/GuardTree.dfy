/** What a guarded tree may look like: prunings of a JSON tree, and how single updates keep them. */
module GuardTree {
  import opened Utf8
  import opened Json

  const FIELD_SUFFIX := "...[truncated]"

  /** s is o, or a prefix of o and the suffix; a character cut in half may leave one U+FFFD between them. */
  ghost predicate Cut(o: string, s: string) {
    s == o || exists k: nat :: CutAt(o, s, k)
  }

  predicate CutAt(o: string, s: string, k: nat) {
    k <= |o| && (s == o[..k] + FIELD_SUFFIX || s == o[..k] + [REPLACEMENT] + FIELD_SUFFIX)
  }

  /**
   * v is o with arrays cut to prefixes and strings cut; objects keep every key in
   * order, everything else is unchanged.
   */
  ghost predicate Pruned(o: Json, v: Json)
    decreases v
  {
    match v
    case Str(s) => o.Str? && Cut(o.s, s)
    case Arr(items) =>
      o.Arr? && |items| <= |o.items| && forall i :: 0 <= i < |items| ==> Pruned(o.items[i], items[i])
    case Obj(members) =>
      o.Obj? && |members| == |o.members|
      && forall i :: 0 <= i < |members| ==>
           o.members[i].key == members[i].key && Pruned(o.members[i].value, members[i].value)
    case _ => o == v
  }

  lemma {:induction false} PrunedSelf(v: Json)
    ensures Pruned(v, v)
  {
    match v
    case Arr(items) =>
      forall i | 0 <= i < |items|
        ensures Pruned(items[i], items[i])
      {
        PrunedSelf(items[i]);
      }
    case Obj(members) =>
      forall i | 0 <= i < |members|
        ensures Pruned(members[i].value, members[i].value)
      {
        PrunedSelf(members[i].value);
      }
    case _ =>
  }

  /** Whatever x is a pruning of, y is too. */
  ghost predicate PrunesFurther(x: Json, y: Json) {
    forall o :: Pruned(o, x) ==> Pruned(o, y)
  }

  /** Pruning one node further prunes the tree further: prunings compose over rounds. */
  lemma {:induction false} PruneNode(v: Json, path: Path, node: Json)
    requires Reaches(v, path) && PrunesFurther(At(v, path), node)
    ensures PrunesFurther(v, SetAt(v, path, node))
    decreases |path|
  {
    if path != [] {
      PruneNode(Child(v, path[0]), path[1..], node);
      var v' := SetAt(v, path, node);
      forall o | Pruned(o, v)
        ensures Pruned(o, v')
      {
        assert Pruned(Child(o, path[0]), Child(v, path[0]));
      }
    }
  }

  lemma PruneArray(items: seq<Json>, keep: nat)
    requires keep <= |items|
    ensures PrunesFurther(Arr(items), Arr(items[..keep]))
  {
  }

  /** Cutting a string again, by more bytes than the suffix and a stray U+FFFD take, is one cut of the original. */
  lemma CutAgain(o: string, s: string, target: int)
    requires Cut(o, s) && 0 <= target && target + 65 <= Bytes(s)
    ensures Cut(o, Sliced(s, target) + FIELD_SUFFIX)
  {
    SlicedMeaning(s, target);
    var j: nat :| j < |s| && Bytes(s[..j]) <= target
                  && (Sliced(s, target) == s[..j] || Sliced(s, target) == s[..j] + [REPLACEMENT]);
    if s == o {
      assert CutAt(o, Sliced(s, target) + FIELD_SUFFIX, j);
    } else {
      var k: nat :| CutAt(o, s, k);
      CutInsidePrefix(o, s, k, j);
      assert s[..j] == o[..j];
      assert CutAt(o, Sliced(s, target) + FIELD_SUFFIX, j);
    }
  }

  predicate Plain(s: string) {
    forall i :: 0 <= i < |s| ==> s[i] < '\U{80}' && !NeedsEscape(s[i])
  }

  lemma SuffixIsPlain()
    ensures Plain(FIELD_SUFFIX) && |FIELD_SUFFIX| == 14
  {
  }

  lemma SuffixBytes(suffix: string)
    requires suffix == FIELD_SUFFIX
    ensures Bytes(suffix) == |suffix| == 14 && EscapedBytes(suffix) == 14
  {
    SuffixIsPlain();
    PlainBytes(suffix);
  }

  lemma PlainBytes(s: string)
    requires Plain(s)
    ensures Bytes(s) == EscapedBytes(s) == |s|
  {
    AsciiBytes(s);
    PlainEscapes(s);
  }

  lemma ReplacementBytes(r: string)
    requires r == [REPLACEMENT]
    ensures Bytes(r) == 3 == EscapedBytes(r)
  {
    PlainEscapes(r);
  }

  lemma {:induction false} PlainEscapes(s: string)
    requires forall i :: 0 <= i < |s| ==> !NeedsEscape(s[i])
    ensures EscapedBytes(s) == Bytes(s)
  {
    if s != "" {
      PlainEscapes(s[1..]);
    }
  }

  /** A prefix with at most 17 more bytes behind it. */
  lemma PrefixAndTail(p: string, tail: string, s: string)
    requires s == p + tail && Bytes(tail) <= 17
    ensures |p| <= |s| && s[..|p|] == p && Bytes(s) <= Bytes(p) + 17
  {
    BytesConcat(p, tail);
  }

  lemma ShortTail(o: string, s: string, k: nat, r: string, suffix: string)
    requires k <= |o| && Bytes(r) == 3 && Bytes(suffix) == 14
    requires s == o[..k] + suffix || s == o[..k] + r + suffix
    ensures k <= |s| && s[..k] == o[..k] && Bytes(s) <= Bytes(o[..k]) + 17
  {
    BytesConcat(r, suffix);
    if s == o[..k] + suffix {
      PrefixAndTail(o[..k], suffix, s);
    } else {
      assert o[..k] + r + suffix == o[..k] + (r + suffix);
      PrefixAndTail(o[..k], r + suffix, s);
    }
  }

  lemma CutInsidePrefix(o: string, s: string, k: nat, j: nat)
    requires CutAt(o, s, k) && j < |s| && Bytes(s[..j]) + 65 <= Bytes(s)
    ensures j < k && s[..j] == o[..j]
  {
    SuffixBytes(FIELD_SUFFIX);
    ReplacementBytes([REPLACEMENT]);
    ShortTail(o, s, k, [REPLACEMENT], FIELD_SUFFIX);
    PrefixOfPrefix(o, s, k, j);
  }

  lemma PrefixOfPrefix(o: string, s: string, k: nat, j: nat)
    requires k <= |o| && k <= |s| && s[..k] == o[..k] && j <= |s| && Bytes(s[..j]) < Bytes(s[..k])
    ensures j < k && s[..j] == o[..j]
  {
    ShorterPrefix(s, k, j);
    assert s[..j] == s[..k][..j];
  }

  lemma ShorterPrefix(s: string, k: nat, j: nat)
    requires k <= |s| && j <= |s| && Bytes(s[..j]) < Bytes(s[..k])
    ensures j < k
  {
    var shorter, longer := if j < k then j else k, if j < k then k else j;
    BytesSplit(s[..longer], shorter);
    assert s[..longer][..shorter] == s[..shorter];
  }

  /** The cut the guard makes of a string of the given size. */
  function CutValue(s: string, target: int): string {
    if target > |FIELD_SUFFIX| then Sliced(s, target) + FIELD_SUFFIX else FIELD_SUFFIX
  }

  lemma PruneString(s: string, target: int)
    requires target > |FIELD_SUFFIX| ==> target + 65 <= Bytes(s)
    ensures PrunesFurther(Str(s), Str(CutValue(s, target)))
  {
    forall o | Pruned(o, Str(s))
      ensures Pruned(o, Str(CutValue(s, target)))
    {
      if target > |FIELD_SUFFIX| {
        CutAgain(o.s, s, target);
      } else {
        assert o.s[..0] + FIELD_SUFFIX == FIELD_SUFFIX;
        assert CutAt(o.s, FIELD_SUFFIX, 0);
      }
    }
  }

  /** Dropping more than 17 bytes outweighs a stray U+FFFD and the suffix, however the characters are escaped. */
  lemma TailOutweighs(p: string, dropped: string, r: string, suffix: string)
    requires EscapedBytes(r) == 3 && EscapedBytes(suffix) == 14 && Bytes(dropped) > 17
    ensures EscapedBytes(p + suffix) < EscapedBytes(p + dropped)
    ensures EscapedBytes(p + r + suffix) < EscapedBytes(p + dropped)
  {
    EscapedConcat(p, dropped);
    EscapedConcat(p, suffix);
    EscapedConcat(p, r);
    EscapedConcat(p + r, suffix);
    EscapedSize(dropped);
  }

  lemma PrefixShrinks(s: string, j: nat, r: string, suffix: string)
    requires j <= |s| && Bytes(s[..j]) + 65 <= Bytes(s) && EscapedBytes(r) == 3 && EscapedBytes(suffix) == 14
    ensures EscapedBytes(s[..j] + suffix) < EscapedBytes(s)
    ensures EscapedBytes(s[..j] + r + suffix) < EscapedBytes(s)
  {
    BytesSplit(s, j);
    TailOutweighs(s[..j], s[j..], r, suffix);
    assert s[..j] + s[j..] == s;
  }

  lemma SliceShrinks(s: string, target: int, r: string, suffix: string)
    requires 0 <= target && target + 65 <= Bytes(s) && r == [REPLACEMENT]
    requires EscapedBytes(r) == 3 && EscapedBytes(suffix) == 14
    ensures EscapedBytes(Sliced(s, target) + suffix) < EscapedBytes(s)
  {
    SlicedMeaning(s, target);
    var j: nat :| j < |s| && Bytes(s[..j]) <= target
                  && (Sliced(s, target) == s[..j] || Sliced(s, target) == s[..j] + r);
    PrefixShrinks(s, j, r, suffix);
  }

  /** Every cut prints shorter than the string it replaces. */
  lemma CutShrinks(s: string, target: int)
    requires if target > |FIELD_SUFFIX| then target + 65 <= Bytes(s) else |FIELD_SUFFIX| < Bytes(s)
    ensures EscapedBytes(CutValue(s, target)) < EscapedBytes(s)
  {
    SuffixBytes(FIELD_SUFFIX);
    if target > |FIELD_SUFFIX| {
      ReplacementBytes([REPLACEMENT]);
      SliceShrinks(s, target, [REPLACEMENT], FIELD_SUFFIX);
    } else {
      EscapedSize(s);
    }
  }

  lemma {:induction false} ItemsSizeSplit(items: seq<Json>, k: nat, style: Style)
    requires k <= |items|
    ensures ItemsSize(items, style) == ItemsSize(items[..k], style) + ItemsSize(items[k..], style)
    decreases k
  {
    if k == 0 {
      assert items[..0] == [] && items[0..] == items;
    } else {
      ItemsSizeSplit(items[1..], k - 1, style);
      assert items[..k][1..] == items[1..][..k - 1] && items[1..][k - 1..] == items[k..];
    }
  }

  lemma ArrayShrinks(items: seq<Json>, keep: nat, style: Style)
    requires 1 <= keep < |items|
    ensures Size(Arr(items[..keep]), style) < Size(Arr(items), style)
  {
    ItemsSizeSplit(items, keep, style.Deeper());
  }

  lemma {:induction false} MembersSizeSplit(members: seq<Member>, k: nat, style: Style)
    requires k <= |members|
    ensures MembersSize(members, style) == MembersSize(members[..k], style) + MembersSize(members[k..], style)
    decreases k
  {
    if k == 0 {
      assert members[..0] == [] && members[0..] == members;
    } else {
      MembersSizeSplit(members[1..], k - 1, style);
      assert members[..k][1..] == members[1..][..k - 1] && members[1..][k - 1..] == members[k..];
    }
  }

  lemma MemberRemovalShrinks(members: seq<Member>, i: nat, style: Style)
    requires i < |members| && |members| > 1
    ensures Size(Obj(members[..i] + members[i + 1..]), style) < Size(Obj(members), style)
  {
    var rest := members[..i] + members[i + 1..];
    MembersSizeSplit(members, i, style.Deeper());
    MembersSizeSplit(rest, i, style.Deeper());
    assert rest[..i] == members[..i] && rest[i..] == members[i + 1..];
    assert members[i..][1..] == members[i + 1..];
  }
}
