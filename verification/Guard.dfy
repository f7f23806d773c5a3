/**
 * applyGuard of packages/hub/src/mcp/guard.ts: shrink an oversized tool response
 * round by round, keep it valid JSON, and embed its own final size.
 */
module Guard {
  import opened Arithmetic
  import opened Option
  import opened Utf8
  import opened Json
  import opened GuardFields
  import opened GuardTree

  const MAX_RESPONSE_BYTES := 50_000
  const SLACK_BYTES := 64
  const MAX_ITERATIONS := 24

  const ORIGINAL_SIZE := "original_size"
  const RETURNED_SIZE := "returned_size"
  const TOOL := "tool"

  // ---- the root object ----

  /** The wrapper that can carry the metadata: objects carry it themselves. */
  function BaseMembers(data: Json): seq<Member> {
    match data
    case Obj(members) => members
    case Arr(_) => [Member("data", data)]
    case _ => [Member("value", data)]
  }

  function Meta(original: nat, returned: nat, tool: string): Json {
    Obj([Member(ORIGINAL_SIZE, Num(Decimal(original))), Member(RETURNED_SIZE, Num(Decimal(returned))),
         Member(TOOL, Str(tool))])
  }

  function Marked(members: seq<Member>, original: nat, returned: nat, tool: string): seq<Member> {
    SetMember(members, SKIP_KEY, Meta(original, returned, tool))
  }

  function Serialized(root: seq<Member>): string {
    Print(Obj(root), Pretty(0))
  }

  predicate Fits(root: seq<Member>) {
    Bytes(Serialized(root)) <= MAX_RESPONSE_BYTES
  }

  // ---- one round ----

  /** Bytes of a member's value without white space. */
  function MemberSize(m: Member): nat {
    Bytes(Print(m.value, Tight))
  }

  /** Among the first n members other than the metadata, the largest. */
  function BiggestMember(root: seq<Member>, n: nat): (best: Option<nat>)
    requires n <= |root|
    ensures best.Some? ==> best.value < n && root[best.value].key != SKIP_KEY
  {
    if n == 0 then None
    else
      var best := BiggestMember(root, n - 1);
      if root[n - 1].key != SKIP_KEY && (best.None? || MemberSize(root[n - 1]) > MemberSize(root[best.value]))
      then Some(n - 1) else best
  }

  /** No member is larger, the first one wins ties, and there is none only when all are metadata. */
  lemma {:induction false} BiggestMeaning(root: seq<Member>, n: nat)
    requires n <= |root|
    ensures var best := BiggestMember(root, n);
            && (best.None? <==> forall j :: 0 <= j < n ==> root[j].key == SKIP_KEY)
            && (best.Some? ==> forall j :: 0 <= j < n && root[j].key != SKIP_KEY ==>
                  if j < best.value then MemberSize(root[j]) < MemberSize(root[best.value])
                  else MemberSize(root[j]) <= MemberSize(root[best.value]))
  {
    if n > 0 {
      BiggestMeaning(root, n - 1);
    }
  }

  /** largestKeyBySize: one scan, keeping the best so far. */
  method LargestKeyBySize(root: seq<Member>) returns (best: Option<nat>)
    ensures best == BiggestMember(root, |root|)
  {
    best := None;
    var bestSize: int := -1;
    for i := 0 to |root|
      invariant best == BiggestMember(root, i)
      invariant bestSize == if best.Some? then MemberSize(root[best.value]) else -1
    {
      if root[i].key != SKIP_KEY {
        var size := MemberSize(root[i]);
        if size > bestSize {
          best, bestSize := Some(i), size;
        }
      }
    }
  }

  function Larger(a: int, b: int): int {
    if a >= b then a else b
  }

  /** What the widest array keeps: as many items as its share of the budget covers, but at least one. */
  function Kept(items: seq<Json>, cur: nat): (kept: seq<Json>)
    requires cur > MAX_RESPONSE_BYTES && |items| > 1
    ensures 1 <= |kept| < |items| && kept == items[..|kept|]
    ensures |kept| == 1 || |kept| * cur <= |items| * MAX_RESPONSE_BYTES
    ensures |items| * MAX_RESPONSE_BYTES < (|kept| + 1) * cur
  {
    ShareMeans(|items|, cur);
    items[..Larger(1, |items| * MAX_RESPONSE_BYTES / cur)]
  }

  lemma ShareMeans(length: nat, cur: nat)
    requires cur > MAX_RESPONSE_BYTES && length > 1
    ensures var keep := Larger(1, length * MAX_RESPONSE_BYTES / cur);
            && 1 <= keep < length && (keep == 1 || keep * cur <= length * MAX_RESPONSE_BYTES)
            && length * MAX_RESPONSE_BYTES < (keep + 1) * cur
  {
    var share := length * MAX_RESPONSE_BYTES / cur;
    QuotientMeans(length * MAX_RESPONSE_BYTES, cur);
    TimesIsMonotone(length, share, cur);
    TimesIsMonotone(share + 1, Larger(1, share) + 1, cur);
  }

  /** One string dominates: it takes the whole deficit. */
  predicate Dominates(cur: nat, largest: Option<StringField>) {
    largest.Some? && largest.value.Size() >= 64 && cur - MAX_RESPONSE_BYTES <= largest.value.Size() * 4
  }

  /** How many bytes the dominating string keeps before its suffix. */
  function DominantTarget(cur: nat, size: int): int {
    Larger(0, size - (cur - MAX_RESPONSE_BYTES) - SLACK_BYTES)
  }

  /** What one round decides to do with a root that is `cur` bytes long. */
  datatype Shrink = Rewrite(path: Path, node: Json) | Remove(i: nat) | GiveUp

  function Decide(root: seq<Member>, cur: nat): Shrink
    requires cur > MAX_RESPONSE_BYTES
  {
    Choose(root, cur, PickStringField(Strings(Obj(root), [], "")), WidestArray(Arrays(Obj(root), [])))
  }

  function Choose(root: seq<Member>, cur: nat, largest: Option<StringField>, widest: Option<ArrayField>): Shrink
    requires cur > MAX_RESPONSE_BYTES
  {
    if Dominates(cur, largest) then
      Rewrite(largest.value.path,
              Str(CutValue(largest.value.value, DominantTarget(cur, largest.value.Size()))))
    else if widest.Some? && |widest.value.items| > 1 then
      Rewrite(widest.value.path, Arr(Kept(widest.value.items, cur)))
    else if largest.Some? then
      if largest.value.Size() <= |FIELD_SUFFIX| then GiveUp else Rewrite(largest.value.path,
          Str(CutValue(largest.value.value, 0)))
    else
      var biggest := BiggestMember(root, |root|);
      // an empty key is falsy, so it too ends the loop
      if biggest.None? || root[biggest.value].key == "" then GiveUp else Remove(biggest.value)
  }

  /** The root after one decision. */
  function Applied(root: seq<Member>, shrink: Shrink): seq<Member> {
    match shrink
    case Rewrite(path, node) =>
      if Reaches(Obj(root), path) && path != [] then SetAt(Obj(root), path, node).members else root
    case Remove(i) => if i < |root| then root[..i] + root[i + 1..] else root
    case GiveUp => root
  }

  /** The root after one more round; a round that gives up changes nothing. */
  function Round(root: seq<Member>): seq<Member>
    requires !Fits(root)
  {
    Applied(root, Decide(root, Bytes(Serialized(root))))
  }

  /** At most `rounds` rounds, ending early when the root fits. */
  function Shrunk(root: seq<Member>, rounds: nat): seq<Member>
    decreases rounds, root
  {
    if rounds == 0 || Fits(root) then root else Shrunk(Round(root), rounds - 1)
  }

  // ---- a decision names a real node, shrinks it and only prunes it ----

  /**
   * The decision rewrites one open node into a pruning that prints shorter, or removes one member
   * besides the metadata.
   */
  ghost predicate Sensible(root: seq<Member>, shrink: Shrink) {
    match shrink
    case Rewrite(path, node) =>
      && path != [] && Open(Obj(root), path) && Reaches(Obj(root), path)
      && PrunesFurther(At(Obj(root), path), node)
      && Size(node, Pretty(|path|)) < Size(At(Obj(root), path), Pretty(|path|))
    case Remove(i) => i < |root| && root[i].key != SKIP_KEY
    case GiveUp => true
  }

  /** An open, non-root path at which the given node sits. */
  ghost predicate OpenNode(root: seq<Member>, path: Path, node: Json) {
    path != [] && Open(Obj(root), path) && Reaches(Obj(root), path) && At(Obj(root), path) == node
  }

  lemma LargestIsOpen(root: seq<Member>)
    ensures var largest := PickStringField(Strings(Obj(root), [], ""));
            largest.Some? ==> OpenNode(root, largest.value.path, Str(largest.value.value))
  {
    var fields := Strings(Obj(root), [], "");
    PickMeaning(fields);
    StringsOfMembersFound(root, [], 0);
    var largest := PickStringField(fields);
    if largest.Some? {
      assert Leads(Obj(root), [], largest.value.path, Str(largest.value.value));
      assert largest.value.path[0..] == largest.value.path;
    }
  }

  lemma WidestIsOpen(root: seq<Member>)
    ensures var widest := WidestArray(Arrays(Obj(root), []));
            widest.Some? ==> OpenNode(root, widest.value.path, Arr(widest.value.items))
  {
    var arrays := Arrays(Obj(root), []);
    WidestMeaning(arrays);
    ArraysOfMembersFound(root, [], 0);
    var widest := WidestArray(arrays);
    if widest.Some? {
      assert Leads(Obj(root), [], widest.value.path, Arr(widest.value.items));
      assert widest.value.path[0..] == widest.value.path;
    }
  }

  lemma CutIsSensible(root: seq<Member>, path: Path, value: string, target: int)
    requires OpenNode(root, path, Str(value))
    requires if target > |FIELD_SUFFIX| then target + 65 <= Bytes(value) else |FIELD_SUFFIX| < Bytes(value)
    ensures Sensible(root, Rewrite(path, Str(CutValue(value, target))))
  {
    PruneString(value, target);
    CutShrinks(value, target);
  }

  lemma PrefixIsSensible(root: seq<Member>, path: Path, items: seq<Json>, keep: nat)
    requires OpenNode(root, path, Arr(items)) && 1 <= keep < |items|
    ensures Sensible(root, Rewrite(path, Arr(items[..keep])))
  {
    PruneArray(items, keep);
    ArrayShrinks(items, keep, Pretty(|path|));
  }

  lemma DominantTargetIsSmall(cur: nat, size: int)
    requires cur > MAX_RESPONSE_BYTES && size >= 64
    ensures var target := DominantTarget(cur, size);
            if target > |FIELD_SUFFIX| then target + 65 <= size else |FIELD_SUFFIX| < size
  {
  }

  lemma DominantChoice(root: seq<Member>, cur: nat, largest: Option<StringField>, widest: Option<ArrayField>)
    requires cur > MAX_RESPONSE_BYTES && Dominates(cur, largest)
    requires OpenNode(root, largest.value.path, Str(largest.value.value))
    ensures Sensible(root, Choose(root, cur, largest, widest))
  {
    var value := largest.value.value;
    DominantTargetIsSmall(cur, Bytes(value));
    CutIsSensible(root, largest.value.path, value, DominantTarget(cur, Bytes(value)));
  }

  lemma WidthChoice(root: seq<Member>, cur: nat, largest: Option<StringField>, widest: Option<ArrayField>)
    requires cur > MAX_RESPONSE_BYTES && !Dominates(cur, largest) && widest.Some? && |widest.value.items| > 1
    requires OpenNode(root, widest.value.path, Arr(widest.value.items))
    ensures Sensible(root, Choose(root, cur, largest, widest))
  {
    var kept := Kept(widest.value.items, cur);
    PrefixIsSensible(root, widest.value.path, widest.value.items, |kept|);
  }

  lemma LastChoice(root: seq<Member>, cur: nat, largest: Option<StringField>, widest: Option<ArrayField>)
    requires cur > MAX_RESPONSE_BYTES && !Dominates(cur, largest)
    requires widest.None? || |widest.value.items| <= 1
    requires largest.Some? ==> OpenNode(root, largest.value.path, Str(largest.value.value))
    ensures Sensible(root, Choose(root, cur, largest, widest))
  {
    if largest.Some? && largest.value.Size() > |FIELD_SUFFIX| {
      CutIsSensible(root, largest.value.path, largest.value.value, 0);
    }
  }

  lemma DecisionsAreSensible(root: seq<Member>, cur: nat)
    requires cur > MAX_RESPONSE_BYTES
    ensures Sensible(root, Decide(root, cur))
  {
    LargestIsOpen(root);
    WidestIsOpen(root);
    ChoicesAreSensible(root, cur, PickStringField(Strings(Obj(root), [], "")), WidestArray(Arrays(Obj(root), [])));
  }

  lemma ChoicesAreSensible(root: seq<Member>, cur: nat, largest: Option<StringField>, widest: Option<ArrayField>)
    requires cur > MAX_RESPONSE_BYTES
    requires largest.Some? ==> OpenNode(root, largest.value.path, Str(largest.value.value))
    requires widest.Some? ==> OpenNode(root, widest.value.path, Arr(widest.value.items))
    ensures Sensible(root, Choose(root, cur, largest, widest))
  {
    if Dominates(cur, largest) {
      DominantChoice(root, cur, largest, widest);
    } else if widest.Some? && |widest.value.items| > 1 {
      WidthChoice(root, cur, largest, widest);
    } else {
      LastChoice(root, cur, largest, widest);
    }
  }

  // ---- pruning over all rounds ----

  /** The member comes from one of the base members under the same key, pruned. */
  ghost predicate ComesFrom(base: seq<Member>, m: Member) {
    exists b :: b in base && b.key == m.key && Pruned(b.value, m.value)
  }

  /** The root carries the metadata once; every other member is a pruned member of the base. */
  ghost predicate GuardedRoot(base: seq<Member>, root: seq<Member>, meta: Json) {
    && UniqueKeys(root)
    && Member(SKIP_KEY, meta) in root
    && forall i :: 0 <= i < |root| && root[i].key != SKIP_KEY ==> ComesFrom(base, root[i])
  }

  lemma MarkingGuards(base: seq<Member>, root: seq<Member>, old_meta: Json, meta: Json)
    requires GuardedRoot(base, root, old_meta)
    ensures GuardedRoot(base, SetMember(root, SKIP_KEY, meta), meta)
  {
    var i := Find(root, SKIP_KEY);
    var root' := SetMember(root, SKIP_KEY, meta);
    assert i < |root|;
    assert root'[i] == Member(SKIP_KEY, meta);
  }

  lemma FirstMarkingGuards(base: seq<Member>, meta: Json)
    requires UniqueKeys(base)
    ensures GuardedRoot(base, SetMember(base, SKIP_KEY, meta), meta)
  {
    var root := SetMember(base, SKIP_KEY, meta);
    assert root[Find(base, SKIP_KEY)] == Member(SKIP_KEY, meta);
    forall i | 0 <= i < |root| && root[i].key != SKIP_KEY
      ensures ComesFrom(base, root[i])
    {
      PrunedSelf(root[i].value);
      assert root[i] == base[i];
    }
  }

  lemma RoundKeepsGuard(base: seq<Member>, root: seq<Member>, meta: Json, shrink: Shrink)
    requires GuardedRoot(base, root, meta) && Sensible(root, shrink)
    ensures GuardedRoot(base, Applied(root, shrink), meta)
  {
    match shrink
    case Rewrite(path, node) =>
      var i := path[0];
      var child := SetAt(root[i].value, path[1..], node);
      PruneNode(root[i].value, path[1..], node);
      assert Applied(root, shrink) == root[i := Member(root[i].key, child)];
      RewriteKeepsGuard(base, root, meta, i, child);
    case Remove(i) => RemoveKeepsGuard(base, root, meta, i);
    case GiveUp =>
  }

  lemma RewriteKeepsGuard(base: seq<Member>, root: seq<Member>, meta: Json, i: nat, child: Json)
    requires GuardedRoot(base, root, meta) && i < |root| && root[i].key != SKIP_KEY
    requires PrunesFurther(root[i].value, child)
    ensures GuardedRoot(base, root[i := Member(root[i].key, child)], meta)
  {
    var root' := root[i := Member(root[i].key, child)];
    var k :| 0 <= k < |root| && root[k] == Member(SKIP_KEY, meta);
    assert root'[k] == Member(SKIP_KEY, meta);
    var b :| b in base && b.key == root[i].key && Pruned(b.value, root[i].value);
    assert Pruned(b.value, child);
    assert ComesFrom(base, root'[i]);
    forall j | 0 <= j < |root'| && root'[j].key != SKIP_KEY
      ensures ComesFrom(base, root'[j])
    {
      assert j != i ==> root'[j] == root[j];
    }
  }

  lemma RemoveKeepsGuard(base: seq<Member>, root: seq<Member>, meta: Json, i: nat)
    requires GuardedRoot(base, root, meta) && i < |root| && root[i].key != SKIP_KEY
    ensures GuardedRoot(base, root[..i] + root[i + 1..], meta)
  {
    var root' := root[..i] + root[i + 1..];
    var k :| 0 <= k < |root| && root[k] == Member(SKIP_KEY, meta);
    assert root'[if k < i then k else k - 1] == Member(SKIP_KEY, meta);
    forall j | 0 <= j < |root'|
      ensures root'[j] == root[if j < i then j else j + 1]
    {
    }
  }

  lemma SerializedSize(root: seq<Member>)
    ensures Bytes(Serialized(root)) == Size(Obj(root), Pretty(0))
  {
    PrintedSize(Obj(root), Pretty(0));
  }

  lemma RewriteShrinks(root: seq<Member>, path: Path, node: Json)
    requires path != [] && Reaches(Obj(root), path)
               && Size(node, Pretty(|path|)) < Size(At(Obj(root), path), Pretty(|path|))
    ensures Size(Obj(Applied(root, Rewrite(path, node))), Pretty(0)) < Size(Obj(root), Pretty(0))
  {
    SetAtSize(Obj(root), path, node, 0);
  }

  lemma SensibleShrinks(root: seq<Member>, shrink: Shrink, k: nat)
    requires Sensible(root, shrink) && k < |root| && root[k].key == SKIP_KEY && shrink != GiveUp
    ensures Bytes(Serialized(Applied(root, shrink))) < Bytes(Serialized(root))
  {
    SerializedSize(root);
    SerializedSize(Applied(root, shrink));
    if shrink.Rewrite? {
      RewriteShrinks(root, shrink.path, shrink.node);
    } else {
      MemberRemovalShrinks(root, shrink.i, Pretty(0));
    }
  }

  /** Every round that does not give up makes the serialized response strictly shorter. */
  lemma RoundsShrink(root: seq<Member>, k: nat)
    requires k < |root| && root[k].key == SKIP_KEY && !Fits(root)
    ensures if Decide(root, Bytes(Serialized(root))) == GiveUp then Round(root) == root
            else Bytes(Serialized(Round(root))) < Bytes(Serialized(root))
  {
    var shrink := Decide(root, Bytes(Serialized(root)));
    DecisionsAreSensible(root, Bytes(Serialized(root)));
    if shrink != GiveUp {
      SensibleShrinks(root, shrink, k);
    }
  }

  lemma OneRound(base: seq<Member>, root: seq<Member>, meta: Json)
    requires GuardedRoot(base, root, meta) && !Fits(root)
    ensures GuardedRoot(base, Round(root), meta)
  {
    var shrink := Decide(root, Bytes(Serialized(root)));
    DecisionsAreSensible(root, Bytes(Serialized(root)));
    RoundKeepsGuard(base, root, meta, shrink);
  }

  /** Over all rounds: the result is a pruning of the base. */
  lemma {:induction false} ShrunkIsGuarded(base: seq<Member>, root: seq<Member>, meta: Json, rounds: nat)
    requires GuardedRoot(base, root, meta)
    ensures GuardedRoot(base, Shrunk(root, rounds), meta)
    decreases rounds
  {
    if rounds > 0 && !Fits(root) {
      OneRound(base, root, meta);
      ShrunkIsGuarded(base, Round(root), meta, rounds - 1);
    }
  }
}
