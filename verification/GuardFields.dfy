/** Collecting and choosing what to shrink: collectStringFields, collectArrays and pickStringField of guard.ts. */
module GuardFields {
  import opened Option
  import opened Utf8
  import opened Json
  import opened StableSort

  const SKIP_KEY := "truncated"

  const CONTENT_KEYS: set<string> :=
    {"text", "content", "message", "summary", "output", "body", "description", "reply", "error", "title", "name",
        "path"}

  /** A string somewhere in the tree, with the key it is stored under ("" inside an array). */
  datatype StringField = StringField(path: Path, key: string, value: string) {
    function Size(): int {
      Bytes(value)
    }
  }

  datatype ArrayField = ArrayField(path: Path, items: seq<Json>) {
    function Size(): int {
      Bytes(Print(Arr(items), Tight))
    }
  }

  /** Every string below v in order, skipping whatever is stored under SKIP_KEY. */
  function Strings(v: Json, path: Path, key: string): seq<StringField>
    decreases v, 0
  {
    match v
    case Str(s) => [StringField(path, key, s)]
    case Arr(items) => StringsOfItems(items, path, 0)
    case Obj(members) => StringsOfMembers(members, path, 0)
    case _ => []
  }

  function StringsOfItems(items: seq<Json>, path: Path, i: nat): seq<StringField>
    requires i <= |items|
    decreases items, |items| - i
  {
    if i == |items| then [] else Strings(items[i], path + [i], "") + StringsOfItems(items, path, i + 1)
  }

  function StringsOfMembers(members: seq<Member>, path: Path, i: nat): seq<StringField>
    requires i <= |members|
    decreases members, |members| - i
  {
    if i == |members| then []
    else
      var m := members[i];
      (if m.key == SKIP_KEY then [] else Strings(m.value, path + [i], m.key)) + StringsOfMembers(members, path, i + 1)
  }

  /** Every array below v, each before the arrays inside it. */
  function Arrays(v: Json, path: Path): seq<ArrayField>
    decreases v, 0
  {
    match v
    case Arr(items) => [ArrayField(path, items)] + ArraysOfItems(items, path, 0)
    case Obj(members) => ArraysOfMembers(members, path, 0)
    case _ => []
  }

  function ArraysOfItems(items: seq<Json>, path: Path, i: nat): seq<ArrayField>
    requires i <= |items|
    decreases items, |items| - i
  {
    if i == |items| then [] else Arrays(items[i], path + [i]) + ArraysOfItems(items, path, i + 1)
  }

  function ArraysOfMembers(members: seq<Member>, path: Path, i: nat): seq<ArrayField>
    requires i <= |members|
    decreases members, |members| - i
  {
    if i == |members| then []
    else
      var m := members[i];
      (if m.key == SKIP_KEY then [] else Arrays(m.value, path + [i])) + ArraysOfMembers(members, path, i + 1)
  }

  // ---- the collectors find exactly the nodes that may be shrunk ----

  /** The path meets no SKIP_KEY on its way down. */
  predicate Open(v: Json, path: Path)
    decreases |path|
  {
    path == [] || (HasChild(v, path[0]) && !(v.Obj? && v.members[path[0]].key == SKIP_KEY)
                   && Open(Child(v, path[0]), path[1..]))
  }

  lemma {:induction false} OpenReaches(v: Json, path: Path)
    requires Open(v, path)
    ensures Reaches(v, path)
    decreases |path|
  {
    if path != [] {
      OpenReaches(Child(v, path[0]), path[1..]);
    }
  }

  /** The path `full` goes through `path` and then openly from v to the given node. */
  ghost predicate Leads(v: Json, path: Path, full: Path, node: Json) {
    path <= full && Open(v, full[|path|..]) && Reaches(v, full[|path|..]) && At(v, full[|path|..]) == node
  }

  lemma LeadsThroughChild(v: Json, i: nat, path: Path, full: Path, node: Json)
    requires HasChild(v, i) && !(v.Obj? && v.members[i].key == SKIP_KEY)
    ensures Leads(Child(v, i), path + [i], full, node) <==>
              Leads(v, path, full, node) && |path| < |full| && full[|path|] == i
  {
    if path <= full && |path| < |full| {
      assert full[|path|..][1..] == full[|path| + 1..];
      assert path + [i] <= full <==> full[|path|] == i;
    }
  }

  lemma {:induction false} StringsFound(v: Json, path: Path, key: string)
    ensures forall f :: f in Strings(v, path, key) ==> Leads(v, path, f.path, Str(f.value))
    decreases v, 0
  {
    match v
    case Arr(items) => StringsOfItemsFound(items, path, 0);
    case Obj(members) => StringsOfMembersFound(members, path, 0);
    case _ =>
  }

  lemma {:induction false} StringsOfItemsFound(items: seq<Json>, path: Path, i: nat)
    requires i <= |items|
    ensures forall f :: f in StringsOfItems(items, path, i) ==>
              Leads(Arr(items), path, f.path, Str(f.value)) && |path| < |f.path|
    decreases items, |items| - i
  {
    if i < |items| {
      StringsFound(items[i], path + [i], "");
      StringsOfItemsFound(items, path, i + 1);
      forall f | f in Strings(items[i], path + [i], "")
        ensures Leads(Arr(items), path, f.path, Str(f.value)) && |path| < |f.path|
      {
        LeadsThroughChild(Arr(items), i, path, f.path, Str(f.value));
      }
    }
  }

  lemma {:induction false} StringsOfMembersFound(members: seq<Member>, path: Path, i: nat)
    requires i <= |members|
    ensures forall f :: f in StringsOfMembers(members, path, i) ==>
              Leads(Obj(members), path, f.path, Str(f.value)) && |path| < |f.path|
    decreases members, |members| - i
  {
    if i < |members| {
      StringsOfMembersFound(members, path, i + 1);
      var m := members[i];
      if m.key != SKIP_KEY {
        StringsFound(m.value, path + [i], m.key);
        forall f | f in Strings(m.value, path + [i], m.key)
          ensures Leads(Obj(members), path, f.path, Str(f.value)) && |path| < |f.path|
        {
          LeadsThroughChild(Obj(members), i, path, f.path, Str(f.value));
        }
      }
    }
  }

  /** No string outside SKIP_KEY is missed. */
  lemma {:induction false} EveryStringIsCollected(v: Json, path: Path, key: string, to: Path) returns (f: StringField)
    requires Open(v, to) && Reaches(v, to) && At(v, to).Str?
    ensures f in Strings(v, path, key) && f.path == path + to && Str(f.value) == At(v, to)
    decreases |to|
  {
    if to == [] {
      f := StringField(path, key, v.s);
      assert path + to == path;
    } else {
      var i := to[0];
      f := EveryStringIsCollected(Child(v, i), path + [i], if v.Arr? then "" else v.members[i].key, to[1..]);
      assert path + [i] + to[1..] == path + to;
      if v.Arr? {
        ItemIsCollected(v.items, path, 0, i, f);
      } else {
        MemberIsCollected(v.members, path, 0, i, f);
      }
    }
  }

  lemma {:induction false} ItemIsCollected(items: seq<Json>, path: Path, from: nat, i: nat, f: StringField)
    requires from <= i < |items| && f in Strings(items[i], path + [i], "")
    ensures f in StringsOfItems(items, path, from)
    decreases i - from
  {
    if from < i {
      ItemIsCollected(items, path, from + 1, i, f);
    }
    InEither(Strings(items[from], path + [from], ""), StringsOfItems(items, path, from + 1), f);
  }

  lemma InEither(xs: seq<StringField>, ys: seq<StringField>, f: StringField)
    requires f in xs || f in ys
    ensures f in xs + ys
  {
  }

  lemma {:induction false} MemberIsCollected(members: seq<Member>, path: Path, from: nat, i: nat, f: StringField)
    requires from <= i < |members| && members[i].key != SKIP_KEY
               && f in Strings(members[i].value, path + [i], members[i].key)
    ensures f in StringsOfMembers(members, path, from)
    decreases i - from
  {
    if from < i {
      MemberIsCollected(members, path, from + 1, i, f);
    }
    var m := members[from];
    var here := if m.key == SKIP_KEY then [] else Strings(m.value, path + [from], m.key);
    InEither(here, StringsOfMembers(members, path, from + 1), f);
  }

  /** The key a node is stored under: its own in an object, none in an array, the given one for the root. */
  function KeyAt(v: Json, to: Path, key: string): string
    requires Reaches(v, to)
    decreases |to|
  {
    if to == [] then key else KeyAt(Child(v, to[0]), to[1..], if v.Arr? then "" else v.members[to[0]].key)
  }

  lemma KeyThroughChild(v: Json, i: nat, path: Path, f: StringField, key: string)
    requires HasChild(v, i) && !(v.Obj? && v.members[i].key == SKIP_KEY)
    requires Leads(Child(v, i), path + [i], f.path, Str(f.value))
    requires f.key == KeyAt(Child(v, i), f.path[|path| + 1..], if v.Arr? then "" else v.members[i].key)
    ensures Leads(v, path, f.path, Str(f.value)) && f.key == KeyAt(v, f.path[|path|..], key)
  {
    LeadsThroughChild(v, i, path, f.path, Str(f.value));
    assert f.path[|path|..][1..] == f.path[|path| + 1..];
  }

  /** Every collected string carries the key it is stored under. */
  lemma {:induction false} StringsCarryTheirKeys(v: Json, path: Path, key: string)
    ensures forall f :: f in Strings(v, path, key) ==>
              Leads(v, path, f.path, Str(f.value)) && f.key == KeyAt(v, f.path[|path|..], key)
    decreases v, 0
  {
    match v
    case Arr(items) => StringsOfItemsCarryKeys(items, path, 0, key);
    case Obj(members) => StringsOfMembersCarryKeys(members, path, 0, key);
    case _ =>
  }

  lemma {:induction false} StringsOfItemsCarryKeys(items: seq<Json>, path: Path, i: nat, key: string)
    requires i <= |items|
    ensures forall f :: f in StringsOfItems(items, path, i) ==>
              Leads(Arr(items), path, f.path, Str(f.value)) && f.key == KeyAt(Arr(items), f.path[|path|..], key)
    decreases items, |items| - i
  {
    if i < |items| {
      StringsCarryTheirKeys(items[i], path + [i], "");
      StringsOfItemsCarryKeys(items, path, i + 1, key);
      forall f | f in Strings(items[i], path + [i], "")
        ensures Leads(Arr(items), path, f.path, Str(f.value)) && f.key == KeyAt(Arr(items), f.path[|path|..], key)
      {
        KeyThroughChild(Arr(items), i, path, f, key);
      }
    }
  }

  lemma {:induction false} StringsOfMembersCarryKeys(members: seq<Member>, path: Path, i: nat, key: string)
    requires i <= |members|
    ensures forall f :: f in StringsOfMembers(members, path, i) ==>
              Leads(Obj(members), path, f.path, Str(f.value)) && f.key == KeyAt(Obj(members), f.path[|path|..], key)
    decreases members, |members| - i
  {
    if i < |members| {
      StringsOfMembersCarryKeys(members, path, i + 1, key);
      var m := members[i];
      if m.key != SKIP_KEY {
        StringsCarryTheirKeys(m.value, path + [i], m.key);
        forall f | f in Strings(m.value, path + [i], m.key)
          ensures Leads(Obj(members), path, f.path, Str(f.value)) && f.key == KeyAt(Obj(members), f.path[|path|..], key)
        {
          KeyThroughChild(Obj(members), i, path, f, key);
        }
      }
    }
  }

  lemma {:induction false} ArraysFound(v: Json, path: Path)
    ensures forall f :: f in Arrays(v, path) ==> Leads(v, path, f.path, Arr(f.items))
    decreases v, 0
  {
    match v
    case Arr(items) => ArraysOfItemsFound(items, path, 0);
    case Obj(members) => ArraysOfMembersFound(members, path, 0);
    case _ =>
  }

  lemma {:induction false} ArraysOfItemsFound(items: seq<Json>, path: Path, i: nat)
    requires i <= |items|
    ensures forall f :: f in ArraysOfItems(items, path, i) ==>
              Leads(Arr(items), path, f.path, Arr(f.items)) && |path| < |f.path|
    decreases items, |items| - i
  {
    if i < |items| {
      ArraysFound(items[i], path + [i]);
      ArraysOfItemsFound(items, path, i + 1);
      forall f | f in Arrays(items[i], path + [i])
        ensures Leads(Arr(items), path, f.path, Arr(f.items)) && |path| < |f.path|
      {
        LeadsThroughChild(Arr(items), i, path, f.path, Arr(f.items));
      }
    }
  }

  lemma {:induction false} ArraysOfMembersFound(members: seq<Member>, path: Path, i: nat)
    requires i <= |members|
    ensures forall f :: f in ArraysOfMembers(members, path, i) ==>
              Leads(Obj(members), path, f.path, Arr(f.items)) && |path| < |f.path|
    decreases members, |members| - i
  {
    if i < |members| {
      ArraysOfMembersFound(members, path, i + 1);
      var m := members[i];
      if m.key != SKIP_KEY {
        ArraysFound(m.value, path + [i]);
        forall f | f in Arrays(m.value, path + [i])
          ensures Leads(Obj(members), path, f.path, Arr(f.items)) && |path| < |f.path|
        {
          LeadsThroughChild(Obj(members), i, path, f.path, Arr(f.items));
        }
      }
    }
  }

  /** No array outside SKIP_KEY is missed. */
  lemma {:induction false} EveryArrayIsCollected(v: Json, path: Path, to: Path) returns (f: ArrayField)
    requires Open(v, to) && Reaches(v, to) && At(v, to).Arr?
    ensures f in Arrays(v, path) && f.path == path + to && Arr(f.items) == At(v, to)
    decreases |to|
  {
    if to == [] {
      f := ArrayField(path, v.items);
      assert path + to == path;
      assert f in [f] + ArraysOfItems(v.items, path, 0);
    } else {
      var i := to[0];
      f := EveryArrayIsCollected(Child(v, i), path + [i], to[1..]);
      assert path + [i] + to[1..] == path + to;
      if v.Arr? {
        ArrayItemIsCollected(v.items, path, 0, i, f);
      } else {
        ArrayMemberIsCollected(v.members, path, 0, i, f);
      }
    }
  }

  lemma {:induction false} ArrayItemIsCollected(items: seq<Json>, path: Path, from: nat, i: nat, f: ArrayField)
    requires from <= i < |items| && f in Arrays(items[i], path + [i])
    ensures f in ArraysOfItems(items, path, from)
    decreases i - from
  {
    if from < i {
      ArrayItemIsCollected(items, path, from + 1, i, f);
    }
    assert f in Arrays(items[from], path + [from]) || f in ArraysOfItems(items, path, from + 1);
  }

  lemma {:induction false} ArrayMemberIsCollected(members: seq<Member>, path: Path, from: nat, i: nat, f: ArrayField)
    requires from <= i < |members| && members[i].key != SKIP_KEY && f in Arrays(members[i].value, path + [i])
    ensures f in ArraysOfMembers(members, path, from)
    decreases i - from
  {
    if from < i {
      ArrayMemberIsCollected(members, path, from + 1, i, f);
    }
  }

  // ---- choosing ----

  predicate ContentLike(f: StringField) {
    f.key in CONTENT_KEYS
  }

  /** The first content-like field, at least half as large as the largest. */
  function FirstContentLike(sorted: seq<StringField>, largest: int): Option<StringField> {
    if sorted == [] then None
    else if ContentLike(sorted[0]) && sorted[0].Size() * 2 >= largest then Some(sorted[0])
    else FirstContentLike(sorted[1..], largest)
  }

  /** pickStringField: the largest string, unless a content-like one is at least half as large. */
  function PickStringField(fields: seq<StringField>): Option<StringField> {
    if fields == [] then None
    else
      var sorted := SortedDesc(fields, (f: StringField) => f.Size());
      SortedDescSorts(fields, (f: StringField) => f.Size());
      var content := FirstContentLike(sorted, sorted[0].Size());
      if content.Some? then content else Some(sorted[0])
  }

  function WidestArray(arrays: seq<ArrayField>): Option<ArrayField> {
    if arrays == [] then None
    else
      SortedDescSorts(arrays, (a: ArrayField) => a.Size());
      Some(SortedDesc(arrays, (a: ArrayField) => a.Size())[0])
  }

  lemma {:induction false} FirstContentLikeFound(sorted: seq<StringField>, largest: int)
    requires Descending(sorted, (f: StringField) => f.Size())
    ensures FirstContentLike(sorted, largest).None? ==>
              forall f :: f in sorted && ContentLike(f) ==> f.Size() * 2 < largest
    ensures FirstContentLike(sorted, largest).Some? ==>
              var r := FirstContentLike(sorted, largest).value;
              && r in sorted && ContentLike(r) && r.Size() * 2 >= largest
              && forall f :: f in sorted && ContentLike(f) ==> f.Size() <= r.Size()
  {
    if sorted != [] {
      DescendingHead(sorted, (f: StringField) => f.Size());
      assert sorted == [sorted[0]] + sorted[1..];
      if !(ContentLike(sorted[0]) && sorted[0].Size() * 2 >= largest) {
        FirstContentLikeFound(sorted[1..], largest);
        var r := FirstContentLike(sorted[1..], largest);
        assert r.Some? ==> r.value in sorted && r.value.Size() <= sorted[0].Size();
      }
    }
  }

  /** What the choice means: the largest content-like string if it is at least half of the largest, else the largest. */
  lemma PickMeaning(fields: seq<StringField>)
    ensures var r := PickStringField(fields);
            && (r.None? <==> fields == [])
            && (r.Some? ==>
                  && r.value in fields
                  && (forall f :: f in fields ==> f.Size() <= 2 * r.value.Size())
                  && (ContentLike(r.value) || forall f :: f in fields ==> f.Size() <= r.value.Size())
                  && forall f :: f in fields && ContentLike(f) ==>
                       f.Size() <= r.value.Size() && (ContentLike(r.value) || 2 * f.Size() < r.value.Size()))
  {
    var key := (f: StringField) => f.Size();
    if fields != [] {
      var sorted := SortedDesc(fields, key);
      SortedDescSorts(fields, key);
      SortedDescMembers(fields, key);
      FirstContentLikeFound(sorted, sorted[0].Size());
      DescendingHead(sorted, key);
      forall f | f in fields
        ensures f.Size() <= sorted[0].Size()
      {
        assert f in sorted && key(f) <= key(sorted[0]);
      }
      assert sorted[0] in fields;
    }
  }

  lemma WidestMeaning(arrays: seq<ArrayField>)
    ensures var r := WidestArray(arrays);
            && (r.None? <==> arrays == [])
            && (r.Some? ==> r.value in arrays && forall a :: a in arrays ==> a.Size() <= r.value.Size())
  {
    var key := (a: ArrayField) => a.Size();
    if arrays != [] {
      var sorted := SortedDesc(arrays, key);
      SortedDescSorts(arrays, key);
      SortedDescMembers(arrays, key);
      DescendingHead(sorted, key);
      forall a | a in arrays
        ensures a.Size() <= sorted[0].Size()
      {
        assert a in sorted && key(a) <= key(sorted[0]);
      }
      assert sorted[0] in arrays;
    }
  }
}
