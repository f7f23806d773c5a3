/** The merged node registry: mergeRegistryEntries of packages/hub/src/ha.ts. */
module Registry {
  import opened Option

  /** What the reporting plane says about a node; details stands for its platform, versions, capabilities and health. */
  datatype Metadata = Metadata(displayName: string, status: string, details: string)

  datatype SyncNode = SyncNode(nodeId: string, metadata: Metadata, lastSeen: Option<int>, connected: bool)

  datatype HaNode = HaNode(metadata: Metadata, lastSeen: Option<int>, connected: bool, peer: string)

  type Overlay = map<string, HaNode>

  /** One peer's snapshot, with what was directly connected when it arrived. */
  datatype Batch = Batch(incoming: seq<SyncNode>, direct: set<string>, peerId: string)

  /** Later in time; a missing time sorts before every time. */
  predicate Newer(a: Option<int>, b: Option<int>) {
    a.Some? && (b.None? || a.value > b.value)
  }

  function Fresh(n: SyncNode, direct: bool, peerId: string): HaNode {
    HaNode(n.metadata, n.lastSeen, direct || n.connected, peerId)
  }

  /** The entry of one node after one report about it. */
  function MergedEntry(existing: Option<HaNode>, n: SyncNode, direct: bool, peerId: string): HaNode {
    match existing
    case None => Fresh(n, direct, peerId)
    case Some(e) =>
      if Newer(n.lastSeen, e.lastSeen) then Fresh(n, direct, peerId)
      else
        var e' := if n.connected && !e.connected then e.(connected := true, peer := peerId) else e;
        if direct then e'.(connected := true) else e'
  }

  function Lookup(current: Overlay, id: string): Option<HaNode> {
    if id in current then Some(current[id]) else None
  }

  function MergeOne(current: Overlay, n: SyncNode, direct: set<string>, peerId: string): Overlay {
    current[n.nodeId := MergedEntry(Lookup(current, n.nodeId), n, n.nodeId in direct, peerId)]
  }

  function MergeAll(current: Overlay, incoming: seq<SyncNode>, direct: set<string>, peerId: string): Overlay
    decreases |incoming|
  {
    if incoming == [] then current
    else
      var last := |incoming| - 1;
      MergeOne(MergeAll(current, incoming[..last], direct, peerId), incoming[last], direct, peerId)
  }

  /** A report counts as an update when it replaces the entry or newly connects it through the peer. */
  predicate Updates(existing: Option<HaNode>, n: SyncNode) {
    existing.Some? && (Newer(n.lastSeen, existing.value.lastSeen) || (n.connected && !existing.value.connected))
  }

  function AddedCount(current: Overlay, incoming: seq<SyncNode>, direct: set<string>, peerId: string): nat
    decreases |incoming|
  {
    if incoming == [] then 0
    else
      var last := |incoming| - 1;
      AddedCount(current, incoming[..last], direct, peerId)
      + if incoming[last].nodeId in MergeAll(current, incoming[..last], direct, peerId) then 0 else 1
  }

  function UpdatedCount(current: Overlay, incoming: seq<SyncNode>, direct: set<string>, peerId: string): nat
    decreases |incoming|
  {
    if incoming == [] then 0
    else
      var last := |incoming| - 1;
      var before := MergeAll(current, incoming[..last], direct, peerId);
      UpdatedCount(current, incoming[..last], direct, peerId)
      + if Updates(Lookup(before, incoming[last].nodeId), incoming[last]) then 1 else 0
  }

  /** The overlay map, updated in place snapshot by snapshot. */
  class NodeOverlay {
    var current: Overlay

    constructor ()
      ensures current == map[]
    {
      current := map[];
    }

    method Merge(incoming: seq<SyncNode>, direct: set<string>, peerId: string) returns (added: nat, updated: nat)
      modifies this
      ensures current == MergeAll(old(current), incoming, direct, peerId)
      ensures added == AddedCount(old(current), incoming, direct, peerId)
      ensures updated == UpdatedCount(old(current), incoming, direct, peerId)
    {
      added, updated := 0, 0;
      for i := 0 to |incoming|
        invariant current == MergeAll(old(current), incoming[..i], direct, peerId)
        invariant added == AddedCount(old(current), incoming[..i], direct, peerId)
        invariant updated == UpdatedCount(old(current), incoming[..i], direct, peerId)
      {
        var n := incoming[i];
        var isDirect := n.nodeId in direct;
        assert incoming[..i + 1][..i] == incoming[..i];
        if n.nodeId !in current {
          current := current[n.nodeId := HaNode(n.metadata, n.lastSeen, isDirect || n.connected, peerId)];
          added := added + 1;
        } else {
          var existing := current[n.nodeId];
          if Newer(n.lastSeen, existing.lastSeen) {
            existing := HaNode(n.metadata, n.lastSeen, isDirect || n.connected, peerId);
            updated := updated + 1;
          } else if n.connected && !existing.connected {
            existing := existing.(connected := true, peer := peerId);
            updated := updated + 1;
          }
          if isDirect {
            existing := existing.(connected := true);
          }
          current := current[n.nodeId := existing];
        }
      }
      assert incoming[..|incoming|] == incoming;
    }
  }

  // ---- last writer wins ----

  /** A report about a node: what was seen and when. */
  datatype Report = Report(metadata: Metadata, lastSeen: Option<int>)

  function ReportOf(n: SyncNode): Report {
    Report(n.metadata, n.lastSeen)
  }

  function Kept(e: HaNode): Report {
    Report(e.metadata, e.lastSeen)
  }

  /** Every report about a node: the entry already held, and the incoming ones. */
  ghost predicate Reported(current: Overlay, incoming: seq<SyncNode>, id: string, r: Report) {
    || (id in current && Kept(current[id]) == r)
    || (exists n :: n in incoming && n.nodeId == id && ReportOf(n) == r)
  }

  /**
   * The merged overlay holds, for every node ever reported, one of the reports about it that no
   * other report is newer than.
   */
  ghost predicate HoldsNewest(result: Overlay, current: Overlay, incoming: seq<SyncNode>) {
    forall id :: HoldsNewestOf(result, current, incoming, id)
  }

  ghost predicate HoldsNewestOf(result: Overlay, current: Overlay, incoming: seq<SyncNode>, id: string) {
    && (id in result <==> exists r :: Reported(current, incoming, id, r))
    && (id in result ==>
          && Reported(current, incoming, id, Kept(result[id]))
          && forall r :: Reported(current, incoming, id, r) ==> !Newer(r.lastSeen, result[id].lastSeen))
  }

  lemma {:induction false} MergeKeepsNewest(current: Overlay, incoming: seq<SyncNode>, direct: set<string>,
      peerId: string)
    ensures HoldsNewest(MergeAll(current, incoming, direct, peerId), current, incoming)
    decreases |incoming|
  {
    if incoming == [] {
      forall id
        ensures HoldsNewestOf(current, current, incoming, id)
      {
        assert id in current ==> Reported(current, incoming, id, Kept(current[id]));
      }
    } else {
      var last := |incoming| - 1;
      MergeKeepsNewest(current, incoming[..last], direct, peerId);
      assert incoming == incoming[..last] + [incoming[last]];
      OneMoreReport(MergeAll(current, incoming[..last], direct, peerId), current, incoming[..last], incoming[last],
          direct, peerId);
    }
  }

  lemma OneMoreReport(result: Overlay, current: Overlay, incoming: seq<SyncNode>, n: SyncNode, direct: set<string>,
      peerId: string)
    requires HoldsNewest(result, current, incoming)
    ensures HoldsNewest(MergeOne(result, n, direct, peerId), current, incoming + [n])
  {
    forall id
      ensures HoldsNewestOf(MergeOne(result, n, direct, peerId), current, incoming + [n], id)
    {
      OneMoreReportOf(result, current, incoming, n, direct, peerId, id);
    }
  }

  lemma OneMoreReportOf(result: Overlay, current: Overlay, incoming: seq<SyncNode>, n: SyncNode, direct: set<string>,
      peerId: string, id: string)
    requires HoldsNewestOf(result, current, incoming, id)
    ensures HoldsNewestOf(MergeOne(result, n, direct, peerId), current, incoming + [n], id)
  {
    ReportsGrow(current, incoming, n, id);
    if id == n.nodeId {
      assert Reported(current, incoming + [n], id, ReportOf(n));
    } else if id in result {
      assert Reported(current, incoming + [n], id, Kept(result[id]));
    }
  }

  lemma ReportsGrow(current: Overlay, incoming: seq<SyncNode>, n: SyncNode, id: string)
    ensures forall r :: Reported(current, incoming + [n], id, r)
                   <==> Reported(current, incoming, id, r) || (n.nodeId == id && ReportOf(n) == r)
  {
    forall r
      ensures Reported(current, incoming + [n], id, r)
         <==> Reported(current, incoming, id, r) || (n.nodeId == id && ReportOf(n) == r)
    {
      assert n in incoming + [n];
      forall m | m in incoming
        ensures m in incoming + [n]
      {
      }
    }
  }

  function MergeBatches(current: Overlay, batches: seq<Batch>): Overlay
    decreases |batches|
  {
    if batches == [] then current
    else
      var last := |batches| - 1;
      MergeAll(MergeBatches(current, batches[..last]), batches[last].incoming, batches[last].direct,
          batches[last].peerId)
  }

  function Flat(batches: seq<Batch>): seq<SyncNode>
    decreases |batches|
  {
    if batches == [] then [] else Flat(batches[..|batches| - 1]) + batches[|batches| - 1].incoming
  }

  lemma ReportsCompose(middle: Overlay, current: Overlay, first: seq<SyncNode>, result: Overlay, second: seq<SyncNode>)
    requires HoldsNewest(middle, current, first) && HoldsNewest(result, middle, second)
    ensures HoldsNewest(result, current, first + second)
  {
    forall id
      ensures HoldsNewestOf(result, current, first + second, id)
    {
      assert HoldsNewestOf(middle, current, first, id) && HoldsNewestOf(result, middle, second, id);
      ReportsComposeOf(middle, current, first, result, second, id);
    }
  }

  lemma ReportsComposeOf(middle: Overlay, current: Overlay, first: seq<SyncNode>, result: Overlay,
      second: seq<SyncNode>, id: string)
    requires HoldsNewestOf(middle, current, first, id) && HoldsNewestOf(result, middle, second, id)
    ensures HoldsNewestOf(result, current, first + second, id)
  {
    ReportsConcat(current, first, second, id);
    ReportsConcat(middle, [], second, id);
    if id in middle {
      assert Reported(middle, second, id, Kept(middle[id]));
      assert Reported(current, first + second, id, Kept(middle[id]));
    }
    if id in result {
      assert Reported(middle, second, id, Kept(result[id]));
      assert Reported(current, first + second, id, Kept(result[id]));
    }
    if r :| Reported(current, first + second, id, r) {
      if Reported(current, first, id, r) {
        assert id in middle;
      } else {
        assert Reported(middle, second, id, r);
      }
      assert id in result;
    }
  }

  lemma ReportsConcat(current: Overlay, first: seq<SyncNode>, second: seq<SyncNode>, id: string)
    ensures forall r :: Reported(current, first + second, id, r)
                   <==> Reported(current, first, id, r)
                        || (exists n :: n in second && n.nodeId == id && ReportOf(n) == r)
  {
    forall r
      ensures Reported(current, first + second, id, r)
         <==> Reported(current, first, id, r) || (exists n :: n in second && n.nodeId == id && ReportOf(n) == r)
    {
      assert forall n :: n in first + second <==> n in first || n in second;
    }
  }

  lemma {:induction false} BatchesKeepNewest(current: Overlay, batches: seq<Batch>)
    ensures HoldsNewest(MergeBatches(current, batches), current, Flat(batches))
    decreases |batches|
  {
    if batches == [] {
      MergeKeepsNewest(current, [], {}, "");
    } else {
      var last := |batches| - 1;
      var b := batches[last];
      var middle := MergeBatches(current, batches[..last]);
      BatchesKeepNewest(current, batches[..last]);
      MergeKeepsNewest(middle, b.incoming, b.direct, b.peerId);
      ReportsCompose(middle, current, Flat(batches[..last]), MergeBatches(current, batches), b.incoming);
    }
  }

  /** No two different reports about one node carry the same time. */
  ghost predicate DistinctTimes(current: Overlay, incoming: seq<SyncNode>) {
    forall id, r, s ::
      Reported(current, incoming, id, r) && Reported(current, incoming, id, s) && r.lastSeen == s.lastSeen ==> r == s
  }

  lemma NewestIsOne(m: Overlay, t: Overlay, current: Overlay, reports: seq<SyncNode>, id: string)
    requires HoldsNewest(m, current, reports) && HoldsNewest(t, current, reports) && DistinctTimes(current, reports)
    ensures id in m <==> id in t
    ensures id in m ==> Kept(m[id]) == Kept(t[id])
  {
    assert HoldsNewestOf(m, current, reports, id) && HoldsNewestOf(t, current, reports, id);
  }

  lemma SameReports(m: Overlay, current: Overlay, mine: seq<SyncNode>, theirs: seq<SyncNode>)
    requires HoldsNewest(m, current, mine) && forall n :: n in mine <==> n in theirs
    ensures HoldsNewest(m, current, theirs)
  {
    forall id
      ensures HoldsNewestOf(m, current, theirs, id)
    {
      assert HoldsNewestOf(m, current, mine, id);
      assert forall r :: Reported(current, mine, id, r) <==> Reported(current, theirs, id, r);
    }
  }

  lemma NewestAgree(m: Overlay, t: Overlay, current: Overlay, reports: seq<SyncNode>)
    requires HoldsNewest(m, current, reports) && HoldsNewest(t, current, reports) && DistinctTimes(current, reports)
    ensures forall id :: (id in m <==> id in t) && (id in m ==> Kept(m[id]) == Kept(t[id]))
  {
    forall id
      ensures (id in m <==> id in t) && (id in m ==> Kept(m[id]) == Kept(t[id]))
    {
      NewestIsOne(m, t, current, reports, id);
    }
  }

  lemma TheirsHoldsMine(current: Overlay, mine: seq<Batch>, theirs: seq<Batch>)
    requires forall n :: n in Flat(mine) <==> n in Flat(theirs)
    ensures HoldsNewest(MergeBatches(current, theirs), current, Flat(mine))
  {
    BatchesKeepNewest(current, theirs);
    SameReports(MergeBatches(current, theirs), current, Flat(theirs), Flat(mine));
  }

  /** Any order, grouping and repetition of the same reports ends with the same nodes and the same metadata. */
  lemma MergesConverge(current: Overlay, mine: seq<Batch>, theirs: seq<Batch>)
    requires forall n :: n in Flat(mine) <==> n in Flat(theirs)
    requires DistinctTimes(current, Flat(mine))
    ensures var m, t := MergeBatches(current, mine), MergeBatches(current, theirs);
            forall id :: (id in m <==> id in t) && (id in m ==> Kept(m[id]) == Kept(t[id]))
  {
    BatchesKeepNewest(current, mine);
    TheirsHoldsMine(current, mine, theirs);
    NewestAgree(MergeBatches(current, mine), MergeBatches(current, theirs), current, Flat(mine));
  }

  // ---- re-merging ----

  /** Merging this report again would change nothing. */
  predicate Settled(current: Overlay, n: SyncNode, direct: set<string>) {
    && n.nodeId in current
    && !Newer(n.lastSeen, current[n.nodeId].lastSeen)
    && (n.connected || n.nodeId in direct ==> current[n.nodeId].connected)
  }

  predicate UniqueIds(incoming: seq<SyncNode>) {
    forall i, j :: 0 <= i < j < |incoming| ==> incoming[i].nodeId != incoming[j].nodeId
  }

  lemma {:induction false} SettledReportsChangeNothing(current: Overlay, incoming: seq<SyncNode>, direct: set<string>,
      peerId: string)
    requires forall n :: n in incoming ==> Settled(current, n, direct)
    ensures MergeAll(current, incoming, direct, peerId) == current
    ensures AddedCount(current, incoming, direct, peerId) == UpdatedCount(current, incoming, direct, peerId) == 0
    decreases |incoming|
  {
    if incoming != [] {
      SettledReportsChangeNothing(current, incoming[..|incoming| - 1], direct, peerId);
      assert incoming[|incoming| - 1] in incoming;
    }
  }

  lemma {:induction false} MergingSettles(current: Overlay, incoming: seq<SyncNode>, direct: set<string>,
      peerId: string)
    requires UniqueIds(incoming)
    ensures forall i :: 0 <= i < |incoming| ==>
              Settled(MergeAll(current, incoming, direct, peerId), incoming[i], direct)
    decreases |incoming|
  {
    if incoming != [] {
      var last := |incoming| - 1;
      MergingSettles(current, incoming[..last], direct, peerId);
      forall i | 0 <= i < last
        ensures Settled(MergeAll(current, incoming, direct, peerId), incoming[i], direct)
      {
        assert incoming[..last][i] == incoming[i];
      }
    }
  }

  /** A snapshot that names each node once can be merged again, by whichever peer, without any change or count. */
  lemma RemergingASnapshot(current: Overlay, incoming: seq<SyncNode>, direct: set<string>, peerId: string,
      again: string)
    requires UniqueIds(incoming)
    ensures var once := MergeAll(current, incoming, direct, peerId);
            && MergeAll(once, incoming, direct, again) == once
            && AddedCount(once, incoming, direct, again) == UpdatedCount(once, incoming, direct, again) == 0
  {
    MergingSettles(current, incoming, direct, peerId);
    SettledReportsChangeNothing(MergeAll(current, incoming, direct, peerId), incoming, direct, again);
  }

  /** Naming a node twice breaks that: the stale second mention flips connected back on. */
  lemma RemergingADuplicateChanges(m: Metadata)
    ensures var snapshot := [SyncNode("n", m, Some(1), true), SyncNode("n", m, Some(2), false)];
            var once := MergeAll(map[], snapshot, {}, "p");
            !once["n"].connected && MergeAll(once, snapshot, {}, "p")["n"].connected
  {
    var stale, newer := SyncNode("n", m, Some(1), true), SyncNode("n", m, Some(2), false);
    var snapshot := [stale, newer];
    assert snapshot[..1] == [stale];
    var first := MergeAll(map[], [stale], {}, "p");
    assert [stale][..0] == [];
    assert MergeAll(map[], [], {}, "p") == map[];
    assert first == MergeOne(map[], stale, {}, "p");
    assert first == map["n" := HaNode(m, Some(1), true, "p")];
    var once := MergeAll(map[], snapshot, {}, "p");
    assert once["n"] == HaNode(m, Some(2), false, "p");
    assert MergeAll(once, [stale], {}, "p") == MergeOne(once, stale, {}, "p");
  }

  // ---- whom a node is reached through, and what was counted ----

  /** Later in time, or timed where the other is not. */
  predicate Later(a: Option<int>, b: Option<int>) {
    if b.None? then a.Some? else a.Some? && a.value > b.value
  }

  lemma {:induction false} OthersStay(current: Overlay, incoming: seq<SyncNode>, direct: set<string>, peerId: string,
      id: string)
    requires forall n :: n in incoming ==> n.nodeId != id
    ensures var merged := MergeAll(current, incoming, direct, peerId);
            (id in merged <==> id in current) && (id in current ==> merged[id] == current[id])
    decreases |incoming|
  {
    if incoming != [] {
      OthersStay(current, incoming[..|incoming| - 1], direct, peerId, id);
      assert incoming[|incoming| - 1] in incoming;
    }
  }

  /**
   * Where a snapshot names each node once: a node is reached through the sender exactly when the sender
   * brought it, had the later report, or found it connected where nobody else did; and it counts as
   * connected when the sender or this plane itself reaches it.
   */
  lemma {:induction false} ReachedThrough(current: Overlay, incoming: seq<SyncNode>, direct: set<string>,
      peerId: string, i: nat)
    requires UniqueIds(incoming) && i < |incoming|
    ensures var n := incoming[i];
            var merged := MergeAll(current, incoming, direct, peerId);
            && n.nodeId in merged
            && var entry := merged[n.nodeId];
               if n.nodeId !in current || Later(n.lastSeen, current[n.nodeId].lastSeen)
               then entry == HaNode(n.metadata, n.lastSeen, n.nodeId in direct || n.connected, peerId)
               else
                 var held := current[n.nodeId];
                 entry == HaNode(held.metadata, held.lastSeen, held.connected || n.connected || n.nodeId in direct,
                                 if n.connected && !held.connected then peerId else held.peer)
    decreases |incoming|
  {
    var last := |incoming| - 1;
    var earlier := incoming[..last];
    if i < last {
      ReachedThrough(current, earlier, direct, peerId, i);
      assert earlier[i] == incoming[i] && incoming[last].nodeId != incoming[i].nodeId;
    } else {
      OthersStay(current, earlier, direct, peerId, incoming[last].nodeId);
    }
  }

  /** What was added is what the overlay grew by, for every snapshot. */
  lemma {:induction false} AddedIsGrowth(current: Overlay, incoming: seq<SyncNode>, direct: set<string>, peerId: string)
    ensures |MergeAll(current, incoming, direct, peerId)|
         == |current| + AddedCount(current, incoming, direct, peerId)
    decreases |incoming|
  {
    if incoming != [] {
      var last := |incoming| - 1;
      var before := MergeAll(current, incoming[..last], direct, peerId);
      AddedIsGrowth(current, incoming[..last], direct, peerId);
      var entry := MergedEntry(Lookup(before, incoming[last].nodeId), incoming[last], incoming[last].nodeId in direct,
                               peerId);
      GrowsByOne(before, incoming[last].nodeId, entry);
    }
  }

  lemma GrowsByOne(m: Overlay, id: string, entry: HaNode)
    ensures |m[id := entry]| == |m| + if id in m then 0 else 1
  {
    assert m[id := entry].Keys == m.Keys + {id};
    KeysAreAsMany(m);
    KeysAreAsMany(m[id := entry]);
  }

  lemma KeysAreAsMany(m: Overlay)
    ensures |m| == |m.Keys|
  {
  }

  /** The reports of a snapshot that are news about a node already held. */
  function News(current: Overlay, incoming: seq<SyncNode>): nat
    decreases |incoming|
  {
    if incoming == [] then 0
    else
      var n := incoming[|incoming| - 1];
      News(current, incoming[..|incoming| - 1])
      + if n.nodeId in current
           && (Later(n.lastSeen, current[n.nodeId].lastSeen) || (n.connected && !current[n.nodeId].connected))
        then 1 else 0
  }

  /** What was updated is what was news, where a snapshot names each node once. */
  lemma {:induction false} UpdatedIsNews(current: Overlay, incoming: seq<SyncNode>, direct: set<string>,
      peerId: string)
    requires UniqueIds(incoming)
    ensures UpdatedCount(current, incoming, direct, peerId) == News(current, incoming)
    decreases |incoming|
  {
    if incoming != [] {
      var last := |incoming| - 1;
      UpdatedIsNews(current, incoming[..last], direct, peerId);
      OthersStay(current, incoming[..last], direct, peerId, incoming[last].nodeId);
    }
  }
}
