/**
 * The presence registry of packages/store/src/presence.ts. The lease table is a
 * sequence of rows in insertion order, one per node; times are integers.
 */
module Presence {
  import opened Option
  import opened StableSort

  const HIGH_CONFIDENCE: real := 0.8
  const MANUAL := "manual"

  datatype Lease = Lease(nodeId: string, source: string, confidence: real, observedAt: int, expiresAt: int,
      pinned: bool)

  datatype Claim = Claim(nodeId: string, source: string, confidence: real, ttlMs: int, observedAt: int, pinned: bool)

  datatype Limits = Limits(ttlMs: int, manualTtlMs: int, ambiguityWindowMs: int)

  function Min(a: int, b: int): int {
    if a <= b then a else b
  }

  function Distance(a: int, b: int): int {
    if a >= b then a - b else b - a
  }

  // ---- the table ----

  ghost predicate OnePerNode(rows: seq<Lease>) {
    forall i, j :: 0 <= i < j < |rows| ==> rows[i].nodeId != rows[j].nodeId
  }

  /** The row of a node, or the number of rows when it has none. */
  function Find(rows: seq<Lease>, nodeId: string): (i: nat)
    ensures i <= |rows| && (i < |rows| ==> rows[i].nodeId == nodeId)
    ensures forall j :: 0 <= j < i ==> rows[j].nodeId != nodeId
  {
    if rows == [] || rows[0].nodeId == nodeId then 0 else 1 + Find(rows[1..], nodeId)
  }

  /** INSERT ... ON CONFLICT DO UPDATE: an existing row keeps its place. */
  function Upsert(rows: seq<Lease>, lease: Lease): seq<Lease> {
    var i := Find(rows, lease.nodeId);
    if i < |rows| then rows[i := lease] else rows + [lease]
  }

  function Without(rows: seq<Lease>, nodeId: string): seq<Lease> {
    if rows == [] then []
    else if rows[0].nodeId == nodeId then Without(rows[1..], nodeId)
    else [rows[0]] + Without(rows[1..], nodeId)
  }

  /** The rows that a sweep at `now` leaves. */
  function Live(rows: seq<Lease>, now: int): seq<Lease> {
    if rows == [] then []
    else if rows[0].expiresAt < now then Live(rows[1..], now)
    else [rows[0]] + Live(rows[1..], now)
  }

  /** How long a claim holds: clamped by its source, with a default for a missing duration. */
  function TtlOf(limits: Limits, claim: Claim): int {
    var requested := if claim.ttlMs > 0 then claim.ttlMs else if claim.source == MANUAL then limits.manualTtlMs
        else limits.ttlMs;
    if claim.source == MANUAL then Min(requested, limits.manualTtlMs * 6) else Min(requested, limits.ttlMs)
  }

  function Granted(limits: Limits, claim: Claim): Lease {
    Lease(claim.nodeId, claim.source, claim.confidence, claim.observedAt, claim.observedAt + TtlOf(limits, claim),
        claim.pinned)
  }

  /** Whatever duration is asked for, a lease runs at most ttl, or six manual ttls, and never backwards. */
  lemma LeasesAreShort(limits: Limits, claim: Claim)
    requires limits.ttlMs > 0 && limits.manualTtlMs > 0
    ensures var lease := Granted(limits, claim);
            lease.observedAt < lease.expiresAt
              <= lease.observedAt + if claim.source == MANUAL then 6 * limits.manualTtlMs else limits.ttlMs
  {
  }

  lemma {:induction false} LiveMeans(rows: seq<Lease>, now: int)
    ensures forall l :: l in Live(rows, now) <==> l in rows && l.expiresAt >= now
  {
    if rows != [] {
      LiveMeans(rows[1..], now);
      assert forall l :: l in rows <==> l == rows[0] || l in rows[1..];
    }
  }

  lemma {:induction false} WithoutMeans(rows: seq<Lease>, nodeId: string)
    ensures forall l :: l in Without(rows, nodeId) <==> l in rows && l.nodeId != nodeId
  {
    if rows != [] {
      WithoutMeans(rows[1..], nodeId);
      assert forall l :: l in rows <==> l == rows[0] || l in rows[1..];
    }
  }

  lemma UpsertKeepsOnePerNode(rows: seq<Lease>, lease: Lease)
    requires OnePerNode(rows)
    ensures OnePerNode(Upsert(rows, lease)) && lease in Upsert(rows, lease)
    ensures forall l: Lease :: l.nodeId != lease.nodeId ==> (l in Upsert(rows, lease) <==> l in rows)
  {
    var i := Find(rows, lease.nodeId);
    var rows' := Upsert(rows, lease);
    assert rows'[i] == lease;
    forall l: Lease | l.nodeId != lease.nodeId
      ensures l in rows' <==> l in rows
    {
      if l in rows {
        var k :| 0 <= k < |rows| && rows[k] == l;
        assert rows'[k] == l;
      }
    }
  }

  lemma {:induction false} LiveKeepsOnePerNode(rows: seq<Lease>, now: int)
    requires OnePerNode(rows)
    ensures OnePerNode(Live(rows, now))
  {
    if rows != [] {
      LiveKeepsOnePerNode(rows[1..], now);
      LiveMeans(rows[1..], now);
    }
  }

  lemma {:induction false} WithoutKeepsOnePerNode(rows: seq<Lease>, nodeId: string)
    requires OnePerNode(rows)
    ensures OnePerNode(Without(rows, nodeId))
  {
    if rows != [] {
      WithoutKeepsOnePerNode(rows[1..], nodeId);
      WithoutMeans(rows[1..], nodeId);
    }
  }

  // ---- the active node ----

  function Pins(live: seq<Lease>): seq<Lease> {
    if live == [] then [] else if live[0].pinned then [live[0]] + Pins(live[1..]) else Pins(live[1..])
  }

  function High(live: seq<Lease>): seq<Lease> {
    if live == [] then []
    else if live[0].confidence >= HIGH_CONFIDENCE then [live[0]] + High(live[1..])
    else High(live[1..])
  }

  /** The head of the rows sorted by confidence: the first of the most confident. */
  function MostConfident(pins: seq<Lease>): (l: Lease)
    requires pins != []
    ensures l in pins && forall m :: m in pins ==> m.confidence <= l.confidence
  {
    if |pins| == 1 then pins[0]
    else
      var rest := MostConfident(pins[1..]);
      assert pins == [pins[0]] + pins[1..];
      if pins[0].confidence >= rest.confidence then pins[0] else rest
  }

  function ByFreshness(leases: seq<Lease>): (sorted: seq<Lease>)
    ensures |sorted| == |leases|
  {
    SortedDescSorts(leases, (l: Lease) => l.observedAt);
    SortedDesc(leases, (l: Lease) => l.observedAt)
  }

  /** What activeNode picks among the live rows. */
  function Active(live: seq<Lease>, window: int): Option<Lease> {
    var pins, high := Pins(live), High(live);
    if live == [] then None
    else if pins != [] then Some(MostConfident(pins))
    else
      var sorted := ByFreshness(if high == [] then live else high);
      if |sorted| >= 2 && sorted[0].observedAt - sorted[1].observedAt <= window
          && sorted[1].confidence >= HIGH_CONFIDENCE
      then None else Some(sorted[0])
  }

  /** The router's own test: the two freshest high-confidence rows are close. */
  predicate Flagged(live: seq<Lease>, window: int) {
    var sorted := ByFreshness(High(live));
    |sorted| >= 2 && sorted[0].observedAt - sorted[1].observedAt <= window
  }

  /** Some freshest high-confidence lease has another high-confidence lease within the window. */
  ghost predicate Collision(live: seq<Lease>, window: int) {
    exists top, other ::
      && top in High(live) && other in High(live) && top != other
      && (forall l :: l in High(live) ==> l.observedAt <= top.observedAt)
      && top.observedAt - other.observedAt <= window
  }

  // ---- what the pick means ----

  lemma {:induction false} HighMeans(live: seq<Lease>)
    ensures forall l :: l in High(live) <==> l in live && l.confidence >= HIGH_CONFIDENCE
  {
    if live != [] {
      HighMeans(live[1..]);
      assert forall l :: l in live <==> l == live[0] || l in live[1..];
    }
  }

  lemma {:induction false} PinsMean(live: seq<Lease>)
    ensures forall l :: l in Pins(live) <==> l in live && l.pinned
  {
    if live != [] {
      PinsMean(live[1..]);
      assert forall l :: l in live <==> l == live[0] || l in live[1..];
    }
  }

  lemma {:induction false} HighKeepsOnePerNode(live: seq<Lease>)
    requires OnePerNode(live)
    ensures OnePerNode(High(live))
  {
    if live != [] {
      HighKeepsOnePerNode(live[1..]);
      HighMeans(live[1..]);
    }
  }

  lemma {:induction false} DistinctRows(rows: seq<Lease>, sorted: seq<Lease>)
    requires OnePerNode(rows) && multiset(sorted) == multiset(rows)
    ensures forall i, j :: 0 <= i < j < |sorted| ==> sorted[i] != sorted[j]
  {
    forall i, j | 0 <= i < j < |sorted|
      ensures sorted[i] != sorted[j]
    {
      if sorted[i] == sorted[j] {
        TwoOccurrences(sorted, i, j);
        OneOccurrence(rows, sorted[i]);
      }
    }
  }

  lemma TwoOccurrences(xs: seq<Lease>, i: nat, j: nat)
    requires i < j < |xs| && xs[i] == xs[j]
    ensures multiset(xs)[xs[i]] >= 2
  {
    assert xs == xs[..j] + [xs[j]] + xs[j + 1..];
    assert xs[i] in xs[..j];
    assert multiset(xs) == multiset(xs[..j]) + multiset{xs[j]} + multiset(xs[j + 1..]);
  }

  lemma {:induction false} OneOccurrence(rows: seq<Lease>, l: Lease)
    requires OnePerNode(rows)
    ensures multiset(rows)[l] <= 1
  {
    if rows != [] {
      OneOccurrence(rows[1..], l);
      assert rows == [rows[0]] + rows[1..];
      assert l == rows[0] ==> l !in rows[1..];
    }
  }

  /** The two freshest of at least two rows. */
  lemma FreshestTwo(rows: seq<Lease>)
    requires OnePerNode(rows) && rows != []
    ensures var sorted := ByFreshness(rows);
            && sorted[0] in rows && (forall l :: l in rows ==> l.observedAt <= sorted[0].observedAt)
            && (|rows| >= 2 ==> sorted[1] in rows && sorted[1] != sorted[0]
                                && forall l :: l in rows && l != sorted[0] ==> l.observedAt <= sorted[1].observedAt)
            && (|rows| < 2 ==> forall l :: l in rows ==> l == sorted[0])
  {
    var key := (l: Lease) => l.observedAt;
    var sorted := SortedDesc(rows, key);
    SortedDescSorts(rows, key);
    SortedDescMembers(rows, key);
    DistinctRows(rows, sorted);
    DescendingHead(sorted, key);
    forall l | l in rows && l != sorted[0]
      ensures |rows| >= 2 && l.observedAt <= sorted[1].observedAt
    {
      var j :| 0 <= j < |sorted| && sorted[j] == l;
      assert j == 1 || key(sorted[1]) >= key(sorted[j]);
    }
  }

  /** The router's test finds a collision exactly when there is one. */
  lemma FlaggedIsCollision(live: seq<Lease>, window: int)
    requires OnePerNode(live)
    ensures Flagged(live, window) <==> Collision(live, window)
  {
    var high := High(live);
    HighKeepsOnePerNode(live);
    if high != [] {
      FreshestTwo(high);
      var sorted := ByFreshness(high);
      if Collision(live, window) {
        var top, other :| top in high && other in high && top != other
                          && (forall l :: l in high ==> l.observedAt <= top.observedAt)
                          && top.observedAt - other.observedAt <= window;
        assert top.observedAt == sorted[0].observedAt;
        assert other == sorted[0] ==> top.observedAt <= sorted[1].observedAt;
      }
    }
  }

  /** Nothing is picked exactly when nothing is live, or nothing is pinned and the freshest confident leases collide. */
  lemma NoPickMeans(live: seq<Lease>, window: int)
    requires OnePerNode(live)
    ensures Active(live, window).None? <==> live == [] || (Pins(live) == [] && Collision(live, window))
  {
    var high := High(live);
    HighMeans(live);
    FlaggedIsCollision(live, window);
    if live != [] && Pins(live) == [] && high == [] {
      FreshestTwo(live);
    } else if high != [] {
      HighKeepsOnePerNode(live);
      FreshestTwo(high);
    }
  }

  /** A pick without pins is the freshest, and no other confident lease was observed within the window of it. */
  lemma PickIsUnambiguous(live: seq<Lease>, window: int, other: Lease)
    requires OnePerNode(live) && Pins(live) == [] && Active(live, window).Some?
    requires other in live && other != Active(live, window).value && other.confidence >= HIGH_CONFIDENCE
    ensures var pick := Active(live, window).value;
            && pick in live && pick.confidence >= HIGH_CONFIDENCE
            && pick.observedAt - other.observedAt > window && pick.observedAt >= other.observedAt
  {
    var high := High(live);
    HighMeans(live);
    HighKeepsOnePerNode(live);
    assert other in high;
    FreshestTwo(high);
  }

  /** A pinned lease wins outright: the pick is pinned and no pin is more confident. */
  lemma PinsWin(live: seq<Lease>, window: int, pin: Lease)
    requires pin in live && pin.pinned
    ensures Active(live, window).Some?
    ensures var pick := Active(live, window).value; pick in live && pick.pinned && pin.confidence <= pick.confidence
  {
    PinsMean(live);
    assert pin in Pins(live);
  }

  /**
   * Whatever is picked is in force: the most confident pin, or without pins a lease that no confident
   * lease is fresher than, nor any lease at all when none is confident.
   */
  lemma PickMeans(live: seq<Lease>, window: int)
    requires OnePerNode(live) && Active(live, window).Some?
    ensures var pick := Active(live, window).value;
            && pick in live
            && if exists pin :: pin in live && pin.pinned
               then pick.pinned && forall pin :: pin in live && pin.pinned ==> pin.confidence <= pick.confidence
               else forall m :: m in live && (m.confidence >= 0.8 || pick.confidence < 0.8) ==>
                      m.observedAt <= pick.observedAt
  {
    var high := High(live);
    PinsMean(live);
    HighMeans(live);
    HighKeepsOnePerNode(live);
    if Pins(live) == [] {
      assert forall pin :: pin in live && pin.pinned ==> pin in Pins(live);
      FreshestTwo(if high == [] then live else high);
    } else {
      assert Pins(live)[0] in Pins(live);
    }
  }

  /** Where some lease is confident, the pick is too. */
  lemma ThePickIsConfident(live: seq<Lease>, window: int, confident: Lease)
    requires OnePerNode(live) && Active(live, window).Some? && Pins(live) == []
    requires confident in live && confident.confidence >= 0.8
    ensures Active(live, window).value.confidence >= 0.8
  {
    HighMeans(live);
    HighKeepsOnePerNode(live);
    assert confident in High(live);
    FreshestTwo(High(live));
  }

  /** A stored lease is the claim: its node, source, confidence and pin, from when it was observed. */
  lemma ClaimsAreKept(limits: Limits, claim: Claim)
    ensures var lease := Granted(limits, claim);
            && lease.nodeId == claim.nodeId && lease.source == claim.source && lease.confidence == claim.confidence
            && lease.pinned == claim.pinned && lease.observedAt == claim.observedAt
  {
  }

  /** And it lasts as long as it asks for, up to the ceiling of its source; without a wish it gets the default. */
  lemma RequestedDurationsAreKept(limits: Limits, claim: Claim)
    requires limits.ttlMs > 0 && limits.manualTtlMs > 0
    ensures var duration := Granted(limits, claim).expiresAt - claim.observedAt;
            var ceiling := if claim.source == "manual" then 6 * limits.manualTtlMs else limits.ttlMs;
            && (0 < claim.ttlMs <= ceiling ==> duration == claim.ttlMs)
            && (claim.ttlMs > ceiling ==> duration == ceiling)
            && (claim.ttlMs <= 0 ==>
                  duration == if claim.source == "manual" then limits.manualTtlMs else limits.ttlMs)
  {
  }

  /** A recorded claim replaces the node's lease and leaves every other node's alone. */
  lemma RecordedClaims(rows: seq<Lease>, limits: Limits, claim: Claim, l: Lease)
    requires OnePerNode(rows)
    ensures var rows' := Upsert(rows, Granted(limits, claim));
            l in rows' <==> l == Granted(limits, claim) || (l in rows && l.nodeId != claim.nodeId)
  {
    var lease := Granted(limits, claim);
    var rows' := Upsert(rows, lease);
    UpsertKeepsOnePerNode(rows, lease);
    if l in rows' && l.nodeId == claim.nodeId {
      var i :| 0 <= i < |rows'| && rows'[i] == l;
      var j :| 0 <= j < |rows'| && rows'[j] == lease;
      assert i == j;
    }
  }

  class PresenceRegistry {
    const limits: Limits
    var rows: seq<Lease>

    constructor (limits: Limits)
      ensures this.limits == limits && rows == []
    {
      this.limits := limits;
      rows := [];
    }

    method RecordClaim(claim: Claim) returns (lease: Lease)
      requires OnePerNode(rows)
      modifies this`rows
      ensures lease == Granted(limits, claim)
      ensures rows == Upsert(old(rows), lease) && OnePerNode(rows)
    {
      var isManual := claim.source == MANUAL;
      var requested := if claim.ttlMs > 0 then claim.ttlMs else if isManual then limits.manualTtlMs else limits.ttlMs;
      var ttl := if isManual then Min(requested, limits.manualTtlMs * 6) else Min(requested, limits.ttlMs);
      lease := Lease(claim.nodeId, claim.source, claim.confidence, claim.observedAt, claim.observedAt + ttl,
          claim.pinned);
      UpsertKeepsOnePerNode(rows, lease);
      rows := Upsert(rows, lease);
    }

    method Release(nodeId: string)
      requires OnePerNode(rows)
      modifies this`rows
      ensures rows == Without(old(rows), nodeId) && OnePerNode(rows)
    {
      WithoutKeepsOnePerNode(rows, nodeId);
      rows := Without(rows, nodeId);
    }

    method Sweep(now: int)
      requires OnePerNode(rows)
      modifies this`rows
      ensures rows == Live(old(rows), now) && OnePerNode(rows)
    {
      LiveKeepsOnePerNode(rows, now);
      rows := Live(rows, now);
    }

    method LiveRows(now: int) returns (live: seq<Lease>)
      requires OnePerNode(rows)
      modifies this`rows
      ensures rows == live == Live(old(rows), now) && OnePerNode(rows)
    {
      Sweep(now);
      live := rows;
    }

    method ActiveNode(now: int) returns (pick: Option<Lease>)
      requires OnePerNode(rows)
      modifies this`rows
      ensures rows == Live(old(rows), now) && OnePerNode(rows)
      ensures pick == Active(rows, limits.ambiguityWindowMs)
    {
      var leases := LiveRows(now);
      if leases == [] {
        return None;
      }
      var pins := Pins(leases);
      if pins != [] {
        return Some(MostConfident(pins));
      }
      var recent := High(leases);
      if recent == [] {
        recent := leases;
      }
      recent := ByFreshness(recent);
      if |recent| >= 2 {
        SortedByFreshness(if High(leases) == [] then leases else High(leases));
        var gap := Distance(recent[0].observedAt, recent[1].observedAt);
        if gap <= limits.ambiguityWindowMs && recent[1].confidence >= HIGH_CONFIDENCE {
          return None;
        }
      }
      return Some(recent[0]);
    }
  }

  lemma SortedByFreshness(leases: seq<Lease>)
    ensures |leases| >= 2 ==> ByFreshness(leases)[0].observedAt >= ByFreshness(leases)[1].observedAt
  {
    var key := (l: Lease) => l.observedAt;
    SortedDescSorts(leases, key);
    if |leases| >= 2 {
      assert key(SortedDesc(leases, key)[0]) >= key(SortedDesc(leases, key)[1]);
    }
  }
}
