/**
 * Router.route of packages/hub/src/router.ts: explicit target, session owner,
 * workspace owner, presence, default node, no route - in this order.
 */
module Router {
  import opened Option
  import opened Presence

  const ONLINE := "online"

  datatype Danger = ReadOnly | Write | Destructive

  datatype RouteOutcome = Explicit | SessionOwner | WorkspaceOwner | ByPresence | DefaultLocal | NoRoute

  datatype Action = Forward | Reject

  datatype ErrorCode = UnknownNode | ConfirmationRequired | NoRouteFound

  datatype Node = Node(nodeId: string, status: string, lastSeen: Option<int>)

  /** The request; an absent reference is the empty string, as both are falsy. */
  datatype Request = Request(targetNode: string, sessionId: string, workspace: string, danger: Danger)

  /** What the decision reports about presence. */
  datatype Evidence = Evidence(presence: Option<seq<Lease>>, presenceAmbiguous: bool)

  datatype Decision = Decision(outcome: RouteOutcome, nodeId: string, candidates: seq<string>, evidence: Evidence,
                               isExplicit: bool, confirmationRequired: bool)

  datatype Route = Route(decision: Decision, action: Action, errorCode: Option<ErrorCode>)

  /** The clock readings of one call, in the order they are taken: at entry, for the evidence, for health. */
  datatype Clocks = Clocks(now: int, evidence: int, health: int)

  /** The tables the router looks things up in. */
  datatype Tables = Tables(nodes: map<string, Node>, sessions: map<string, string>, workspaces: map<string, string>,
                           defaultNodeId: string, leaseMs: int)

  predicate Healthy(node: Node, leaseMs: int, now: int) {
    node.status == ONLINE && node.lastSeen.Some? && now - node.lastSeen.value <= leaseMs
  }

  predicate Known(t: map<string, string>, key: string) {
    key != "" && key in t
  }

  /** Every node is filed under its own id. */
  predicate Keyed(nodes: map<string, Node>) {
    forall id :: id in nodes ==> nodes[id].nodeId == id
  }

  /** The target by precedence, given what presence picks. */
  function Target(t: Tables, req: Request, active: Option<Lease>, health: int): (RouteOutcome, string) {
    if req.targetNode != "" then
      if req.targetNode in t.nodes then (Explicit, req.targetNode) else (NoRoute, "")
    else if Known(t.sessions, req.sessionId) then (SessionOwner, t.sessions[req.sessionId])
    else if Known(t.workspaces, req.workspace) then (WorkspaceOwner, t.workspaces[req.workspace])
    else if active.Some? then (ByPresence, active.value.nodeId)
    else if DefaultReady(t, health) then (DefaultLocal, t.defaultNodeId)
    else (NoRoute, "")
  }

  /** The presence lookup is reached: nothing pinned the operation to a node. */
  predicate FallsThrough(t: Tables, req: Request) {
    req.targetNode == "" && !Known(t.sessions, req.sessionId) && !Known(t.workspaces, req.workspace)
  }

  /** A healthy default node stands ready. */
  predicate DefaultReady(t: Tables, health: int) {
    t.defaultNodeId in t.nodes && Healthy(t.nodes[t.defaultNodeId], t.leaseMs, health)
  }

  /** What one call reports about presence, from the rows it finds. */
  function EvidenceOf(t: Tables, rows: seq<Lease>, window: int, req: Request, at: Clocks): Evidence {
    if !FallsThrough(t, req) then Evidence(None, false)
    else Evidence(Some(Live(Live(rows, at.now), at.evidence)),
                  Active(Live(rows, at.now), window).None? && FlagOf(rows, at.now, at.evidence, window))
  }

  /** The whole route: target, action, confirmation, candidates and evidence. */
  function RouteOf(t: Tables, rows: seq<Lease>, window: int, req: Request, at: Clocks): Route {
    var (outcome, nodeId) := Target(t, req, Active(Live(rows, at.now), window), at.health);
    var evidence := EvidenceOf(t, rows, window, req, at);
    var direct := req.targetNode != "";
    if outcome != NoRoute then
      Route(Decision(outcome, nodeId, [nodeId], evidence, direct, false), Forward, None)
    else
      Route(Decision(NoRoute, "", [], evidence, direct, !direct && req.danger != ReadOnly), Reject,
            Some(if direct then UnknownNode else if req.danger == ReadOnly then NoRouteFound else ConfirmationRequired))
  }

  class Router {
    const tables: Tables
    const presence: PresenceRegistry

    constructor (tables: Tables, presence: PresenceRegistry)
      ensures this.tables == tables && this.presence == presence
    {
      this.tables := tables;
      this.presence := presence;
    }

    /** The route, while the lease table is swept on the way. */
    method Resolve(req: Request, at: Clocks) returns (route: Route)
      requires OnePerNode(presence.rows) && Keyed(tables.nodes)
      modifies presence`rows
      ensures OnePerNode(presence.rows)
      ensures route == RouteOf(tables, old(presence.rows), presence.limits.ambiguityWindowMs, req, at)
    {
      var evidence := Evidence(None, false);
      if req.targetNode != "" {
        if req.targetNode !in tables.nodes {
          return Route(Decision(NoRoute, "", [], evidence, true, false), Reject, Some(UnknownNode));
        }
        var node := tables.nodes[req.targetNode];
        return Route(Decision(Explicit, node.nodeId, [node.nodeId], evidence, true, false), Forward, None);
      }
      if Known(tables.sessions, req.sessionId) {
        return Decide(SessionOwner, tables.sessions[req.sessionId], evidence);
      }
      if Known(tables.workspaces, req.workspace) {
        return Decide(WorkspaceOwner, tables.workspaces[req.workspace], evidence);
      }
      var active := presence.ActiveNode(at.now);
      var leases := presence.LiveRows(at.evidence);
      evidence := Evidence(Some(leases), false);
      if active.Some? {
        return Decide(ByPresence, active.value.nodeId, evidence);
      }
      var ambiguous := IsPresenceAmbiguous(at.now);
      evidence := Evidence(Some(leases), ambiguous);
      if tables.defaultNodeId in tables.nodes
          && Healthy(tables.nodes[tables.defaultNodeId], tables.leaseMs, at.health) {
        return Decide(DefaultLocal, tables.nodes[tables.defaultNodeId].nodeId, evidence);
      }
      if req.danger == Destructive || req.danger == Write {
        return Route(Decision(NoRoute, "", [], evidence, false, true), Reject, Some(ConfirmationRequired));
      }
      return Route(Decision(NoRoute, "", [], evidence, false, false), Reject, Some(NoRouteFound));
    }

    static function Decide(outcome: RouteOutcome, nodeId: string, evidence: Evidence): Route {
      Route(Decision(outcome, nodeId, [nodeId], evidence, false, false), Forward, None)
    }

    /** The flag is recomputed from a fresh sweep. */
    method IsPresenceAmbiguous(now: int) returns (ambiguous: bool)
      requires OnePerNode(presence.rows)
      modifies presence`rows
      ensures presence.rows == Live(old(presence.rows), now) && OnePerNode(presence.rows)
      ensures ambiguous == Flagged(presence.rows, presence.limits.ambiguityWindowMs)
    {
      var live := presence.LiveRows(now);
      var high := High(live);
      if |high| < 2 {
        return false;
      }
      SortedByFreshness(high);
      high := ByFreshness(high);
      return Distance(high[0].observedAt, high[1].observedAt) <= presence.limits.ambiguityWindowMs;
    }
  }

  // ---- who takes precedence ----

  /** The operation goes to this node, unconfirmed, on this ground. */
  predicate ForwardedTo(route: Route, nodeId: string, ground: RouteOutcome) {
    && route.action == Forward && route.errorCode.None? && !route.decision.confirmationRequired
    && route.decision.nodeId == nodeId && route.decision.candidates == [nodeId] && route.decision.outcome == ground
  }

  predicate RejectedWith(route: Route, code: ErrorCode, confirmation: bool) {
    && route.action == Reject && route.errorCode == Some(code) && route.decision.confirmationRequired == confirmation
    && route.decision.nodeId == "" && route.decision.candidates == [] && route.decision.outcome == NoRoute
  }

  /** A named target is taken at its word, whatever owners, presence and default say: known or not at all. */
  lemma TheNamedTargetWins(t: Tables, rows: seq<Lease>, window: int, req: Request, at: Clocks)
    requires req.targetNode != ""
    ensures var route := RouteOf(t, rows, window, req, at);
            && route.decision.isExplicit && route.decision.evidence == Evidence(None, false)
            && if req.targetNode in t.nodes then ForwardedTo(route, req.targetNode, Explicit)
               else RejectedWith(route, UnknownNode, false)
  {
  }

  /** Then the session's owner, whatever workspace, presence and default say. */
  lemma TheSessionOwnerIsNext(t: Tables, rows: seq<Lease>, window: int, req: Request, at: Clocks)
    requires req.targetNode == "" && req.sessionId != "" && req.sessionId in t.sessions
    ensures var route := RouteOf(t, rows, window, req, at);
            && ForwardedTo(route, t.sessions[req.sessionId], SessionOwner)
            && !route.decision.isExplicit && route.decision.evidence == Evidence(None, false)
  {
  }

  /** Then the workspace's owner, whatever presence and default say. */
  lemma TheWorkspaceOwnerIsNext(t: Tables, rows: seq<Lease>, window: int, req: Request, at: Clocks)
    requires req.targetNode == "" && (req.sessionId == "" || req.sessionId !in t.sessions)
    requires req.workspace != "" && req.workspace in t.workspaces
    ensures var route := RouteOf(t, rows, window, req, at);
            && ForwardedTo(route, t.workspaces[req.workspace], WorkspaceOwner)
            && !route.decision.isExplicit && route.decision.evidence == Evidence(None, false)
  {
  }

  /** No target is named, and nobody owns the session or the workspace. */
  predicate Unowned(t: Tables, req: Request) {
    && req.targetNode == "" && (req.sessionId == "" || req.sessionId !in t.sessions)
    && (req.workspace == "" || req.workspace !in t.workspaces)
  }

  /** A lease in force: the most confident pin, or where nothing is pinned one that no rival is fresher than. */
  ghost predicate Present(rows: seq<Lease>, now: int, l: Lease) {
    && l in rows && l.expiresAt >= now
    && if exists pin :: pin in rows && pin.expiresAt >= now && pin.pinned
       then
         l.pinned && forall pin :: pin in rows && pin.expiresAt >= now && pin.pinned ==> pin.confidence <= l.confidence
       else forall m :: m in rows && m.expiresAt >= now && (m.confidence >= 0.8 || l.confidence < 0.8) ==>
              m.observedAt <= l.observedAt
  }

  /** Then, unless nobody is present or two are, the node of such a lease, whatever the default says. */
  lemma PresenceIsNext(t: Tables, rows: seq<Lease>, window: int, req: Request, at: Clocks) returns (pick: Lease)
    requires OnePerNode(rows) && Unowned(t, req) && !NobodyPresent(Live(rows, at.now), window)
    ensures Present(rows, at.now, pick)
    ensures var route := RouteOf(t, rows, window, req, at);
            ForwardedTo(route, pick.nodeId, ByPresence) && !route.decision.isExplicit
                && !route.decision.evidence.presenceAmbiguous
  {
    LiveKeepsOnePerNode(rows, at.now);
    NoPickMeans(Live(rows, at.now), window);
    pick := Active(Live(rows, at.now), window).value;
    LiveMeans(rows, at.now);
    PickMeans(Live(rows, at.now), window);
  }

  /** Last the default node, and only a healthy one: online, and heard from within the lease. */
  lemma TheHealthyDefaultIsLast(t: Tables, rows: seq<Lease>, window: int, req: Request, at: Clocks)
    requires OnePerNode(rows) && Unowned(t, req) && NobodyPresent(Live(rows, at.now), window)
    ensures var route, id := RouteOf(t, rows, window, req, at), t.defaultNodeId;
            && !route.decision.isExplicit
            && if id in t.nodes && t.nodes[id].status == "online" && t.nodes[id].lastSeen.Some?
                  && at.health - t.nodes[id].lastSeen.value <= t.leaseMs
               then ForwardedTo(route, id, DefaultLocal)
               else if req.danger == ReadOnly then RejectedWith(route, NoRouteFound, false)
               else RejectedWith(route, ConfirmationRequired, true)
  {
    LiveKeepsOnePerNode(rows, at.now);
    NoPickMeans(Live(rows, at.now), window);
  }

  /** Whoever gets that far is told which leases outlast both clock readings. */
  lemma TheEvidenceIsWhatIsLive(t: Tables, rows: seq<Lease>, window: int, req: Request, at: Clocks, l: Lease)
    requires Unowned(t, req)
    ensures var evidence := RouteOf(t, rows, window, req, at).decision.evidence;
            evidence.presence.Some? &&
            (l in evidence.presence.value <==> l in rows && l.expiresAt >= at.now && l.expiresAt >= at.evidence)
  {
    LiveMeans(rows, at.now);
    LiveMeans(Live(rows, at.now), at.evidence);
  }

  // ---- the flag and the pick ----

  function Later(a: int, b: int): int {
    if a >= b then a else b
  }

  lemma {:induction false} LiveTwice(rows: seq<Lease>, first: int, second: int)
    ensures Live(Live(rows, first), second) == Live(rows, Later(first, second))
  {
    if rows != [] {
      LiveTwice(rows[1..], first, second);
      assert rows[0].expiresAt >= first ==> Live(rows, first)[1..] == Live(rows[1..], first);
    }
  }

  /** The flag a call computes after falling through, with the sweep for the evidence in between. */
  predicate FlagOf(rows: seq<Lease>, now: int, evidence: int, window: int) {
    Flagged(Live(Live(Live(rows, now), evidence), now), window)
  }

  /** The flag holds exactly when the leases that also survive the second reading collide. */
  lemma FlagMeans(rows: seq<Lease>, now: int, evidence: int, window: int)
    requires OnePerNode(rows)
    ensures FlagOf(rows, now, evidence, window) <==> Collision(Live(rows, Later(now, evidence)), window)
  {
    LiveTwice(rows, now, evidence);
    LiveTwice(rows, Later(now, evidence), now);
    LiveKeepsOnePerNode(rows, Later(now, evidence));
    FlaggedIsCollision(Live(rows, Later(now, evidence)), window);
  }

  /**
   * Without a pick the flag says whether any lease is live exactly when none is, or the leases that
   * also survive the second reading still collide.
   */
  lemma FlagIsExact(rows: seq<Lease>, now: int, evidence: int, window: int)
    requires OnePerNode(rows) && Active(Live(rows, now), window).None?
    ensures (FlagOf(rows, now, evidence, window) <==> Live(rows, now) != []) <==>
              (Live(rows, now) == [] || Collision(Live(rows, Later(now, evidence)), window))
  {
    FlagMeans(rows, now, evidence, window);
    LiveTwice(rows, now, evidence);
  }

  lemma LiveOne(l: Lease, now: int)
    ensures Live([l], now) == if l.expiresAt < now then [] else [l]
  {
    assert [l][1..] == [] && Live([], now) == [];
  }

  lemma TwoRows(a: Lease, b: Lease, now: int)
    requires !a.pinned && !b.pinned && a.confidence >= HIGH_CONFIDENCE && b.confidence >= HIGH_CONFIDENCE
    requires a.expiresAt == now && b.expiresAt == now + 1
    ensures Live([a, b], now) == [a, b] && Live([a, b], now + 1) == [b]
    ensures High([a, b]) == [a, b] && High([b]) == [b] && Pins([a, b]) == []
  {
    assert [a, b][1..] == [b] && [b][1..] == [];
    LiveOne(b, now);
    LiveOne(b, now + 1);
    assert Live([a, b], now) == [a] + [b] && Live([a, b], now + 1) == Live([b], now + 1);
    assert High([b]) == [b] + High([]) && High([a, b]) == [a] + High([b]);
    assert Pins([b]) == Pins([]) && Pins([a, b]) == Pins([b]);
  }

  /** A lease that expires between the two readings makes an ambiguous call look unambiguous. */
  lemma FlagCanMissAnAmbiguity(a: Lease, b: Lease, now: int, window: int)
    requires a == Lease("a", MANUAL, 1.0, 0, now, false) && b == Lease("b", MANUAL, 1.0, 0, now + 1, false)
    requires window >= 0
    ensures OnePerNode([a, b]) && Active(Live([a, b], now), window).None? && Live([a, b], now) != []
    ensures !FlagOf([a, b], now, now + 1, window)
  {
    TwoRows(a, b, now);
    NoPickMeans([a, b], window);
    PairCollides(a, b, [a, b], window);
    FlagMeans([a, b], now, now + 1, window);
    NoneCollidesAlone(b, [b], window);
  }

  lemma PairCollides(a: Lease, b: Lease, live: seq<Lease>, window: int)
    requires High(live) == [a, b] && a != b && a.observedAt == b.observedAt && window >= 0
    ensures Collision(live, window)
  {
    var high := High(live);
    assert high[0] == a && high[1] == b;
    assert forall l :: l in high ==> l.observedAt <= a.observedAt;
    assert a in high && b in high && a.observedAt - b.observedAt <= window;
  }

  lemma NoneCollidesAlone(b: Lease, live: seq<Lease>, window: int)
    requires High(live) == [b]
    ensures !Collision(live, window)
  {
  }

  // ---- which operations are forwarded ----

  /**
   * The documented promise (packages/hub/src/router.ts:15-18): an operation with side effects whose
   * target is unclear is rejected and asks for confirmation. The target is clear when the caller
   * named it, or when a session, a workspace or presence stands behind it.
   */
  predicate FailsClosed(req: Request, route: Route) {
    req.targetNode == "" && route.decision.outcome !in {SessionOwner, WorkspaceOwner, ByPresence} ==>
      route.action == Reject && route.decision.confirmationRequired
  }

  /** Nothing is live, or nothing is pinned and the freshest confident leases collide. */
  ghost predicate NobodyPresent(live: seq<Lease>, window: int) {
    live == [] || (Pins(live) == [] && Collision(live, window))
  }

  /**
   * An operation with side effects fails closed exactly unless it names no target, nothing owns its
   * session or workspace, presence is missing or ambiguous, and a healthy default node takes it.
   */
  lemma FailsClosedUnlessTheDefaultTakesIt(t: Tables, rows: seq<Lease>, window: int, req: Request, at: Clocks)
    requires OnePerNode(rows) && req.danger != ReadOnly
    ensures FailsClosed(req, RouteOf(t, rows, window, req, at)) <==>
              !(FallsThrough(t, req) && NobodyPresent(Live(rows, at.now), window) && DefaultReady(t, at.health))
  {
    LiveKeepsOnePerNode(rows, at.now);
    NoPickMeans(Live(rows, at.now), window);
  }

  /** A destructive operation, two people at two machines, and a healthy default node that gets it unasked. */
  lemma ADestructiveOperationGoesToTheDefault(a: Lease, b: Lease, hub: Node, t: Tables, req: Request, at: Clocks)
    requires a == Lease("a", MANUAL, 1.0, 0, 60_000, false) && b == Lease("b", MANUAL, 1.0, 0, 60_000, false)
    requires hub == Node("hub", ONLINE, Some(0)) && t == Tables(map["hub" := hub], map[], map[], "hub", 45_000)
    requires req == Request("", "", "", Destructive) && at == Clocks(1000, 1000, 1000)
    ensures var route := RouteOf(t, [a, b], 15_000, req, at);
            && route.action == Forward && route.decision.nodeId == "hub" && !route.decision.confirmationRequired
            && !FailsClosed(req, route)
  {
    TwoLive(a, b, at.now);
    NoPickMeans([a, b], 15_000);
    PairCollides(a, b, [a, b], 15_000);
  }

  lemma TwoLive(a: Lease, b: Lease, now: int)
    requires !a.pinned && !b.pinned && a.confidence >= HIGH_CONFIDENCE && b.confidence >= HIGH_CONFIDENCE
    requires a.expiresAt >= now && b.expiresAt >= now
    ensures Live([a, b], now) == [a, b] && High([a, b]) == [a, b] && Pins([a, b]) == []
  {
    assert [a, b][1..] == [b] && [b][1..] == [];
    LiveOne(b, now);
    assert Live([a, b], now) == [a] + [b];
    assert High([b]) == [b] + High([]) && High([a, b]) == [a] + High([b]);
    assert Pins([b]) == Pins([]) && Pins([a, b]) == Pins([b]);
  }
}
