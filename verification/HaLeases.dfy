/**
 * Exactly when no plane resumes a lease without a new term, as
 * packages/hub/src/ha.ts:801-804 promises.
 */
module HaLeases {
  import opened Option
  import opened Election
  import opened HubState
  import opened HaRuns
  import opened HaSafety
  import opened HaExchanges

  // ---- a plane that elects itself in every view ----

  /** Whether it has heard its peer's priority or still assumes the default one, this plane elects itself. */
  predicate ElectsItself(x: Hub, y: Hub) {
    !Beaten(x, y.cpId, y.priority) && !Beaten(x, y.cpId, DEFAULT_CP_PRIORITY)
  }

  /** What x may believe of its peer's priority: what the peer declares, or the default of a fresh record. */
  ghost predicate KnowsPriority(x: Hub, y: Hub, declared: set<PeerState>) {
    && (x.peer.Some? ==> x.peer.value.priority == y.priority || x.peer.value.priority == DEFAULT_CP_PRIORITY)
    && (forall m :: m in declared && m.from == y.cpId ==> m.priority == y.priority)
  }

  /**
   * x leads only in its own name; no lease so far is above its term, or at its term while it is
   * about to take one; each of its own leases was above all before it.
   */
  ghost predicate OwnLeasesFresh(x: Hub, leases: seq<Grant>) {
    && (x.haRole == Leading ==> x.leader == x.cpId)
    && (forall i :: 0 <= i < |leases| ==> leases[i].term <= x.term && (AboutToLead(x) ==> leases[i].term < x.term))
    && (forall i, j :: 0 <= i < j < |leases| && leases[j].holder == x.cpId ==> leases[i].term < leases[j].term)
  }

  ghost predicate Steadfast(x: Hub, y: Hub, declared: set<PeerState>, leases: seq<Grant>) {
    && Paired(x, y) && Paired(y, x) && ElectsItself(x, y) && OwnTerms(x) && OwnTerms(y)
    && KnowsPriority(x, y, declared) && OwnLeasesFresh(x, leases)
  }

  lemma AlwaysElectsItself(x: Hub, y: Hub, declared: set<PeerState>, now: int)
    requires Paired(x, y) && ElectsItself(x, y) && KnowsPriority(x, y, declared)
    ensures ElectLeader(x.Candidates(now)) == x.cpId
  {
    Elects(x, now);
  }

  // ---- its own steps ----

  lemma TakeLeaseIsFresh(x: Hub, y: Hub, lease: Outcome, at: Clocks, leases: seq<Grant>)
    requires OwnLeasesFresh(x, leases) && AboutToLead(x)
    ensures var p := TakeLease(x, y, lease, at);
            OwnLeasesFresh(p.me, leases + Granted(x, p.me)) && p.me.peer == x.peer
  {
  }

  lemma ElectedIsFresh(x: Hub, won: int, leases: seq<Grant>)
    requires OwnLeasesFresh(x, leases) && won > x.term
    ensures OwnLeasesFresh(x.Elected(won), leases) && AboutToLead(x.Elected(won))
  {
  }

  lemma NotElectedIsFresh(x: Hub, response: ElectResponse, now: int, leases: seq<Grant>)
    requires OwnLeasesFresh(x, leases)
    ensures OwnLeasesFresh(ElectionRefused(x, response, now), leases)
    ensures OwnLeasesFresh(x.(phase := ReadOnlyNoQuorum), leases)
  {
  }

  lemma WonElectionIsFresh(x: Hub, answer: Hub, won: int, lease: Outcome, at: Clocks, leases: seq<Grant>)
    requires OwnLeasesFresh(x, leases) && !x.MayWrite() && won > x.term
    ensures var p := TakeLease(x.Elected(won), answer, lease, at);
            OwnLeasesFresh(p.me, leases + Granted(x, p.me)) && p.me.peer == x.peer
  {
    var x', p := x.Elected(won), TakeLease(x.Elected(won), answer, lease, at);
    ElectedIsFresh(x, won, leases);
    TakeLeaseIsFresh(x', answer, lease, at, leases);
    assert Granted(x, p.me) == Granted(x', p.me);
  }

  lemma StartElectionIsFresh(x: Hub, y: Hub, elect: Outcome, lease: Outcome, at: Clocks, leases: seq<Grant>)
    requires OwnLeasesFresh(x, leases) && !x.MayWrite()
    ensures var p := StartElection(x, y, elect, lease, at);
            OwnLeasesFresh(p.me, leases + Granted(x, p.me)) && p.me.peer == x.peer
  {
    var p := StartElection(x, y, elect, lease, at);
    if !x.electInFlight && x.PeerConnected(at.mine) {
      var answer := y.HandleElect(ElectRequest(ProposedTerm(x), x.cpId), at.theirs);
      if elect.Delivered? && answer.response.ok {
        WonElectionIsFresh(x, answer.hub, ProposedTerm(x), lease, at, leases);
        return;
      }
      NotElectedIsFresh(x, answer.response, at.mine, leases);
    }
    assert Granted(x, p.me) == [] && leases + [] == leases;
  }

  lemma TickIsFresh(x: Hub, y: Hub, elect: Outcome, lease: Outcome, at: Clocks, declared: set<PeerState>,
      leases: seq<Grant>)
    requires Steadfast(x, y, declared, leases)
    ensures var p := Tick(x, y, elect, lease, at);
            OwnLeasesFresh(p.me, leases + Granted(x, p.me)) && p.me.peer == x.peer
  {
    AlwaysElectsItself(x, y, declared, at.mine);
    assert leases + [] == leases;
    if !TicksLocally(x, at) {
      TickIsOneOfThree(x, y, elect, lease, at);
      if AboutToLead(x) {
        TakeLeaseIsFresh(x, y, lease, at, leases);
      } else {
        StartElectionIsFresh(x, y, elect, lease, at, leases);
      }
    }
  }

  lemma DeliveryIsFresh(x: Hub, state: PeerState, now: int, leases: seq<Grant>)
    requires OwnLeasesFresh(x, leases)
    ensures var x' := x.OnPeerState(state, now);
            && OwnLeasesFresh(x', leases + Granted(x, x'))
            && x'.peer.Some? && x'.peer.value.priority == state.priority
  {
    DeliveryGainsNoLease(x, state, now);
    assert leases + [] == leases;
  }

  lemma PipesAreFresh(x: Hub, x': Hub, y: Hub, declared: set<PeerState>, leases: seq<Grant>)
    requires Steadfast(x, y, declared, leases) && SameTerms(x, x') && SameRole(x, x')
    ensures OwnLeasesFresh(x', leases + Granted(x, x')) && KnowsPriority(x', y, declared)
  {
    assert leases + [] == leases;
  }

  lemma OtherMoveIsFresh(x: Hub, y: Hub, step: Step, declared: set<PeerState>, leases: seq<Grant>)
    requires Steadfast(x, y, declared, leases)
    requires step.RenewStep? || step.DeclareStep? || step.RestartStep?
    ensures var p := Move(x, y, step);
            OwnLeasesFresh(p.me, leases + Granted(x, p.me)) && KnowsPriority(p.me, y, declared)
  {
    assert leases + [] == leases;
  }

  lemma OwnMoveIsFresh(x: Hub, y: Hub, step: Step, declared: set<PeerState>, leases: seq<Grant>)
    requires Steadfast(x, y, declared, leases)
    requires step.DeliverStep? ==> step.state in declared && step.state.from == y.cpId
    ensures var p := Move(x, y, step);
            OwnLeasesFresh(p.me, leases + Granted(x, p.me)) && KnowsPriority(p.me, y, declared)
  {
    match step
    case TickStep(_, elect, lease, at) => TickIsFresh(x, y, elect, lease, at, declared, leases);
    case DeliverStep(_, state, now) => DeliveryIsFresh(x, state, now, leases);
    case AttachStep(_, pipe, now) =>
      PlumbingIsQuiet(x, pipe, now);
      PipesKeepRoles(x, pipe, now);
      PipesAreFresh(x, x.Attached(pipe, now), y, declared, leases);
    case CloseStep(_, pipe) =>
      PlumbingIsQuiet(x, pipe, 0);
      PipesKeepRoles(x, pipe, 0);
      PipesAreFresh(x, x.PipeClosed(pipe), y, declared, leases);
    case _ => OtherMoveIsFresh(x, y, step, declared, leases);
  }

  // ---- the steps of its peer ----

  /** The peer may take a lease only at this plane's term, and only where this plane is not leading itself. */
  lemma PeerTakesLease(x: Hub, y: Hub, lease: Outcome, at: Clocks, leases: seq<Grant>)
    requires OwnLeasesFresh(x, leases) && Paired(y, x)
    ensures var p := TakeLease(y, x, lease, at);
            OwnLeasesFresh(p.peer, leases + Granted(y, p.me)) && p.peer.peer == x.peer
  {
    assert leases + [] == leases;
  }

  lemma PeerTicks(x: Hub, y: Hub, elect: Outcome, lease: Outcome, at: Clocks, declared: set<PeerState>,
      leases: seq<Grant>)
    requires Steadfast(x, y, declared, leases)
    ensures var p := Tick(y, x, elect, lease, at);
            OwnLeasesFresh(p.peer, leases + Granted(y, p.me)) && p.peer.peer == x.peer
  {
    AlwaysElectsItself(x, y, declared, at.theirs);
    assert leases + [] == leases;
    if TicksLocally(y, at) {
      LocalTickIsQuiet(y, x, elect, lease, at);
    } else {
      TickIsOneOfThree(y, x, elect, lease, at);
      PeerTakesLease(x, y, lease, at, leases);
    }
  }

  lemma PeerMoveIsFresh(x: Hub, y: Hub, step: Step, declared: set<PeerState>, leases: seq<Grant>)
    requires Steadfast(x, y, declared, leases)
    ensures var p := Move(y, x, step);
            OwnLeasesFresh(p.peer, leases + Granted(y, p.me)) && p.peer.peer == x.peer
  {
    assert leases + [] == leases;
    match step
    case TickStep(_, elect, lease, at) => PeerTicks(x, y, elect, lease, at, declared, leases);
    case DeliverStep(_, state, now) => DeliveryGainsNoLease(y, state, now);
    case _ =>
  }

  // ---- every run ----

  lemma OwnStepStaysSteadfast(s: Sys, step: Step)
    requires Steadfast(s.Me(step.who), s.Me(step.who.Flip()), s.declared, s.leases) && Enabled(s, step)
    ensures var r := Next(s, step); Steadfast(r.Me(step.who), r.Me(step.who.Flip()), r.declared, r.leases)
  {
    var x, y := s.Me(step.who), s.Me(step.who.Flip());
    MoveKeepsOwnTerms(x, y, step);
    MoveKeepsIdentities(x, y, step);
    OwnMoveIsFresh(x, y, step, s.declared, s.leases);
  }

  lemma PeerStepStaysSteadfast(s: Sys, step: Step)
    requires Steadfast(s.Me(step.who.Flip()), s.Me(step.who), s.declared, s.leases) && Enabled(s, step)
    ensures var r := Next(s, step); Steadfast(r.Me(step.who.Flip()), r.Me(step.who), r.declared, r.leases)
  {
    var x, y := s.Me(step.who.Flip()), s.Me(step.who);
    MoveKeepsOwnTerms(y, x, step);
    MoveKeepsIdentities(y, x, step);
    PeerMoveIsFresh(x, y, step, s.declared, s.leases);
  }

  lemma NextStaysSteadfast(s: Sys, step: Step, who: Side)
    requires Steadfast(s.Me(who), s.Me(who.Flip()), s.declared, s.leases)
    ensures var r := Next(s, step); Steadfast(r.Me(who), r.Me(who.Flip()), r.declared, r.leases)
  {
    if Enabled(s, step) {
      if step.who == who {
        OwnStepStaysSteadfast(s, step);
      } else {
        PeerStepStaysSteadfast(s, step);
      }
    }
  }

  lemma {:induction false} RunStaysSteadfast(s: Sys, steps: seq<Step>, who: Side)
    requires Steadfast(s.Me(who), s.Me(who.Flip()), s.declared, s.leases)
    ensures var r := Run(s, steps); Steadfast(r.Me(who), r.Me(who.Flip()), r.declared, r.leases)
    decreases |steps|
  {
    if steps != [] {
      RunStaysSteadfast(s, steps[..|steps| - 1], who);
      NextStaysSteadfast(Run(s, steps[..|steps| - 1]), steps[|steps| - 1], who);
    }
  }

  /** Over every run, this plane leads only in its own name. */
  ghost predicate LeadsInItsOwnName(s: Sys, who: Side) {
    forall steps: seq<Step> ::
      Run(s, steps).Me(who).haRole == Leading ==> Run(s, steps).Me(who).leader == s.Me(who).cpId
  }

  lemma ElectingItselfLeadsInItsOwnName(s: Sys, who: Side)
    requires Start(s) && ElectsItself(s.Me(who), s.Me(who.Flip()))
    ensures LeadsInItsOwnName(s, who)
  {
    forall steps: seq<Step> | Run(s, steps).Me(who).haRole == Leading
      ensures Run(s, steps).Me(who).leader == s.Me(who).cpId
    {
      RunStaysSteadfast(s, steps, who);
      RunKeepsOwnTerms(s, steps);
    }
  }

  /** Over every run, each lease of this plane is at a term above every lease granted before it, to either plane. */
  ghost predicate LeasesAreFresh(s: Sys, who: Side) {
    forall steps: seq<Step>, i: nat, j: nat ::
      i < j < |Run(s, steps).leases| && Run(s, steps).leases[j].holder == s.Me(who).cpId ==>
        Run(s, steps).leases[i].term < Run(s, steps).leases[j].term
  }

  lemma ElectingItselfKeepsLeasesFresh(s: Sys, who: Side)
    requires Start(s) && ElectsItself(s.Me(who), s.Me(who.Flip()))
    ensures LeasesAreFresh(s, who)
  {
    forall steps: seq<Step>, i: nat, j: nat |
      i < j < |Run(s, steps).leases| && Run(s, steps).leases[j].holder == s.Me(who).cpId
      ensures Run(s, steps).leases[i].term < Run(s, steps).leases[j].term
    {
      RunStaysSteadfast(s, steps, who);
      RunKeepsOwnTerms(s, steps);
    }
  }

  // ---- the other planes: a first lease ----

  /** x holds the lease in its own name, and y would acknowledge a renewal. */
  predicate Holding(x: Hub, y: Hub) {
    && x.MayWrite() && x.haRole == Leading && x.electedTerm == x.term == x.leaseEpoch && x.term >= 1
    && x.leader == x.cpId && !x.electInFlight
    && y.term == y.leaderTerm == x.term && y.leader == x.cpId
  }

  lemma TakesLease(x: Hub, y: Hub, t: int)
    requires Paired(x, y) && Paired(y, x) && !x.electInFlight && x.PeerConnected(t) && x.phase == Nominating
    requires x.haRole == Leading && x.electedTerm == x.term == y.term == y.leaderTerm && y.leader == x.cpId
    ensures var p := TakeLease(x, y, Delivered, Clocks(t, t));
            && p.me == x.(phase := LeaderLeased, leaseEpoch := x.term, lastLeaseAckAt := t)
            && p.peer == y.(lastLeaderActivityAt := t, phase := Follower, leaseEpoch := x.term)
  {
    assert y.AcksLease(LeaseRenewRequest(x.term, x.term));
  }

  /** The tick that asks for the lease grants it. */
  lemma TickGrants(s: Sys, before: seq<Step>, who: Side, t: int) returns (steps: seq<Step>)
    requires var b := Run(s, before); var x, y := b.Me(who), b.Me(who.Flip());
             && Paired(x, y) && Paired(y, x) && !x.electInFlight && x.PeerConnected(t) && x.phase == Nominating
             && x.haRole == Leading && x.electedTerm == x.term == y.term == y.leaderTerm && y.leader == x.cpId
    ensures var b, r := Run(s, before), Run(s, steps);
            var x, y := b.Me(who), b.Me(who.Flip());
            && r.Me(who) == x.(phase := LeaderLeased, leaseEpoch := x.term, lastLeaseAckAt := t)
            && r.Me(who.Flip()) == y.(lastLeaderActivityAt := t, phase := Follower, leaseEpoch := x.term)
            && r.leases == b.leases + [Grant(x.term, x.cpId, x.leader == x.cpId)]
    ensures steps == before + [TickStep(who, RequestLost, Delivered, Clocks(t, t))]
  {
    var b := Run(s, before);
    var step := TickStep(who, RequestLost, Delivered, Clocks(t, t));
    steps := before + [step];
    AddStep(s, before, step);
    Moved(b, step);
    TakesLease(b.Me(who), b.Me(who.Flip()), t);
  }

  /** Both pipes come up, the plane wins an election at t, and its next tick, at u, takes the lease. */
  function FirstLeaseSteps(who: Side, t: int, u: int): seq<Step> {
    [AttachStep(who.Flip(), Inbound, t), AttachStep(who, Inbound, t),
     TickStep(who, Delivered, RequestLost, Clocks(t, t)), TickStep(who, RequestLost, Delivered, Clocks(u, u))]
  }

  lemma FourSteps(before: seq<Step>, a: Step, b: Step, c: Step, d: Step)
    ensures before + [a] + [b] + [c] + [d] == before + [a, b, c, d]
  {
  }

  lemma FirstLease(s: Sys, before: seq<Step>, who: Side, t: int, u: int) returns (steps: seq<Step>)
    requires var b := Run(s, before); var x, y := b.Me(who), b.Me(who.Flip());
             && JustBooted(x) && x.haRole == Leading && Paired(x, y) && Paired(y, x)
             && Beaten(y, x.cpId, y.PeerRecord().priority) && Readable(x, t) && Readable(y, t) && Lasts(x, t, u)
    ensures var b, r := Run(s, before), Run(s, steps);
            var x, x' := b.Me(who), r.Me(who);
            && Holding(x', r.Me(who.Flip())) && x'.term == x.term + 1 && x'.lastLeaseAckAt == u
            && x'.peer.Some? && x'.peer.value.priority == DEFAULT_CP_PRIORITY
            && SameIdentity(x, x') && SameIdentity(b.Me(who.Flip()), r.Me(who.Flip()))
            && r.leases == b.leases + [Grant(x'.term, x.cpId, true)]
    ensures steps == before + FirstLeaseSteps(who, t, u)
  {
    var x, y := Run(s, before).Me(who), Run(s, before).Me(who.Flip());
    FourSteps(before, AttachStep(who.Flip(), Inbound, t), AttachStep(who, Inbound, t),
        TickStep(who, Delivered, RequestLost, Clocks(t, t)), TickStep(who, RequestLost, Delivered, Clocks(u, u)));
    steps := BothPipesUp(s, before, who, t);
    AttachedIsConnected(x, t);
    AttachedIsConnected(y, t);
    Elects(y.Attached(Inbound, t), t);
    steps := WinsElection(s, steps, who, t);
    steps := TickGrants(s, steps, who, u);
  }

  // ---- and the same lease again ----

  /** Hearing the follower changes nothing but the recorded priority. */
  lemma HolderHears(x: Hub, y: Hub, t: int)
    requires Holding(x, y)
    ensures var x' := x.OnPeerState(y.CurrentState(), t);
            && Holding(x', y) && x'.peer.Some? && x'.peer.value.priority == y.priority
            && SameIdentity(x, x') && x'.term == x.term && x'.lastLeaseAckAt == x.lastLeaseAckAt
  {
  }

  /** The lease has expired; against a peer that beats it, the plane names that peer as leader and keeps its role. */
  lemma ExpiredAndAligned(x: Hub, y: Hub, t: int)
    requires Holding(x, y) && Paired(x, y) && t - x.lastLeaseAckAt > x.leaseTtlMs
    ensures var at := Clocks(t, t);
            Tick(x, y, RequestLost, RequestLost, at)
              == Planes(x.(phase := ReadOnlyNoQuorum, leaseEpoch := 0, failoverCount := x.failoverCount + 1), y)
  {
  }

  lemma AlignsByTick(x: Hub, y: Hub, t: int)
    requires Paired(x, y) && !x.electInFlight && x.PeerConnected(t) && x.phase == ReadOnlyNoQuorum
    requires x.leader == x.cpId && Beaten(x, y.cpId, x.peer.value.priority)
    ensures Tick(x, y, RequestLost, RequestLost, Clocks(t, t))
         == Planes(x.(leader := y.cpId, leaderTerm := x.term, phase := Nominating), y)
  {
    Elects(x, t);
  }

  /** The lease expires at t; at u the pipe comes up again and a tick aligns the leader, at v one takes the lease. */
  function ResumingSteps(who: Side, t: int, u: int, v: int): seq<Step> {
    [TickStep(who, RequestLost, RequestLost, Clocks(t, t)), AttachStep(who, Inbound, u),
     TickStep(who, RequestLost, RequestLost, Clocks(u, u)), TickStep(who, RequestLost, Delivered, Clocks(v, v))]
  }

  /** From a held lease: it expires, the plane aligns its leader to the peer, and takes the same lease again. */
  lemma ResumesLease(s: Sys, before: seq<Step>, who: Side, t: int, u: int, v: int)
    returns (steps: seq<Step>)
    requires var b := Run(s, before); var x, y := b.Me(who), b.Me(who.Flip());
             && Holding(x, y) && Paired(x, y) && Paired(y, x)
             && x.peer.Some? && Beaten(x, y.cpId, x.peer.value.priority)
             && t - x.lastLeaseAckAt > x.leaseTtlMs && Readable(x, u) && Lasts(x, u, v)
    ensures var x := Run(s, steps).Me(who); x.haRole == Leading && x.leader == Run(s, before).Me(who).otherId
    ensures Run(s, steps).leases
         == Run(s, before).leases + [Grant(Run(s, before).Me(who).term, Run(s, before).Me(who).cpId, false)]
    ensures steps == before + ResumingSteps(who, t, u, v)
  {
    var x, y := Run(s, before).Me(who), Run(s, before).Me(who.Flip());
    FourSteps(before, TickStep(who, RequestLost, RequestLost, Clocks(t, t)), AttachStep(who, Inbound, u),
        TickStep(who, RequestLost, RequestLost, Clocks(u, u)), TickStep(who, RequestLost, Delivered, Clocks(v, v)));
    ExpiredAndAligned(x, y, t);
    var expired := x.(phase := ReadOnlyNoQuorum, leaseEpoch := 0, failoverCount := x.failoverCount + 1);
    steps := Quietly(s, before, TickStep(who, RequestLost, RequestLost, Clocks(t, t)));
    steps := Quietly(s, steps, AttachStep(who, Inbound, u));
    AttachedIsConnected(expired, u);
    AlignsByTick(expired.Attached(Inbound, u), y, u);
    steps := Quietly(s, steps, TickStep(who, RequestLost, RequestLost, Clocks(u, u)));
    steps := TickGrants(s, steps, who, v);
  }
}
