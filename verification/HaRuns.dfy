/**
 * Two control planes as one step system: ticks, lease renewals, declared states
 * that may arrive late, repeatedly, out of order or never, pipes that come and
 * go, and crash-restarts from the kv table, in any interleaving and with
 * unrelated clocks. cp.elect and cp.lease.renew are atomic, their request or
 * reply may be lost.
 */
module HaRuns {
  import opened Option
  import opened Election
  import opened HubState

  datatype Side = Left | Right {
    function Flip(): Side {
      if Left? then Right else Left
    }
  }

  /** A lease granted: at which term, to whom, and whether the holder named itself leader. */
  datatype Grant = Grant(term: int, holder: string, ownName: bool)

  /** The two planes, every state ever declared, and every lease ever granted. */
  datatype Sys = Sys(left: Hub, right: Hub, declared: set<PeerState>, leases: seq<Grant>) {
    function Me(who: Side): Hub {
      if who.Left? then left else right
    }

    function With(who: Side, planes: Planes): Sys {
      if who.Left? then this.(left := planes.me, right := planes.peer)
      else this.(left := planes.peer, right := planes.me)
    }
  }

  datatype Step =
    | TickStep(who: Side, elect: Outcome, lease: Outcome, at: Clocks)
    | RenewStep(who: Side, lease: Outcome, at: Clocks)
    | DeclareStep(who: Side)
    | DeliverStep(who: Side, state: PeerState, now: int)
    | AttachStep(who: Side, pipe: Pipe, now: int)
    | CloseStep(who: Side, pipe: Pipe)
    | RestartStep(who: Side, now: int)

  function Restarted(h: Hub, now: int): Hub {
    Boot(h.cpId, h.otherId, h.priority, h.leaseTtlMs, h.heartbeatMs, h.kv, now)
  }

  /** What one step makes of the acting plane and its peer. */
  function Move(me: Hub, peer: Hub, step: Step): Planes {
    match step
    case TickStep(_, elect, lease, at) => Tick(me, peer, elect, lease, at)
    case RenewStep(_, lease, at) => RenewLease(me, peer, lease, at)
    case DeclareStep(_) => Planes(me, peer)
    case DeliverStep(_, state, now) => Planes(me.OnPeerState(state, now), peer)
    case AttachStep(_, pipe, now) => Planes(me.Attached(pipe, now), peer)
    case CloseStep(_, pipe) => Planes(me.PipeClosed(pipe), peer)
    case RestartStep(_, now) => Planes(Restarted(me, now), peer)
  }

  /** Only states the peer really declared can be delivered. */
  predicate Enabled(s: Sys, step: Step) {
    step.DeliverStep? ==> step.state in s.declared && step.state.from == s.Me(step.who).otherId
  }

  function Granted(before: Hub, after: Hub): seq<Grant> {
    if before.phase != LeaderLeased && after.phase == LeaderLeased
    then [Grant(after.term, after.cpId, after.leader == after.cpId)] else []
  }

  /** One step; a delivery of something never declared does nothing. */
  function Next(s: Sys, step: Step): Sys {
    if !Enabled(s, step) then s
    else
      var me := s.Me(step.who);
      var planes := Move(me, s.Me(step.who.Flip()), step);
      var s' := s.With(step.who, planes);
      Sys(s'.left, s'.right,
          if step.DeclareStep? then s.declared + {me.CurrentState()} else s.declared,
          s.leases + Granted(me, planes.me))
  }

  function Run(s: Sys, steps: seq<Step>): Sys
    decreases |steps|
  {
    if steps == [] then s else Next(Run(s, steps[..|steps| - 1]), steps[|steps| - 1])
  }

  // ---- the invariant, one direction at a time ----

  ghost predicate Paired(x: Hub, y: Hub) {
    x.otherId == y.cpId && x.cpId != y.cpId
  }

  /**
   * Some view y can have of x, with the priority x declared or with the default
   * of a fresh peer record, makes y elect x.
   */
  predicate MayElect(y: Hub, x: Hub) {
    || Before(Candidate(x.cpId, x.priority), Candidate(y.cpId, y.priority))
    || Before(Candidate(x.cpId, DEFAULT_CP_PRIORITY), Candidate(y.cpId, y.priority))
  }

  /**
   * A plane that booted as follower and has not heard its peer: it proposes no election, because
   * against a peer of default priority it elects the peer.
   */
  ghost predicate Mute(x: Hub, y: Hub) {
    && x.haRole == Following && x.phase != LeaderLeased
    && ReadPersisted(x.kv).leader != "" && ReadPersisted(x.kv).leader != x.cpId
    && (x.peer.Some? ==> x.peer.value.priority == DEFAULT_CP_PRIORITY)
    && !Before(Candidate(x.cpId, x.priority), Candidate(y.cpId, DEFAULT_CP_PRIORITY))
  }

  /** Only a mute plane may be more than one term behind a peer that might elect it, and it can only catch up. */
  ghost predicate Close(x: Hub, y: Hub, declared: set<PeerState>) {
    MayElect(y, x) && y.term > x.term + 1 ==>
      Mute(x, y) && forall m :: m in declared && m.from == y.cpId ==> m.term == y.term
  }

  /** Term bookkeeping of x against its peer y. */
  ghost predicate Fenced(x: Hub, y: Hub, declared: set<PeerState>) {
    && x.term >= 1
    && ReadPersisted(x.kv).term == x.term
    && (x.peer.Some? ==> x.peer.value.term <= x.term)
    && (x.peer.Some? ==> x.peer.value.priority == y.priority || x.peer.value.priority == DEFAULT_CP_PRIORITY)
    && (forall m :: m in declared && m.from == x.cpId ==> m.term <= x.term && m.priority == x.priority)
    && Close(x, y, declared)
  }

  /** Elections and leases of x against its peer y. */
  ghost predicate Leased(x: Hub, y: Hub) {
    && !x.electInFlight
    && 0 <= x.electedTerm <= x.term
    && x.electedTerm <= y.term
    && (x.electedTerm != 0 ==> x.electedTerm != y.electedTerm)
    && (x.phase == LeaderLeased ==>
          x.leaseEpoch == x.term && x.electedTerm == x.term && x.haRole == Leading && y.phase != LeaderLeased)
  }

  /** Nominating in its own name with an election won at exactly this term. */
  predicate AboutToLead(x: Hub) {
    x.phase == Nominating && x.haRole == Leading && x.electedTerm == x.term && x.leader == x.cpId
  }

  ghost predicate Sound(x: Hub, y: Hub, declared: set<PeerState>) {
    Paired(x, y) && Fenced(x, y, declared) && Leased(x, y)
  }

  /** The two directions of the invariant at once. */
  ghost predicate Both(x: Hub, y: Hub, declared: set<PeerState>) {
    Sound(x, y, declared) && Sound(y, x, declared)
  }

  ghost predicate Inv(s: Sys) {
    Both(s.left, s.right, s.declared)
  }

  // ---- one handler at a time ----

  /** A plane accepts another's election only if one of its views elects the proposer. */
  lemma OnlyAnElectedProposerIsAccepted(x: Hub, y: Hub, req: ElectRequest, declared: set<PeerState>, now: int)
    requires Paired(x, y) && Paired(y, x) && Fenced(y, x, declared) && req.leader == x.cpId
    ensures y.HandleElect(req, now).response.ok ==>
              MayElect(y, x) && y.HandleElect(req, now).hub == y.Accepted(req, now)
    ensures !y.HandleElect(req, now).response.ok ==>
              y.HandleElect(req, now)
                == ElectAnswer(y, ElectResponse(false, y.term, y.HandleElect(req, now).response.leader, y.phase), false)
    ensures !y.HandleElect(req, now).wantsLease
  {
    var mine := Candidate(y.cpId, y.priority);
    RaceOfTwo(mine, Candidate(x.cpId, x.priority));
    RaceOfTwo(mine, Candidate(x.cpId, DEFAULT_CP_PRIORITY));
  }

  /** Everything the term bookkeeping looks at is untouched. */
  predicate SameTerms(x: Hub, x': Hub) {
    && x.cpId == x'.cpId && x.otherId == x'.otherId && x.priority == x'.priority
    && x.term == x'.term && x.electedTerm == x'.electedTerm && x.kv == x'.kv
    && x.electInFlight == x'.electInFlight
    && (x'.peer.Some? ==>
          || (x'.peer.value.term == 0 && x'.peer.value.priority == DEFAULT_CP_PRIORITY)
          || (x.peer.Some? && x'.peer.value.term == x.peer.value.term
              && x'.peer.value.priority == x.peer.value.priority))
  }

  /** No lease is gained, no election is newly won, and no follower comes to lead. */
  predicate NoGain(x: Hub, x': Hub) {
    && (x'.phase == LeaderLeased ==>
          x.phase == LeaderLeased && x'.leaseEpoch == x.leaseEpoch && x'.haRole == x.haRole)
    && (AboutToLead(x') ==> AboutToLead(x))
    && (x.haRole == Following ==> x'.haRole == Following)
  }

  lemma QuietKeeps(x: Hub, x': Hub, y: Hub, y': Hub, declared: set<PeerState>)
    requires Both(x, y, declared)
    requires SameTerms(x, x') && SameTerms(y, y') && NoGain(x, x') && NoGain(y, y')
    ensures Both(x', y', declared)
  {
  }

  /** The peer acks the lease. */
  lemma GrantKeeps(x: Hub, x': Hub, y: Hub, declared: set<PeerState>)
    requires Both(x, y, declared)
    requires x.phase != LeaderLeased && y.phase != LeaderLeased && SameTerms(x, x')
    requires x.phase == Nominating && x.haRole == Leading && x.electedTerm == x.term == y.term
    requires x'.phase == LeaderLeased && x'.leaseEpoch == x.term && x'.haRole == Leading
    ensures Both(x', y, declared)
  {
  }

  lemma TakeLeaseKeeps(x: Hub, y: Hub, lease: Outcome, at: Clocks, declared: set<PeerState>)
    requires Both(x, y, declared) && x.electedTerm == x.term && x.phase == Nominating
    ensures var p := TakeLease(x, y, lease, at);
            && Both(p.me, p.peer, declared)
            && p.me.term == x.term && p.peer.term == y.term
  {
    var p := TakeLease(x, y, lease, at);
    QuietKeeps(x, x, y, p.peer, declared);
    if p.me.phase == LeaderLeased {
      GrantKeeps(x, p.me, p.peer, declared);
    }
  }

  /** The peer accepts the election; whether the answer comes back or not, no term falls. */
  lemma AcceptedElectionKeeps(x: Hub, x': Hub, y: Hub, at: Clocks, declared: set<PeerState>)
    requires Both(x, y, declared) && x.peer.Some? && x.phase != LeaderLeased && MayElect(y, x) && !Mute(x, y)
    requires x' == x.(phase := ReadOnlyNoQuorum) || x' == x.Elected(ProposedTerm(x))
    ensures ProposedTerm(x) == x.term + 1 && x'.term >= x.term
    ensures var y' := y.Accepted(ElectRequest(ProposedTerm(x), x.cpId), at.theirs);
            Both(x', y', declared) && y'.term >= y.term
  {
  }

  lemma WonElectionKeeps(x: Hub, y: Hub, elect: Outcome, lease: Outcome, at: Clocks, declared: set<PeerState>)
    requires Both(x, y, declared) && x.phase != LeaderLeased && !Mute(x, y)
    requires x.PeerConnected(at.mine) && !elect.RequestLost?
    requires var req := ElectRequest(ProposedTerm(x), x.cpId);
             MayElect(y, x) && y.HandleElect(req, at.theirs).response.ok
             && y.HandleElect(req, at.theirs).hub == y.Accepted(req, at.theirs)
    ensures var p := StartElection(x, y, elect, lease, at);
            && Both(p.me, p.peer, declared)
            && p.me.term >= x.term && p.peer.term >= y.term
  {
    var x' := if elect.ReplyLost? then x.(phase := ReadOnlyNoQuorum) else x.Elected(ProposedTerm(x));
    AcceptedElectionKeeps(x, x', y, at, declared);
    if !elect.ReplyLost? {
      TakeLeaseKeeps(x', y.Accepted(ElectRequest(ProposedTerm(x), x.cpId), at.theirs), lease, at, declared);
    }
  }

  lemma RefusedElectionKeeps(x: Hub, y: Hub, response: ElectResponse, now: int, declared: set<PeerState>)
    requires Both(x, y, declared) && x.phase != LeaderLeased && !Mute(x, y) && response.term == y.term
    ensures var x' := ElectionRefused(x, response, now);
            Both(x', y, declared) && x'.term >= x.term && x'.phase != LeaderLeased
  {
    var x' := ElectionRefused(x, response, now);
    assert Fenced(x', y, declared) && Leased(x', y);
    assert Fenced(y, x', declared) && Leased(y, x');
  }

  lemma StartElectionKeeps(x: Hub, y: Hub, elect: Outcome, lease: Outcome, at: Clocks, declared: set<PeerState>)
    requires Both(x, y, declared) && x.phase != LeaderLeased && !Mute(x, y)
    ensures var p := StartElection(x, y, elect, lease, at);
            && Both(p.me, p.peer, declared)
            && p.me.term >= x.term && p.peer.term >= y.term
  {
    var p := StartElection(x, y, elect, lease, at);
    if !x.PeerConnected(at.mine) {
    } else if elect.RequestLost? {
      QuietKeeps(x, p.me, y, y, declared);
    } else {
      var req := ElectRequest(ProposedTerm(x), x.cpId);
      OnlyAnElectedProposerIsAccepted(x, y, req, declared, at.theirs);
      var answer := y.HandleElect(req, at.theirs);
      if !answer.response.ok {
        if elect.ReplyLost? {
          QuietKeeps(x, p.me, y, y, declared);
        } else {
          RefusedElectionKeeps(x, y, answer.response, at.mine, declared);
        }
      } else {
        WonElectionKeeps(x, y, elect, lease, at, declared);
      }
    }
  }

  /** A tick that asks the peer nothing. */
  predicate TicksLocally(x: Hub, at: Clocks) {
    || x.phase == LeaderLeased || x.phase == Follower || x.electInFlight || !x.PeerConnected(at.mine)
    || (!(x.phase == Nominating && x.haRole == Leading) && ElectLeader(x.Candidates(at.mine)) != x.cpId)
  }

  lemma LocalTickIsQuiet(x: Hub, y: Hub, elect: Outcome, lease: Outcome, at: Clocks)
    requires TicksLocally(x, at)
    ensures var p := Tick(x, y, elect, lease, at);
            p.peer == y && SameTerms(x, p.me) && NoGain(x, p.me)
  {
  }

  /** A tick is local, asks for the lease, or starts an election. */
  lemma TickIsOneOfThree(x: Hub, y: Hub, elect: Outcome, lease: Outcome, at: Clocks)
    requires !TicksLocally(x, at)
    ensures Tick(x, y, elect, lease, at)
         == if x.phase == Nominating && x.haRole == Leading && x.electedTerm == x.term
            then TakeLease(x, y, lease, at) else StartElection(x, y, elect, lease, at)
  {
  }

  lemma MutePlanesTickLocally(x: Hub, y: Hub, at: Clocks)
    requires Paired(x, y) && Mute(x, y)
    ensures TicksLocally(x, at)
  {
    RaceOfTwo(Candidate(x.cpId, x.priority), Candidate(y.cpId, DEFAULT_CP_PRIORITY));
    LexTotal(x.cpId, y.cpId);
  }

  lemma TickKeeps(x: Hub, y: Hub, elect: Outcome, lease: Outcome, at: Clocks, declared: set<PeerState>)
    requires Both(x, y, declared)
    ensures var p := Tick(x, y, elect, lease, at);
            && Both(p.me, p.peer, declared)
            && p.me.term >= x.term && p.peer.term >= y.term
  {
    if TicksLocally(x, at) {
      LocalTickIsQuiet(x, y, elect, lease, at);
      var p := Tick(x, y, elect, lease, at);
      QuietKeeps(x, p.me, y, y, declared);
    } else {
      TickIsOneOfThree(x, y, elect, lease, at);
      if x.phase == Nominating && x.electedTerm == x.term && x.haRole == Leading {
        TakeLeaseKeeps(x, y, lease, at, declared);
      } else {
        if Mute(x, y) {
          MutePlanesTickLocally(x, y, at);
        }
        StartElectionKeeps(x, y, elect, lease, at, declared);
      }
    }
  }

  lemma AlignedKeeps(x: Hub, y: Hub, state: PeerState, now: int, declared: set<PeerState>)
    requires Both(x, y, declared) && state in declared && state.from == y.cpId && state.term > x.term
    ensures var x' := x.Heard(state, now).Aligned(state, now);
            Both(x', y, declared)
  {
  }

  lemma SplitBrainedKeeps(x: Hub, y: Hub, state: PeerState, now: int, declared: set<PeerState>)
    requires Both(x, y, declared) && state in declared && state.from == y.cpId && state.term == x.term
    ensures var x' := x.Heard(state, now).SplitBrained();
            Both(x', y, declared)
  {
  }

  lemma SteadyKeeps(x: Hub, y: Hub, state: PeerState, now: int, declared: set<PeerState>)
    requires Both(x, y, declared) && state in declared && state.from == y.cpId && state.term <= x.term
    ensures var x' := x.Heard(state, now).Steady(state, now);
            Both(x', y, declared) && x'.term == x.term
  {
  }

  lemma DeliveryKeeps(x: Hub, y: Hub, state: PeerState, now: int, declared: set<PeerState>)
    requires Both(x, y, declared) && state in declared && state.from == y.cpId
    ensures var x' := x.OnPeerState(state, now);
            Both(x', y, declared) && x'.term >= x.term
  {
    match JudgeTerm(x.term, x.leader, state.term, state.leader)
    case AcceptPeer => AlignedKeeps(x, y, state, now, declared);
    case SplitBrain => SplitBrainedKeeps(x, y, state, now, declared);
    case Stable => SteadyKeeps(x, y, state, now, declared);
  }

  lemma RestartKeeps(x: Hub, y: Hub, now: int, declared: set<PeerState>)
    requires Both(x, y, declared)
    ensures var x' := Restarted(x, now);
            && Both(x', y, declared)
            && x'.term == x.term && x'.phase == Nominating
  {
  }

  /** Pipes and declarations change no term and gain no lease. */
  lemma PlumbingIsQuiet(x: Hub, pipe: Pipe, now: int)
    ensures SameTerms(x, x.Attached(pipe, now)) && NoGain(x, x.Attached(pipe, now))
    ensures SameTerms(x, x.PipeClosed(pipe)) && NoGain(x, x.PipeClosed(pipe))
  {
  }

  /** Pipes touch nobody's role; the last one to close only costs the phase. */
  predicate SameRole(x: Hub, x': Hub) {
    && x'.cpId == x.cpId && x'.term == x.term && x'.electedTerm == x.electedTerm
    && x'.haRole == x.haRole && x'.leader == x.leader && (x'.phase == x.phase || x'.phase == ReadOnlyNoQuorum)
  }

  lemma PipesKeepRoles(x: Hub, pipe: Pipe, now: int)
    ensures SameRole(x, x.Attached(pipe, now)) && SameRole(x, x.PipeClosed(pipe))
  {
  }

  lemma RenewIsQuiet(x: Hub, y: Hub, lease: Outcome, at: Clocks)
    ensures var p := RenewLease(x, y, lease, at);
            SameTerms(x, p.me) && NoGain(x, p.me) && SameTerms(y, p.peer) && NoGain(y, p.peer)
  {
  }

  lemma MoveKeeps(x: Hub, y: Hub, step: Step, declared: set<PeerState>)
    requires Both(x, y, declared)
    requires step.DeliverStep? ==> step.state in declared && step.state.from == y.cpId
    ensures var p := Move(x, y, step);
            && Both(p.me, p.peer, declared)
            && p.me.term >= x.term && p.peer.term >= y.term
  {
    var p := Move(x, y, step);
    match step
    case TickStep(_, elect, lease, at) => TickKeeps(x, y, elect, lease, at, declared);
    case RenewStep(_, lease, at) =>
      RenewIsQuiet(x, y, lease, at);
      QuietKeeps(x, p.me, y, p.peer, declared);
    case DeclareStep(_) =>
    case DeliverStep(_, state, now) => DeliveryKeeps(x, y, state, now, declared);
    case AttachStep(_, pipe, now) =>
      PlumbingIsQuiet(x, pipe, now);
      QuietKeeps(x, p.me, y, y, declared);
    case CloseStep(_, pipe) =>
      PlumbingIsQuiet(x, pipe, 0);
      QuietKeeps(x, p.me, y, y, declared);
    case RestartStep(_, now) => RestartKeeps(x, y, now, declared);
  }

  /** Declaring the current state keeps the invariant: what is declared is already reached. */
  lemma DeclareKeeps(x: Hub, y: Hub, declared: set<PeerState>)
    requires Both(x, y, declared)
    ensures Both(x, y, declared + {x.CurrentState()})
  {
  }

  /** The acting plane and its peer are the left and the right one, or the other way round. */
  lemma EitherWayRound(s: Sys, who: Side, planes: Planes, declared: set<PeerState>)
    ensures Inv(s) <==> Both(s.Me(who), s.Me(who.Flip()), s.declared)
    ensures var s' := s.With(who, planes);
            Both(planes.me, planes.peer, declared) <==> Inv(s'.(declared := declared))
  {
  }

  /** Every step keeps the invariant, and no step lowers the term of either plane. */
  lemma NextKeeps(s: Sys, step: Step)
    requires Inv(s)
    ensures Inv(Next(s, step))
    ensures Next(s, step).left.term >= s.left.term && Next(s, step).right.term >= s.right.term
  {
    if Enabled(s, step) {
      var x, y := s.Me(step.who), s.Me(step.who.Flip());
      var planes := Move(x, y, step);
      EitherWayRound(s, step.who, planes, s.declared);
      MoveKeeps(x, y, step, s.declared);
      if step.DeclareStep? {
        DeclareKeeps(x, y, s.declared);
        EitherWayRound(s, step.who, planes, s.declared + {x.CurrentState()});
      } else {
        EitherWayRound(s, step.who, planes, s.declared);
      }
    }
  }
}
