/**
 * The value of one control plane's HA state and what each handler of
 * packages/hub/src/ha.ts makes of it. The class in HubHa.dfy is proved to
 * compute exactly these functions; the run theorems are about them.
 */
module HubState {
  import opened Option
  import opened Election

  const DEFAULT_CP_PRIORITY: int := 0

  datatype Phase = Nominating | LeaderLeased | ReadOnlyNoQuorum | Follower

  datatype Role = Leading | Following

  /** What the kv table holds: cp_term, cp_leader and cp_leader_term. */
  datatype Kv = Kv(term: int, leader: string, leaderTerm: int)

  /** The three outcomes of one peer RPC, taken as one atomic step. */
  datatype Outcome = Delivered | RequestLost | ReplyLost

  datatype Pipe = Inbound | Outbound

  /** What a plane remembers about its peer. */
  datatype Peer = Peer(
    inbound: bool, outbound: bool, connected: bool, lastSeen: int,
    priority: int, term: int, leader: string, leaderTerm: int, phase: Option<Phase>)

  /** A declared state, as cp.sync and cp.heartbeat carry it (registry apart). */
  datatype PeerState = PeerState(
    from: string, priority: int, term: int, leader: string, leaderTerm: int, phase: Phase)

  datatype ElectRequest = ElectRequest(term: int, leader: string)

  datatype ElectResponse = ElectResponse(ok: bool, term: int, leader: string, phase: Phase)

  datatype LeaseRenewRequest = LeaseRenewRequest(term: int, epoch: int)

  /** The answer to cp.elect, and whether the handler goes on to ask for the lease. */
  datatype ElectAnswer = ElectAnswer(hub: Hub, response: ElectResponse, wantsLease: bool)

  function Max(a: int, b: int): int {
    if a >= b then a else b
  }

  /** The persisted fencing state; an absent or unusable term reads as 1. */
  function ReadPersisted(kv: Option<Kv>): Kv {
    match kv
    case None => Kv(1, "", 0)
    case Some(v) => Kv(if v.term >= 1 then v.term else 1, v.leader, v.leaderTerm)
  }

  datatype Hub = Hub(
    cpId: string, otherId: string, priority: int, leaseTtlMs: int, heartbeatMs: int,
    haRole: Role, phase: Phase, term: int, leader: string, leaderTerm: int, electedTerm: int,
    leaseEpoch: int, lastLeaseAckAt: int, lastLeaderActivityAt: int, electInFlight: bool,
    failoverCount: nat, peer: Option<Peer>, kv: Option<Kv>)
  {
    /** A pipe is attached and the peer was heard from within three heartbeats. */
    predicate PeerConnected(now: int) {
      && peer.Some?
      && (peer.value.inbound || peer.value.outbound)
      && (peer.value.lastSeen == 0 || now - peer.value.lastSeen < heartbeatMs * 3)
    }

    function Candidates(now: int): seq<Candidate> {
      if PeerConnected(now)
      then [Candidate(cpId, priority), Candidate(otherId, peer.value.priority)]
      else [Candidate(cpId, priority)]
    }

    predicate MayWrite() {
      phase == LeaderLeased
    }

    /** The peer record, created on first use with the default priority. */
    function PeerRecord(): Peer {
      if peer.Some? then peer.value
      else Peer(false, false, false, 0, DEFAULT_CP_PRIORITY, 0, "", 0, None)
    }

    /** A pipe to the peer comes up. */
    function Attached(pipe: Pipe, now: int): Hub {
      var st := PeerRecord().(connected := true, lastSeen := now);
      this.(peer := Some(if pipe.Inbound? then st.(inbound := true) else st.(outbound := true)))
    }

    /** Drop the lease epoch; losing a live one counts as a failover. */
    function WithoutLease(): Hub {
      if leaseEpoch != 0 then this.(leaseEpoch := 0, failoverCount := failoverCount + 1) else this
    }

    function QuorumLost(): Hub {
      this.(phase := ReadOnlyNoQuorum).WithoutLease()
    }

    function PeerLost(): Hub {
      if phase == ReadOnlyNoQuorum then this else QuorumLost()
    }

    /** A lease whose renewals went unanswered, or a leader that went silent, for longer than the lease lasts. */
    function TimedOut(now: int): Hub {
      if phase == LeaderLeased then
        if now - lastLeaseAckAt > leaseTtlMs then QuorumLost() else this
      else
        if phase == Follower && now - lastLeaderActivityAt > leaseTtlMs
        then this.(phase := ReadOnlyNoQuorum, leaseEpoch := 0) else this
    }

    /** A pipe to the peer closes. */
    function PipeClosed(pipe: Pipe): Hub {
      if peer.None? then this
      else
        var st := if pipe.Inbound? then peer.value.(inbound := false) else peer.value.(outbound := false);
        var after := this.(peer := Some(st.(connected := st.inbound || st.outbound)));
        if peer.value.connected && !(st.inbound || st.outbound) then after.PeerLost() else after
    }

    /** Elected at a term: the lease is still missing, so nothing may be written yet. */
    function Elected(won: int): Hub {
      this.(term := won, electedTerm := won, leader := cpId, leaderTerm := won, haRole := Leading,
            kv := Some(Kv(won, cpId, won)), phase := Nominating, leaseEpoch := 0)
    }

    /** Accepting the peer's election: the lease is not granted yet, so the epoch stays 0. */
    function Accepted(req: ElectRequest, now: int): Hub {
      this.(term := req.term, leader := req.leader, leaderTerm := req.term, haRole := Following,
            kv := Some(Kv(req.term, req.leader, req.term)), phase := Follower, leaseEpoch := 0,
            lastLeaderActivityAt := now)
    }

    /** cp.elect. */
    function HandleElect(req: ElectRequest, now: int): ElectAnswer {
      if req.leader == cpId then
        ElectAnswer(Elected(req.term), ElectResponse(true, req.term, cpId, Nominating), true)
      else
        var desired := ElectLeader(Candidates(now));
        if desired == req.leader then
          ElectAnswer(Accepted(req, now), ElectResponse(true, req.term, req.leader, Follower), false)
        else
          ElectAnswer(this, ElectResponse(false, term, desired, phase), false)
    }

    predicate AcksLease(req: LeaseRenewRequest) {
      req.term == term && req.epoch == term && req.term == leaderTerm && leader != cpId
    }

    /** cp.lease.renew. */
    function HandleLeaseRenew(req: LeaseRenewRequest, now: int): Hub {
      if AcksLease(req)
      then this.(lastLeaderActivityAt := now, phase := Follower, leaseEpoch := req.epoch)
      else this
    }

    /** What this plane declares in cp.sync and cp.heartbeat. */
    function CurrentState(): PeerState {
      PeerState(cpId, priority, term, leader, leaderTerm, phase)
    }

    /** Remember what the peer declared. */
    function Heard(state: PeerState, now: int): Hub {
      var st := PeerRecord();
      this.(peer := Some(st.(priority := state.priority, term := state.term, leader := state.leader,
                             leaderTerm := state.leaderTerm, phase := Some(state.phase), lastSeen := now,
                             connected := st.inbound || st.outbound)))
    }

    /** The peer is ahead: take over its term and leader. */
    function Aligned(state: PeerState, now: int): Hub {
      var kv' := Some(Kv(state.term, state.leader, state.leaderTerm));
      if state.leader == cpId then
        this.(term := state.term, leader := state.leader, leaderTerm := state.leaderTerm, kv := kv',
              electedTerm := state.term, haRole := Leading, phase := Nominating)
      else if state.phase == LeaderLeased && state.leader == state.from then
        this.(term := state.term, leader := state.leader, leaderTerm := state.leaderTerm, kv := kv',
              haRole := Following, phase := Follower, leaseEpoch := state.term, lastLeaderActivityAt := now)
      else
        this.(term := state.term, leader := state.leader, leaderTerm := state.leaderTerm, kv := kv',
              haRole := Following, phase := ReadOnlyNoQuorum)
    }

    function SplitBrained(): Hub {
      this.(term := term + 1, kv := Some(Kv(term + 1, leader, leaderTerm)), phase := ReadOnlyNoQuorum)
    }

    /** Same term and leader, or the peer is behind. */
    function Steady(state: PeerState, now: int): Hub {
      var h := if state.from == leader || (state.leader == leader && state.leaderTerm >= leaderTerm)
               then this.(lastLeaderActivityAt := now) else this;
      if leader != cpId && state.leader == leader && state.phase == LeaderLeased && phase != Follower
      then h.(haRole := Following, phase := Follower, leaseEpoch := state.term)
      else h
    }

    /** Apply a peer's declared state. */
    function OnPeerState(state: PeerState, now: int): Hub {
      var h := Heard(state, now);
      match JudgeTerm(term, leader, state.term, state.leader)
      case AcceptPeer => h.Aligned(state, now)
      case SplitBrain => h.SplitBrained()
      case Stable => h.Steady(state, now)
    }
  }

  /** The plane as construction and start() leave it: read-only, no lease, no election won. */
  function Boot(cpId: string, otherId: string, priority: int, leaseTtlMs: int, heartbeatMs: int,
                kv: Option<Kv>, now: int): Hub {
    var p := ReadPersisted(kv);
    var leader := if p.leader == "" then cpId else p.leader;
    Hub(cpId, otherId, priority, leaseTtlMs, heartbeatMs,
        if leader == cpId then Leading else Following, Nominating, p.term, leader,
        if p.leaderTerm == 0 then p.term else p.leaderTerm,
        0, 0, 0, now, false, 0, None, kv)
  }

  /** Two planes, the one that acts first. */
  datatype Planes = Planes(me: Hub, peer: Hub)

  /** The local clocks of the acting plane and of its peer; nothing relates them. */
  datatype Clocks = Clocks(mine: int, theirs: int)

  /** Ask the peer for the write lease. */
  function TakeLease(me: Hub, peer: Hub, lease: Outcome, at: Clocks): Planes {
    if me.haRole != Leading || me.phase == LeaderLeased || !me.PeerConnected(at.mine) || lease.RequestLost? then
      Planes(me, peer)
    else
      var req := LeaseRenewRequest(me.term, me.term);
      var peer' := peer.HandleLeaseRenew(req, at.theirs);
      if peer.AcksLease(req) && lease.Delivered?
      then Planes(me.(phase := LeaderLeased, leaseEpoch := me.term, lastLeaseAckAt := at.mine), peer')
      else Planes(me, peer')
  }

  /** The leased leader renews. */
  function RenewLease(me: Hub, peer: Hub, lease: Outcome, at: Clocks): Planes {
    if me.phase != LeaderLeased || !me.PeerConnected(at.mine) || lease.RequestLost? then
      Planes(me, peer)
    else
      var req := LeaseRenewRequest(me.term, me.leaseEpoch);
      var peer' := peer.HandleLeaseRenew(req, at.theirs);
      if peer.AcksLease(req) && lease.Delivered?
      then Planes(me.(lastLeaseAckAt := at.mine), peer')
      else Planes(me, peer')
  }

  function ProposedTerm(me: Hub): int
    requires me.peer.Some?
  {
    Max(me.term, me.peer.value.term) + 1
  }

  /** What the proposer makes of a refusal. */
  function ElectionRefused(me: Hub, response: ElectResponse, now: int): Hub {
    if response.leader != "" && response.leader != me.cpId then
      var term' := Max(me.term, response.term);
      var kv' := Some(Kv(term', response.leader, response.term));
      if response.phase == LeaderLeased then
        me.(term := term', leader := response.leader, leaderTerm := response.term, haRole := Following,
            kv := kv', phase := Follower, lastLeaderActivityAt := now)
      else
        me.(term := term', leader := response.leader, leaderTerm := response.term, haRole := Following,
            kv := kv', phase := ReadOnlyNoQuorum)
    else
      me.(phase := ReadOnlyNoQuorum)
  }

  /**
   * Send cp.elect for a term and, once won, ask for the lease. A plane asked to
   * lead by its peer would ask for the lease from inside the handler; a proposer
   * always names itself, so between two planes that request never arises
   * (OnlyAnElectedProposerIsAccepted in HaRuns.dfy).
   */
  function Proposed(me: Hub, peer: Hub, proposedTerm: int, elect: Outcome, lease: Outcome, at: Clocks): Planes {
    if elect.RequestLost? then
      Planes(me.(phase := ReadOnlyNoQuorum), peer)
    else
      var answer := peer.HandleElect(ElectRequest(proposedTerm, me.cpId), at.theirs);
      if elect.ReplyLost? then
        Planes(me.(phase := ReadOnlyNoQuorum), answer.hub)
      else if answer.response.ok then
        TakeLease(me.Elected(proposedTerm), answer.hub, lease, at)
      else
        Planes(ElectionRefused(me, answer.response, at.mine), answer.hub)
  }

  /** Propose a fresh election. */
  function StartElection(me: Hub, peer: Hub, elect: Outcome, lease: Outcome, at: Clocks): Planes {
    if me.electInFlight || !me.PeerConnected(at.mine) then Planes(me, peer)
    else Proposed(me, peer, ProposedTerm(me), elect, lease, at)
  }

  /** The one-second state check. */
  function Tick(me: Hub, peer: Hub, elect: Outcome, lease: Outcome, at: Clocks): Planes {
    if me.phase == LeaderLeased || me.phase == Follower then
      Planes(me.TimedOut(at.mine), peer)
    else if me.phase == Nominating && me.haRole == Leading then
      if me.electInFlight || !me.PeerConnected(at.mine) then Planes(me, peer)
      else if me.electedTerm == me.term then TakeLease(me, peer, lease, at)
      else StartElection(me, peer, elect, lease, at)
    else if me.electInFlight || !me.PeerConnected(at.mine) then
      Planes(me, peer)
    else
      var desired := ElectLeader(me.Candidates(at.mine));
      if desired == me.cpId then StartElection(me, peer, elect, lease, at)
      else if me.leader != desired && me.phase == ReadOnlyNoQuorum then
        Planes(me.(leader := desired, leaderTerm := me.term, phase := Nominating), peer)
      else Planes(me, peer)
  }

  /** A full sync: the peer applies our state, answers with its own, and we apply that. */
  function FullSync(me: Hub, peer: Hub, sync: Outcome, at: Clocks): Planes {
    if sync.RequestLost? then Planes(me, peer)
    else
      var peer' := peer.OnPeerState(me.CurrentState(), at.theirs);
      if sync.ReplyLost? then Planes(me, peer')
      else Planes(me.Attached(Outbound, at.mine).OnPeerState(peer'.CurrentState(), at.mine), peer')
  }
}
