/**
 * HubHa of packages/hub/src/ha.ts: one control plane whose handlers update its
 * fields in place. State() is the value of all fields; every method is proved
 * to leave exactly the state HubState.dfy computes, on both planes when it
 * makes a peer RPC.
 */
module HubHa {
  import opened Option
  import opened Election
  import opened HubState

  lemma LeaseInFlight(me: Hub, peer: Hub, lease: Outcome, at: Clocks)
    requires !me.electInFlight
    ensures var p := HubState.TakeLease(me.(electInFlight := true), peer, lease, at);
            Planes(p.me.(electInFlight := false), p.peer) == HubState.TakeLease(me, peer, lease, at)
  {
  }

  lemma RefusalInFlight(me: Hub, response: ElectResponse, now: int)
    requires !me.electInFlight
    ensures ElectionRefused(me.(electInFlight := true, phase := Nominating), response, now).(electInFlight := false)
         == ElectionRefused(me, response, now)
  {
  }

  /** While cp.elect is under way the plane counts as nominating; nothing of that is left afterwards. */
  lemma InFlightLeavesNoTrace(me: Hub, peer: Hub, proposedTerm: int, elect: Outcome, lease: Outcome, at: Clocks)
    requires !me.electInFlight
    ensures var p := Proposed(me.(electInFlight := true, phase := Nominating), peer, proposedTerm, elect, lease, at);
            Planes(p.me.(electInFlight := false), p.peer) == Proposed(me, peer, proposedTerm, elect, lease, at)
  {
    var answer := peer.HandleElect(ElectRequest(proposedTerm, me.cpId), at.theirs);
    LeaseInFlight(me.Elected(proposedTerm), answer.hub, lease, at);
    RefusalInFlight(me, answer.response, at.mine);
  }

  class HubHa {
    const cpId: string
    const otherId: string
    const priority: int
    const leaseTtlMs: int
    const heartbeatMs: int
    var haRole: Role
    var phase: Phase
    var term: int
    var leader: string
    var leaderTerm: int
    var electedTerm: int
    var leaseEpoch: int
    var lastLeaseAckAt: int
    var lastLeaderActivityAt: int
    var electInFlight: bool
    var failoverCount: nat
    var peer: Option<Peer>
    var kv: Option<Kv>

    function State(): Hub
      reads this
    {
      Hub(cpId, otherId, priority, leaseTtlMs, heartbeatMs, haRole, phase, term, leader, leaderTerm, electedTerm,
          leaseEpoch, lastLeaseAckAt, lastLeaderActivityAt, electInFlight, failoverCount, peer, kv)
    }

    /** Construction and start(): restore the fencing state, never the write access. */
    constructor (cpId: string, otherId: string, priority: int, leaseTtlMs: int, heartbeatMs: int,
                 kv: Option<Kv>, now: int)
      ensures State() == Boot(cpId, otherId, priority, leaseTtlMs, heartbeatMs, kv, now)
      ensures !State().MayWrite() && term >= 1
    {
      this.cpId := cpId;
      this.otherId := otherId;
      this.priority := priority;
      this.leaseTtlMs := leaseTtlMs;
      this.heartbeatMs := heartbeatMs;
      this.kv := kv;
      var persisted := ReadPersisted(kv);
      term := persisted.term;
      var restored := if persisted.leader == "" then cpId else persisted.leader;
      leader := restored;
      leaderTerm := if persisted.leaderTerm == 0 then persisted.term else persisted.leaderTerm;
      haRole := if restored == cpId then Leading else Following;
      phase := Nominating;
      electedTerm, leaseEpoch, lastLeaseAckAt, failoverCount := 0, 0, 0, 0;
      lastLeaderActivityAt := now;
      electInFlight := false;
      peer := None;
    }

    method PersistState()
      modifies this`kv
      ensures State() == old(State()).(kv := Some(Kv(term, leader, leaderTerm)))
    {
      kv := Some(Kv(term, leader, leaderTerm));
    }

    /** Take over term and leader, and persist them: what every handler that moves the term does first. */
    method Adopt(newTerm: int, newLeader: string, newLeaderTerm: int)
      modifies this`term, this`leader, this`leaderTerm, this`kv
      ensures State() == old(State()).(term := newTerm, leader := newLeader, leaderTerm := newLeaderTerm,
                                       kv := Some(Kv(newTerm, newLeader, newLeaderTerm)))
    {
      term := newTerm;
      leader := newLeader;
      leaderTerm := newLeaderTerm;
      PersistState();
    }

    /** A peer pipe comes up: registerInboundPeer, or our own dial answered. */
    method AttachPipe(pipe: Pipe, now: int)
      modifies this`peer
      ensures State() == old(State()).Attached(pipe, now)
    {
      var st := State().PeerRecord();
      if pipe.Inbound? {
        st := st.(inbound := true);
      } else {
        st := st.(outbound := true);
      }
      peer := Some(st.(connected := true, lastSeen := now));
    }

    method OnPeerDisconnected(pipe: Pipe)
      modifies this
      ensures State() == old(State()).PipeClosed(pipe)
    {
      if peer.None? {
        return;
      }
      var st := peer.value;
      if pipe.Inbound? {
        st := st.(inbound := false);
      } else {
        st := st.(outbound := false);
      }
      var wasConnected := st.connected;
      st := st.(connected := st.inbound || st.outbound);
      peer := Some(st);
      if wasConnected && !st.connected {
        OnPeerLost();
      }
    }

    method OnPeerLost()
      modifies this
      ensures State() == old(State()).PeerLost()
    {
      if phase == LeaderLeased || phase == Follower || phase == Nominating {
        LoseQuorum();
      }
    }

    method LoseQuorum()
      modifies this
      ensures State() == old(State()).QuorumLost()
      ensures !State().MayWrite() && leaseEpoch == 0
    {
      phase := ReadOnlyNoQuorum;
      if leaseEpoch != 0 {
        failoverCount := failoverCount + 1;
        leaseEpoch := 0;
      }
    }

    /** This plane is elected at a term; the lease is still to be asked for. */
    method BecomeElected(won: int)
      modifies this
      ensures State() == old(State()).Elected(won)
    {
      Adopt(won, cpId, won);
      electedTerm := won;
      haRole := Leading;
      phase := Nominating;
      leaseEpoch := 0;
    }

    method AcceptElection(req: ElectRequest, now: int)
      modifies this
      ensures State() == old(State()).Accepted(req, now)
    {
      Adopt(req.term, req.leader, req.term);
      haRole := Following;
      phase := Follower;
      leaseEpoch := 0;
      lastLeaderActivityAt := now;
    }

    method HandleElectRequest(req: ElectRequest, now: int) returns (response: ElectResponse, wantsLease: bool)
      modifies this
      ensures ElectAnswer(State(), response, wantsLease) == old(State()).HandleElect(req, now)
    {
      if req.leader == cpId {
        BecomeElected(req.term);
        return ElectResponse(true, term, cpId, phase), true;
      }
      var myDesired := ElectLeader(State().Candidates(now));
      if myDesired == req.leader {
        AcceptElection(req, now);
        return ElectResponse(true, term, req.leader, phase), false;
      }
      return ElectResponse(false, term, myDesired, phase), false;
    }

    method HandleLeaseRenewRequest(req: LeaseRenewRequest, now: int) returns (ok: bool)
      modifies this
      ensures ok == old(State()).AcksLease(req)
      ensures State() == old(State()).HandleLeaseRenew(req, now)
      ensures ok ==> !State().MayWrite()
    {
      if req.term == term && req.epoch == term && req.term == leaderTerm && leader != cpId {
        lastLeaderActivityAt := now;
        phase := Follower;
        leaseEpoch := req.epoch;
        return true;
      }
      return false;
    }

    /** Keep what the peer declared about itself. */
    method RecordPeer(state: PeerState, now: int)
      modifies this`peer
      ensures State() == old(State()).Heard(state, now)
    {
      var st := State().PeerRecord();
      peer := Some(st.(priority := state.priority, term := state.term, leader := state.leader,
                       leaderTerm := state.leaderTerm, phase := Some(state.phase), lastSeen := now,
                       connected := st.inbound || st.outbound));
    }

    method AlignToPeer(state: PeerState, now: int)
      modifies this
      ensures State() == old(State()).Aligned(state, now)
    {
      Adopt(state.term, state.leader, state.leaderTerm);
      if state.leader == cpId {
        electedTerm := state.term;
        haRole := Leading;
        phase := Nominating;
      } else if state.phase == LeaderLeased && state.leader == state.from {
        haRole := Following;
        phase := Follower;
        leaseEpoch := state.term;
        lastLeaderActivityAt := now;
      } else {
        haRole := Following;
        phase := ReadOnlyNoQuorum;
      }
    }

    method BumpTerm()
      modifies this
      ensures State() == old(State()).SplitBrained()
    {
      term := term + 1;
      PersistState();
      phase := ReadOnlyNoQuorum;
    }

    method StaySteady(state: PeerState, now: int)
      modifies this
      ensures State() == old(State()).Steady(state, now)
    {
      if state.from == leader || (state.leader == leader && state.leaderTerm >= leaderTerm) {
        lastLeaderActivityAt := now;
      }
      if leader != cpId && state.leader == leader && state.phase == LeaderLeased && phase != Follower {
        haRole := Following;
        phase := Follower;
        leaseEpoch := state.term;
      }
    }

    method OnPeerState(state: PeerState, now: int)
      modifies this
      ensures State() == old(State()).OnPeerState(state, now)
    {
      RecordPeer(state, now);
      match JudgeTerm(term, leader, state.term, state.leader) {
        case AcceptPeer => AlignToPeer(state, now);
        case SplitBrain => BumpTerm();
        case Stable => StaySteady(state, now);
      }
    }

    method TakeLease(other: HubHa, lease: Outcome, at: Clocks)
      requires other != this
      modifies this, other
      ensures Planes(State(), other.State()) == HubState.TakeLease(old(State()), old(other.State()), lease, at)
    {
      if haRole != Leading || phase == LeaderLeased || !State().PeerConnected(at.mine) || lease.RequestLost? {
        return;
      }
      var ok := other.HandleLeaseRenewRequest(LeaseRenewRequest(term, term), at.theirs);
      if ok && lease.Delivered? {
        phase := LeaderLeased;
        leaseEpoch := term;
        lastLeaseAckAt := at.mine;
      }
    }

    method RenewLease(other: HubHa, lease: Outcome, at: Clocks)
      requires other != this
      modifies this, other
      ensures Planes(State(), other.State()) == HubState.RenewLease(old(State()), old(other.State()), lease, at)
    {
      if phase != LeaderLeased || !State().PeerConnected(at.mine) || lease.RequestLost? {
        return;
      }
      var ok := other.HandleLeaseRenewRequest(LeaseRenewRequest(term, leaseEpoch), at.theirs);
      if ok && lease.Delivered? {
        lastLeaseAckAt := at.mine;
      }
    }

    /** The peer refused and named somebody else: follow its choice. */
    method FollowRefusal(response: ElectResponse, now: int)
      modifies this
      ensures State() == ElectionRefused(old(State()), response, now)
    {
      if response.leader != "" && response.leader != cpId {
        Adopt(Max(term, response.term), response.leader, response.term);
        haRole := Following;
        phase := if response.phase == LeaderLeased then Follower else ReadOnlyNoQuorum;
        if phase == Follower {
          lastLeaderActivityAt := now;
        }
      } else {
        phase := ReadOnlyNoQuorum;
      }
    }

    /** Won: take the lease. Refused: follow whoever the peer would elect. */
    method FollowAnswer(other: HubHa, proposedTerm: int, response: ElectResponse, lease: Outcome, at: Clocks)
      requires other != this && cpId != other.cpId
      modifies this, other
      ensures Planes(State(), other.State())
           == if response.ok then HubState.TakeLease(old(State()).Elected(proposedTerm), old(other.State()), lease, at)
              else Planes(ElectionRefused(old(State()), response, at.mine), old(other.State()))
    {
      if response.ok {
        BecomeElected(proposedTerm);
        TakeLease(other, lease, at);
      } else {
        FollowRefusal(response, at.mine);
      }
    }

    /** Send cp.elect and act on what comes back, if anything does. */
    method Propose(other: HubHa, proposedTerm: int, elect: Outcome, lease: Outcome, at: Clocks)
      requires other != this && cpId != other.cpId
      modifies this, other
      ensures Planes(State(), other.State())
           == Proposed(old(State()), old(other.State()), proposedTerm, elect, lease, at)
    {
      if elect.RequestLost? {
        phase := ReadOnlyNoQuorum;
      } else {
        var response, wantsLease := other.HandleElectRequest(ElectRequest(proposedTerm, cpId), at.theirs);
        assert !wantsLease;
        if elect.ReplyLost? {
          phase := ReadOnlyNoQuorum;
        } else {
          FollowAnswer(other, proposedTerm, response, lease, at);
        }
      }
    }

    method StartElection(other: HubHa, elect: Outcome, lease: Outcome, at: Clocks)
      requires other != this && cpId != other.cpId
      modifies this, other
      ensures Planes(State(), other.State())
           == HubState.StartElection(old(State()), old(other.State()), elect, lease, at)
    {
      if electInFlight || !State().PeerConnected(at.mine) {
        return;
      }
      electInFlight := true;
      phase := Nominating;
      var proposedTerm := ProposedTerm(State());
      Propose(other, proposedTerm, elect, lease, at);
      electInFlight := false;
      InFlightLeavesNoTrace(old(State()), old(other.State()), proposedTerm, elect, lease, at);
    }

    method TimeOut(now: int)
      modifies this
      ensures State() == old(State()).TimedOut(now)
    {
      if phase == LeaderLeased {
        if now - lastLeaseAckAt > leaseTtlMs {
          LoseQuorum();
        }
      } else if phase == Follower {
        if now - lastLeaderActivityAt > leaseTtlMs {
          phase := ReadOnlyNoQuorum;
          leaseEpoch := 0;
        }
      }
    }

    method Tick(other: HubHa, elect: Outcome, lease: Outcome, at: Clocks)
      requires other != this && cpId != other.cpId
      modifies this, other
      ensures Planes(State(), other.State()) == HubState.Tick(old(State()), old(other.State()), elect, lease, at)
    {
      if phase == LeaderLeased || phase == Follower {
        TimeOut(at.mine);
        return;
      }
      var live := State().PeerConnected(at.mine);
      if phase == Nominating && haRole == Leading {
        if electedTerm == term && !electInFlight {
          if live {
            TakeLease(other, lease, at);
          }
        } else if !electInFlight && live {
          StartElection(other, elect, lease, at);
        }
        return;
      }
      if !electInFlight && live {
        var desired := ElectLeader(State().Candidates(at.mine));
        if desired == cpId {
          StartElection(other, elect, lease, at);
        } else if leader != desired && phase == ReadOnlyNoQuorum {
          leader := desired;
          leaderTerm := term;
          phase := Nominating;
        }
      }
    }

    method SendFullSync(other: HubHa, sync: Outcome, at: Clocks)
      requires other != this
      modifies this, other
      ensures Planes(State(), other.State()) == HubState.FullSync(old(State()), old(other.State()), sync, at)
    {
      if sync.RequestLost? {
        return;
      }
      other.OnPeerState(State().CurrentState(), at.theirs);
      if sync.ReplyLost? {
        return;
      }
      var answer := other.State().CurrentState();
      AttachPipe(Outbound, at.mine);
      OnPeerState(answer, at.mine);
    }
  }
}
