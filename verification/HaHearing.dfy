/**
 * What a plane makes of what it hears: declared states, answers to its proposals, other
 * planes' proposals, silence, and its own kv table after a restart (packages/hub/src/ha.ts).
 */
module HaHearing {
  import opened Option
  import opened Election
  import opened HubState
  import opened HaRuns
  import opened HaSafety
  import opened HaExchanges
  import opened HaPhases

  /** Where a plane stands in the election: term, leader and the leader's term, persisted or not. */
  predicate StandsAt(x: Hub, term: int, leader: string, leaderTerm: int) {
    x.term == term && x.leader == leader && x.leaderTerm == leaderTerm
  }

  predicate Persisted(x: Hub) {
    x.kv == Some(Kv(x.term, x.leader, x.leaderTerm))
  }

  // ---- declared states ----

  /** Whoever declares is recorded with all it declares, and counts as heard at that moment. */
  lemma HearingIsRecorded(x: Hub, state: PeerState, now: int)
    ensures var x' := x.OnPeerState(state, now);
            && SameIdentity(x, x') && x'.peer.Some?
            && var st := x'.peer.value;
               && st.priority == state.priority && st.term == state.term && st.leader == state.leader
               && st.leaderTerm == state.leaderTerm && st.phase == Some(state.phase) && st.lastSeen == now
               && (HasPipe(x') <==> HasPipe(x)) && (st.connected <==> HasPipe(x))
  {
  }

  /** A higher term is taken over and persisted, with the leader it names: oneself, the leased sender, or nobody yet. */
  lemma HearingAHigherTerm(x: Hub, state: PeerState, now: int)
    requires state.term > x.term
    ensures var x' := x.OnPeerState(state, now);
            && StandsAt(x', state.term, state.leader, state.leaderTerm) && Persisted(x')
            && if state.leader == x.cpId
               then x'.phase == Nominating && x'.haRole == Leading && x'.electedTerm == state.term
               else x'.haRole == Following && x'.electedTerm == x.electedTerm
                    && if state.phase == LeaderLeased && state.leader == state.from
                       then x'.phase == Follower && x'.leaseEpoch == state.term && x'.lastLeaderActivityAt == now
                       else x'.phase == ReadOnlyNoQuorum && x'.lastLeaderActivityAt == x.lastLeaderActivityAt
  {
  }

  /** Two leaders at one term: the term moves on, persisted, and nobody writes. */
  lemma HearingAnotherLeader(x: Hub, state: PeerState, now: int)
    requires state.term == x.term && state.leader != "" && state.leader != x.leader
    ensures var x' := x.OnPeerState(state, now);
            StandsAt(x', x.term + 1, x.leader, x.leaderTerm) && Persisted(x') && x'.phase == ReadOnlyNoQuorum
                && x'.haRole == x.haRole && x'.electedTerm == x.electedTerm
  {
  }

  /**
   * Otherwise the plane stands where it stood; the leader's own voice, or news of a leader at least as
   * current, refreshes it, and a leased leader other than itself makes it follow at that epoch.
   */
  lemma HearingNothingNew(x: Hub, state: PeerState, now: int)
    requires state.term < x.term || (state.term == x.term && (state.leader == "" || state.leader == x.leader))
    ensures var x' := x.OnPeerState(state, now);
            var follows := state.leader == x.leader != x.cpId && state.phase == LeaderLeased && x.phase != Follower;
            && StandsAt(x', x.term, x.leader, x.leaderTerm) && x'.electedTerm == x.electedTerm && x'.kv == x.kv
            && x'.lastLeaseAckAt == x.lastLeaseAckAt
            && x'.lastLeaderActivityAt == (if state.from == x.leader
                                              || (state.leader == x.leader && state.leaderTerm >= x.leaderTerm)
                                           then now else x.lastLeaderActivityAt)
            && (follows ==> x'.phase == Follower && x'.haRole == Following && x'.leaseEpoch == state.term)
            && (!follows ==> x'.phase == x.phase && x'.haRole == x.haRole && x'.leaseEpoch == x.leaseEpoch)
  {
  }

  /**
   * A full sync from a leased leader that is ahead, or already named: the peer follows at its epoch and
   * the leader keeps its lease.
   */
  lemma SyncingALeaderMakesAFollower(x: Hub, y: Hub, at: Clocks)
    requires Paired(x, y) && Paired(y, x) && x.MayWrite() && x.leader == x.cpId && x.leaseEpoch == x.term
    requires x.term > y.term || (x.term == y.term && y.leader == x.cpId && y.phase != Follower)
    ensures var p := FullSync(x, y, Delivered, at);
            && p.me.MayWrite() && p.me.term == x.term && p.me.leaseEpoch == x.leaseEpoch
            && p.peer.phase == Follower && p.peer.leaseEpoch == x.leaseEpoch && p.peer.leader == x.cpId
            && p.peer.term == x.term && p.peer.lastLeaderActivityAt == at.theirs
  {
    var sent := x.CurrentState();
    var y' := y.OnPeerState(sent, at.theirs);
    if x.term > y.term {
      HearingAHigherTerm(y, sent, at.theirs);
    } else {
      HearingNothingNew(y, sent, at.theirs);
    }
    HearingNothingNew(x.Attached(Outbound, at.mine), y'.CurrentState(), at.mine);
  }

  // ---- proposals ----

  /** A peer that elects the proposer takes over the term and the leader, persisted, and waits without a lease. */
  lemma AcceptingAProposal(y: Hub, req: ElectRequest, now: int)
    requires req.leader == y.otherId != y.cpId && ElectLeader(y.Candidates(now)) == req.leader
    ensures var answer := y.HandleElect(req, now);
            var y' := answer.hub;
            && answer.response == ElectResponse(true, req.term, req.leader, Follower) && !answer.wantsLease
            && StandsAt(y', req.term, req.leader, req.term) && Persisted(y') && SameIdentity(y, y')
            && y'.haRole == Following && y'.phase == Follower && y'.leaseEpoch == 0
            && y'.electedTerm == y.electedTerm && y'.lastLeaderActivityAt == now && y'.peer == y.peer
  {
  }

  /** A peer that elects itself says so and changes nothing. */
  lemma RefusingAProposal(y: Hub, req: ElectRequest, now: int)
    requires req.leader == y.otherId != y.cpId && ElectLeader(y.Candidates(now)) != req.leader
    ensures var answer := y.HandleElect(req, now);
            && answer.hub == y && !answer.wantsLease
            && answer.response == ElectResponse(false, y.term, ElectLeader(y.Candidates(now)), y.phase)
  {
  }

  /** The winner stands at a new term in its own name, persisted, still without a lease. */
  lemma WinningAProposal(x: Hub, y: Hub, at: Clocks)
    requires !x.electInFlight && x.PeerConnected(at.mine) && Paired(x, y) && Paired(y, x)
    requires ElectLeader(y.Candidates(at.theirs)) == x.cpId
    ensures var x', t := StartElection(x, y, Delivered, RequestLost, at).me, Max(x.term, x.peer.value.term) + 1;
            && StandsAt(x', t, x.cpId, t) && Persisted(x') && SameIdentity(x, x') && x'.electedTerm == t
            && x'.haRole == Leading && x'.phase == Nominating && x'.leaseEpoch == 0 && x'.peer == x.peer
  {
    AcceptingAProposal(y, ElectRequest(ProposedTerm(x), x.cpId), at.theirs);
  }

  /** The loser follows the peer that refused it: as a follower when that peer is leased, read-only otherwise. */
  lemma LosingAProposal(x: Hub, y: Hub, lease: Outcome, at: Clocks)
    requires !x.electInFlight && x.PeerConnected(at.mine) && Paired(x, y) && Paired(y, x) && y.cpId != ""
    requires ElectLeader(y.Candidates(at.theirs)) == y.cpId
    ensures var p := StartElection(x, y, Delivered, lease, at);
            && StandsAt(p.me, Max(x.term, y.term), y.cpId, y.term) && Persisted(p.me) && SameIdentity(x, p.me)
            && p.me.haRole == Following && p.me.electedTerm == x.electedTerm && p.peer == y
            && if y.MayWrite() then p.me.phase == Follower && p.me.lastLeaderActivityAt == at.mine
               else p.me.phase == ReadOnlyNoQuorum && p.me.lastLeaderActivityAt == x.lastLeaderActivityAt
  {
    RefusingAProposal(y, ElectRequest(ProposedTerm(x), x.cpId), at.theirs);
  }

  /** A proposal that gets no answer leaves the proposer read-only where it stood. */
  lemma AProposalWithoutAnswer(x: Hub, y: Hub, elect: Outcome, lease: Outcome, at: Clocks)
    requires !x.electInFlight && x.PeerConnected(at.mine) && !elect.Delivered?
    ensures StartElection(x, y, elect, lease, at).me == x.(phase := ReadOnlyNoQuorum)
  {
  }

  // ---- silence ----

  /** A pipe is up and the last sign of life, if any was timed, is younger than three heartbeats. */
  predicate Audible(x: Hub, now: int) {
    HasPipe(x) && (x.peer.value.lastSeen == 0 || now < x.peer.value.lastSeen + 3 * x.heartbeatMs)
  }

  /** Towards a peer that is not audible a plane asks for nothing, tries nothing and gains nothing. */
  lemma SilenceStopsEverything(x: Hub, y: Hub, elect: Outcome, lease: Outcome, at: Clocks)
    requires !Audible(x, at.mine)
    ensures TakeLease(x, y, lease, at) == StartElection(x, y, elect, lease, at) == Planes(x, y)
    ensures RenewLease(x, y, lease, at) == Planes(x, y)
    ensures var p := Tick(x, y, elect, lease, at);
            p.peer == y && SameFencing(x, p.me) && (p.me.MayWrite() ==> x.MayWrite())
  {
  }

  /** An audible peer is asked: for the lease where the term was won, for the election where it was not. */
  lemma AnAudiblePeerIsAsked(x: Hub, y: Hub, elect: Outcome, lease: Outcome, at: Clocks)
    requires Audible(x, at.mine) && !x.electInFlight && x.phase == Nominating && x.haRole == Leading
    ensures Tick(x, y, elect, lease, at)
         == if x.electedTerm == x.term then TakeLease(x, y, lease, at) else StartElection(x, y, elect, lease, at)
  {
  }

  /** A new pipe, or a word, makes the peer audible for three heartbeats. */
  lemma AudibleForThreeHeartbeats(x: Hub, pipe: Pipe, state: PeerState, t: int, now: int)
    requires t != 0
    ensures Audible(x.Attached(pipe, t), now) <==> now < t + 3 * x.heartbeatMs
    ensures HasPipe(x) ==> (Audible(x.OnPeerState(state, t), now) <==> now < t + 3 * x.heartbeatMs)
  {
    HearingIsRecorded(x, state, t);
  }

  // ---- restarts ----

  /**
   * Wherever a plane has persisted where it stands, a restart brings back term, leader and leader's term,
   * and nothing else: no lease, no election won, no peer.
   */
  lemma RestartingKeepsTheFencing(x: Hub, now: int)
    requires Persisted(x) && x.term >= 1 && x.leader != "" && x.leaderTerm != 0
    ensures var x' := Restarted(x, now);
            && StandsAt(x', x.term, x.leader, x.leaderTerm) && Persisted(x') && SameIdentity(x, x')
            && x'.haRole == (if x.leader == x.cpId then Leading else Following) && x'.phase == Nominating
            && x'.leaseEpoch == 0 && x'.electedTerm == 0 && x'.peer == None && x'.failoverCount == 0
            && x'.lastLeaderActivityAt == now
  {
  }

  /** An empty store boots a leader of term 1 in its own name. */
  lemma BootingAnEmptyStore(x: Hub, now: int)
    requires x.kv == None
    ensures var x' := Restarted(x, now);
            StandsAt(x', 1, x.cpId, 1) && x'.haRole == Leading && x'.phase == Nominating && x'.electedTerm == 0
  {
  }
}
