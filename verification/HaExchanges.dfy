/** Single exchanges between two planes: how they can end, and as building blocks for runs that really happen. */
module HaExchanges {
  import opened Option
  import opened Election
  import opened HubState
  import opened HaRuns
  import opened HaSafety

  /** A pipe that comes up at this clock reading makes the peer count as connected at that reading. */
  predicate Readable(h: Hub, t: int) {
    t == 0 || h.heartbeatMs > 0
  }

  /** A peer last heard at t still counts as connected at u. */
  predicate Lasts(h: Hub, t: int, u: int) {
    t == 0 || u - t < h.heartbeatMs * 3
  }

  /** A reading at which both planes count a fresh pipe as connected: positive wherever one can be. */
  function ReadingFor(x: Hub, y: Hub): (t: int)
    ensures Readable(x, t) && Readable(y, t)
  {
    if x.heartbeatMs > 0 && y.heartbeatMs > 0 then 1 else 0
  }

  /** The candidate a plane sees in its peer, and whether that candidate beats the plane itself. */
  predicate Beaten(x: Hub, peerId: string, peerPriority: int) {
    Before(Candidate(peerId, peerPriority), Candidate(x.cpId, x.priority))
  }

  /** Whom a plane elects: itself, unless a connected peer beats it. */
  lemma Elects(x: Hub, now: int)
    requires x.cpId != x.otherId
    ensures ElectLeader(x.Candidates(now))
         == if x.PeerConnected(now) && Beaten(x, x.otherId, x.peer.value.priority) then x.otherId else x.cpId
  {
    if x.PeerConnected(now) {
      RaceOfTwo(Candidate(x.cpId, x.priority), Candidate(x.otherId, x.peer.value.priority));
    } else {
      RaceOfTwo(Candidate(x.cpId, x.priority), Candidate(x.otherId, 0));
    }
  }

  lemma AttachedIsConnected(x: Hub, t: int)
    requires Readable(x, t)
    ensures var x' := x.Attached(Inbound, t);
            x'.PeerConnected(t) && x'.peer.value.priority == x.PeerRecord().priority
            && x'.peer.value.term == x.PeerRecord().term
  {
  }

  /** About to run an election at its next tick. */
  predicate Proposing(x: Hub, now: int) {
    && !x.electInFlight && x.PeerConnected(now)
    && (x.phase == Nominating || x.phase == ReadOnlyNoQuorum)
    && if x.phase == Nominating && x.haRole == Leading then x.electedTerm != x.term
       else ElectLeader(x.Candidates(now)) == x.cpId
  }

  lemma ProposingStartsAnElection(x: Hub, y: Hub, elect: Outcome, lease: Outcome, at: Clocks)
    requires Proposing(x, at.mine)
    ensures Tick(x, y, elect, lease, at) == StartElection(x, y, elect, lease, at)
  {
  }

  /** A peer that elects the proposer accepts, and the lease is asked for at once. */
  lemma ProposalAccepted(x: Hub, y: Hub, lease: Outcome, at: Clocks)
    requires Proposing(x, at.mine) && Paired(x, y) && Paired(y, x)
    requires ElectLeader(y.Candidates(at.theirs)) == x.cpId
    ensures Tick(x, y, Delivered, lease, at)
         == TakeLease(x.Elected(ProposedTerm(x)), y.Accepted(ElectRequest(ProposedTerm(x), x.cpId), at.theirs),
                      lease, at)
  {
    var req := ElectRequest(ProposedTerm(x), x.cpId);
    ProposingStartsAnElection(x, y, Delivered, lease, at);
    assert y.HandleElect(req, at.theirs)
        == ElectAnswer(y.Accepted(req, at.theirs), ElectResponse(true, req.term, x.cpId, Follower), false);
  }

  /** The proposer after a peer that elects itself has refused it. */
  function Refused(x: Hub, y: Hub): Hub {
    var term' := Max(x.term, y.term);
    x.(term := term', leader := y.cpId, leaderTerm := y.term, haRole := Following,
       kv := Some(Kv(term', y.cpId, y.term)), phase := ReadOnlyNoQuorum)
  }

  lemma ProposalRefused(x: Hub, y: Hub, lease: Outcome, at: Clocks)
    requires Proposing(x, at.mine) && Paired(x, y) && Paired(y, x) && y.cpId != "" && !y.MayWrite()
    requires ElectLeader(y.Candidates(at.theirs)) == y.cpId
    ensures Tick(x, y, Delivered, lease, at) == Planes(Refused(x, y), y)
  {
    var req := ElectRequest(ProposedTerm(x), x.cpId);
    ProposingStartsAnElection(x, y, Delivered, lease, at);
    assert y.HandleElect(req, at.theirs) == ElectAnswer(y, ElectResponse(false, y.term, y.cpId, y.phase), false);
  }

  // ---- the four ends of a proposal ----

  /** Lost, or nobody to ask. */
  predicate Unanswered(x: Hub, y: Hub, p: Planes) {
    (p.me == x || p.me == x.(phase := ReadOnlyNoQuorum)) && p.peer == y
  }

  predicate TurnedDown(x: Hub, y: Hub, p: Planes, at: Clocks) {
    x.peer.Some? && p.peer == y &&
    p.me == ElectionRefused(x, y.HandleElect(ElectRequest(ProposedTerm(x), x.cpId), at.theirs).response, at.mine)
  }

  /** The peer accepts; the proposer may never learn of it. */
  predicate Agreed(x: Hub, y: Hub, p: Planes, lease: Outcome, at: Clocks) {
    x.peer.Some? &&
    var t := ProposedTerm(x);
    var y' := y.Accepted(ElectRequest(t, x.cpId), at.theirs);
    p == Planes(x.(phase := ReadOnlyNoQuorum), y') || p == TakeLease(x.Elected(t), y', lease, at)
  }

  lemma EndsOfAProposal(x: Hub, y: Hub, elect: Outcome, lease: Outcome, at: Clocks)
    requires Paired(x, y)
    ensures var p := StartElection(x, y, elect, lease, at);
            Unanswered(x, y, p) || TurnedDown(x, y, p, at) || Agreed(x, y, p, lease, at)
  {
  }

  /** A tick that asks nothing times something out, or names the peer as leader. */
  lemma LocalTickEnds(x: Hub, y: Hub, elect: Outcome, lease: Outcome, at: Clocks)
    requires Paired(x, y) && TicksLocally(x, at)
    ensures var p := Tick(x, y, elect, lease, at);
            && p.peer == y
            && (|| p.me == x || p.me == x.QuorumLost() || p.me == x.(phase := ReadOnlyNoQuorum, leaseEpoch := 0)
                || (&& x.leader != y.cpId
                    && p.me == x.(leader := y.cpId, leaderTerm := x.term, phase := Nominating)))
  {
    Elects(x, at.mine);
  }

  // ---- steps of a run ----

  lemma Moved(s: Sys, step: Step)
    requires Enabled(s, step) && !step.DeclareStep?
    ensures var p := Move(s.Me(step.who), s.Me(step.who.Flip()), step);
            var r := Next(s, step);
            && r.Me(step.who) == p.me && r.Me(step.who.Flip()) == p.peer
            && r.declared == s.declared && r.leases == s.leases + Granted(s.Me(step.who), p.me)
  {
  }

  lemma AddStep(s: Sys, before: seq<Step>, step: Step)
    ensures Run(s, before + [step]) == Next(Run(s, before), step)
  {
    RunSnoc(s, before, step);
  }

  lemma Declares(s: Sys, who: Side)
    ensures var r := Next(s, DeclareStep(who));
            && r.left == s.left && r.right == s.right && r.leases == s.leases
            && r.declared == s.declared + {s.Me(who).CurrentState()}
  {
    assert s.leases + [] == s.leases;
  }

  lemma Hears(s: Sys, who: Side, state: PeerState, t: int)
    requires state in s.declared && state.from == s.Me(who).otherId
    ensures var r := Next(s, DeliverStep(who, state, t));
            && r.Me(who) == s.Me(who).OnPeerState(state, t) && r.Me(who.Flip()) == s.Me(who.Flip())
            && r.leases == s.leases
  {
    Moved(s, DeliverStep(who, state, t));
    DeliveryGainsNoLease(s.Me(who), state, t);
    assert s.leases + [] == s.leases;
  }

  /** A plane declares its state and its peer hears it. */
  lemma Tell(s: Sys, before: seq<Step>, who: Side, t: int) returns (steps: seq<Step>)
    requires Paired(Run(s, before).Me(who.Flip()), Run(s, before).Me(who))
    ensures var b, r := Run(s, before), Run(s, steps);
            && r.Me(who) == b.Me(who) && r.leases == b.leases
            && r.Me(who.Flip()) == b.Me(who.Flip()).OnPeerState(b.Me(who).CurrentState(), t)
  {
    var state := Run(s, before).Me(who).CurrentState();
    var declare, deliver := DeclareStep(who), DeliverStep(who.Flip(), state, t);
    steps := before + [declare] + [deliver];
    AddStep(s, before, declare);
    AddStep(s, before + [declare], deliver);
    Declares(Run(s, before), who);
    Hears(Run(s, before + [declare]), who.Flip(), state, t);
  }

  /** One step that is no declaration and gains no lease. */
  lemma Quietly(s: Sys, before: seq<Step>, step: Step) returns (steps: seq<Step>)
    requires !step.DeclareStep? && !step.DeliverStep?
    requires var b := Run(s, before);
             var p := Move(b.Me(step.who), b.Me(step.who.Flip()), step);
             p.me.MayWrite() ==> b.Me(step.who).MayWrite()
    ensures var b, r := Run(s, before), Run(s, steps);
            var p := Move(b.Me(step.who), b.Me(step.who.Flip()), step);
            r.Me(step.who) == p.me && r.Me(step.who.Flip()) == p.peer && r.leases == b.leases
    ensures steps == before + [step]
  {
    steps := before + [step];
    AddStep(s, before, step);
    Moved(Run(s, before), step);
    assert Run(s, before).leases + [] == Run(s, before).leases;
  }

  /** Both planes get a pipe to each other. */
  lemma BothPipesUp(s: Sys, before: seq<Step>, who: Side, t: int) returns (steps: seq<Step>)
    ensures var b, r := Run(s, before), Run(s, steps);
            && r.Me(who) == b.Me(who).Attached(Inbound, t) && r.Me(who.Flip()) == b.Me(who.Flip()).Attached(Inbound, t)
            && r.leases == b.leases
    ensures steps == before + [AttachStep(who.Flip(), Inbound, t)] + [AttachStep(who, Inbound, t)]
  {
    steps := Quietly(s, before, AttachStep(who.Flip(), Inbound, t));
    steps := Quietly(s, steps, AttachStep(who, Inbound, t));
  }

  /** x proposes at its tick, y elects it, and the lease request is lost. */
  lemma WinsElection(s: Sys, before: seq<Step>, who: Side, t: int) returns (steps: seq<Step>)
    requires var b := Run(s, before); var x, y := b.Me(who), b.Me(who.Flip());
             && Paired(x, y) && Paired(y, x) && Proposing(x, t) && ElectLeader(y.Candidates(t)) == x.cpId
    ensures var b, r := Run(s, before), Run(s, steps);
            var x := b.Me(who);
            && r.Me(who) == x.Elected(ProposedTerm(x)) && r.leases == b.leases
            && r.Me(who.Flip()) == b.Me(who.Flip()).Accepted(ElectRequest(ProposedTerm(x), x.cpId), t)
    ensures steps == before + [TickStep(who, Delivered, RequestLost, Clocks(t, t))]
  {
    ProposalAccepted(Run(s, before).Me(who), Run(s, before).Me(who.Flip()), RequestLost, Clocks(t, t));
    steps := Quietly(s, before, TickStep(who, Delivered, RequestLost, Clocks(t, t)));
  }
}
