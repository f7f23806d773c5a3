/**
 * What every event of packages/hub/src/ha.ts gives a plane and what it costs it, in terms
 * of the plane's fields and of the clock alone.
 */
module HaPhases {
  import opened Option
  import opened Election
  import opened HubState
  import opened HaRuns
  import opened HaSafety
  import opened HaExchanges

  predicate HasPipe(x: Hub) {
    x.peer.Some? && (x.peer.value.inbound || x.peer.value.outbound)
  }

  /** Everything the fencing rests on. */
  predicate SameFencing(x: Hub, x': Hub) {
    && SameIdentity(x, x') && x'.term == x.term && x'.leader == x.leader && x'.leaderTerm == x.leaderTerm
    && x'.electedTerm == x.electedTerm && x'.haRole == x.haRole && x'.kv == x.kv
  }

  // ---- pipes ----

  /**
   * Losing the last pipe costs the lease, the phase and, with a live epoch, a failover; while another
   * pipe remains it costs nothing.
   */
  lemma LosingThePeer(x: Hub, pipe: Pipe)
    requires x.peer.Some?
    ensures var st, x' := x.peer.value, x.PipeClosed(pipe);
            var other := if pipe.Inbound? then st.outbound else st.inbound;
            && SameFencing(x, x') && x'.peer.Some?
            && x'.peer.value.inbound == (st.inbound && !pipe.Inbound?)
            && x'.peer.value.outbound == (st.outbound && pipe.Inbound?)
            && x'.lastLeaseAckAt == x.lastLeaseAckAt && x'.lastLeaderActivityAt == x.lastLeaderActivityAt
            && if st.connected && !other && x.phase != ReadOnlyNoQuorum
               then x'.phase == ReadOnlyNoQuorum && x'.leaseEpoch == 0
                    && x'.failoverCount == x.failoverCount + if x.leaseEpoch != 0 then 1 else 0
               else x'.phase == x.phase && x'.leaseEpoch == x.leaseEpoch && x'.failoverCount == x.failoverCount
  {
  }

  /** A writer has a pipe, and the record of who is connected is right. */
  predicate Wired(x: Hub) {
    && (x.peer.Some? ==> (x.peer.value.connected <==> HasPipe(x)))
    && (x.MayWrite() ==> HasPipe(x))
  }

  lemma TakeLeaseKeepsWires(x: Hub, y: Hub, lease: Outcome, at: Clocks)
    requires Wired(x) && Wired(y)
    ensures var p := TakeLease(x, y, lease, at); Wired(p.me) && Wired(p.peer)
  {
  }

  lemma StartElectionKeepsWires(x: Hub, y: Hub, elect: Outcome, lease: Outcome, at: Clocks)
    requires Wired(x) && Wired(y) && Paired(x, y)
    ensures var p := StartElection(x, y, elect, lease, at); Wired(p.me) && Wired(p.peer)
  {
    EndsOfAProposal(x, y, elect, lease, at);
    if x.peer.Some? {
      var t := ProposedTerm(x);
      TakeLeaseKeepsWires(x.Elected(t), y.Accepted(ElectRequest(t, x.cpId), at.theirs), lease, at);
    }
  }

  lemma TickKeepsWires(x: Hub, y: Hub, elect: Outcome, lease: Outcome, at: Clocks)
    requires Wired(x) && Wired(y) && Paired(x, y)
    ensures var p := Tick(x, y, elect, lease, at); Wired(p.me) && Wired(p.peer)
  {
    if TicksLocally(x, at) {
      LocalTickEnds(x, y, elect, lease, at);
      LocalTickIsQuiet(x, y, elect, lease, at);
    } else {
      TickIsOneOfThree(x, y, elect, lease, at);
      TakeLeaseKeepsWires(x, y, lease, at);
      StartElectionKeepsWires(x, y, elect, lease, at);
    }
  }

  lemma DeliveryKeepsWires(x: Hub, state: PeerState, now: int)
    requires Wired(x)
    ensures Wired(x.OnPeerState(state, now))
  {
  }

  lemma MoveKeepsWires(x: Hub, y: Hub, step: Step)
    requires Wired(x) && Wired(y) && Paired(x, y)
    ensures var p := Move(x, y, step); Wired(p.me) && Wired(p.peer)
  {
    match step
    case TickStep(_, elect, lease, at) => TickKeepsWires(x, y, elect, lease, at);
    case DeliverStep(_, state, now) => DeliveryKeepsWires(x, state, now);
    case _ =>
  }

  lemma {:induction false} RunKeepsWires(s: Sys, steps: seq<Step>)
    requires Start(s)
    ensures Wired(Run(s, steps).left) && Wired(Run(s, steps).right)
    decreases |steps|
  {
    if steps != [] {
      var before, step := Run(s, steps[..|steps| - 1]), steps[|steps| - 1];
      RunKeepsWires(s, steps[..|steps| - 1]);
      RunKeepsOwnTerms(s, steps[..|steps| - 1]);
      MoveKeepsWires(before.Me(step.who), before.Me(step.who.Flip()), step);
    }
  }

  /** From any start, over every run: whoever may write has a pipe to its peer. */
  lemma AWriterHasAPipe(s: Sys, steps: seq<Step>, who: Side)
    requires Start(s) && Run(s, steps).Me(who).MayWrite()
    ensures HasPipe(Run(s, steps).Me(who))
  {
    RunKeepsWires(s, steps);
  }

  // ---- how long a lease lasts ----

  /** A tick keeps a lease exactly while the last ack is at most the ttl old, and otherwise only takes it away. */
  lemma ALeaseLastsItsTtl(x: Hub, y: Hub, elect: Outcome, lease: Outcome, at: Clocks)
    requires x.MayWrite()
    ensures var p := Tick(x, y, elect, lease, at);
            && (p.me.MayWrite() <==> at.mine - x.lastLeaseAckAt <= x.leaseTtlMs) && p.peer == y
            && (p.me.MayWrite() ==> p.me == x)
            && (!p.me.MayWrite() ==>
                  && SameFencing(x, p.me) && p.me.peer == x.peer
                  && p.me.phase == ReadOnlyNoQuorum && p.me.leaseEpoch == 0
                  && p.me.failoverCount == x.failoverCount + if x.leaseEpoch != 0 then 1 else 0)
  {
  }

  /** A tick leaves a follower where it is exactly while its leader was heard at most the ttl ago. */
  lemma AFollowerWaitsTheTtl(x: Hub, y: Hub, elect: Outcome, lease: Outcome, at: Clocks)
    requires x.phase == Follower
    ensures var p := Tick(x, y, elect, lease, at);
            && (p.me.phase == Follower <==> at.mine - x.lastLeaderActivityAt <= x.leaseTtlMs) && p.peer == y
            && (p.me.phase == Follower ==> p.me == x)
            && (p.me.phase != Follower ==>
                  && SameFencing(x, p.me) && p.me.peer == x.peer && p.me.failoverCount == x.failoverCount
                  && p.me.phase == ReadOnlyNoQuorum && p.me.leaseEpoch == 0)
  {
  }

  /** When the peer grants what it is asked: its own term, under a leader other than itself. */
  predicate Grants(y: Hub, term: int, epoch: int) {
    y.term == y.leaderTerm == term == epoch && y.leader != y.cpId
  }

  /** What a lease request that arrives and is granted makes of the peer. */
  predicate Follows(y: Hub, y': Hub, epoch: int, now: int) {
    y' == y.(lastLeaderActivityAt := now, phase := Follower, leaseEpoch := epoch)
  }

  /** Taking the lease: only for an ack that comes back; the peer follows as soon as the request arrives. */
  lemma TakingTheLease(x: Hub, y: Hub, lease: Outcome, at: Clocks)
    requires x.haRole == Leading && !x.MayWrite() && x.PeerConnected(at.mine)
    ensures var p, granted := TakeLease(x, y, lease, at), !lease.RequestLost? && Grants(y, x.term, x.term);
            && p.me == (if granted && lease.Delivered?
                        then x.(phase := LeaderLeased, leaseEpoch := x.term, lastLeaseAckAt := at.mine) else x)
            && if granted then Follows(y, p.peer, x.term, at.theirs) else p.peer == y
  {
  }

  /** Renewing: an ack that comes back moves the ack time, a request that arrives keeps the follower. */
  lemma RenewingTheLease(x: Hub, y: Hub, lease: Outcome, at: Clocks)
    requires x.MayWrite() && x.PeerConnected(at.mine)
    ensures var p, granted := RenewLease(x, y, lease, at), !lease.RequestLost? && Grants(y, x.term, x.leaseEpoch);
            && p.me == (if granted && lease.Delivered? then x.(lastLeaseAckAt := at.mine) else x)
            && if granted then Follows(y, p.peer, x.leaseEpoch, at.theirs) else p.peer == y
  {
  }

  // ---- over runs: who keeps the lease ----

  /** This step is an acked renewal of `who`. */
  predicate Acked(s: Sys, step: Step, who: Side) {
    var x, y := s.Me(who), s.Me(who.Flip());
    && step.RenewStep? && step.who == who && step.lease.Delivered? && x.PeerConnected(step.at.mine)
    && Grants(y, x.term, x.leaseEpoch)
  }

  /** The reading of the latest acked renewal of a run, or of the ack the plane started with. */
  function LatestAck(s: Sys, steps: seq<Step>, who: Side): int
    decreases |steps|
  {
    if steps == [] then s.Me(who).lastLeaseAckAt
    else
      var before, last := steps[..|steps| - 1], steps[|steps| - 1];
      if Acked(Run(s, before), last, who) then last.at.mine else LatestAck(s, before, who)
  }

  /**
   * Nothing that may take the lease of `who`: a pipe that closes, a delivery, a restart, a tick more than
   * the ttl behind the latest ack, or a tick of the peer that gets through.
   */
  predicate Harmless(step: Step, who: Side, ack: int, ttl: int) {
    match step
    case TickStep(side, elect, lease, at) =>
      if side == who then at.mine - ack <= ttl else elect.RequestLost? && lease.RequestLost?
    case DeliverStep(side, _, _) => side != who
    case CloseStep(side, _) => side != who
    case RestartStep(side, _) => side != who
    case _ => true
  }

  lemma OwnHarmlessMove(x: Hub, y: Hub, step: Step)
    requires x.MayWrite() && Harmless(step, step.who, x.lastLeaseAckAt, x.leaseTtlMs)
    ensures var x' := Move(x, y, step).me;
            && x'.MayWrite() && SameFencing(x, x') && x'.leaseEpoch == x.leaseEpoch
            && (!step.RenewStep? ==> x'.lastLeaseAckAt == x.lastLeaseAckAt)
  {
    if step.TickStep? {
      ALeaseLastsItsTtl(x, y, step.elect, step.lease, step.at);
    }
  }

  lemma PeerHarmlessMove(x: Hub, y: Hub, step: Step)
    requires !y.MayWrite() && Harmless(step, step.who.Flip(), x.lastLeaseAckAt, x.leaseTtlMs)
    ensures Move(y, x, step).peer == x
  {
    if step.TickStep? {
      if TicksLocally(y, step.at) {
        LocalTickIsQuiet(y, x, step.elect, step.lease, step.at);
      } else {
        TickIsOneOfThree(y, x, step.elect, step.lease, step.at);
      }
    }
  }

  lemma HarmlessStep(s: Sys, step: Step, who: Side)
    requires s.Me(who).MayWrite() && !s.Me(who.Flip()).MayWrite()
    requires Harmless(step, who, s.Me(who).lastLeaseAckAt, s.Me(who).leaseTtlMs)
    ensures var x, x' := s.Me(who), Next(s, step).Me(who);
            && x'.MayWrite() && SameFencing(x, x') && x'.leaseEpoch == x.leaseEpoch
            && x'.lastLeaseAckAt == if Acked(s, step, who) then step.at.mine else x.lastLeaseAckAt
  {
    var x, y := s.Me(who), s.Me(who.Flip());
    if Enabled(s, step) {
      if step.who == who {
        OwnHarmlessMove(x, y, step);
        if step.RenewStep? && x.PeerConnected(step.at.mine) {
          RenewingTheLease(x, y, step.lease, step.at);
        }
      } else {
        PeerHarmlessMove(x, y, step);
      }
    }
  }

  /**
   * A leader whose ticks come at most the ttl after its latest acked renewal keeps its lease, at the same
   * term and epoch, through any run without a lost pipe, a delivery, a restart or a word from its peer's ticks.
   */
  lemma {:induction false} AckedLeadersKeepTheirLease(s: Sys, steps: seq<Step>, who: Side)
    requires s.Me(who).MayWrite() && !s.Me(who.Flip()).MayWrite()
    requires forall i :: 0 <= i < |steps| ==>
               Harmless(steps[i], who, LatestAck(s, steps[..i], who), s.Me(who).leaseTtlMs)
    ensures var x, x' := s.Me(who), Run(s, steps).Me(who);
            && x'.MayWrite() && SameFencing(x, x') && x'.leaseEpoch == x.leaseEpoch
            && x'.lastLeaseAckAt == LatestAck(s, steps, who)
    decreases |steps|
  {
    if steps != [] {
      var n := |steps| - 1;
      var before := steps[..n];
      assert forall i :: 0 <= i < n ==> before[..i] == steps[..i];
      AckedLeadersKeepTheirLease(s, before, who);
      SingleWriter(s, before);
      assert Harmless(steps[n], who, LatestAck(s, before, who), s.Me(who).leaseTtlMs);
      HarmlessStep(Run(s, before), steps[n], who);
    }
  }

  /** A renewal that reaches the follower buys it the ttl: its next tick leaves it following exactly that long. */
  lemma RenewalsKeepTheFollower(x: Hub, y: Hub, lease: Outcome, at: Clocks, elect: Outcome, asked: Outcome,
      later: Clocks)
    requires x.MayWrite() && x.PeerConnected(at.mine) && !lease.RequestLost? && Grants(y, x.term, x.leaseEpoch)
    ensures var y' := RenewLease(x, y, lease, at).peer;
            Tick(y', x, elect, asked, later).me.phase == Follower <==> later.mine - at.theirs <= y.leaseTtlMs
  {
    RenewingTheLease(x, y, lease, at);
  }
}
