/** What single exchanges between two planes achieve, and what isolation cannot. */
module HaRecovery {
  import opened Option
  import opened Election
  import opened HubState
  import opened HaRuns
  import opened HaSafety
  import opened HaExchanges

  // ---- full sync ----

  /** The one pair of states a full sync leaves divided: equal terms, and only the sender undecided. */
  predicate SenderUndecided(me: Hub, peer: Hub) {
    me.term == peer.term && me.leader == "" && peer.leader != ""
  }

  predicate Agree(x: Hub, y: Hub) {
    x.term == y.term && x.leader == y.leader
  }

  /** One full sync round trip makes both planes agree, unless only the sender has no leader. */
  lemma FullSyncConverges(me: Hub, peer: Hub, at: Clocks)
    ensures var p := FullSync(me, peer, Delivered, at);
            && (Agree(p.me, p.peer) <==> !SenderUndecided(me, peer))
            && Max(me.term, peer.term) <= p.peer.term <= Max(me.term, peer.term) + 1
            && (p.peer.term == Max(me.term, peer.term) + 1 <==>
                  me.term == peer.term && me.leader != "" && me.leader != peer.leader)
            && (p.me.MayWrite() ==> me.MayWrite()) && (p.peer.MayWrite() ==> peer.MayWrite())
  {
    var peer' := peer.OnPeerState(me.CurrentState(), at.theirs);
    var me' := me.Attached(Outbound, at.mine);
    TermsAfterPeerState(peer, me.CurrentState(), at.theirs);
    TermsAfterPeerState(me', peer'.CurrentState(), at.mine);
  }

  /** Term and leader after applying a declared state. */
  lemma TermsAfterPeerState(x: Hub, state: PeerState, now: int)
    ensures var x' := x.OnPeerState(state, now);
            && (state.term > x.term ==> x'.term == state.term && x'.leader == state.leader)
            && (state.term == x.term && state.leader != "" && state.leader != x.leader ==>
                  x'.term == x.term + 1 && x'.leader == x.leader)
            && (state.term < x.term || (state.term == x.term && (state.leader == "" || state.leader == x.leader)) ==>
                  x'.term == x.term && x'.leader == x.leader)
            && (x'.MayWrite() ==> x.MayWrite())
  {
  }

  /** A full sync, whichever plane sends it and whatever is lost, is a run of the step system. */
  lemma FullSyncIsARun(s: Sys, before: seq<Step>, who: Side, sync: Outcome, at: Clocks) returns (steps: seq<Step>)
    requires var b := Run(s, before); Paired(b.Me(who), b.Me(who.Flip())) && Paired(b.Me(who.Flip()), b.Me(who))
    ensures var b, r := Run(s, before), Run(s, steps);
            && Planes(r.Me(who), r.Me(who.Flip())) == FullSync(b.Me(who), b.Me(who.Flip()), sync, at)
            && r.leases == b.leases
  {
    steps := before;
    if !sync.RequestLost? {
      var b := Run(s, before);
      DeliveryKeepsIdentity(b.Me(who.Flip()), b.Me(who).CurrentState(), at.theirs);
      steps := Tell(s, steps, who, at.theirs);
    }
    if sync.Delivered? {
      steps := Quietly(s, steps, AttachStep(who, Outbound, at.mine));
      steps := Tell(s, steps, who.Flip(), at.mine);
    }
  }

  // ---- no reachable plane is without a leader ----

  ghost predicate Named(s: Sys) {
    && Paired(s.left, s.right) && Paired(s.right, s.left) && s.left.cpId != "" && s.right.cpId != ""
    && s.left.leader != "" && s.right.leader != "" && forall m :: m in s.declared ==> m.leader != ""
  }

  lemma TakeLeaseKeepsLeaders(x: Hub, y: Hub, lease: Outcome, at: Clocks)
    ensures var p := TakeLease(x, y, lease, at); p.me.leader == x.leader && p.peer.leader == y.leader
  {
  }

  lemma StartElectionKeepsLeaders(x: Hub, y: Hub, elect: Outcome, lease: Outcome, at: Clocks)
    requires Paired(x, y) && x.cpId != "" && x.leader != "" && y.leader != ""
    ensures var p := StartElection(x, y, elect, lease, at); p.me.leader != "" && p.peer.leader != ""
  {
    EndsOfAProposal(x, y, elect, lease, at);
    if x.peer.Some? {
      var t := ProposedTerm(x);
      TakeLeaseKeepsLeaders(x.Elected(t), y.Accepted(ElectRequest(t, x.cpId), at.theirs), lease, at);
    }
  }

  lemma TickKeepsLeaders(x: Hub, y: Hub, elect: Outcome, lease: Outcome, at: Clocks)
    requires Paired(x, y) && x.cpId != "" && y.cpId != "" && x.leader != "" && y.leader != ""
    ensures var p := Tick(x, y, elect, lease, at); p.me.leader != "" && p.peer.leader != ""
  {
    if TicksLocally(x, at) {
      LocalTickEnds(x, y, elect, lease, at);
    } else {
      TickIsOneOfThree(x, y, elect, lease, at);
      TakeLeaseKeepsLeaders(x, y, lease, at);
      StartElectionKeepsLeaders(x, y, elect, lease, at);
    }
  }

  lemma MoveKeepsLeaders(x: Hub, y: Hub, step: Step)
    requires Paired(x, y) && x.cpId != "" && y.cpId != "" && x.leader != "" && y.leader != ""
    requires step.DeliverStep? ==> step.state.leader != ""
    ensures var p := Move(x, y, step); p.me.leader != "" && p.peer.leader != ""
  {
    match step
    case TickStep(_, elect, lease, at) => TickKeepsLeaders(x, y, elect, lease, at);
    case _ =>
  }

  lemma {:induction false} RunKeepsLeaders(s: Sys, steps: seq<Step>)
    requires Named(s)
    ensures Named(Run(s, steps))
    decreases |steps|
  {
    if steps != [] {
      var before, step := Run(s, steps[..|steps| - 1]), steps[|steps| - 1];
      RunKeepsLeaders(s, steps[..|steps| - 1]);
      if Enabled(before, step) {
        MoveKeepsIdentities(before.Me(step.who), before.Me(step.who.Flip()), step);
        MoveKeepsLeaders(before.Me(step.who), before.Me(step.who.Flip()), step);
      }
    }
  }

  /**
   * In every reachable state a full sync round trip ends with both planes agreeing on term and
   * leader, whatever stores they started from.
   */
  lemma ReachablePlanesAgreeAfterASync(s: Sys, steps: seq<Step>, who: Side, at: Clocks)
    requires Start(s)
    ensures var r := Run(s, steps);
            var me, peer := r.Me(who), r.Me(who.Flip());
            var p := FullSync(me, peer, Delivered, at);
            && Agree(p.me, p.peer)
            && Max(me.term, peer.term) <= p.peer.term <= Max(me.term, peer.term) + 1
            && (p.peer.term == Max(me.term, peer.term) + 1 <==> me.term == peer.term && me.leader != peer.leader)
            && (p.me.MayWrite() ==> me.MayWrite()) && (p.peer.MayWrite() ==> peer.MayWrite())
  {
    RunKeepsLeaders(s, steps);
    FullSyncConverges(Run(s, steps).Me(who), Run(s, steps).Me(who.Flip()), at);
  }

  // ---- recovery ----

  /** Both live views elect this plane. */
  predicate ElectedInBothViews(me: Hub, peer: Hub, at: Clocks) {
    && ElectLeader(me.Candidates(at.mine)) == me.cpId
    && ElectLeader(peer.Candidates(at.theirs)) == me.cpId
  }

  /**
   * From read-only with a live peer, one uninterrupted tick restores write access
   * exactly when both views elect this plane; then both planes share a term and a
   * lease epoch above the old term, whatever state the peer was in.
   */
  lemma OneTickRecovers(me: Hub, peer: Hub, at: Clocks)
    requires Paired(me, peer) && Paired(peer, me)
    requires me.phase == ReadOnlyNoQuorum && !me.electInFlight && me.PeerConnected(at.mine)
    ensures var p := Tick(me, peer, Delivered, Delivered, at);
            && (p.me.MayWrite() <==> ElectedInBothViews(me, peer, at))
            && (p.me.MayWrite() ==>
                  && p.peer.phase == Follower && p.peer.leader == p.me.leader == me.cpId
                  && p.me.term == p.peer.term == p.me.leaseEpoch == p.peer.leaseEpoch == p.me.electedTerm
                  && p.me.term > me.term)
  {
    if ElectLeader(me.Candidates(at.mine)) == me.cpId {
      TickIsOneOfThree(me, peer, Delivered, Delivered, at);
      ElectionThenLease(me, peer, at);
    }
  }

  lemma ElectionThenLease(me: Hub, peer: Hub, at: Clocks)
    requires Paired(me, peer) && Paired(peer, me) && me.phase != LeaderLeased && !me.electInFlight
    requires me.PeerConnected(at.mine)
    ensures var p := StartElection(me, peer, Delivered, Delivered, at);
            if ElectLeader(peer.Candidates(at.theirs)) == me.cpId then
              && p.me == me.Elected(ProposedTerm(me)).(phase := LeaderLeased, leaseEpoch := ProposedTerm(me),
                  lastLeaseAckAt := at.mine)
              && p.peer
                 == peer.Accepted(ElectRequest(ProposedTerm(me), me.cpId), at.theirs).(leaseEpoch := ProposedTerm(me))
            else !p.me.MayWrite()
  {
    var req := ElectRequest(ProposedTerm(me), me.cpId);
    if ElectLeader(peer.Candidates(at.theirs)) == me.cpId {
      var won, peer' := me.Elected(ProposedTerm(me)), peer.Accepted(req, at.theirs);
      assert peer.HandleElect(req, at.theirs).hub == peer';
      assert peer'.AcksLease(LeaseRenewRequest(won.term, won.term));
      assert StartElection(me, peer, Delivered, Delivered, at) == TakeLease(won, peer', Delivered, at);
    } else {
      assert !peer.HandleElect(req, at.theirs).response.ok;
    }
  }

  // ---- isolation ----

  /** Nothing the peer says reaches this plane, and none of its own requests is answered. */
  predicate Isolated(step: Step, who: Side) {
    match step
    case TickStep(w, elect, lease, _) =>
      if w == who then !elect.Delivered? && !lease.Delivered? else elect.RequestLost? && lease.RequestLost?
    case RenewStep(w, lease, _) => if w == who then !lease.Delivered? else lease.RequestLost?
    case DeliverStep(w, _, _) => w != who
    case _ => true
  }

  /** An isolated tick changes no term and gains no lease. */
  lemma IsolatedTick(x: Hub, y: Hub, elect: Outcome, lease: Outcome, at: Clocks)
    requires !elect.Delivered? && !lease.Delivered?
    ensures var x' := Tick(x, y, elect, lease, at).me;
            && x'.term == x.term && x'.kv == x.kv && x'.lastLeaseAckAt == x.lastLeaseAckAt
            && x'.leaseTtlMs == x.leaseTtlMs
            && (x'.MayWrite() ==> x.MayWrite() && at.mine - x.lastLeaseAckAt <= x.leaseTtlMs)
  {
    if TicksLocally(x, at) {
      LocalTickIsQuiet(x, y, elect, lease, at);
    } else {
      TickIsOneOfThree(x, y, elect, lease, at);
    }
  }

  lemma LostTickOfThePeer(x: Hub, y: Hub, elect: Outcome, lease: Outcome, at: Clocks)
    requires elect.RequestLost? && lease.RequestLost?
    ensures Tick(y, x, elect, lease, at).peer == x
  {
    if TicksLocally(y, at) {
      LocalTickIsQuiet(y, x, elect, lease, at);
    } else {
      TickIsOneOfThree(y, x, elect, lease, at);
    }
  }

  /** The plane's term is the persisted one: the only thing isolation relies on. */
  predicate OnRecord(x: Hub) {
    ReadPersisted(x.kv).term == x.term
  }

  /** What isolation keeps of a plane, and how old a lease a tick leaves standing. */
  predicate StaysPut(x: Hub, x': Hub, step: Step, who: Side) {
    && x'.term == x.term && x'.leaseTtlMs == x.leaseTtlMs
    && (x'.MayWrite() ==> x.MayWrite() && x'.lastLeaseAckAt == x.lastLeaseAckAt)
    && (x'.MayWrite() && step.TickStep? && step.who == who ==> step.at.mine - x.lastLeaseAckAt <= x.leaseTtlMs)
  }

  lemma IsolatedOwnMove(x: Hub, y: Hub, step: Step)
    requires OnRecord(x) && Isolated(step, step.who)
    ensures StaysPut(x, Move(x, y, step).me, step, step.who) && OnRecord(Move(x, y, step).me)
  {
    if step.TickStep? {
      IsolatedTick(x, y, step.elect, step.lease, step.at);
    }
  }

  lemma IsolatedPeerMove(x: Hub, y: Hub, step: Step)
    requires Isolated(step, step.who.Flip())
    ensures Move(y, x, step).peer == x
  {
    if step.TickStep? {
      LostTickOfThePeer(x, y, step.elect, step.lease, step.at);
    }
  }

  lemma IsolatedStep(s: Sys, step: Step, who: Side)
    requires OnRecord(s.Me(who)) && Isolated(step, who)
    ensures StaysPut(s.Me(who), Next(s, step).Me(who), step, who) && OnRecord(Next(s, step).Me(who))
  {
    if Enabled(s, step) {
      if step.who == who {
        IsolatedOwnMove(s.Me(who), s.Me(who.Flip()), step);
      } else {
        IsolatedPeerMove(s.Me(who), s.Me(who.Flip()), step);
      }
    }
  }

  /**
   * Cut off from its peer, a plane never changes its term and never gains write access, however
   * long it runs and whatever its peer does.
   */
  lemma {:induction false} NoSelfPromotion(s: Sys, steps: seq<Step>, who: Side)
    requires OnRecord(s.Me(who)) && forall i :: 0 <= i < |steps| ==> Isolated(steps[i], who)
    ensures var x, x' := s.Me(who), Run(s, steps).Me(who);
            && x'.term == x.term && x'.leaseTtlMs == x.leaseTtlMs && OnRecord(x')
            && (x'.MayWrite() ==> x.MayWrite() && x'.lastLeaseAckAt == x.lastLeaseAckAt)
    decreases |steps|
  {
    if steps != [] {
      NoSelfPromotion(s, steps[..|steps| - 1], who);
      IsolatedStep(Run(s, steps[..|steps| - 1]), steps[|steps| - 1], who);
    }
  }

  lemma {:induction false} RunSplits(s: Sys, steps: seq<Step>, more: seq<Step>)
    ensures Run(s, steps + more) == Run(Run(s, steps), more)
    decreases |more|
  {
    if more == [] {
      assert steps + more == steps;
    } else {
      var shorter, last := more[..|more| - 1], more[|more| - 1];
      RunSplits(s, steps, shorter);
      assert steps + more == (steps + shorter) + [last];
      RunSnoc(s, steps + shorter, last);
    }
  }

  lemma RunAround(s: Sys, steps: seq<Step>, i: nat)
    requires i < |steps|
    ensures Run(s, steps) == Run(Next(Run(s, steps[..i]), steps[i]), steps[i + 1..])
  {
    var upTo := steps[..i] + [steps[i]];
    RunSnoc(s, steps[..i], steps[i]);
    RunSplits(s, upTo, steps[i + 1..]);
    assert steps == upTo + steps[i + 1..];
  }

  /** The middle of the argument, on the states before and after the tick and at the end. */
  lemma LeaseAgeAtTheEnd(x: Hub, before: Hub, after: Hub, end: Hub, step: Step, who: Side, now: int, d: int)
    requires before.leaseTtlMs == x.leaseTtlMs && (before.MayWrite() ==> before.lastLeaseAckAt == x.lastLeaseAckAt)
    requires StaysPut(before, after, step, who) && step.TickStep? && step.who == who && now - step.at.mine <= d
    requires end.MayWrite() && (end.MayWrite() ==> after.MayWrite())
    ensures now - x.lastLeaseAckAt <= x.leaseTtlMs + d
  {
  }

  /**
   * Cut off, a plane that still may write at `now` ticked at most d earlier only if its last ack is
   * at most ttl + d old.
   */
  lemma WriteAccessRunsOut(s: Sys, steps: seq<Step>, who: Side, i: nat, now: int, d: int)
    requires OnRecord(s.Me(who)) && forall k :: 0 <= k < |steps| ==> Isolated(steps[k], who)
    requires i < |steps| && steps[i].TickStep? && steps[i].who == who && now - steps[i].at.mine <= d
    requires Run(s, steps).Me(who).MayWrite()
    ensures now - s.Me(who).lastLeaseAckAt <= s.Me(who).leaseTtlMs + d
  {
    var before := Run(s, steps[..i]);
    var after := Next(before, steps[i]);
    var rest := steps[i + 1..];
    NoSelfPromotion(s, steps[..i], who);
    IsolatedStep(before, steps[i], who);
    RunAround(s, steps, i);
    NoSelfPromotion(after, rest, who);
    LeaseAgeAtTheEnd(s.Me(who), before.Me(who), after.Me(who), Run(s, steps).Me(who), steps[i], who, now, d);
  }
}
