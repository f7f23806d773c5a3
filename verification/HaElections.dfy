/** Every lease rests on an election since boot, whatever the two stores held. */
module HaElections {
  import opened Option
  import opened Election
  import opened HubState
  import opened HaRuns
  import opened HaSafety

  /** At its next tick this plane starts an election. */
  predicate StartsElection(x: Hub, at: Clocks) {
    !TicksLocally(x, at) && !(x.phase == Nominating && x.haRole == Leading && x.electedTerm == x.term)
  }

  /** `who` starts an election for term t at this step, its peer accepts, and the answer arrives. */
  predicate WinsAt(s: Sys, step: Step, who: Side, t: int) {
    var x, y := s.Me(who), s.Me(who.Flip());
    && step.TickStep? && step.who == who && step.elect.Delivered?
    && StartsElection(x, step.at) && x.peer.Some? && t == ProposedTerm(x)
    && y.HandleElect(ElectRequest(t, x.cpId), step.at.theirs).response.ok
  }

  /** `who` hears at this step that its peer, at the higher term t, names it leader. */
  predicate IsConfirmedAt(s: Sys, step: Step, who: Side, t: int) {
    && step.DeliverStep? && step.who == who && step.state in s.declared
    && step.state.term == t > s.Me(who).term && step.state.leader == s.Me(who).cpId
  }

  /** This step elects `who` at term t: it wins, or its peer confirms it. */
  predicate Confirms(s: Sys, step: Step, who: Side, t: int) {
    && (WinsAt(s, step, who, t) || IsConfirmedAt(s, step, who, t))
    && Next(s, step).Me(who).electedTerm == t
  }

  predicate Restarts(step: Step, who: Side) {
    step.RestartStep? && step.who == who
  }

  lemma StartElectionElects(x: Hub, y: Hub, elect: Outcome, lease: Outcome, at: Clocks)
    requires Paired(x, y) && Paired(y, x)
    ensures var p := StartElection(x, y, elect, lease, at);
            && p.peer.electedTerm == y.electedTerm
            && (p.me.electedTerm == x.electedTerm
                || (&& x.peer.Some? && p.me.electedTerm == ProposedTerm(x) && elect.Delivered?
                    && y.HandleElect(ElectRequest(ProposedTerm(x), x.cpId), at.theirs).response.ok))
  {
    if x.peer.Some? {
      var answer := y.HandleElect(ElectRequest(ProposedTerm(x), x.cpId), at.theirs);
      TakeLeaseElectsNobody(x.Elected(ProposedTerm(x)), answer.hub, lease, at);
    }
  }

  lemma TakeLeaseElectsNobody(x: Hub, y: Hub, lease: Outcome, at: Clocks)
    ensures var p := TakeLease(x, y, lease, at);
            p.me.electedTerm == x.electedTerm && p.peer.electedTerm == y.electedTerm
  {
  }

  lemma TickElects(x: Hub, y: Hub, elect: Outcome, lease: Outcome, at: Clocks)
    requires Paired(x, y) && Paired(y, x)
    ensures var p := Tick(x, y, elect, lease, at);
            && p.peer.electedTerm == y.electedTerm
            && (p.me.electedTerm == x.electedTerm
                || (&& x.peer.Some? && p.me.electedTerm == ProposedTerm(x) && elect.Delivered? && StartsElection(x, at)
                    && y.HandleElect(ElectRequest(ProposedTerm(x), x.cpId), at.theirs).response.ok))
  {
    if TicksLocally(x, at) {
      LocalTickIsQuiet(x, y, elect, lease, at);
    } else {
      TickIsOneOfThree(x, y, elect, lease, at);
      StartElectionElects(x, y, elect, lease, at);
      TakeLeaseElectsNobody(x, y, lease, at);
    }
  }

  lemma DeliveryElects(x: Hub, state: PeerState, now: int)
    ensures var t := x.OnPeerState(state, now).electedTerm;
            t == x.electedTerm || (t == state.term > x.term && state.leader == x.cpId)
  {
  }

  lemma MoveElects(x: Hub, y: Hub, step: Step)
    requires Paired(x, y) && Paired(y, x) && !step.TickStep? && !step.DeliverStep?
    ensures var p := Move(x, y, step);
            p.peer.electedTerm == y.electedTerm && p.me.electedTerm == if step.RestartStep? then 0 else x.electedTerm
  {
  }

  ghost predicate Pair(s: Sys) {
    Paired(s.left, s.right) && Paired(s.right, s.left)
  }

  lemma ElectedOnlyByConfirmation(s: Sys, step: Step, who: Side)
    requires Pair(s)
    ensures var t := Next(s, step).Me(who).electedTerm;
            if Restarts(step, who) then t == 0
            else t == s.Me(who).electedTerm || Confirms(s, step, who, t)
  {
    var x, y := s.Me(step.who), s.Me(step.who.Flip());
    match step
    case TickStep(_, elect, lease, at) => TickElects(x, y, elect, lease, at);
    case DeliverStep(_, state, now) => DeliveryElects(x, state, now);
    case _ => MoveElects(x, y, step);
  }

  lemma {:induction false} RunKeepsPair(s: Sys, steps: seq<Step>)
    requires Pair(s)
    ensures Pair(Run(s, steps))
    decreases |steps|
  {
    if steps != [] {
      var before, step := Run(s, steps[..|steps| - 1]), steps[|steps| - 1];
      RunKeepsPair(s, steps[..|steps| - 1]);
      MoveKeepsIdentities(before.Me(step.who), before.Me(step.who.Flip()), step);
    }
  }

  /** Step i of the run elected `who` at term t, and `who` has not restarted since. */
  ghost predicate ConfirmedAt(s: Sys, steps: seq<Step>, who: Side, t: int, i: nat) {
    && i < |steps|
    && Confirms(Run(s, steps[..i]), steps[i], who, t)
    && forall k :: i < k < |steps| ==> !Restarts(steps[k], who)
  }

  lemma {:induction false} ElectedTermWasConfirmed(s: Sys, steps: seq<Step>, who: Side) returns (i: nat)
    requires Pair(s) && s.Me(who).electedTerm == 0 && Run(s, steps).Me(who).electedTerm != 0
    ensures ConfirmedAt(s, steps, who, Run(s, steps).Me(who).electedTerm, i)
    decreases |steps|
  {
    if steps == [] {
      assert false;
    }
    var n := |steps| - 1;
    var before := Run(s, steps[..n]);
    RunKeepsPair(s, steps[..n]);
    ElectedOnlyByConfirmation(before, steps[n], who);
    if Confirms(before, steps[n], who, Run(s, steps).Me(who).electedTerm) {
      i := n;
    } else {
      i := ElectedTermWasConfirmed(s, steps[..n], who);
      StillConfirmed(s, steps, who, Run(s, steps).Me(who).electedTerm, i);
    }
  }

  /** One more step that is no restart of `who` leaves the confirmation standing. */
  lemma StillConfirmed(s: Sys, steps: seq<Step>, who: Side, t: int, i: nat)
    requires steps != [] && ConfirmedAt(s, steps[..|steps| - 1], who, t, i) && !Restarts(steps[|steps| - 1], who)
    ensures ConfirmedAt(s, steps, who, t, i)
  {
    var n := |steps| - 1;
    assert steps[..n][..i] == steps[..i] && steps[..n][i] == steps[i];
    assert forall k :: i < k < n ==> steps[..n][k] == steps[k];
  }

  /**
   * No lease is held on a merely persisted term: since its last boot the holder won an election at
   * exactly that term, or its peer confirmed one.
   */
  lemma LeaseRestsOnAnElectionSinceBoot(s: Sys, steps: seq<Step>, who: Side)
    requires Start(s) && Run(s, steps).Me(who).MayWrite()
    ensures exists i: nat :: ConfirmedAt(s, steps, who, Run(s, steps).Me(who).term, i)
  {
    LeaseMatchesElection(s, steps, who);
    var i := ElectedTermWasConfirmed(s, steps, who);
  }
}
