/** Exactly when the fencing terms of packages/hub/src/ha.ts never fall. */
module HaFencing {
  import opened Option
  import opened Election
  import opened HubState
  import opened HaRuns
  import opened HaSafety
  import opened HaExchanges

  /** A fresh plane that may drag its peer proposes as soon as a pipe is up. */
  lemma FreshPlaneProposes(x: Hub, y: Hub, t: int)
    requires JustBooted(x) && Paired(x, y) && Drags(x, y) && Readable(x, t)
    ensures var x' := x.Attached(Inbound, t); Proposing(x', t) && ProposedTerm(x') == x.term + 1
  {
    var x' := x.Attached(Inbound, t);
    AttachedIsConnected(x, t);
    Elects(x', t);
    LexTotal(x.cpId, y.cpId);
  }

  /** Hearing a peer that is behind records its priority and moves no term. */
  lemma HeardFromBehind(y: Hub, state: PeerState, t: int)
    requires state.term < y.term
    ensures var y' := y.OnPeerState(state, t);
            && y'.term == y.term && SameIdentity(y, y') && y'.electInFlight == y.electInFlight
            && y'.peer.Some? && y'.peer.value.priority == state.priority
  {
  }

  /** The peer of a fresh plane, once it has heard of the proposer as far as it must to elect it. */
  predicate Accepting(x: Hub, y: Hub) {
    Beaten(y, x.cpId, y.PeerRecord().priority)
  }

  lemma AcceptingElectsProposer(x: Hub, y: Hub, t: int)
    requires Paired(y, x) && Accepting(x, y) && Readable(y, t)
    ensures ElectLeader(y.Attached(Inbound, t).Candidates(t)) == x.cpId
  {
    AttachedIsConnected(y, t);
    Elects(y.Attached(Inbound, t), t);
  }

  /** With both pipes up the proposal lands, one above the proposer's term, whatever the peer's was. */
  lemma ProposalLands(s: Sys, before: seq<Step>, who: Side, t: int) returns (steps: seq<Step>, tick: Step)
    requires var b := Run(s, before); var x, y := b.Me(who), b.Me(who.Flip());
             && JustBooted(x) && Paired(x, y) && Paired(y, x) && Drags(x, y) && Accepting(x, y)
             && Readable(x, t) && Readable(y, t)
    ensures Run(s, steps).Me(who.Flip()).term == Run(s, before).Me(who.Flip()).term
    ensures Run(s, steps + [tick]).Me(who.Flip()).term == Run(s, before).Me(who).term + 1
  {
    var x, y := Run(s, before).Me(who), Run(s, before).Me(who.Flip());
    steps := BothPipesUp(s, before, who, t);
    FreshPlaneProposes(x, y, t);
    AcceptingElectsProposer(x, y, t);
    tick := TickStep(who, Delivered, RequestLost, Clocks(t, t));
    var more := WinsElection(s, steps, who, t);
  }

  /** A peer that boots more than one term ahead of a plane that can drag it loses terms in some run. */
  lemma ATermFalls(s: Sys, who: Side, t: int) returns (steps: seq<Step>, tick: Step)
    requires Start(s) && Drags(s.Me(who), s.Me(who.Flip())) && s.Me(who.Flip()).term > s.Me(who).term + 1
    requires Readable(s.Me(who), t) && Readable(s.Me(who.Flip()), t)
    ensures Run(s, steps + [tick]).Me(who.Flip()).term < Run(s, steps).Me(who.Flip()).term
  {
    var x, y := s.Me(who), s.Me(who.Flip());
    var before: seq<Step> := [];
    if !Beaten(y, x.cpId, DEFAULT_CP_PRIORITY) {
      before := Tell(s, [], who, t);
      HeardFromBehind(y, x.CurrentState(), t);
    }
    steps, tick := ProposalLands(s, before, who, t);
  }

  lemma TermsFallWhereSkewIsNotAllowed(s: Sys, who: Side)
    requires Start(s) && Drags(s.Me(who), s.Me(who.Flip())) && s.Me(who.Flip()).term > s.Me(who).term + 1
    ensures !TermsNeverFall(s)
  {
    var steps, tick := ATermFalls(s, who, ReadingFor(s.Me(who), s.Me(who.Flip())));
    assert !(Run(s, steps).left.term <= Run(s, steps + [tick]).left.term
             && Run(s, steps).right.term <= Run(s, steps + [tick]).right.term);
  }

  /**
   * For any two stores and priorities: no term ever falls in any run if and only if no plane boots
   * more than one term ahead of a peer that can run an election it accepts.
   */
  lemma FencingHoldsExactlyForSmallSkew(s: Sys)
    requires Start(s)
    ensures TermsNeverFall(s) <==> SkewAllowed(s)
  {
    if SkewAllowed(s) {
      FencingTermsNeverFall(s);
    } else if Drags(s.left, s.right) && s.right.term > s.left.term + 1 {
      TermsFallWhereSkewIsNotAllowed(s, Left);
    } else {
      TermsFallWhereSkewIsNotAllowed(s, Right);
    }
  }

  // ---- what no run can lower ----

  function Least(s: Sys): int {
    if s.left.term <= s.right.term then s.left.term else s.right.term
  }

  lemma StartElectionKeepsTheLeast(x: Hub, y: Hub, elect: Outcome, lease: Outcome, at: Clocks, least: int)
    requires Paired(x, y) && least <= x.term && least <= y.term
    ensures var p := StartElection(x, y, elect, lease, at); least <= p.me.term && least <= p.peer.term
  {
    EndsOfAProposal(x, y, elect, lease, at);
  }

  /** A plane that accepts an election is dragged above its proposer's term, so never below both. */
  lemma MoveKeepsTheLeast(x: Hub, y: Hub, step: Step, least: int)
    requires OwnTerms(x) && Paired(x, y) && least <= x.term && least <= y.term
    ensures var p := Move(x, y, step); least <= p.me.term && least <= p.peer.term
  {
    match step
    case TickStep(_, elect, lease, at) =>
      if !TicksLocally(x, at) {
        TickIsOneOfThree(x, y, elect, lease, at);
        StartElectionKeepsTheLeast(x, y, elect, lease, at, least);
      }
    case _ =>
  }

  /** Terms may fall, but from any stores and priorities the smaller of the two never does, restarts included. */
  lemma {:induction false} LeastTermNeverFalls(s: Sys, steps: seq<Step>, more: seq<Step>)
    requires Start(s)
    ensures Least(Run(s, steps)) <= Least(Run(s, steps + more))
    decreases |more|
  {
    if more == [] {
      assert steps + more == steps;
    } else {
      var shorter, last := more[..|more| - 1], more[|more| - 1];
      assert steps + more == (steps + shorter) + [last];
      LeastTermNeverFalls(s, steps, shorter);
      var before := Run(s, steps + shorter);
      RunSnoc(s, steps + shorter, last);
      RunKeepsOwnTerms(s, steps + shorter);
      MoveKeepsTheLeast(before.Me(last.who), before.Me(last.who.Flip()), last, Least(before));
    }
  }
}
