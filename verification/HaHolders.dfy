/** One term is leased to one plane only, whatever the stores, terms and priorities. */
module HaHolders {
  import opened Option
  import opened Election
  import opened HubState
  import opened HaRuns
  import opened HaSafety
  import opened HaExchanges

  /** A later lease is at no lower term, and at the same term only the same plane's, in its peer's name. */
  predicate Follows(l: Grant, next: Grant) {
    l.term <= next.term && (l.term == next.term ==> l.holder == next.holder && !next.ownName)
  }

  /** Lease terms never fall, a term is leased to one plane only, an own-name grant is always fresh. */
  ghost predicate WellLeased(leases: seq<Grant>) {
    forall i, j :: 0 <= i < j < |leases| ==> Follows(leases[i], leases[j])
  }

  // ---- what a plane keeps ----

  /** A leading plane won at its term or before, and names one of the two planes. */
  predicate NamesALeader(x: Hub, y: Hub) {
    x.haRole == Leading ==> x.electedTerm <= x.term && (x.leader == x.cpId || x.leader == y.cpId)
  }

  /**
   * How a plane that could ask for a lease of its term stands to a lease of that term: its own
   * it would take again only in its peer's name, its peer's it would not ask for.
   */
  predicate Respects(x: Hub, y: Hub, l: Grant) {
    && l.term <= x.term
    && (x.haRole == Leading && x.electedTerm == x.term == l.term ==>
          if l.holder == x.cpId then x.phase == Nominating ==> x.leader == y.cpId
          else x.phase != Nominating && x.leader == y.cpId)
  }

  ghost predicate Settled(x: Hub, y: Hub) {
    && Paired(x, y) && Paired(y, x) && OwnTerms(x) && OwnTerms(y)
    && NamesALeader(x, y) && NamesALeader(y, x)
  }

  // ---- the names, step by step ----

  lemma AgreedNames(x: Hub, y: Hub, p: Planes, lease: Outcome, at: Clocks)
    requires Paired(x, y) && NamesALeader(x, y) && Agreed(x, y, p, lease, at)
    ensures NamesALeader(p.me, p.peer) && NamesALeader(p.peer, p.me)
  {
  }

  lemma StartElectionNames(x: Hub, y: Hub, elect: Outcome, lease: Outcome, at: Clocks)
    requires Settled(x, y)
    ensures var p := StartElection(x, y, elect, lease, at); NamesALeader(p.me, p.peer) && NamesALeader(p.peer, p.me)
  {
    var p := StartElection(x, y, elect, lease, at);
    EndsOfAProposal(x, y, elect, lease, at);
    if Agreed(x, y, p, lease, at) {
      AgreedNames(x, y, p, lease, at);
    }
  }

  lemma TickNames(x: Hub, y: Hub, elect: Outcome, lease: Outcome, at: Clocks)
    requires Settled(x, y)
    ensures var p := Tick(x, y, elect, lease, at); NamesALeader(p.me, p.peer) && NamesALeader(p.peer, p.me)
  {
    if TicksLocally(x, at) {
      LocalTickEnds(x, y, elect, lease, at);
    } else {
      TickIsOneOfThree(x, y, elect, lease, at);
      StartElectionNames(x, y, elect, lease, at);
    }
  }

  lemma DeliveryNames(x: Hub, y: Hub, state: PeerState, now: int)
    requires Settled(x, y)
    ensures NamesALeader(x.OnPeerState(state, now), y)
  {
  }

  lemma OtherMoveNames(x: Hub, y: Hub, step: Step)
    requires Settled(x, y) && !step.TickStep? && !step.DeliverStep?
    ensures var p := Move(x, y, step); NamesALeader(p.me, p.peer) && NamesALeader(p.peer, p.me)
  {
    if step.AttachStep? || step.CloseStep? {
      PipesKeepRoles(x, step.pipe, if step.AttachStep? then step.now else 0);
    }
  }

  lemma MoveKeepsSettled(x: Hub, y: Hub, step: Step)
    requires Settled(x, y)
    ensures var p := Move(x, y, step); Settled(p.me, p.peer)
  {
    MoveKeepsOwnTerms(x, y, step);
    MoveKeepsIdentities(x, y, step);
    match step
    case TickStep(_, elect, lease, at) => TickNames(x, y, elect, lease, at);
    case DeliverStep(_, state, now) => DeliveryNames(x, y, state, now);
    case _ => OtherMoveNames(x, y, step);
  }

  // ---- an earlier lease, step by step ----

  /** Where the planes stand after a step: to a lease granted before it, and that lease to the one the step grants. */
  ghost predicate Orderly(x: Hub, p: Planes, l: Grant) {
    && Respects(p.me, p.peer, l) && Respects(p.peer, p.me, l)
    && forall g :: g in Granted(x, p.me) ==> Follows(l, g)
  }

  lemma TakeLeaseIsOrderly(x: Hub, y: Hub, lease: Outcome, at: Clocks, l: Grant)
    requires Settled(x, y) && Respects(x, y, l) && Respects(y, x, l)
    requires x.phase == Nominating && x.haRole == Leading && x.electedTerm == x.term
    ensures Orderly(x, TakeLease(x, y, lease, at), l)
  {
  }

  /** Where both planes are above a lease it does not matter any more. */
  lemma HigherTermsAreOrderly(x: Hub, y: Hub, lease: Outcome, at: Clocks, l: Grant)
    requires l.term < x.term && l.term < y.term && !x.MayWrite()
    ensures Orderly(x, TakeLease(x, y, lease, at), l)
  {
  }

  /** Whoever accepts or wins an election is at a term above every earlier lease. */
  lemma AgreedIsOrderly(x: Hub, y: Hub, p: Planes, lease: Outcome, at: Clocks, l: Grant)
    requires Respects(x, y, l) && !x.MayWrite() && Agreed(x, y, p, lease, at)
    ensures Orderly(x, p, l)
  {
    var t := ProposedTerm(x);
    HigherTermsAreOrderly(x.Elected(t), y.Accepted(ElectRequest(t, x.cpId), at.theirs), lease, at, l);
  }

  lemma TurnedDownIsOrderly(x: Hub, y: Hub, p: Planes, at: Clocks, l: Grant)
    requires Respects(x, y, l) && Respects(y, x, l) && TurnedDown(x, y, p, at)
    ensures Orderly(x, p, l)
  {
  }

  lemma StartElectionIsOrderly(x: Hub, y: Hub, elect: Outcome, lease: Outcome, at: Clocks, l: Grant)
    requires Settled(x, y) && Respects(x, y, l) && Respects(y, x, l) && !x.MayWrite()
    ensures Orderly(x, StartElection(x, y, elect, lease, at), l)
  {
    var p := StartElection(x, y, elect, lease, at);
    EndsOfAProposal(x, y, elect, lease, at);
    if Agreed(x, y, p, lease, at) {
      AgreedIsOrderly(x, y, p, lease, at, l);
    } else if TurnedDown(x, y, p, at) {
      TurnedDownIsOrderly(x, y, p, at, l);
    }
  }

  lemma LocalTickIsOrderly(x: Hub, y: Hub, elect: Outcome, lease: Outcome, at: Clocks, l: Grant)
    requires Settled(x, y) && Respects(x, y, l) && Respects(y, x, l) && TicksLocally(x, at)
    ensures Orderly(x, Tick(x, y, elect, lease, at), l)
  {
    LocalTickEnds(x, y, elect, lease, at);
  }

  lemma TickIsOrderly(x: Hub, y: Hub, elect: Outcome, lease: Outcome, at: Clocks, l: Grant)
    requires Settled(x, y) && Respects(x, y, l) && Respects(y, x, l)
    ensures Orderly(x, Tick(x, y, elect, lease, at), l)
  {
    if TicksLocally(x, at) {
      LocalTickIsOrderly(x, y, elect, lease, at, l);
    } else {
      TickIsOneOfThree(x, y, elect, lease, at);
      if x.phase == Nominating && x.haRole == Leading && x.electedTerm == x.term {
        TakeLeaseIsOrderly(x, y, lease, at, l);
      } else {
        StartElectionIsOrderly(x, y, elect, lease, at, l);
      }
    }
  }

  lemma DeliveryIsOrderly(x: Hub, y: Hub, state: PeerState, now: int, l: Grant)
    requires Settled(x, y) && Respects(x, y, l) && Respects(y, x, l)
    ensures Orderly(x, Planes(x.OnPeerState(state, now), y), l)
  {
  }

  lemma RenewIsOrderly(x: Hub, y: Hub, lease: Outcome, at: Clocks, l: Grant)
    requires Settled(x, y) && Respects(x, y, l) && Respects(y, x, l)
    ensures Orderly(x, RenewLease(x, y, lease, at), l)
  {
  }

  lemma SameRoleIsOrderly(x: Hub, x': Hub, y: Hub, l: Grant)
    requires Respects(x, y, l) && Respects(y, x, l) && SameRole(x, x')
    ensures Orderly(x, Planes(x', y), l)
  {
  }

  lemma RestartIsOrderly(x: Hub, y: Hub, now: int, l: Grant)
    requires Settled(x, y) && Respects(x, y, l) && Respects(y, x, l)
    ensures Orderly(x, Planes(Restarted(x, now), y), l)
  {
  }

  lemma MoveIsOrderly(x: Hub, y: Hub, step: Step, l: Grant)
    requires Settled(x, y) && Respects(x, y, l) && Respects(y, x, l)
    ensures Orderly(x, Move(x, y, step), l)
  {
    match step
    case TickStep(_, elect, lease, at) => TickIsOrderly(x, y, elect, lease, at, l);
    case RenewStep(_, lease, at) => RenewIsOrderly(x, y, lease, at, l);
    case DeliverStep(_, state, now) => DeliveryIsOrderly(x, y, state, now, l);
    case RestartStep(_, now) => RestartIsOrderly(x, y, now, l);
    case DeclareStep(_) => SameRoleIsOrderly(x, x, y, l);
    case AttachStep(_, pipe, now) =>
      PipesKeepRoles(x, pipe, now);
      SameRoleIsOrderly(x, x.Attached(pipe, now), y, l);
    case CloseStep(_, pipe) =>
      PipesKeepRoles(x, pipe, 0);
      SameRoleIsOrderly(x, x.PipeClosed(pipe), y, l);
  }

  // ---- the lease a step grants ----

  lemma TakenLeaseIsRespected(x: Hub, y: Hub, lease: Outcome, at: Clocks, g: Grant)
    requires Paired(x, y) && NamesALeader(y, x) && !x.MayWrite()
    requires var p := TakeLease(x, y, lease, at); p.me.MayWrite() && g.term == p.me.term && g.holder == x.cpId
    ensures var p := TakeLease(x, y, lease, at); Respects(p.me, p.peer, g) && Respects(p.peer, p.me, g)
  {
  }

  lemma ElectedLeaseIsRespected(x: Hub, y: Hub, elect: Outcome, lease: Outcome, at: Clocks, g: Grant)
    requires Settled(x, y) && g in Granted(x, StartElection(x, y, elect, lease, at).me)
    ensures var p := StartElection(x, y, elect, lease, at); Respects(p.me, p.peer, g) && Respects(p.peer, p.me, g)
  {
    EndsOfAProposal(x, y, elect, lease, at);
    var t := ProposedTerm(x);
    TakenLeaseIsRespected(x.Elected(t), y.Accepted(ElectRequest(t, x.cpId), at.theirs), lease, at, g);
  }

  lemma GrantIsRespected(x: Hub, y: Hub, step: Step, g: Grant)
    requires Settled(x, y) && g in Granted(x, Move(x, y, step).me)
    ensures var p := Move(x, y, step); Respects(p.me, p.peer, g) && Respects(p.peer, p.me, g)
  {
    if step.DeliverStep? {
      DeliveryGainsNoLease(x, step.state, step.now);
    }
    var elect, lease, at := step.elect, step.lease, step.at;
    if TicksLocally(x, at) {
      LocalTickIsQuiet(x, y, elect, lease, at);
    } else {
      TickIsOneOfThree(x, y, elect, lease, at);
      if x.phase == Nominating && x.haRole == Leading && x.electedTerm == x.term {
        TakenLeaseIsRespected(x, y, lease, at, g);
      } else {
        ElectedLeaseIsRespected(x, y, elect, lease, at, g);
      }
    }
  }

  // ---- every run ----

  ghost predicate Ordered(x: Hub, y: Hub, leases: seq<Grant>) {
    && Settled(x, y) && WellLeased(leases)
    && forall l :: l in leases ==> Respects(x, y, l) && Respects(y, x, l)
  }

  lemma MoreLeases(leases: seq<Grant>, granted: seq<Grant>)
    requires WellLeased(leases) && |granted| <= 1
    requires forall l, g :: l in leases && g in granted ==> Follows(l, g)
    ensures WellLeased(leases + granted)
  {
  }

  lemma MoveKeepsOrder(x: Hub, y: Hub, step: Step, leases: seq<Grant>)
    requires Ordered(x, y, leases)
    ensures var p := Move(x, y, step); Ordered(p.me, p.peer, leases + Granted(x, p.me))
  {
    var p := Move(x, y, step);
    MoveKeepsSettled(x, y, step);
    forall l | l in leases
      ensures Orderly(x, p, l)
    {
      MoveIsOrderly(x, y, step, l);
    }
    forall g | g in Granted(x, p.me)
      ensures Respects(p.me, p.peer, g) && Respects(p.peer, p.me, g)
    {
      GrantIsRespected(x, y, step, g);
    }
    MoreLeases(leases, Granted(x, p.me));
  }

  lemma {:induction false} RunKeepsOrder(s: Sys, steps: seq<Step>)
    requires Ordered(s.left, s.right, s.leases)
    ensures var r := Run(s, steps); Ordered(r.left, r.right, r.leases)
    decreases |steps|
  {
    if steps != [] {
      var before, step := Run(s, steps[..|steps| - 1]), steps[|steps| - 1];
      RunKeepsOrder(s, steps[..|steps| - 1]);
      MoveKeepsOrder(before.Me(step.who), before.Me(step.who.Flip()), step, before.leases);
    }
  }

  /**
   * From any stores, terms and priorities, over every run: lease terms never fall, one term is leased
   * to one plane only, and again only in its peer's name.
   */
  lemma OneHolderPerTerm(s: Sys, steps: seq<Step>)
    requires Start(s)
    ensures WellLeased(Run(s, steps).leases)
  {
    RunKeepsOrder(s, steps);
  }
}
