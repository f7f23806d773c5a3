/** What holds over every run of two control planes. */
module HaSafety {
  import opened Option
  import opened Election
  import opened HubState
  import opened HaRuns

  /** Fresh from construction and start(), whatever the kv table holds. */
  ghost predicate JustBooted(h: Hub) {
    h == Restarted(h, h.lastLeaderActivityAt)
  }

  /** Two planes that know each other's ids, which are never empty (packages/hub/src/hub-cli.ts:184). */
  ghost predicate Start(s: Sys) {
    && JustBooted(s.left) && JustBooted(s.right)
    && Paired(s.left, s.right) && Paired(s.right, s.left)
    && s.left.cpId != "" && s.right.cpId != ""
    && s.declared == {} && s.leases == []
  }

  /**
   * x can run an election that y accepts: y elects it in some view, and x boots as leader or elects
   * itself before it has heard anything.
   */
  predicate Drags(x: Hub, y: Hub) {
    && MayElect(y, x)
    && (x.haRole == Leading || Before(Candidate(x.cpId, x.priority), Candidate(y.cpId, DEFAULT_CP_PRIORITY)))
  }

  /** Where a plane can run an election, its peer's persisted term is at most one ahead. */
  predicate SkewAllowed(s: Sys) {
    && (Drags(s.left, s.right) ==> s.right.term <= s.left.term + 1)
    && (Drags(s.right, s.left) ==> s.left.term <= s.right.term + 1)
  }

  lemma EmptyStoresAreAllowed(s: Sys)
    requires Start(s) && s.left.kv == None && s.right.kv == None
    ensures SkewAllowed(s)
  {
  }

  lemma StartIsSound(s: Sys)
    requires Start(s) && SkewAllowed(s)
    ensures Inv(s)
  {
  }

  lemma RunSnoc(s: Sys, steps: seq<Step>, step: Step)
    ensures Run(s, steps + [step]) == Next(Run(s, steps), step)
  {
    assert (steps + [step])[..|steps + [step]| - 1] == steps;
  }

  lemma {:induction false} RunKeepsInv(s: Sys, steps: seq<Step>)
    requires Inv(s)
    ensures Inv(Run(s, steps))
    decreases |steps|
  {
    if steps != [] {
      RunKeepsInv(s, steps[..|steps| - 1]);
      NextKeeps(Run(s, steps[..|steps| - 1]), steps[|steps| - 1]);
    }
  }

  // ---- fencing ----

  /** Continuing a run never lowers the term of either plane. */
  ghost predicate TermsNeverFall(s: Sys) {
    forall steps: seq<Step>, more: seq<Step> ::
      && Run(s, steps).left.term <= Run(s, steps + more).left.term
      && Run(s, steps).right.term <= Run(s, steps + more).right.term
  }

  lemma {:induction false} LongerRunHigherTerm(s: Sys, steps: seq<Step>, more: seq<Step>)
    requires Inv(s)
    ensures Run(s, steps).left.term <= Run(s, steps + more).left.term
    ensures Run(s, steps).right.term <= Run(s, steps + more).right.term
    decreases |more|
  {
    if more == [] {
      assert steps + more == steps;
    } else {
      var shorter := more[..|more| - 1];
      var last := more[|more| - 1];
      assert steps + more == (steps + shorter) + [last];
      LongerRunHigherTerm(s, steps, shorter);
      RunKeepsInv(s, steps + shorter);
      RunSnoc(s, steps + shorter, last);
      NextKeeps(Run(s, steps + shorter), last);
    }
  }

  /** Fencing terms never go backwards on either plane, restarts included. */
  lemma FencingTermsNeverFall(s: Sys)
    requires Start(s) && SkewAllowed(s)
    ensures TermsNeverFall(s)
  {
    StartIsSound(s);
    forall steps: seq<Step>, more: seq<Step>
      ensures Run(s, steps).left.term <= Run(s, steps + more).left.term
      ensures Run(s, steps).right.term <= Run(s, steps + more).right.term
    {
      LongerRunHigherTerm(s, steps, more);
    }
  }

  // ---- leases ----

  lemma TakeLeaseKeepsSingleWriter(x: Hub, y: Hub, lease: Outcome, at: Clocks)
    requires !(x.MayWrite() && y.MayWrite())
    ensures var p := TakeLease(x, y, lease, at); !(p.me.MayWrite() && p.peer.MayWrite())
  {
  }

  lemma StartElectionKeepsSingleWriter(x: Hub, y: Hub, elect: Outcome, lease: Outcome, at: Clocks)
    requires !(x.MayWrite() && y.MayWrite())
    ensures var p := StartElection(x, y, elect, lease, at); !(p.me.MayWrite() && p.peer.MayWrite())
  {
    if x.peer.Some? {
      var answer := y.HandleElect(ElectRequest(ProposedTerm(x), x.cpId), at.theirs);
      TakeLeaseKeepsSingleWriter(x.Elected(ProposedTerm(x)), answer.hub, lease, at);
    }
  }

  lemma TickKeepsSingleWriter(x: Hub, y: Hub, elect: Outcome, lease: Outcome, at: Clocks)
    requires !(x.MayWrite() && y.MayWrite())
    ensures var p := Tick(x, y, elect, lease, at); !(p.me.MayWrite() && p.peer.MayWrite())
  {
    if TicksLocally(x, at) {
      LocalTickIsQuiet(x, y, elect, lease, at);
    } else {
      TickIsOneOfThree(x, y, elect, lease, at);
    }
    TakeLeaseKeepsSingleWriter(x, y, lease, at);
    StartElectionKeepsSingleWriter(x, y, elect, lease, at);
  }

  lemma DeliveryGainsNoLease(x: Hub, state: PeerState, now: int)
    ensures x.OnPeerState(state, now).MayWrite() ==> x.MayWrite()
  {
  }

  /**
   * Between two states that are not both leased, no step makes both leased: no assumption on
   * stores, terms or priorities.
   */
  lemma MoveKeepsSingleWriter(x: Hub, y: Hub, step: Step)
    requires !(x.MayWrite() && y.MayWrite())
    ensures var p := Move(x, y, step); !(p.me.MayWrite() && p.peer.MayWrite())
  {
    match step
    case TickStep(_, elect, lease, at) => TickKeepsSingleWriter(x, y, elect, lease, at);
    case DeliverStep(_, state, now) => DeliveryGainsNoLease(x, state, now);
    case _ =>
  }

  lemma {:induction false} SingleWriter(s: Sys, steps: seq<Step>)
    requires !(s.left.MayWrite() && s.right.MayWrite())
    ensures !(Run(s, steps).left.MayWrite() && Run(s, steps).right.MayWrite())
    decreases |steps|
  {
    if steps != [] {
      var before := Run(s, steps[..|steps| - 1]);
      var step := steps[|steps| - 1];
      SingleWriter(s, steps[..|steps| - 1]);
      MoveKeepsSingleWriter(before.Me(step.who), before.Me(step.who.Flip()), step);
    }
  }

  // ---- what every plane keeps by itself, whatever its peer holds ----

  /** The term is the persisted one, and a lease is held only at the elected, current term. */
  ghost predicate OwnTerms(x: Hub) {
    && x.term >= 1 && ReadPersisted(x.kv).term == x.term
    && (x.MayWrite() ==> x.leaseEpoch == x.term == x.electedTerm && x.haRole == Leading)
  }

  lemma TakeLeaseKeepsOwnTerms(x: Hub, y: Hub, lease: Outcome, at: Clocks)
    requires OwnTerms(x) && OwnTerms(y) && x.electedTerm == x.term
    ensures var p := TakeLease(x, y, lease, at); OwnTerms(p.me) && OwnTerms(p.peer)
  {
  }

  lemma StartElectionKeepsOwnTerms(x: Hub, y: Hub, elect: Outcome, lease: Outcome, at: Clocks)
    requires OwnTerms(x) && OwnTerms(y) && !x.MayWrite() && Paired(x, y)
    ensures var p := StartElection(x, y, elect, lease, at); OwnTerms(p.me) && OwnTerms(p.peer)
  {
    if x.peer.Some? {
      var won, answer := x.Elected(ProposedTerm(x)), y.HandleElect(ElectRequest(ProposedTerm(x), x.cpId), at.theirs);
      TakeLeaseKeepsOwnTerms(won, answer.hub, lease, at);
    }
  }

  lemma TickKeepsOwnTerms(x: Hub, y: Hub, elect: Outcome, lease: Outcome, at: Clocks)
    requires OwnTerms(x) && OwnTerms(y) && Paired(x, y)
    ensures var p := Tick(x, y, elect, lease, at); OwnTerms(p.me) && OwnTerms(p.peer)
  {
    if TicksLocally(x, at) {
      LocalTickIsQuiet(x, y, elect, lease, at);
    } else {
      TickIsOneOfThree(x, y, elect, lease, at);
      if x.phase == Nominating && x.haRole == Leading && x.electedTerm == x.term {
        TakeLeaseKeepsOwnTerms(x, y, lease, at);
      } else {
        StartElectionKeepsOwnTerms(x, y, elect, lease, at);
      }
    }
  }

  lemma DeliveryKeepsOwnTerms(x: Hub, state: PeerState, now: int)
    requires OwnTerms(x)
    ensures OwnTerms(x.OnPeerState(state, now))
  {
  }

  lemma OtherMoveKeepsOwnTerms(x: Hub, y: Hub, step: Step)
    requires OwnTerms(x) && OwnTerms(y) && !step.TickStep? && !step.DeliverStep?
    ensures var p := Move(x, y, step); OwnTerms(p.me) && OwnTerms(p.peer)
  {
  }

  lemma MoveKeepsOwnTerms(x: Hub, y: Hub, step: Step)
    requires OwnTerms(x) && OwnTerms(y) && Paired(x, y) && Paired(y, x)
    ensures var p := Move(x, y, step);
            OwnTerms(p.me) && OwnTerms(p.peer) && Paired(p.me, p.peer) && Paired(p.peer, p.me)
  {
    MoveKeepsIdentities(x, y, step);
    match step
    case TickStep(_, elect, lease, at) => TickKeepsOwnTerms(x, y, elect, lease, at);
    case DeliverStep(_, state, now) => DeliveryKeepsOwnTerms(x, state, now);
    case _ => OtherMoveKeepsOwnTerms(x, y, step);
  }

  /** Who a plane is never changes. */
  predicate SameIdentity(x: Hub, x': Hub) {
    && x.cpId == x'.cpId && x.otherId == x'.otherId && x.priority == x'.priority
    && x.leaseTtlMs == x'.leaseTtlMs && x.heartbeatMs == x'.heartbeatMs
  }

  lemma TakeLeaseKeepsIdentities(x: Hub, y: Hub, lease: Outcome, at: Clocks)
    ensures var p := TakeLease(x, y, lease, at); SameIdentity(x, p.me) && SameIdentity(y, p.peer)
  {
  }

  lemma AnswersKeepIdentities(x: Hub, req: ElectRequest, response: ElectResponse, now: int)
    ensures SameIdentity(x, x.HandleElect(req, now).hub) && SameIdentity(x, ElectionRefused(x, response, now))
  {
  }

  lemma StartElectionKeepsIdentities(x: Hub, y: Hub, elect: Outcome, lease: Outcome, at: Clocks)
    ensures var p := StartElection(x, y, elect, lease, at); SameIdentity(x, p.me) && SameIdentity(y, p.peer)
  {
    if x.peer.Some? {
      var req := ElectRequest(ProposedTerm(x), x.cpId);
      var answer := y.HandleElect(req, at.theirs);
      AnswersKeepIdentities(y, req, answer.response, at.theirs);
      AnswersKeepIdentities(x, req, answer.response, at.mine);
      TakeLeaseKeepsIdentities(x.Elected(ProposedTerm(x)), answer.hub, lease, at);
    }
  }

  lemma TickKeepsIdentities(x: Hub, y: Hub, elect: Outcome, lease: Outcome, at: Clocks)
    ensures var p := Tick(x, y, elect, lease, at); SameIdentity(x, p.me) && SameIdentity(y, p.peer)
  {
    if !TicksLocally(x, at) {
      TickIsOneOfThree(x, y, elect, lease, at);
      TakeLeaseKeepsIdentities(x, y, lease, at);
      StartElectionKeepsIdentities(x, y, elect, lease, at);
    }
  }

  lemma DeliveryKeepsIdentity(x: Hub, state: PeerState, now: int)
    ensures SameIdentity(x, x.OnPeerState(state, now))
  {
  }

  lemma MoveKeepsIdentities(x: Hub, y: Hub, step: Step)
    ensures var p := Move(x, y, step); SameIdentity(x, p.me) && SameIdentity(y, p.peer)
  {
    match step
    case TickStep(_, elect, lease, at) => TickKeepsIdentities(x, y, elect, lease, at);
    case DeliverStep(_, state, now) => DeliveryKeepsIdentity(x, state, now);
    case _ =>
  }

  /** Both planes keep their own terms, their identities and each other's ids, over every run. */
  lemma {:induction false} RunKeepsOwnTerms(s: Sys, steps: seq<Step>)
    requires OwnTerms(s.left) && OwnTerms(s.right) && Paired(s.left, s.right) && Paired(s.right, s.left)
    ensures var r := Run(s, steps);
            && OwnTerms(r.left) && OwnTerms(r.right) && Paired(r.left, r.right) && Paired(r.right, r.left)
            && SameIdentity(s.left, r.left) && SameIdentity(s.right, r.right)
    decreases |steps|
  {
    if steps != [] {
      var before, step := Run(s, steps[..|steps| - 1]), steps[|steps| - 1];
      RunKeepsOwnTerms(s, steps[..|steps| - 1]);
      MoveKeepsOwnTerms(before.Me(step.who), before.Me(step.who.Flip()), step);
      MoveKeepsIdentities(before.Me(step.who), before.Me(step.who.Flip()), step);
    }
  }

  /**
   * A plane that may write holds the lease of its own term, and won or was confirmed in an election
   * at that term: from any stores, priorities and terms.
   */
  lemma LeaseMatchesElection(s: Sys, steps: seq<Step>, who: Side)
    requires Start(s) && Run(s, steps).Me(who).MayWrite()
    ensures var x := Run(s, steps).Me(who);
            x.leaseEpoch == x.term == x.electedTerm && x.term >= 1 && x.haRole == Leading
  {
    RunKeepsOwnTerms(s, steps);
  }
}
