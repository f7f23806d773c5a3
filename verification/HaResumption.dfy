/** Every plane that does not always elect itself can resume a lease: the runs that show it. */
module HaResumption {
  import opened Option
  import opened Election
  import opened HubState
  import opened HaRuns
  import opened HaSafety
  import opened HaExchanges
  import opened HaLeases

  /** Two planes as after construction, whatever their tables hold and whatever was declared or leased before. */
  ghost predicate Rebooted(x: Hub, y: Hub) {
    JustBooted(x) && JustBooted(y) && Paired(x, y) && Paired(y, x) && x.cpId != "" && y.cpId != ""
  }

  // ---- a plane its peer never elects ----

  /** y elects itself whatever it has heard of x. */
  predicate NeverElects(y: Hub, x: Hub) {
    !Beaten(y, x.cpId, x.priority) && !Beaten(y, x.cpId, DEFAULT_CP_PRIORITY)
  }

  /** A plane without a pipe elects itself. */
  lemma AloneElectsItself(x: Hub, t: int)
    requires x.cpId != x.otherId && (x.peer.Some? ==> !x.peer.value.inbound && !x.peer.value.outbound)
    ensures ElectLeader(x.Candidates(t)) == x.cpId
  {
    Elects(x, t);
  }

  /** x proposes, is told to follow y, and loses its pipe. */
  lemma ToldToFollow(s: Sys, before: seq<Step>, who: Side, t: int) returns (steps: seq<Step>)
    requires var b := Run(s, before); var x, y := b.Me(who), b.Me(who.Flip());
             Rebooted(x, y) && x.haRole == Leading && Readable(x, t)
    ensures var b, r := Run(s, before), Run(s, steps);
            var x, x' := b.Me(who), r.Me(who);
            && r.Me(who.Flip()) == b.Me(who.Flip()) && r.leases == b.leases
            && SameIdentity(x, x') && x'.leader == x.otherId && x'.term == Max(x.term, b.Me(who.Flip()).term)
            && x'.phase == ReadOnlyNoQuorum && !x'.electInFlight
            && x'.peer.Some? && !x'.peer.value.inbound && !x'.peer.value.outbound
  {
    var x, y := Run(s, before).Me(who), Run(s, before).Me(who.Flip());
    var x' := x.Attached(Inbound, t);
    steps := Quietly(s, before, AttachStep(who, Inbound, t));
    AttachedIsConnected(x, t);
    AloneElectsItself(y, t);
    ProposalRefused(x', y, RequestLost, Clocks(t, t));
    steps := Quietly(s, steps, TickStep(who, Delivered, RequestLost, Clocks(t, t)));
    steps := Quietly(s, steps, CloseStep(who, Inbound));
  }

  /** y proposes to a plane without a pipe and is told to follow it. */
  lemma ToldToFollowBack(s: Sys, before: seq<Step>, who: Side, t: int) returns (steps: seq<Step>)
    requires var b := Run(s, before); var x, y := b.Me(who), b.Me(who.Flip());
             && Paired(x, y) && Paired(y, x) && x.cpId != "" && !x.MayWrite() && Proposing(y, t)
             && (x.peer.Some? ==> !x.peer.value.inbound && !x.peer.value.outbound)
    ensures var b, r := Run(s, before), Run(s, steps);
            && r.Me(who) == b.Me(who) && r.leases == b.leases
            && r.Me(who.Flip()) == Refused(b.Me(who.Flip()), b.Me(who))
  {
    var x, y := Run(s, before).Me(who), Run(s, before).Me(who.Flip());
    AloneElectsItself(x, t);
    ProposalRefused(y, x, RequestLost, Clocks(t, t));
    steps := Quietly(s, before, TickStep(who.Flip(), Delivered, RequestLost, Clocks(t, t)));
  }

  /** Equal terms, each naming the other: the split brain moves y ahead, and y then confirms x. */
  lemma ConfirmedAfterSplitBrain(x: Hub, y: Hub, t: int)
    requires Paired(x, y) && Paired(y, x) && x.cpId != "" && x.leader != "" && x.leader != x.cpId
    requires y.leader == x.cpId && x.term <= y.term
    ensures var y' := y.OnPeerState(x.CurrentState(), t);
            var x' := x.OnPeerState(y'.CurrentState(), t);
            && y'.term == x'.term == x'.electedTerm == (if x.term == y.term then y.term + 1 else y.term)
            && y'.leader == x'.leader == x.cpId
            && x'.haRole == Leading && x'.phase == Nominating && x'.kv == Some(Kv(x'.term, x.cpId, x'.leaderTerm))
            && SameIdentity(x, x') && SameIdentity(y, y')
            && x'.electInFlight == x.electInFlight && y'.electInFlight == y.electInFlight
            && x'.peer.Some? && x'.peer.value.priority == y.priority
            && x'.peer.value.inbound == x.PeerRecord().inbound && x'.peer.value.outbound == x.PeerRecord().outbound
            && y'.haRole == y.haRole && (y.phase == ReadOnlyNoQuorum ==> y'.phase == ReadOnlyNoQuorum)
            && y'.peer.Some? && y'.peer.value.priority == x.priority && y'.peer.value.lastSeen == t
            && y'.peer.value.inbound == y.PeerRecord().inbound
  {
  }

  /** x and y tell each other: x is confirmed at y's term. */
  lemma Confirm(s: Sys, before: seq<Step>, who: Side, t: int) returns (steps: seq<Step>)
    requires var b := Run(s, before); Paired(b.Me(who), b.Me(who.Flip())) && Paired(b.Me(who.Flip()), b.Me(who))
    ensures var b, r := Run(s, before), Run(s, steps);
            var y' := b.Me(who.Flip()).OnPeerState(b.Me(who).CurrentState(), t);
            r.Me(who) == b.Me(who).OnPeerState(y'.CurrentState(), t) && r.Me(who.Flip()) == y' && r.leases == b.leases
  {
    var x, y := Run(s, before).Me(who), Run(s, before).Me(who.Flip());
    DeliveryKeepsIdentity(y, x.CurrentState(), t);
    steps := Tell(s, before, who, t);
    steps := Tell(s, steps, who.Flip(), t);
  }

  /** A plane without a pipe, naming somebody else as leader. */
  predicate Stray(x: Hub) {
    && x.term >= 1 && !x.MayWrite() && !x.electInFlight && x.leader != "" && x.leader != x.cpId
    && (x.peer.Some? ==> !x.peer.value.inbound && !x.peer.value.outbound)
  }

  /** The proposer's pipe, and its own reading of it. */
  predicate HasPipe(y: Hub, t: int) {
    y.peer.Some? && y.peer.value.inbound && Readable(y, t)
  }

  /** After one refusal of y, a stray x is confirmed by it at a term of its own. */
  lemma StrayIsConfirmed(s: Sys, before: seq<Step>, who: Side, t: int) returns (steps: seq<Step>)
    requires var b := Run(s, before); var x, y := b.Me(who), b.Me(who.Flip());
             Paired(x, y) && Paired(y, x) && x.cpId != "" && Stray(x) && Proposing(y, t) && HasPipe(y, t)
    ensures var b, r := Run(s, before), Run(s, steps);
            var x, y, x', y' := b.Me(who), b.Me(who.Flip()), r.Me(who), r.Me(who.Flip());
            && r.leases == b.leases && SameIdentity(x, x') && SameIdentity(y, y')
            && x'.electedTerm == x'.term == y'.term >= 1 && x'.leader == y'.leader == x.cpId
            && x'.haRole == Leading && x'.phase == Nominating && !x'.electInFlight && !y'.electInFlight
            && x'.kv == Some(Kv(x'.term, x.cpId, x'.leaderTerm))
            && x'.peer.Some? && x'.peer.value.priority == y.priority
            && !x'.peer.value.inbound && !x'.peer.value.outbound
            && y'.phase == ReadOnlyNoQuorum && y'.haRole == Following && y'.PeerConnected(t)
            && y'.peer.value.priority == x.priority && HasPipe(y', t)
  {
    steps := ToldToFollowBack(s, before, who, t);
    ConfirmedAfterSplitBrain(Run(s, steps).Me(who), Run(s, steps).Me(who.Flip()), t);
    steps := Confirm(s, steps, who, t);
  }

  /** And when y elects itself again, x is granted the lease. */
  lemma StrayIsLeased(s: Sys, before: seq<Step>, who: Side, t: int) returns (steps: seq<Step>)
    requires var b := Run(s, before); var x, y := b.Me(who), b.Me(who.Flip());
             && Paired(x, y) && Paired(y, x) && x.cpId != "" && Stray(x) && Proposing(y, t) && HasPipe(y, t)
             && NeverElects(y, x) && Readable(x, t)
    ensures var b, r := Run(s, before), Run(s, steps);
            var x, y, x' := b.Me(who), b.Me(who.Flip()), r.Me(who);
            && Holding(x', r.Me(who.Flip())) && SameIdentity(x, x') && SameIdentity(y, r.Me(who.Flip()))
            && x'.lastLeaseAckAt == t && x'.peer.Some? && x'.peer.value.priority == y.priority
            && r.leases == b.leases + [Grant(x'.term, x.cpId, true)]
  {
    steps := StrayIsConfirmed(s, before, who, t);
    Elects(Run(s, steps).Me(who.Flip()), t);
    steps := ToldToFollowBack(s, steps, who, t);
    AttachedIsConnected(Run(s, steps).Me(who), t);
    steps := Quietly(s, steps, AttachStep(who, Inbound, t));
    steps := TickGrants(s, steps, who, t);
  }

  /** A fresh plane that leads or elects itself proposes once its pipe is up. */
  lemma FreshProposes(y: Hub, x: Hub, t: int)
    requires JustBooted(y) && Paired(y, x) && Readable(y, t)
    requires y.haRole == Leading || !Beaten(y, x.cpId, DEFAULT_CP_PRIORITY)
    ensures var y' := y.Attached(Inbound, t); Proposing(y', t) && HasPipe(y', t) && SameIdentity(y, y')
  {
    AttachedIsConnected(y, t);
    Elects(y.Attached(Inbound, t), t);
  }

  /** The first lease of a plane its peer never elects. */
  lemma LeaseWithoutElection(s: Sys, before: seq<Step>, who: Side, t: int) returns (steps: seq<Step>)
    requires var b := Run(s, before); var x, y := b.Me(who), b.Me(who.Flip());
             Rebooted(x, y) && NeverElects(y, x) && Readable(x, t) && Readable(y, t)
    ensures var b, r := Run(s, before), Run(s, steps);
            var x, y, x' := b.Me(who), b.Me(who.Flip()), r.Me(who);
            && Holding(x', r.Me(who.Flip())) && SameIdentity(x, x') && SameIdentity(y, r.Me(who.Flip()))
            && x'.lastLeaseAckAt == t && x'.peer.Some? && x'.peer.value.priority == y.priority
            && r.leases == b.leases + [Grant(x'.term, x.cpId, true)]
  {
    var x, y := Run(s, before).Me(who), Run(s, before).Me(who.Flip());
    steps := before;
    if x.haRole == Leading {
      steps := ToldToFollow(s, steps, who, t);
    }
    FreshProposes(y, x, t);
    steps := Quietly(s, steps, AttachStep(who.Flip(), Inbound, t));
    steps := StrayIsLeased(s, steps, who, t);
  }

  // ---- a plane its peer may elect ----

  /** Both planes restart. */
  lemma RestartBoth(s: Sys, before: seq<Step>, who: Side, t: int) returns (steps: seq<Step>)
    requires var b := Run(s, before); var x, y := b.Me(who), b.Me(who.Flip());
             Paired(x, y) && Paired(y, x) && x.cpId != "" && y.cpId != "" && ReadPersisted(x.kv).leader == x.cpId
    ensures var b, r := Run(s, before), Run(s, steps);
            && Rebooted(r.Me(who), r.Me(who.Flip())) && r.Me(who).haRole == Leading && r.leases == b.leases
            && SameIdentity(b.Me(who), r.Me(who)) && SameIdentity(b.Me(who.Flip()), r.Me(who.Flip()))
  {
    steps := Quietly(s, before, RestartStep(who, t));
    steps := Quietly(s, steps, RestartStep(who.Flip(), t));
  }

  /** x boots as follower; y can propose before it has heard anything. */
  lemma LeadsByConfirmation(s: Sys, before: seq<Step>, who: Side, t: int) returns (steps: seq<Step>)
    requires var b := Run(s, before); var x, y := b.Me(who), b.Me(who.Flip());
             && Rebooted(x, y) && x.haRole == Following && Readable(x, t) && Readable(y, t)
             && (y.haRole == Leading || !Beaten(y, x.cpId, DEFAULT_CP_PRIORITY))
    ensures var b, r := Run(s, before), Run(s, steps);
            && Rebooted(r.Me(who), r.Me(who.Flip())) && r.Me(who).haRole == Leading && r.leases == b.leases
            && SameIdentity(b.Me(who), r.Me(who)) && SameIdentity(b.Me(who.Flip()), r.Me(who.Flip()))
  {
    var x, y := Run(s, before).Me(who), Run(s, before).Me(who.Flip());
    FreshProposes(y, x, t);
    steps := Quietly(s, before, AttachStep(who.Flip(), Inbound, t));
    steps := StrayIsConfirmed(s, steps, who, t);
    steps := RestartBoth(s, steps, who, t);
  }

  /** What a fresh follower is after hearing a fresh peer. */
  lemma FreshFollowerHears(y: Hub, x: Hub, t: int)
    requires Rebooted(x, y) && y.haRole == Following
    ensures var y' := y.OnPeerState(x.CurrentState(), t);
            && SameIdentity(y, y') && !y'.electInFlight
            && (y'.phase == Nominating || y'.phase == ReadOnlyNoQuorum)
            && y'.peer.Some? && y'.peer.value.priority == x.priority && y'.peer.value.term == x.term
            && (y'.haRole == Leading ==> ReadPersisted(y'.kv).leader == y.cpId)
  {
  }

  /** x boots as follower, and y only elects itself once it has heard x. */
  lemma LeadsAfterBeingHeard(s: Sys, before: seq<Step>, who: Side, t: int) returns (steps: seq<Step>)
    requires var b := Run(s, before); var x, y := b.Me(who), b.Me(who.Flip());
             && Rebooted(x, y) && x.haRole == Following && y.haRole == Following && Readable(x, t) && Readable(y, t)
             && !Beaten(y, x.cpId, x.priority)
    ensures var b, r := Run(s, before), Run(s, steps);
            && Rebooted(r.Me(who), r.Me(who.Flip())) && r.Me(who).haRole == Leading && r.leases == b.leases
            && SameIdentity(b.Me(who), r.Me(who)) && SameIdentity(b.Me(who.Flip()), r.Me(who.Flip()))
  {
    var x, y := Run(s, before).Me(who), Run(s, before).Me(who.Flip());
    FreshFollowerHears(y, x, t);
    var y' := y.OnPeerState(x.CurrentState(), t);
    steps := Tell(s, before, who, t);
    if y'.haRole == Leading {
      steps := Quietly(s, steps, RestartStep(who.Flip(), t));
      steps := LeadsByConfirmation(s, steps, who, t);
    } else {
      AttachedIsConnected(y', t);
      Elects(y'.Attached(Inbound, t), t);
      steps := Quietly(s, steps, AttachStep(who.Flip(), Inbound, t));
      steps := StrayIsConfirmed(s, steps, who, t);
      steps := RestartBoth(s, steps, who, t);
    }
  }

  /** With both pipes up, x proposes and y, which has not heard of it, accepts. */
  lemma ProposesToAFreshPeer(s: Sys, before: seq<Step>, who: Side, t: int) returns (steps: seq<Step>)
    requires var b := Run(s, before); var x, y := b.Me(who), b.Me(who.Flip());
             && Paired(x, y) && JustBooted(y) && Paired(y, x) && Readable(x, t) && Readable(y, t)
             && x.haRole == Following && (x.phase == Nominating || x.phase == ReadOnlyNoQuorum) && !x.electInFlight
             && x.peer.Some? && !Beaten(x, y.cpId, x.peer.value.priority) && Beaten(y, x.cpId, DEFAULT_CP_PRIORITY)
    ensures var b, r := Run(s, before), Run(s, steps);
            && r.leases == b.leases && ReadPersisted(r.Me(who).kv).leader == b.Me(who).cpId
            && SameIdentity(b.Me(who), r.Me(who)) && SameIdentity(b.Me(who.Flip()), r.Me(who.Flip()))
  {
    var x, y := Run(s, before).Me(who), Run(s, before).Me(who.Flip());
    steps := BothPipesUp(s, before, who, t);
    AttachedIsConnected(x, t);
    AttachedIsConnected(y, t);
    Elects(x.Attached(Inbound, t), t);
    Elects(y.Attached(Inbound, t), t);
    steps := WinsElection(s, steps, who, t);
  }

  /** x boots as follower, elects itself once it has heard y, and y elects x unheard. */
  lemma LeadsAfterHearing(s: Sys, before: seq<Step>, who: Side, t: int) returns (steps: seq<Step>)
    requires var b := Run(s, before); var x, y := b.Me(who), b.Me(who.Flip());
             && Rebooted(x, y) && x.haRole == Following && Readable(x, t) && Readable(y, t)
             && !Beaten(x, y.cpId, y.priority) && Beaten(y, x.cpId, DEFAULT_CP_PRIORITY)
    ensures var b, r := Run(s, before), Run(s, steps);
            && Rebooted(r.Me(who), r.Me(who.Flip())) && r.Me(who).haRole == Leading && r.leases == b.leases
            && SameIdentity(b.Me(who), r.Me(who)) && SameIdentity(b.Me(who.Flip()), r.Me(who.Flip()))
  {
    var x, y := Run(s, before).Me(who), Run(s, before).Me(who.Flip());
    FreshFollowerHears(x, y, t);
    var x' := x.OnPeerState(y.CurrentState(), t);
    steps := Tell(s, before, who.Flip(), t);
    if x'.haRole == Following {
      steps := ProposesToAFreshPeer(s, steps, who, t);
    }
    steps := RestartBoth(s, steps, who, t);
  }

  /** Whoever does not always elect itself can come to boot as leader. */
  lemma ComesToLead(s: Sys, who: Side, t: int) returns (steps: seq<Step>)
    requires var x, y := s.Me(who), s.Me(who.Flip());
             Rebooted(x, y) && !ElectsItself(x, y) && Readable(x, t) && Readable(y, t)
    ensures var r := Run(s, steps);
            && Rebooted(r.Me(who), r.Me(who.Flip())) && r.Me(who).haRole == Leading && r.leases == s.leases
            && SameIdentity(s.Me(who), r.Me(who)) && SameIdentity(s.Me(who.Flip()), r.Me(who.Flip()))
  {
    var x, y := s.Me(who), s.Me(who.Flip());
    LexTotal(x.cpId, y.cpId);
    if x.haRole == Leading {
      steps := [];
    } else if y.haRole == Leading || !Beaten(y, x.cpId, DEFAULT_CP_PRIORITY) {
      steps := LeadsByConfirmation(s, [], who, t);
    } else if !Beaten(y, x.cpId, x.priority) {
      steps := LeadsAfterBeingHeard(s, [], who, t);
    } else {
      steps := LeadsAfterHearing(s, [], who, t);
    }
  }

  /** Booted as leader, with a peer that elects it: the first lease. */
  lemma LeaseByElection(s: Sys, before: seq<Step>, who: Side, t: int) returns (steps: seq<Step>)
    requires var b := Run(s, before); var x, y := b.Me(who), b.Me(who.Flip());
             Rebooted(x, y) && x.haRole == Leading && !NeverElects(y, x) && Readable(x, t) && Readable(y, t)
    ensures var b, r := Run(s, before), Run(s, steps);
            var x, x' := b.Me(who), r.Me(who);
            && Holding(x', r.Me(who.Flip())) && SameIdentity(x, x') && SameIdentity(b.Me(who.Flip()), r.Me(who.Flip()))
            && x'.lastLeaseAckAt == t && x'.peer.Some? && x'.peer.value.priority == DEFAULT_CP_PRIORITY
            && r.leases == b.leases + [Grant(x'.term, x.cpId, true)]
  {
    var x, y := Run(s, before).Me(who), Run(s, before).Me(who.Flip());
    steps := before;
    if !Beaten(y, x.cpId, DEFAULT_CP_PRIORITY) {
      DeliveryKeepsIdentity(y, x.CurrentState(), t);
      steps := Tell(s, steps, who, t);
    }
    steps := FirstLease(s, steps, who, t, t);
  }

  /** x holds a lease and sees a peer that beats it. */
  lemma LeaseToLose(s: Sys, who: Side, t: int) returns (steps: seq<Step>)
    requires var x, y := s.Me(who), s.Me(who.Flip());
             Rebooted(x, y) && !ElectsItself(x, y) && Readable(x, t) && Readable(y, t)
    ensures var r := Run(s, steps);
            var x, y, x' := s.Me(who), s.Me(who.Flip()), r.Me(who);
            && Holding(x', r.Me(who.Flip())) && SameIdentity(x, x') && SameIdentity(y, r.Me(who.Flip()))
            && x'.lastLeaseAckAt == t && x'.peer.Some? && Beaten(x', y.cpId, x'.peer.value.priority)
            && r.leases == s.leases + [Grant(x'.term, x.cpId, true)]
  {
    var x, y := s.Me(who), s.Me(who.Flip());
    LexTotal(x.cpId, y.cpId);
    if NeverElects(y, x) {
      steps := LeaseWithoutElection(s, [], who, t);
    } else {
      steps := ComesToLead(s, who, t);
      steps := LeaseByElection(s, steps, who, t);
      if !Beaten(x, y.cpId, DEFAULT_CP_PRIORITY) {
        HolderHears(Run(s, steps).Me(who), Run(s, steps).Me(who.Flip()), t);
        steps := Tell(s, steps, who.Flip(), t);
      }
    }
  }

  /** The run that resumes a lease: two grants of one term, the second in the peer's name. */
  lemma ALeaseIsResumed(s: Sys, who: Side, t: int, u: int) returns (steps: seq<Step>, term: int)
    requires Start(s) && !ElectsItself(s.Me(who), s.Me(who.Flip()))
    requires Readable(s.Me(who), t) && Readable(s.Me(who.Flip()), t) && Readable(s.Me(who), u)
    ensures Run(s, steps).leases == [Grant(term, s.Me(who).cpId, true), Grant(term, s.Me(who).cpId, false)]
    ensures var x := Run(s, steps).Me(who); x.haRole == Leading && x.leader != s.Me(who).cpId
  {
    steps := LeaseToLose(s, who, t);
    var x := Run(s, steps).Me(who);
    var expiry := t + Max(0, x.leaseTtlMs) + 1;
    term := x.term;
    steps := ResumesLease(s, steps, who, expiry, u, u);
  }

  /** A holder of two leases of one term: not fresh. */
  lemma ResumedIsNotFresh(s: Sys, who: Side, steps: seq<Step>, term: int)
    requires Run(s, steps).leases == [Grant(term, s.Me(who).cpId, true), Grant(term, s.Me(who).cpId, false)]
    ensures !LeasesAreFresh(s, who)
  {
    var leases := Run(s, steps).leases;
    assert leases[0].term == leases[1].term && leases[1].holder == s.Me(who).cpId;
  }

  /** A plane that does not elect itself in every view, at two readings that show it resuming a lease. */
  lemma SomeLeaseIsResumed(s: Sys, who: Side) returns (steps: seq<Step>, term: int)
    requires Start(s) && !ElectsItself(s.Me(who), s.Me(who.Flip()))
    ensures Run(s, steps).leases == [Grant(term, s.Me(who).cpId, true), Grant(term, s.Me(who).cpId, false)]
    ensures var x := Run(s, steps).Me(who); x.haRole == Leading && x.leader != s.Me(who).cpId
  {
    var x := s.Me(who);
    var t := ReadingFor(x, s.Me(who.Flip()));
    steps, term := ALeaseIsResumed(s, who, t, t + if t == 0 then 0 else Max(0, x.leaseTtlMs) + 1);
  }

  /**
   * From any stores, terms and priorities: no lease of a plane is ever resumed without a new term, in
   * any run, if and only if the plane elects itself both against its peer's priority and against the
   * default one it assumes before it has heard the peer.
   */
  lemma LeasesAreFreshExactly(s: Sys, who: Side)
    requires Start(s)
    ensures LeasesAreFresh(s, who) <==> ElectsItself(s.Me(who), s.Me(who.Flip()))
  {
    if ElectsItself(s.Me(who), s.Me(who.Flip())) {
      ElectingItselfKeepsLeasesFresh(s, who);
    } else {
      var steps, term := SomeLeaseIsResumed(s, who);
      ResumedIsNotFresh(s, who, steps, term);
    }
  }

  /** And exactly such a plane never leads in its peer's name. */
  lemma LeadsInItsOwnNameExactly(s: Sys, who: Side)
    requires Start(s)
    ensures LeadsInItsOwnName(s, who) <==> ElectsItself(s.Me(who), s.Me(who.Flip()))
  {
    if ElectsItself(s.Me(who), s.Me(who.Flip())) {
      ElectingItselfLeadsInItsOwnName(s, who);
    } else {
      var steps, term := SomeLeaseIsResumed(s, who);
    }
  }

  /**
   * Pipes up and an election at 1000, the lease at 2000; it expires at 48000; another pipe and the
   * alignment at 49000, the lease again at 50000.
   */
  function ResumingRun(): seq<Step> {
    FirstLeaseSteps(Left, 1000, 2000) + ResumingSteps(Left, 48000, 49000, 50000)
  }

  lemma LeasedOnce(s: Sys, t: int, u: int) returns (steps: seq<Step>)
    requires Start(s) && s.left.haRole == Leading && Readable(s.left, t) && Readable(s.right, t) && Lasts(s.left, t, u)
    requires Beaten(s.right, s.left.cpId, DEFAULT_CP_PRIORITY)
    ensures var x, y := Run(s, steps).left, Run(s, steps).right;
            && Holding(x, y) && SameIdentity(s.left, x) && SameIdentity(s.right, y)
            && x.term == s.left.term + 1 && x.lastLeaseAckAt == u
            && x.peer.Some? && x.peer.value.priority == DEFAULT_CP_PRIORITY
    ensures Run(s, steps).leases == [Grant(s.left.term + 1, s.left.cpId, true)] && steps == FirstLeaseSteps(Left, t, u)
  {
    steps := FirstLease(s, [], Left, t, u);
    assert [] + FirstLeaseSteps(Left, t, u) == FirstLeaseSteps(Left, t, u);
  }

  lemma LeasedAgain(s: Sys, t: int, u: int, expiry: int, v: int, w: int) returns (steps: seq<Step>)
    requires Start(s) && s.left.haRole == Leading && Readable(s.left, t) && Readable(s.right, t) && Readable(s.left, v)
    requires Lasts(s.left, t, u) && Lasts(s.left, v, w) && expiry - u > s.left.leaseTtlMs
    requires Beaten(s.right, s.left.cpId, DEFAULT_CP_PRIORITY) && Beaten(s.left, s.right.cpId, DEFAULT_CP_PRIORITY)
    ensures Run(s, steps).leases
         == [Grant(s.left.term + 1, s.left.cpId, true), Grant(s.left.term + 1, s.left.cpId, false)]
    ensures steps == FirstLeaseSteps(Left, t, u) + ResumingSteps(Left, expiry, v, w)
  {
    var first := LeasedOnce(s, t, u);
    steps := ResumesLease(s, first, Left, expiry, v, w);
  }

  /**
   * Two planes with empty stores, default timing and priorities 1 and 2: even the one with the
   * smaller priority takes the lease of term 2 twice, the second time while it names its peer as leader.
   */
  lemma ALeaseCanBeResumedWithoutANewTerm(s: Sys)
    requires Start(s) && s.left.kv == None && s.right.kv == None && s.left.cpId == "a" && s.right.cpId == "b"
    requires s.left.priority == 1 && s.right.priority == 2
    requires s.left.heartbeatMs == s.right.heartbeatMs == 5000 && s.left.leaseTtlMs == 45000
    ensures SkewAllowed(s) && ElectLeader([Candidate("a", 1), Candidate("b", 2)]) == "a"
    ensures Run(s, ResumingRun()).leases == [Grant(2, "a", true), Grant(2, "a", false)]
  {
    EmptyStoresAreAllowed(s);
    RaceOfTwo(Candidate("a", 1), Candidate("b", 2));
    var steps := LeasedAgain(s, 1000, 2000, 48000, 49000, 50000);
  }
}
