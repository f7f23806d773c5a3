/**
 * HaProxyController of packages/cli/src/ha-proxy.ts: which control plane the proxy
 * forwards to, as a function of the health probes. Ticks do not overlap.
 */
module HaProxy {
  import opened Arithmetic

  datatype Backend = Primary | Secondary

  datatype Options = Options(failThreshold: int, recoverThreshold: int)

  /** One tick's two probes. */
  datatype Probe = Probe(primaryOk: bool, secondaryOk: bool)

  datatype ProxyState = ProxyState(active: Backend, failCount: nat, recoverCount: nat, failoverCount: nat)

  const START := ProxyState(Primary, 0, 0, 0)

  function Switched(s: ProxyState, to: Backend): ProxyState {
    if s.active == to then s else ProxyState(to, 0, 0, s.failoverCount + 1)
  }

  function Tick(o: Options, s: ProxyState, probe: Probe): ProxyState {
    if s.active == Primary then
      if probe.primaryOk then s.(failCount := 0)
      else if s.failCount + 1 >= o.failThreshold && probe.secondaryOk then Switched(s, Secondary)
      else s.(failCount := s.failCount + 1)
    else if probe.secondaryOk then
      if probe.primaryOk && s.recoverCount + 1 >= o.recoverThreshold then Switched(s, Primary)
      else s.(recoverCount := s.recoverCount + 1)
    else if probe.primaryOk then Switched(s, Primary)
    else s.(recoverCount := 0)
  }

  class HaProxyController {
    const options: Options
    var active: Backend
    var healthy: map<Backend, bool>
    var failCount: nat
    var recoverCount: nat
    var failoverCount: nat

    ghost function State(): ProxyState
      reads this
    {
      ProxyState(active, failCount, recoverCount, failoverCount)
    }

    constructor (options: Options)
      ensures State() == START && this.options == options
      ensures healthy == map[Primary := false, Secondary := false]
    {
      this.options := options;
      active := Primary;
      healthy := map[Primary := false, Secondary := false];
      failCount, recoverCount, failoverCount := 0, 0, 0;
    }

    method ProbeTick(primaryOk: bool, secondaryOk: bool) returns (now: Backend)
      modifies this
      ensures State() == Tick(options, old(State()), Probe(primaryOk, secondaryOk)) && now == active
      ensures healthy == old(healthy)[Primary := primaryOk][Secondary := secondaryOk]
    {
      healthy := healthy[Primary := primaryOk];
      healthy := healthy[Secondary := secondaryOk];
      if active == Primary {
        if primaryOk {
          failCount := 0;
          return Primary;
        }
        failCount := failCount + 1;
        if failCount >= options.failThreshold {
          if secondaryOk {
            SwitchTo(Secondary);
          }
        }
      } else {
        if secondaryOk {
          recoverCount := recoverCount + 1;
          if primaryOk && recoverCount >= options.recoverThreshold {
            SwitchTo(Primary);
            recoverCount := 0;
          }
        } else {
          recoverCount := 0;
          if primaryOk {
            SwitchTo(Primary);
          }
        }
      }
      return active;
    }

    method SwitchTo(id: Backend)
      modifies this`active, this`failoverCount, this`failCount, this`recoverCount
      ensures State() == Switched(old(State()), id)
    {
      if active == id {
        return;
      }
      active := id;
      failoverCount := failoverCount + 1;
      failCount := 0;
      recoverCount := 0;
    }
  }

  // ---- whole runs ----

  /** The ticks so far, the latest one outermost. */
  datatype Run = Empty | After(earlier: Run, last: Probe)

  function StateAfter(o: Options, run: Run): ProxyState {
    if run.Empty? then START else Tick(o, StateAfter(o, run.earlier), run.last)
  }

  function Length(run: Run): nat {
    if run.Empty? then 0 else Length(run.earlier) + 1
  }

  function ActiveAfter(o: Options, run: Run): Backend {
    StateAfter(o, run).active
  }

  predicate FailsOver(o: Options, run: Run) {
    run.After? && ActiveAfter(o, run.earlier) == Primary && ActiveAfter(o, run) == Secondary
  }

  predicate SwitchesBack(o: Options, run: Run) {
    run.After? && ActiveAfter(o, run.earlier) == Secondary && ActiveAfter(o, run) == Primary
  }

  /** How many ticks changed the active backend. */
  function Changes(o: Options, run: Run): nat {
    if run.Empty? then 0
    else Changes(o, run.earlier) + if FailsOver(o, run) || SwitchesBack(o, run) then 1 else 0
  }

  /** The latest ticks in a row that found the primary active and failing. */
  function FailedInARow(o: Options, run: Run): nat {
    if run.Empty? || ActiveAfter(o, run.earlier) == Secondary || run.last.primaryOk then 0
    else FailedInARow(o, run.earlier) + 1
  }

  /** The latest ticks in a row that found the secondary active and healthy. */
  function HealthyInARow(o: Options, run: Run): nat {
    if run.Empty? || ActiveAfter(o, run.earlier) == Primary || !run.last.secondaryOk then 0
    else HealthyInARow(o, run.earlier) + 1
  }

  /** The latest ticks in a row whose primary probe succeeded. */
  function PrimarySuccesses(run: Run): nat {
    if run.Empty? || !run.last.primaryOk then 0 else PrimarySuccesses(run.earlier) + 1
  }

  function Threshold(t: int): nat {
    if t >= 1 then t else 1
  }

  /** The counters count exactly these rows of ticks. */
  lemma {:induction false} CountersCountRows(o: Options, run: Run)
    ensures var s := StateAfter(o, run);
            && s.failCount == (if s.active == Primary then FailedInARow(o, run) else 0)
            && s.recoverCount == (if s.active == Secondary then HealthyInARow(o, run) else 0)
            && s.failoverCount == Changes(o, run)
  {
    if run.After? {
      CountersCountRows(o, run.earlier);
    }
  }

  /** The proxy fails over exactly when the primary failed at least threshold times in a row and the secondary is up. */
  lemma FailsOverExactly(o: Options, run: Run)
    requires run.After? && ActiveAfter(o, run.earlier) == Primary
    ensures FailsOver(o, run) <==> FailedInARow(o, run) >= Threshold(o.failThreshold) && run.last.secondaryOk
  {
    CountersCountRows(o, run.earlier);
  }

  /**
   * It switches back exactly when the primary answers and the secondary is down, or was up
   * threshold times in a row.
   */
  lemma SwitchesBackExactly(o: Options, run: Run)
    requires run.After? && ActiveAfter(o, run.earlier) == Secondary
    ensures SwitchesBack(o, run) <==>
              run.last.primaryOk && (!run.last.secondaryOk || HealthyInARow(o, run) >= Threshold(o.recoverThreshold))
  {
    CountersCountRows(o, run.earlier);
  }

  // ---- how often it can flap ----

  /** Every pair of switches costs threshold failures and one more tick. */
  lemma {:induction false} SwitchesAreCostly(o: Options, run: Run, k: nat)
    requires k == (Changes(o, run) + 1) / 2
    ensures ActiveAfter(o, run) == Secondary <==> Changes(o, run) % 2 == 1
    ensures if ActiveAfter(o, run) == Primary
            then k * (Threshold(o.failThreshold) + 1) + StateAfter(o, run).failCount <= Length(run)
            else k * (Threshold(o.failThreshold) + 1) <= Length(run) + 1
  {
    if run.After? {
      var before := (Changes(o, run.earlier) + 1) / 2;
      SwitchesAreCostly(o, run.earlier, before);
      OneMoreTimes(before, Threshold(o.failThreshold) + 1);
    }
  }

  /** The most often the active backend can change within n ticks. */
  function MostChanges(o: Options, n: nat): nat {
    (n + 1) / (Threshold(o.failThreshold) + 1) + n / (Threshold(o.failThreshold) + 1)
  }

  lemma FlappingIsBounded(o: Options, run: Run)
    ensures Changes(o, run) <= MostChanges(o, Length(run))
  {
    var d, n, k := Threshold(o.failThreshold) + 1, Length(run), (Changes(o, run) + 1) / 2;
    SwitchesAreCostly(o, run, k);
    AtMostQuotient(k, n + 1, d);
    if ActiveAfter(o, run) == Primary {
      AtMostQuotient(k, n, d);
    } else {
      OneMoreTimes(k - 1, d);
      AtMostQuotient(k - 1, n, d);
    }
  }

  function Repeat(run: Run, probe: Probe, n: nat): Run {
    if n == 0 then run else After(Repeat(run, probe, n - 1), probe)
  }

  const OUTAGE := Probe(false, true)
  const SWAP := Probe(true, false)

  /** k times: the primary fails threshold times, then answers just when the secondary does not. */
  function Flapping(o: Options, k: nat): Run {
    if k == 0 then Empty else After(Repeat(Flapping(o, k - 1), OUTAGE, Threshold(o.failThreshold)), SWAP)
  }

  lemma {:induction false} OutageCounts(o: Options, run: Run, n: nat)
    requires ActiveAfter(o, run) == Primary && StateAfter(o, run).failCount + n < Threshold(o.failThreshold)
    ensures StateAfter(o, Repeat(run, OUTAGE, n)) == StateAfter(o, run).(failCount := StateAfter(o, run).failCount + n)
    ensures Length(Repeat(run, OUTAGE, n)) == Length(run) + n
  {
    if n > 0 {
      OutageCounts(o, run, n - 1);
    }
  }

  lemma OutageFailsOver(o: Options, run: Run, n: nat)
    requires StateAfter(o, run).active == Primary && StateAfter(o, run).failCount == 0
               && n == Threshold(o.failThreshold)
    ensures StateAfter(o, Repeat(run, OUTAGE, n)) == ProxyState(Secondary, 0, 0, StateAfter(o, run).failoverCount + 1)
    ensures Length(Repeat(run, OUTAGE, n)) == Length(run) + n
  {
    OutageCounts(o, run, n - 1);
  }

  /** Every threshold + 1 ticks can bring two switches. */
  lemma {:induction false} FlappingEndsOnPrimary(o: Options, k: nat)
    ensures StateAfter(o, Flapping(o, k)) == ProxyState(Primary, 0, 0, 2 * k)
    ensures Length(Flapping(o, k)) == k * (Threshold(o.failThreshold) + 1)
  {
    if k > 0 {
      FlappingEndsOnPrimary(o, k - 1);
      OutageFailsOver(o, Flapping(o, k - 1), Threshold(o.failThreshold));
      OneMoreTimes(k - 1, Threshold(o.failThreshold) + 1);
    }
  }

  /** The n ticks that change the active backend most often. */
  function Worst(o: Options, n: nat): Run {
    var d := Threshold(o.failThreshold) + 1;
    Repeat(Flapping(o, n / d), OUTAGE, n % d)
  }

  lemma OutageAfterFlapping(o: Options, q: nat, r: nat)
    requires r <= Threshold(o.failThreshold)
    ensures Length(Repeat(Flapping(o, q), OUTAGE, r)) == q * (Threshold(o.failThreshold) + 1) + r
    ensures Changes(o, Repeat(Flapping(o, q), OUTAGE, r)) == 2 * q + if r == Threshold(o.failThreshold) then 1 else 0
  {
    FlappingEndsOnPrimary(o, q);
    if r == Threshold(o.failThreshold) {
      OutageFailsOver(o, Flapping(o, q), r);
    } else {
      OutageCounts(o, Flapping(o, q), r);
    }
    CountersCountRows(o, Repeat(Flapping(o, q), OUTAGE, r));
  }

  /** The bound is reached for every number of ticks. */
  lemma FlappingReachesTheBound(o: Options, n: nat)
    ensures Length(Worst(o, n)) == n && Changes(o, Worst(o, n)) == MostChanges(o, n)
  {
    var d := Threshold(o.failThreshold) + 1;
    OutageAfterFlapping(o, n / d, n % d);
    QuotientAndRemainder(n, d);
    NextQuotient(n, d);
  }

  // ---- switching back, as documented ----

  /** The documented rule: switching back takes recoverThreshold successful primary probes in a row. */
  ghost predicate SwitchesBackAsDocumented(o: Options) {
    forall run :: SwitchesBack(o, run) ==> PrimarySuccesses(run) >= o.recoverThreshold
  }

  /** An outage that lasts n ticks longer than needed, and then one good probe of the primary. */
  function LongOutage(o: Options, n: nat): Run {
    After(Repeat(Repeat(Empty, OUTAGE, Threshold(o.failThreshold)), OUTAGE, n), Probe(true, true))
  }

  lemma {:induction false} OutageOnSecondary(o: Options, run: Run, n: nat)
    requires StateAfter(o, run).active == Secondary
    ensures StateAfter(o, Repeat(run, OUTAGE, n))
         == StateAfter(o, run).(recoverCount := StateAfter(o, run).recoverCount + n)
    ensures PrimarySuccesses(run) == 0 ==> PrimarySuccesses(Repeat(run, OUTAGE, n)) == 0
  {
    if n > 0 {
      OutageOnSecondary(o, run, n - 1);
    }
  }

  /** The code counts healthy ticks of the secondary: one good primary probe is enough after a long outage. */
  lemma OneGoodProbeSwitchesBack(o: Options, n: nat)
    requires n + 1 >= o.recoverThreshold
    ensures SwitchesBack(o, LongOutage(o, n)) && PrimarySuccesses(LongOutage(o, n)) == 1
  {
    var start := Repeat(Empty, OUTAGE, Threshold(o.failThreshold));
    OutageFailsOver(o, Empty, Threshold(o.failThreshold));
    OutageOnSecondary(o, start, n);
    assert !OUTAGE.primaryOk;
    LastOfRepeat(Empty, OUTAGE, Threshold(o.failThreshold));
  }

  lemma LastOfRepeat(run: Run, probe: Probe, n: nat)
    requires n >= 1
    ensures Repeat(run, probe, n).After? && Repeat(run, probe, n).last == probe
  {
  }

  /** So the documented rule holds in every run exactly when it asks for no more than one probe. */
  lemma DocumentedOnlyForOneProbe(o: Options)
    ensures SwitchesBackAsDocumented(o) <==> o.recoverThreshold <= 1
  {
    if o.recoverThreshold <= 1 {
      forall run | SwitchesBack(o, run)
        ensures PrimarySuccesses(run) >= o.recoverThreshold
      {
        SwitchesBackExactly(o, run);
      }
    } else {
      OneGoodProbeSwitchesBack(o, o.recoverThreshold - 1);
    }
  }
}
