/**
 * The life of a pairing code: createPairingCode and consumePairingCode of
 * packages/hub/src/pairing.ts over the tables of packages/store/src/enrollment.ts.
 * Times are integers; sha256 is any function.
 */
module Pairing {
  import opened Option
  import opened PairingCode
  import opened RateLimit

  const ENROLL_PREFIX := "enroll:"
  const MAX_NODE_ID := 128
  const CREATE_ATTEMPTS := 3
  const SHADOW_EXPIRY := 0

  datatype Status = Pending | Consumed | Locked

  datatype Row = Row(expiresAt: int, status: Status, failCount: nat, createdAt: int,
                     consumedAt: Option<int>, consumedBy: Option<string>)

  datatype Registration = Registration(token: string, createdAt: int)

  datatype Reason = NotFound | HasExpired | AlreadyUsed | LockedOut | RateLimited

  datatype Answer = Granted(token: string) | Refused(reason: Reason)

  datatype Policy = Policy(sha256: string -> string, maxFailures: int, limit: Limit)

  /** The two tables, and what the service keeps in memory only. */
  datatype State = State(rows: map<string, Row>, tokens: map<string, Registration>,
                         unknownFailures: map<string, nat>, windows: Windows)

  /** One call of consumePairingCode: who asks, with the clock readings and the random token it would use. */
  datatype Try = Try(code: string, nodeId: string, peer: string, askedAt: int, now: int, token: string)

  predicate IsNodeId(nodeId: string) {
    0 < |nodeId| <= MAX_NODE_ID && !(ENROLL_PREFIX <= nodeId)
  }

  // ---- one call ----

  function Fresh(expiresAt: int, now: int): Row {
    Row(expiresAt, Pending, 0, now, None, None)
  }

  function Shadow(failCount: nat, now: int): Row {
    Row(SHADOW_EXPIRY, Locked, failCount, now, None, None)
  }

  /** recordFailure, and lock when that was one failure too many. */
  function Failed(row: Row, maxFailures: int): Row {
    row.(failCount := row.failCount + 1, status := if row.failCount + 1 >= maxFailures then Locked else row.status)
  }

  predicate Redeemable(row: Row, now: int) {
    row.status == Pending && now < row.expiresAt
  }

  /** The row after a try. */
  function Tried(p: Policy, row: Row, t: Try): Row {
    if row.status == Locked then row
    else if Redeemable(row, t.now) then row.(status := Consumed, consumedAt := Some(t.now),
        consumedBy := Some(t.nodeId))
    else Failed(row, p.maxFailures)
  }

  function AnswerFor(p: Policy, row: Row, t: Try): Answer {
    if row.status == Locked then Refused(LockedOut)
    else if Redeemable(row, t.now) then Granted(t.token)
    else if row.failCount + 1 >= p.maxFailures then Refused(LockedOut)
    else Refused(if row.status == Consumed then AlreadyUsed else HasExpired)
  }

  function UnknownCount(s: State, hash: string): nat {
    if hash in s.unknownFailures then s.unknownFailures[hash] + 1 else 1
  }

  /** A guess at a hash that has no row. */
  function Guess(p: Policy, s: State, hash: string, now: int): (State, Answer)
    requires hash !in s.rows
  {
    var n := UnknownCount(s, hash);
    if n >= p.maxFailures then
      (s.(unknownFailures := s.unknownFailures - {hash}, rows := s.rows[hash := Shadow(n, now)]), Refused(LockedOut))
    else
      (s.(unknownFailures := s.unknownFailures[hash := n]), Refused(NotFound))
  }

  /** A try at a hash that has a row. */
  function Redeem(p: Policy, s: State, hash: string, t: Try): (State, Answer)
    requires hash in s.rows
  {
    var answer := AnswerFor(p, s.rows[hash], t);
    (s.(rows := s.rows[hash := Tried(p, s.rows[hash], t)],
        tokens := if answer.Granted? then s.tokens[t.nodeId := Registration(t.token, t.now)] else s.tokens),
     answer)
  }

  function AskedOf(t: Try): Attempt {
    Attempt(t.peer, t.askedAt)
  }

  function Counting(p: Policy, s: State, t: Try): State {
    s.(windows := Bounded(s.windows, p.limit, AskedOf(t)))
  }

  function Consume(p: Policy, s: State, t: Try): (State, Answer) {
    var counted := Counting(p, s, t);
    var hash := p.sha256(t.code);
    if !Allowed(s.windows, p.limit, AskedOf(t)) then (counted, Refused(RateLimited))
    else if !IsPairingCode(t.code) || !IsNodeId(t.nodeId) then (counted, Refused(NotFound))
    else if hash !in s.rows then Guess(p, counted, hash, t.now)
    else Redeem(p, counted, hash, t)
  }

  /** The code issued and the rows after it; every collision costs one of the random numbers. */
  function Create(p: Policy, rows: map<string, Row>, expiresAt: int, now: int, numbers: seq<nat>): (map<string, Row>,
      Option<string>) {
    if numbers == [] then (rows, None)
    else
      var code := CodeOf(numbers[0]);
      if p.sha256(code) in rows then Create(p, rows, expiresAt, now, numbers[1..])
      else (rows[p.sha256(code) := Fresh(expiresAt, now)], Some(code))
  }

  // ---- runs ----

  datatype Event = Issue(expiresAt: int, now: int, numbers: seq<nat>) | Consumption(t: Try) | Reboot

  /** The events so far, the latest one outermost. */
  datatype History = Nothing | Then(earlier: History, event: Event)

  function Next(p: Policy, s: State, e: Event): State {
    match e
    case Issue(expiresAt, now, numbers) => s.(rows := Create(p, s.rows, expiresAt, now, numbers).0)
    case Consumption(t) => Consume(p, s, t).0
    case Reboot => s.(unknownFailures := map[], windows := map[])
  }

  function After(p: Policy, h: History): State {
    if h.Nothing? then State(map[], map[], map[], map[]) else Next(p, After(p, h.earlier), h.event)
  }

  /** The hash the latest event redeemed. */
  function Redeemed(p: Policy, h: History): Option<string>
    requires h.Then?
  {
    if h.event.Consumption? && Consume(p, After(p, h.earlier), h.event.t).1.Granted?
        then Some(p.sha256(h.event.t.code)) else None
  }

  /** The hash the latest event issued a code for. */
  function Issued(p: Policy, h: History): Option<string>
    requires h.Then?
  {
    if !h.event.Issue? then None
    else
      match Create(p, After(p, h.earlier).rows, h.event.expiresAt, h.event.now, h.event.numbers).1
      case Some(code) => Some(p.sha256(code))
      case None => None
  }

  function Redemptions(p: Policy, h: History, hash: string): nat {
    if h.Nothing? then 0 else Redemptions(p, h.earlier, hash) + if Redeemed(p, h) == Some(hash) then 1 else 0
  }

  function Issues(p: Policy, h: History, hash: string): nat {
    if h.Nothing? then 0 else Issues(p, h.earlier, hash) + if Issued(p, h) == Some(hash) then 1 else 0
  }

  /** Some event of the run issued a code with this hash, valid until the given time. */
  predicate IssuedUntil(p: Policy, h: History, hash: string, expiresAt: int) {
    h.Then? && ((Issued(p, h) == Some(hash) && h.event.expiresAt == expiresAt)
        || IssuedUntil(p, h.earlier, hash, expiresAt))
  }

  // ---- what creating does ----

  lemma {:induction false} CreateMeaning(p: Policy, rows: map<string, Row>, expiresAt: int, now: int, numbers: seq<nat>)
    ensures var (rows', code) := Create(p, rows, expiresAt, now, numbers);
            && (code.None? ==> rows' == rows && forall i :: 0 <= i < |numbers| ==> p.sha256(CodeOf(numbers[i])) in rows)
            && (code.Some? ==> IsPairingCode(code.value) && p.sha256(code.value) !in rows
                               && rows' == rows[p.sha256(code.value) := Fresh(expiresAt, now)])
  {
    if numbers != [] {
      CodeMeaning(numbers[0]);
      CreateMeaning(p, rows, expiresAt, now, numbers[1..]);
    }
  }

  // ---- how a row may change ----

  /** Pending to consumed to locked, or pending to locked; failures only grow; who redeemed it is written once. */
  predicate Ages(row: Row, row': Row) {
    && row'.expiresAt == row.expiresAt && row'.createdAt == row.createdAt && row'.failCount >= row.failCount
    && (row.status == Consumed ==> row'.status != Pending)
    && (row.status == Locked ==> row' == row)
    && (row.status != Pending ==> row'.consumedBy == row.consumedBy && row'.consumedAt == row.consumedAt)
    && (row.status == Pending ==> (row'.consumedBy.None? <==> row'.consumedAt.None?))
    && (row.status == Pending && row'.status == Consumed ==>
          row'.consumedAt.Some? && row'.consumedBy.Some? && row'.consumedAt.value < row.expiresAt)
  }

  lemma TryAges(p: Policy, row: Row, t: Try)
    requires SoundRow(p, row)
    ensures Ages(row, Tried(p, row, t))
  {
  }

  lemma StepAges(p: Policy, s: State, e: Event, hash: string)
    requires hash in s.rows && SoundRow(p, s.rows[hash])
    ensures hash in Next(p, s, e).rows && Ages(s.rows[hash], Next(p, s, e).rows[hash])
  {
    if e.Issue? {
      CreateMeaning(p, s.rows, e.expiresAt, e.now, e.numbers);
    } else if e.Consumption? {
      TryAges(p, s.rows[hash], e.t);
    }
  }

  // ---- what holds of every reachable state ----

  /** How many failures lock a row: the configured number, but never none. */
  function LocksAt(p: Policy): nat {
    if p.maxFailures >= 1 then p.maxFailures else 1
  }

  /** Locked exactly when the failures reached that number; redeemed before expiry, and pending rows by nobody. */
  predicate SoundRow(p: Policy, row: Row) {
    && (row.status == Locked <==> row.failCount >= LocksAt(p))
    && (row.status == Pending ==> row.consumedBy.None?)
    && (row.status == Consumed ==> row.consumedBy.Some?)
    && (row.consumedBy.Some? <==> row.consumedAt.Some?)
    && (row.consumedAt.Some? ==> row.consumedAt.value < row.expiresAt)
  }

  ghost predicate Sound(p: Policy, s: State) {
    && (forall hash :: hash in s.rows ==> SoundRow(p, s.rows[hash]))
    && (forall hash :: hash in s.unknownFailures ==> 1 <= s.unknownFailures[hash] < p.maxFailures)
  }

  lemma TriedIsSound(p: Policy, row: Row, t: Try)
    requires SoundRow(p, row)
    ensures SoundRow(p, Tried(p, row, t))
  {
  }

  lemma TryIsSound(p: Policy, s: State, t: Try)
    requires Sound(p, s)
    ensures Sound(p, Consume(p, s, t).0)
  {
    var counted, hash := Counting(p, s, t), p.sha256(t.code);
    if hash in s.rows {
      RedeemIsSound(p, counted, hash, t);
    } else {
      GuessIsSound(p, counted, hash, t.now);
    }
  }

  lemma RedeemIsSound(p: Policy, s: State, hash: string, t: Try)
    requires Sound(p, s) && hash in s.rows
    ensures Sound(p, Redeem(p, s, hash, t).0)
  {
    TriedIsSound(p, s.rows[hash], t);
  }

  lemma GuessIsSound(p: Policy, s: State, hash: string, now: int)
    requires Sound(p, s) && hash !in s.rows
    ensures Sound(p, Guess(p, s, hash, now).0)
  {
  }

  lemma StepIsSound(p: Policy, s: State, e: Event)
    requires Sound(p, s)
    ensures Sound(p, Next(p, s, e))
  {
    if e.Issue? {
      CreateMeaning(p, s.rows, e.expiresAt, e.now, e.numbers);
    } else if e.Consumption? {
      TryIsSound(p, s, e.t);
    }
  }

  /** Under every policy: no row is ever unlocked with its failures used up, or locked before. */
  lemma {:induction false} RunIsSound(p: Policy, h: History)
    ensures Sound(p, After(p, h))
  {
    if h.Then? {
      RunIsSound(p, h.earlier);
      StepIsSound(p, After(p, h.earlier), h.event);
    }
  }

  // ---- the history behind every row ----

  /** The row records its own past: how often it was redeemed, and that an issued code stands behind it. */
  ghost predicate Recorded(p: Policy, h: History, hash: string) {
    var rows := After(p, h).rows;
    && Redemptions(p, h, hash) == (if hash in rows && rows[hash].consumedBy.Some? then 1 else 0)
    && (hash !in rows ==> Issues(p, h, hash) == 0)
    && Issues(p, h, hash) <= 1
    && (hash in rows && rows[hash].status == Pending ==> IssuedUntil(p, h, hash, rows[hash].expiresAt))
  }

  lemma IssueIsRecorded(p: Policy, h: History, hash: string)
    requires h.Then? && h.event.Issue? && Recorded(p, h.earlier, hash)
    ensures Recorded(p, h, hash)
  {
    CreateMeaning(p, After(p, h.earlier).rows, h.event.expiresAt, h.event.now, h.event.numbers);
  }

  /** A try redeems a hash exactly when it fills in who redeemed it; rows it adds are locked and nobody's. */
  lemma TryRedeems(p: Policy, s: State, t: Try, hash: string)
    requires hash in s.rows ==> SoundRow(p, s.rows[hash])
    ensures var (s', answer) := Consume(p, s, t);
            && (hash in s.rows ==> hash in s'.rows && s'.rows[hash].expiresAt == s.rows[hash].expiresAt
                                   && (s'.rows[hash].status == Pending ==> s.rows[hash].status == Pending)
                                   && (answer.Granted? && p.sha256(t.code) == hash <==>
                                         s.rows[hash].consumedBy.None? && s'.rows[hash].consumedBy.Some?)
                                   && (s.rows[hash].consumedBy.Some? ==> s'.rows[hash].consumedBy.Some?))
            && (hash !in s.rows ==> (answer.Granted? ==> p.sha256(t.code) != hash)
                                    && (hash in s'.rows ==>
                                          s'.rows[hash].status == Locked && s'.rows[hash].consumedBy.None?))
  {
  }

  lemma TryIsRecorded(p: Policy, h: History, hash: string)
    requires h.Then? && h.event.Consumption? && Recorded(p, h.earlier, hash) && Sound(p, After(p, h.earlier))
    ensures Recorded(p, h, hash)
  {
    TryRedeems(p, After(p, h.earlier), h.event.t, hash);
  }

  lemma {:induction false} RunIsRecorded(p: Policy, h: History, hash: string)
    ensures Recorded(p, h, hash)
  {
    if h.Then? {
      RunIsRecorded(p, h.earlier, hash);
      RunIsSound(p, h.earlier);
      if h.event.Issue? {
        IssueIsRecorded(p, h, hash);
      } else if h.event.Consumption? {
        TryIsRecorded(p, h, hash);
      }
    }
  }

  /** Whoever tries, from wherever, at whatever times: a code works at most once. */
  lemma RedeemedAtMostOnce(p: Policy, h: History, hash: string)
    ensures Redemptions(p, h, hash) <= Issues(p, h, hash) <= 1
  {
    RunIsRecorded(p, h, hash);
    RedeemedWasIssued(p, h, hash);
  }

  lemma {:induction false} IssuedCounts(p: Policy, h: History, hash: string, expiresAt: int)
    requires IssuedUntil(p, h, hash, expiresAt)
    ensures Issues(p, h, hash) >= 1
  {
    if IssuedUntil(p, h.earlier, hash, expiresAt) {
      IssuedCounts(p, h.earlier, hash, expiresAt);
    }
  }

  lemma {:induction false} RedeemedWasIssued(p: Policy, h: History, hash: string)
    ensures Redemptions(p, h, hash) >= 1 ==> Issues(p, h, hash) >= 1
  {
    if h.Then? {
      RedeemedWasIssued(p, h.earlier, hash);
      if Redeemed(p, h) == Some(hash) {
        var expiresAt := RedeemedInTime(p, h, hash);
        IssuedCounts(p, h.earlier, hash, expiresAt);
      }
    }
  }

  /** A code that works was issued earlier in the run, and has not expired. */
  lemma RedeemedInTime(p: Policy, h: History, hash: string) returns (expiresAt: int)
    requires h.Then? && Redeemed(p, h) == Some(hash)
    ensures IssuedUntil(p, h.earlier, hash, expiresAt) && h.event.t.now < expiresAt
  {
    RunIsRecorded(p, h.earlier, hash);
    expiresAt := After(p, h.earlier).rows[hash].expiresAt;
  }

  /** h is a beginning of h'. */
  predicate Begins(h: History, h': History) {
    h == h' || (h'.Then? && Begins(h, h'.earlier))
  }

  /** Over any stretch of a run a row only ages. */
  lemma {:induction false} RowsAge(p: Policy, h: History, h': History, hash: string)
    requires Begins(h, h') && hash in After(p, h).rows
    ensures hash in After(p, h').rows && Ages(After(p, h).rows[hash], After(p, h').rows[hash])
  {
    RunIsSound(p, h);
    if h != h' {
      RowsAge(p, h, h'.earlier, hash);
      RunIsSound(p, h'.earlier);
      StepAges(p, After(p, h'.earlier), h'.event, hash);
    }
  }

  // ---- what the failure count counts ----

  /** A try at this hash that gets past the limiter and the format check, and is refused. */
  predicate RefusedAt(p: Policy, s: State, t: Try, hash: string) {
    && p.sha256(t.code) == hash && Allowed(s.windows, p.limit, AskedOf(t))
    && IsPairingCode(t.code) && IsNodeId(t.nodeId) && Consume(p, s, t).1.Refused?
  }

  /** The refused tries at a hash since a code was issued under it; while it has no row, since the last reboot. */
  function Failures(p: Policy, h: History, hash: string): nat {
    if h.Nothing? || Issued(p, h) == Some(hash) || (h.event.Reboot? && hash !in After(p, h.earlier).rows) then 0
    else
      Failures(p, h.earlier, hash)
      + if h.event.Consumption? && RefusedAt(p, After(p, h.earlier), h.event.t, hash) then 1 else 0
  }

  /** The state has counted this many failures at a hash. */
  predicate Tallies(p: Policy, s: State, hash: string, failures: nat) {
    if hash in s.rows then s.rows[hash].failCount == Smaller(failures, LocksAt(p))
    else failures < LocksAt(p) && failures == if hash in s.unknownFailures then s.unknownFailures[hash] else 0
  }

  lemma RedeemTallies(p: Policy, s: State, t: Try, hash: string, failures: nat)
    requires Tallies(p, s, hash, failures) && hash in s.rows && SoundRow(p, s.rows[hash])
    ensures Tallies(p, Redeem(p, s, hash, t).0, hash, failures + if Redeem(p, s, hash, t).1.Refused? then 1 else 0)
  {
  }

  lemma GuessTallies(p: Policy, s: State, now: int, hash: string, failures: nat)
    requires Tallies(p, s, hash, failures) && hash !in s.rows
    ensures Tallies(p, Guess(p, s, hash, now).0, hash, failures + 1)
  {
  }

  lemma TryTallies(p: Policy, s: State, t: Try, hash: string, failures: nat)
    requires Tallies(p, s, hash, failures) && (hash in s.rows ==> SoundRow(p, s.rows[hash]))
    ensures Tallies(p, Consume(p, s, t).0, hash, failures + if RefusedAt(p, s, t, hash) then 1 else 0)
  {
    var counted := Counting(p, s, t);
    if p.sha256(t.code) == hash {
      if hash in s.rows {
        RedeemTallies(p, counted, t, hash, failures);
      } else {
        GuessTallies(p, counted, t.now, hash, failures);
      }
    }
  }

  lemma {:induction false} RunTallies(p: Policy, h: History, hash: string)
    ensures Tallies(p, After(p, h), hash, Failures(p, h, hash))
  {
    if h.Then? {
      RunTallies(p, h.earlier, hash);
      if h.event.Issue? {
        CreateMeaning(p, After(p, h.earlier).rows, h.event.expiresAt, h.event.now, h.event.numbers);
      } else if h.event.Consumption? {
        RunIsSound(p, h.earlier);
        TryTallies(p, After(p, h.earlier), h.event.t, hash, Failures(p, h.earlier, hash));
      }
    }
  }

  /**
   * Under every policy, over every run: a row's failure count is the number of refused tries at it, up to
   * the number that locks it, and it is locked exactly from that many on.
   */
  lemma FailuresAreCounted(p: Policy, h: History, hash: string)
    requires hash in After(p, h).rows
    ensures var row, failures := After(p, h).rows[hash], Failures(p, h, hash);
            row.failCount == Smaller(failures, LocksAt(p)) && (row.status == Locked <==> failures >= LocksAt(p))
  {
    RunTallies(p, h, hash);
    RunIsSound(p, h);
  }

  // ---- the limiter in front ----

  /** The tries since the last reboot. */
  function Attempts(h: History): Run {
    match h
    case Nothing => RateLimit.Empty
    case Then(earlier, Consumption(t)) => RateLimit.After(Attempts(earlier), AskedOf(t))
    case Then(_, Reboot) => RateLimit.Empty
    case Then(earlier, _) => Attempts(earlier)
  }

  /** Every try counts towards its peer's window, also a malformed one. */
  lemma {:induction false} EveryTryIsCounted(p: Policy, h: History)
    ensures After(p, h).windows == WindowsAfter(p.limit, Attempts(h))
  {
    if h.Then? {
      EveryTryIsCounted(p, h.earlier);
    }
  }

  // ---- what a try is answered ----

  /** The expiry a code was issued with is the one its row keeps. */
  lemma {:induction false} IssuedIsKept(p: Policy, h: History, hash: string, expiresAt: int)
    requires IssuedUntil(p, h, hash, expiresAt)
    ensures hash in After(p, h).rows && After(p, h).rows[hash].expiresAt == expiresAt
  {
    if h.event.Issue? {
      CreateMeaning(p, After(p, h.earlier).rows, h.event.expiresAt, h.event.now, h.event.numbers);
    }
    if !(Issued(p, h) == Some(hash) && h.event.expiresAt == expiresAt) {
      IssuedIsKept(p, h.earlier, hash, expiresAt);
      RunIsSound(p, h.earlier);
      StepAges(p, After(p, h.earlier), h.event, hash);
    }
  }

  /** The request itself is in order: a code of the pattern, a node id that may be used. */
  predicate WellFormed(t: Try) {
    IsPairingCode(t.code) && 0 < |t.nodeId| <= 128 && !("enroll:" <= t.nodeId)
  }

  /** By the history alone: a code was issued under this hash, runs still, was never redeemed, and is not locked. */
  ghost predicate Good(p: Policy, h: History, hash: string, now: int) {
    && (exists expiresAt :: IssuedUntil(p, h, hash, expiresAt) && now < expiresAt)
    && Redemptions(p, h, hash) == 0 && Failures(p, h, hash) < LocksAt(p)
  }

  lemma {:induction false} SomeIssue(p: Policy, h: History, hash: string) returns (expiresAt: int)
    requires Issues(p, h, hash) >= 1
    ensures IssuedUntil(p, h, hash, expiresAt)
  {
    if Issued(p, h) == Some(hash) {
      expiresAt := h.event.expiresAt;
    } else {
      expiresAt := SomeIssue(p, h.earlier, hash);
    }
  }

  /** What the row of an issued code says, by the history. */
  lemma RowTellsTheHistory(p: Policy, h: History, hash: string, expiresAt: int)
    requires IssuedUntil(p, h, hash, expiresAt)
    ensures hash in After(p, h).rows
    ensures var row := After(p, h).rows[hash];
            && row.expiresAt == expiresAt
            && (row.status == Locked <==> Failures(p, h, hash) >= LocksAt(p))
            && (row.status == Pending <==> Failures(p, h, hash) < LocksAt(p) && Redemptions(p, h, hash) == 0)
            && row.failCount == Smaller(Failures(p, h, hash), LocksAt(p))
  {
    IssuedIsKept(p, h, hash, expiresAt);
    FailuresAreCounted(p, h, hash);
    RunIsSound(p, h);
    RunIsRecorded(p, h, hash);
  }

  lemma GoodIsGranted(p: Policy, h: History, t: Try)
    requires WellFormed(t) && Allowed(After(p, h).windows, p.limit, AskedOf(t)) && Issues(p, h, p.sha256(t.code)) >= 1
    ensures Consume(p, After(p, h), t).1.Granted? <==> Good(p, h, p.sha256(t.code), t.now)
  {
    var hash := p.sha256(t.code);
    var expiresAt := SomeIssue(p, h, hash);
    RowTellsTheHistory(p, h, hash, expiresAt);
    forall other | IssuedUntil(p, h, hash, other)
      ensures other == expiresAt
    {
      IssuedIsKept(p, h, hash, other);
    }
  }

  /**
   * Over every history: a try is granted if and only if the limiter that never forgets lets it through, code
   * and node id are in order, and the code was issued, runs still, was never redeemed and is not locked.
   */
  lemma GrantedExactly(p: Policy, h: History, t: Try)
    requires Monotone(Attempts(h), t.askedAt)
    ensures Consume(p, After(p, h), t).1.Granted? <==>
              && Allowed(AllWindowsAfter(p.limit, Attempts(h)), p.limit, AskedOf(t)) && WellFormed(t)
              && Good(p, h, p.sha256(t.code), t.now)
  {
    EveryTryIsCounted(p, h);
    EvictionIsInvisible(p.limit, Attempts(h), AskedOf(t));
    var hash := p.sha256(t.code);
    if Issues(p, h, hash) >= 1 {
      if WellFormed(t) && Allowed(After(p, h).windows, p.limit, AskedOf(t)) {
        GoodIsGranted(p, h, t);
      }
    } else if Good(p, h, hash, t.now) {
      var expiresAt :| IssuedUntil(p, h, hash, expiresAt) && t.now < expiresAt;
      IssuedCounts(p, h, hash, expiresAt);
    } else if Consume(p, After(p, h), t).1.Granted? {
      var expiresAt := RedeemedInTime(p, Then(h, Consumption(t)), hash);
      IssuedCounts(p, h, hash, expiresAt);
    }
  }

  /** And what it is granted: the fresh token, filed under the node, the code marked as this node's. */
  lemma GrantedMeans(p: Policy, h: History, t: Try)
    requires Consume(p, After(p, h), t).1.Granted?
    ensures var s, hash := Consume(p, After(p, h), t).0, p.sha256(t.code);
            && Consume(p, After(p, h), t).1 == Granted(t.token)
            && t.nodeId in s.tokens && s.tokens[t.nodeId] == Registration(t.token, t.now)
            && hash in s.rows && s.rows[hash].status == Consumed
            && s.rows[hash].consumedBy == Some(t.nodeId) && s.rows[hash].consumedAt == Some(t.now)
  {
  }

  /** Why a try that passed the limiter and the format check is refused, by the history alone. */
  lemma RefusedExactly(p: Policy, h: History, t: Try)
    requires WellFormed(t) && Allowed(After(p, h).windows, p.limit, AskedOf(t))
    requires !Good(p, h, p.sha256(t.code), t.now)
    ensures var hash := p.sha256(t.code);
            Consume(p, After(p, h), t).1 == Refused(
              if Failures(p, h, hash) + 1 >= LocksAt(p) then LockedOut
              else if Issues(p, h, hash) == 0 then NotFound
              else if Redemptions(p, h, hash) >= 1 then AlreadyUsed
              else HasExpired)
  {
    var hash := p.sha256(t.code);
    RunTallies(p, h, hash);
    if Issues(p, h, hash) >= 1 {
      var expiresAt := SomeIssue(p, h, hash);
      RowTellsTheHistory(p, h, hash, expiresAt);
      GoodIsGranted(p, h, t);
    } else {
      RunIsRecorded(p, h, hash);
      RunIsSound(p, h);
      UnissuedIsLocked(p, h, hash);
    }
  }

  /** A row nobody issued a code for is there to lock guesses out. */
  lemma {:induction false} UnissuedIsLocked(p: Policy, h: History, hash: string)
    requires Issues(p, h, hash) == 0
    ensures hash in After(p, h).rows ==> After(p, h).rows[hash].status == Locked
  {
    if h.Then? {
      UnissuedIsLocked(p, h.earlier, hash);
      if h.event.Issue? {
        CreateMeaning(p, After(p, h.earlier).rows, h.event.expiresAt, h.event.now, h.event.numbers);
      } else if h.event.Consumption? && hash in After(p, h.earlier).rows {
        RunIsSound(p, h.earlier);
        StepAges(p, After(p, h.earlier), h.event, hash);
      } else if h.event.Consumption? {
        TryRedeems(p, After(p, h.earlier), h.event.t, hash);
      }
    }
  }

  // ---- tokens ----

  /** What the successful tries of a run handed out. */
  function HandedOut(p: Policy, h: History): map<string, Registration> {
    if h.Nothing? then map[]
    else if Redeemed(p, h).Some? then HandedOut(p, h.earlier)[h.event.t.nodeId := Registration(h.event.t.token,
        h.event.t.now)]
    else HandedOut(p, h.earlier)
  }

  lemma TryHandsOut(p: Policy, s: State, t: Try)
    ensures var (s', answer) := Consume(p, s, t);
            s'.tokens == if answer.Granted? then s.tokens[t.nodeId := Registration(t.token, t.now)] else s.tokens
  {
  }

  /** The token table holds, for each node, what its last successful try handed out, and nothing else. */
  lemma {:induction false} TokensAreHandedOut(p: Policy, h: History)
    ensures After(p, h).tokens == HandedOut(p, h)
  {
    if h.Then? {
      TokensAreHandedOut(p, h.earlier);
      if h.event.Consumption? {
        TryHandsOut(p, After(p, h.earlier), h.event.t);
      }
    }
  }

  // ---- how many tries the limiter lets through ----

  /** So a peer gets at most 2 * max - 1 tries evaluated in any windowMs between reboots. */
  lemma TriesPerInterval(p: Policy, h: History, t: Try, from: int)
    requires p.limit.max >= 1 && Monotone(Attempts(Then(h, Consumption(t))), t.askedAt)
    ensures Accepted(p.limit, Attempts(Then(h, Consumption(t))), t.peer, from) <= 2 * p.limit.max - 1
    ensures Consume(p, After(p, h), t).1 == Refused(RateLimited) <==>
              !Allowed(AllWindowsAfter(p.limit, Attempts(h)), p.limit, AskedOf(t))
  {
    EveryTryIsCounted(p, h);
    IntervalBudget(p.limit, Attempts(Then(h, Consumption(t))), t.peer, from, t.askedAt);
    EvictionIsInvisible(p.limit, Attempts(h), AskedOf(t));
  }
}
