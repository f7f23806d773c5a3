/**
 * The stateful side of pairing: the two tables of packages/store/src/enrollment.ts
 * and the PairingService of packages/hub/src/pairing.ts, each method against Pairing.
 */
module PairingService {
  import opened Option
  import opened PairingCode
  import opened RateLimit
  import opened Pairing

  /** Table enrollment_codes; every method is one atomic statement. */
  class EnrollmentCodeStore {
    var rows: map<string, Row>

    constructor ()
      ensures rows == map[]
    {
      rows := map[];
    }

    /** False where the source throws: the primary key is taken. */
    method Insert(hash: string, expiresAt: int, createdAt: int) returns (inserted: bool)
      modifies this
      ensures inserted <==> hash !in old(rows)
      ensures rows == if inserted then old(rows)[hash := Fresh(expiresAt, createdAt)] else old(rows)
    {
      if hash in rows {
        return false;
      }
      rows := rows[hash := Row(expiresAt, Pending, 0, createdAt, None, None)];
      return true;
    }

    method Get(hash: string) returns (row: Option<Row>)
      ensures row == if hash in rows then Some(rows[hash]) else None
    {
      row := if hash in rows then Some(rows[hash]) else None;
    }

    /** True only for the call that flips the row from pending to consumed. */
    method ConsumeIfPending(hash: string, now: int, nodeId: string) returns (flipped: bool)
      modifies this
      ensures flipped <==> hash in old(rows) && old(rows)[hash].status == Pending
      ensures flipped ==>
                rows == old(rows)[hash := old(rows)[hash].(status := Consumed, consumedAt := Some(now),
                    consumedBy := Some(nodeId))]
      ensures !flipped ==> rows == old(rows)
    {
      if hash !in rows || rows[hash].status != Pending {
        return false;
      }
      rows := rows[hash := rows[hash].(status := Consumed, consumedAt := Some(now), consumedBy := Some(nodeId))];
      return true;
    }

    method RecordFailure(hash: string) returns (count: nat)
      modifies this
      ensures hash in old(rows) ==>
                count == old(rows)[hash].failCount + 1
                    && rows == old(rows)[hash := old(rows)[hash].(failCount := count)]
      ensures hash !in old(rows) ==> count == 0 && rows == old(rows)
    {
      if hash !in rows {
        return 0;
      }
      count := rows[hash].failCount + 1;
      rows := rows[hash := rows[hash].(failCount := count)];
    }

    method Lock(hash: string)
      modifies this
      ensures rows == if hash in old(rows) then old(rows)[hash := old(rows)[hash].(status := Locked)] else old(rows)
    {
      if hash in rows {
        rows := rows[hash := rows[hash].(status := Locked)];
      }
    }

    method InsertLockedShadow(hash: string, failCount: nat, now: int)
      modifies this
      ensures rows == if hash in old(rows) then old(rows) else old(rows)[hash := Shadow(failCount, now)]
    {
      if hash !in rows {
        rows := rows[hash := Row(SHADOW_EXPIRY, Locked, failCount, now, None, None)];
      }
    }
  }

  /** Table registration_tokens. */
  class RegistrationTokenStore {
    var tokens: map<string, Registration>

    constructor ()
      ensures tokens == map[]
    {
      tokens := map[];
    }

    method Upsert(nodeId: string, token: string, createdAt: int)
      modifies this
      ensures tokens == old(tokens)[nodeId := Registration(token, createdAt)]
    {
      tokens := tokens[nodeId := Registration(token, createdAt)];
    }
  }

  class PairingService {
    const policy: Policy
    const codes: EnrollmentCodeStore
    const tokens: RegistrationTokenStore
    var unknownFailures: map<string, nat>
    var windows: Windows

    ghost function State(): State
      reads this, codes, tokens
    {
      Pairing.State(codes.rows, tokens.tokens, unknownFailures, windows)
    }

    /** A service over existing tables: what it keeps in memory starts empty. */
    constructor (policy: Policy, codes: EnrollmentCodeStore, tokens: RegistrationTokenStore)
      ensures this.policy == policy && this.codes == codes && this.tokens == tokens
      ensures State() == Pairing.State(codes.rows, tokens.tokens, map[], map[])
    {
      this.policy := policy;
      this.codes := codes;
      this.tokens := tokens;
      unknownFailures := map[];
      windows := map[];
    }

    /** Up to three random numbers, until one gives a code whose hash is free; None where the source throws. */
    method CreatePairingCode(ttlMs: int, now: int, numbers: seq<nat>) returns (code: Option<string>)
      requires |numbers| == CREATE_ATTEMPTS
      modifies codes
      ensures State() == Next(policy, old(State()), Issue(now + ttlMs, now, numbers))
      ensures code == Create(policy, old(codes.rows), now + ttlMs, now, numbers).1
    {
      ghost var rest := numbers;
      ghost var rows := codes.rows;
      for attempt := 0 to CREATE_ATTEMPTS
        invariant rest == numbers[attempt..] && codes.rows == rows
        invariant Create(policy, rows, now + ttlMs, now, numbers) == Create(policy, rows, now + ttlMs, now, rest)
      {
        var candidate := GenerateCode(numbers[attempt]);
        var inserted := codes.Insert(policy.sha256(candidate), now + ttlMs, now);
        if inserted {
          return Some(candidate);
        }
        rest := rest[1..];
      }
      return None;
    }

    /** Count one try of a peer in its window, and drop expired windows when there are too many. */
    method AllowRate(peer: string, now: int) returns (allowed: bool)
      modifies this`windows
      ensures windows == Bounded(old(windows), policy.limit, Attempt(peer, now))
      ensures allowed == Allowed(old(windows), policy.limit, Attempt(peer, now))
    {
      if peer !in windows || now - windows[peer].start >= policy.limit.windowMs {
        windows := windows[peer := Window(now, 0)];
      }
      var w := Window(windows[peer].start, windows[peer].count + 1);
      windows := windows[peer := w];
      assert windows == old(windows)[peer := Counted(old(windows), policy.limit, Attempt(peer, now))];
      if |windows| > EVICTION_SIZE {
        Evict(now);
      }
      allowed := w.count <= policy.limit.max;
    }

    method Evict(now: int)
      modifies this`windows
      ensures windows == Swept(old(windows), policy.limit, now)
    {
      var rest := windows.Keys;
      while rest != {}
        invariant rest <= old(windows).Keys
        invariant windows == map peer | peer in old(windows) && (peer in rest
                    || !Expired(old(windows)[peer], now, policy.limit))
                             :: old(windows)[peer]
        decreases |rest|
      {
        var peer :| peer in rest;
        if now - windows[peer].start >= policy.limit.windowMs {
          windows := windows - {peer};
        }
        rest := rest - {peer};
      }
    }

    /** Count a failure against a row, and lock it when that was one too many. */
    method FailAndMaybeLock(hash: string, reason: Reason) returns (answer: Answer)
      requires hash in codes.rows && codes.rows[hash].status != Locked
      modifies codes
      ensures codes.rows == old(codes.rows)[hash := Failed(old(codes.rows)[hash], policy.maxFailures)]
      ensures answer == Refused(if old(codes.rows)[hash].failCount + 1 >= policy.maxFailures then LockedOut else reason)
    {
      var n := codes.RecordFailure(hash);
      if n >= policy.maxFailures {
        codes.Lock(hash);
        return Refused(LockedOut);
      }
      return Refused(reason);
    }

    /** A guess at a hash without a row. */
    method GuessUnknown(hash: string, now: int) returns (answer: Answer)
      requires hash !in codes.rows
      modifies this`unknownFailures, codes
      ensures (State(), answer) == Guess(policy, old(State()), hash, now)
    {
      var n := (if hash in unknownFailures then unknownFailures[hash] else 0) + 1;
      if n >= policy.maxFailures {
        unknownFailures := unknownFailures - {hash};
        codes.InsertLockedShadow(hash, n, now);
        return Refused(LockedOut);
      }
      unknownFailures := unknownFailures[hash := n];
      return Refused(NotFound);
    }

    method ConsumePairingCode(t: Try) returns (answer: Answer)
      modifies this`unknownFailures, this`windows, codes, tokens
      ensures (State(), answer) == Consume(policy, old(State()), t)
    {
      var allowed := AllowRate(t.peer, t.askedAt);
      if !allowed {
        return Refused(RateLimited);
      }
      if !IsPairingCode(t.code) || !IsNodeId(t.nodeId) {
        return Refused(NotFound);
      }
      var hash := policy.sha256(t.code);
      var row := codes.Get(hash);
      if row.None? {
        answer := GuessUnknown(hash, t.now);
        return;
      }
      answer := RedeemRow(hash, row.value, t);
    }

    method RedeemRow(hash: string, row: Row, t: Try) returns (answer: Answer)
      requires hash in codes.rows && row == codes.rows[hash]
      modifies codes, tokens
      ensures (State(), answer) == Redeem(policy, old(State()), hash, t)
    {
      if row.status == Locked {
        assert codes.rows == codes.rows[hash := Tried(policy, row, t)];
        return Refused(LockedOut);
      }
      if row.status == Consumed {
        answer := FailAndMaybeLock(hash, AlreadyUsed);
        return;
      }
      if row.expiresAt <= t.now {
        answer := FailAndMaybeLock(hash, HasExpired);
        return;
      }
      var flipped := codes.ConsumeIfPending(hash, t.now, t.nodeId);
      if !flipped {
        assert false; // no other statement runs between reading the row and flipping it
      }
      tokens.Upsert(t.nodeId, t.token, t.now);
      return Granted(t.token);
    }
  }
}
