/**
 * PairingService.allowRate of packages/hub/src/pairing.ts: a fixed window per peer,
 * with expired windows evicted once more than 1024 are held.
 */
module RateLimit {
  const EVICTION_SIZE := 1024

  datatype Window = Window(start: int, count: nat)

  datatype Limit = Limit(windowMs: int, max: int)

  type Windows = map<string, Window>

  datatype Attempt = Attempt(peer: string, now: int)

  /** The attempts so far, the latest one outermost. */
  datatype Run = Empty | After(earlier: Run, last: Attempt)

  // ---- one attempt ----

  predicate Expired(w: Window, now: int, limit: Limit) {
    now - w.start >= limit.windowMs
  }

  /** The peer's window after counting this attempt. */
  function Counted(windows: Windows, limit: Limit, a: Attempt): Window {
    if a.peer !in windows || Expired(windows[a.peer], a.now, limit) then Window(a.now, 1)
    else Window(windows[a.peer].start, windows[a.peer].count + 1)
  }

  function Swept(windows: Windows, limit: Limit, now: int): Windows {
    map peer | peer in windows && !Expired(windows[peer], now, limit) :: windows[peer]
  }

  /** The windows after an attempt. */
  function Bounded(windows: Windows, limit: Limit, a: Attempt): Windows {
    var counted := windows[a.peer := Counted(windows, limit, a)];
    if |counted| > EVICTION_SIZE then Swept(counted, limit, a.now) else counted
  }

  predicate Allowed(windows: Windows, limit: Limit, a: Attempt) {
    Counted(windows, limit, a).count <= limit.max
  }

  /** A limiter that never forgets. */
  function Unbounded(windows: Windows, limit: Limit, a: Attempt): Windows {
    windows[a.peer := Counted(windows, limit, a)]
  }

  // ---- whole runs ----

  function WindowsAfter(limit: Limit, run: Run): Windows {
    if run.Empty? then map[] else Bounded(WindowsAfter(limit, run.earlier), limit, run.last)
  }

  function AllWindowsAfter(limit: Limit, run: Run): Windows {
    if run.Empty? then map[] else Unbounded(AllWindowsAfter(limit, run.earlier), limit, run.last)
  }

  /** The clock never runs backwards, up to `now`. */
  predicate Monotone(run: Run, now: int) {
    run.After? ==> run.last.now <= now && Monotone(run.earlier, run.last.now)
  }

  /** What is missing on the left had expired by the given time. */
  ghost predicate ForgetsOnlyExpired(windows: Windows, all: Windows, limit: Limit, now: int) {
    forall peer :: (peer in windows ==> peer in all && windows[peer] == all[peer])
                && (peer in all && peer !in windows ==> Expired(all[peer], now, limit))
  }

  lemma AttemptForgetsOnlyExpired(windows: Windows, all: Windows, limit: Limit, a: Attempt, before: int)
    requires ForgetsOnlyExpired(windows, all, limit, before) && before <= a.now
    ensures Counted(windows, limit, a) == Counted(all, limit, a)
    ensures ForgetsOnlyExpired(Bounded(windows, limit, a), Unbounded(all, limit, a), limit, a.now)
  {
  }

  lemma {:induction false} RunForgetsOnlyExpired(limit: Limit, run: Run, now: int)
    requires Monotone(run, now)
    ensures ForgetsOnlyExpired(WindowsAfter(limit, run), AllWindowsAfter(limit, run), limit, now)
  {
    if run.After? {
      RunForgetsOnlyExpired(limit, run.earlier, run.last.now);
      AttemptForgetsOnlyExpired(WindowsAfter(limit, run.earlier), AllWindowsAfter(limit, run.earlier),
                                limit, run.last, run.last.now);
    }
  }

  /** Eviction never changes an answer, however many peers come and go. */
  lemma EvictionIsInvisible(limit: Limit, run: Run, a: Attempt)
    requires Monotone(run, a.now)
    ensures Allowed(WindowsAfter(limit, run), limit, a) <==> Allowed(AllWindowsAfter(limit, run), limit, a)
  {
    RunForgetsOnlyExpired(limit, run, a.now);
  }

  /** Nor does the table grow with them: beyond its size it holds nothing that has expired. */
  lemma EvictionBoundsTheTable(windows: Windows, limit: Limit, a: Attempt, peer: string)
    requires |Bounded(windows, limit, a)| > 1024 && peer in Bounded(windows, limit, a)
    ensures a.now - Bounded(windows, limit, a)[peer].start < limit.windowMs
  {
  }

  // ---- how many attempts an interval lets through ----

  predicate Within(now: int, from: int, limit: Limit) {
    from <= now < from + limit.windowMs
  }

  /** Whether the latest attempt is an accepted one of this peer in the windowMs from `from` on. */
  predicate Counts(limit: Limit, run: Run, peer: string, from: int)
    requires run.After?
  {
    run.last.peer == peer && Within(run.last.now, from, limit)
        && Allowed(WindowsAfter(limit, run.earlier), limit, run.last)
  }

  function Accepted(limit: Limit, run: Run, peer: string, from: int): nat {
    if run.Empty? then 0
    else Accepted(limit, run.earlier, peer, from) + if Counts(limit, run, peer, from) then 1 else 0
  }

  function Smaller(a: int, b: int): int {
    if a <= b then a else b
  }

  /**
   * What the interval has let through so far, by where the peer's last window started:
   * before it, the window's first attempt lies outside; inside, one earlier window may
   * have reached into the interval; behind it, nothing more is let through.
   */
  predicate WithinBudget(all: Windows, limit: Limit, peer: string, from: int, accepted: int, now: int) {
    if peer !in all then accepted == 0
    else
      var w := all[peer];
      && 1 <= w.count && w.start <= now
      && (now < from ==> accepted == 0)
      && if w.start < from then accepted <= Smaller(w.count, limit.max) - 1
         else if w.start < from + limit.windowMs then accepted <= limit.max - 1 + Smaller(w.count, limit.max)
         else accepted <= 2 * limit.max - 1
  }

  lemma AttemptWithinBudget(all: Windows, limit: Limit, a: Attempt, peer: string, from: int, accepted: int, before: int)
    requires limit.max >= 1 && before <= a.now
    requires WithinBudget(all, limit, peer, from, accepted, before)
    ensures var more := if a.peer == peer && Within(a.now, from, limit) && Allowed(all, limit, a) then 1 else 0;
            WithinBudget(Unbounded(all, limit, a), limit, peer, from, accepted + more, a.now)
  {
  }

  lemma {:induction false} RunWithinBudget(limit: Limit, run: Run, peer: string, from: int, now: int)
    requires limit.max >= 1 && Monotone(run, now)
    ensures run.Empty? || WithinBudget(AllWindowsAfter(limit, run), limit, peer, from, Accepted(limit, run, peer,
              from), run.last.now)
  {
    if run.After? {
      var earlier, a := run.earlier, run.last;
      RunWithinBudget(limit, earlier, peer, from, a.now);
      AttemptWithinBudget(AllWindowsAfter(limit, earlier), limit, a, peer, from, Accepted(limit, earlier, peer, from),
                          if earlier.Empty? then a.now else earlier.last.now);
      EvictionIsInvisible(limit, earlier, a);
    }
  }

  /** Whatever the other peers do, an interval as long as the window lets at most 2 * max - 1 attempts through. */
  lemma IntervalBudget(limit: Limit, run: Run, peer: string, from: int, now: int)
    requires limit.max >= 1 && Monotone(run, now)
    ensures Accepted(limit, run, peer, from) <= 2 * limit.max - 1
  {
    RunWithinBudget(limit, run, peer, from, now);
  }

  // ---- the bound is reached: the windows are fixed, they do not slide ----

  function Repeat(run: Run, a: Attempt, n: nat): Run {
    if n == 0 then run else After(Repeat(run, a, n - 1), a)
  }

  /** One attempt, the rest of the allowance at the end of its window, and a full allowance right behind it. */
  function Burst(limit: Limit, peer: string): Run
    requires limit.max >= 1
  {
    var early := Repeat(After(Empty, Attempt(peer, 0)), Attempt(peer, limit.windowMs - 1), limit.max - 1);
    Repeat(After(early, Attempt(peer, limit.windowMs)), Attempt(peer, limit.windowMs), limit.max - 1)
  }

  predicate OnlyWindow(windows: Windows, peer: string, w: Window) {
    |windows| == 1 && peer in windows && windows[peer] == w
  }

  /** A run in which one peer alone has asked: its window and how many attempts the interval let through. */
  predicate Alone(limit: Limit, run: Run, peer: string, w: Window, from: int, accepted: int) {
    OnlyWindow(WindowsAfter(limit, run), peer, w) && Accepted(limit, run, peer, from) == accepted
  }

  /** One more accepted attempt, in the window there is or in the one that follows it. */
  lemma OneMore(limit: Limit, run: Run, a: Attempt, from: int, w: Window, accepted: int)
    requires Alone(limit, run, a.peer, w, from, accepted) && Within(a.now, from, limit)
    requires limit.max >= 1 && (!Expired(w, a.now, limit) ==> w.count < limit.max)
    ensures Alone(limit, After(run, a), a.peer,
                  if Expired(w, a.now, limit) then Window(a.now, 1) else Window(w.start, w.count + 1),
                  from, accepted + 1)
  {
  }

  lemma {:induction false} RepeatedAttempts(limit: Limit, run: Run, a: Attempt, n: nat, from: int, w: Window,
      accepted: int)
    requires Alone(limit, run, a.peer, w, from, accepted) && !Expired(w, a.now, limit) && Within(a.now, from, limit)
    requires w.count + n <= limit.max
    ensures Alone(limit, Repeat(run, a, n), a.peer, Window(w.start, w.count + n), from, accepted + n)
  {
    if n > 0 {
      RepeatedAttempts(limit, run, a, n - 1, from, w, accepted);
      OneMore(limit, Repeat(run, a, n - 1), a, from, Window(w.start, w.count + n - 1), accepted + n - 1);
    }
  }

  lemma {:induction false} RepeatIsMonotone(run: Run, a: Attempt, n: nat)
    requires Monotone(run, a.now)
    ensures Monotone(Repeat(run, a, n), a.now)
  {
    if n > 0 {
      RepeatIsMonotone(run, a, n - 1);
    }
  }

  /** 2 * max - 1 tries really do get through within one windowMs, where the documentation speaks of max. */
  lemma BoundaryBurst(limit: Limit, peer: string)
    requires limit.max >= 1 && limit.windowMs >= 2
    ensures Monotone(Burst(limit, peer), limit.windowMs)
    ensures Accepted(limit, Burst(limit, peer), peer, limit.windowMs - 1) == 2 * limit.max - 1
  {
    var from := limit.windowMs - 1;
    var first, early, late := Attempt(peer, 0), Attempt(peer, from), Attempt(peer, limit.windowMs);
    RepeatedAttempts(limit, After(Empty, first), early, limit.max - 1, from, Window(0, 1), 0);
    RepeatIsMonotone(After(Empty, first), early, limit.max - 1);
    var filled := Repeat(After(Empty, first), early, limit.max - 1);
    OneMore(limit, filled, late, from, Window(0, limit.max), limit.max - 1);
    RepeatedAttempts(limit, After(filled, late), late, limit.max - 1, from, Window(limit.windowMs, 1), limit.max);
    RepeatIsMonotone(After(filled, late), late, limit.max - 1);
  }

  // ---- exactly when the windows might as well slide ----

  /** The documented reading: no interval as long as the window lets more than max attempts of a peer through. */
  ghost predicate AtMostMaxPerInterval(limit: Limit) {
    forall run, peer, from, now ::
      Monotone(run, now) ==> Accepted(limit, run, peer, from) <= limit.max
  }

  lemma {:induction false} NoneAllowed(limit: Limit, run: Run, peer: string, from: int)
    requires limit.max <= 0
    ensures Accepted(limit, run, peer, from) == 0
  {
    if run.After? {
      NoneAllowed(limit, run.earlier, peer, from);
    }
  }

  /** When a window is one instant, what the instant let through is counted by the window that starts there. */
  predicate WithinInstant(all: Windows, limit: Limit, peer: string, from: int, accepted: int, now: int) {
    if peer !in all then accepted == 0
    else
      var w := all[peer];
      && w.start <= now
      && if w.start < from || limit.windowMs <= 0 then accepted == 0
         else if w.start == from then accepted <= Smaller(w.count, limit.max)
         else accepted <= limit.max
  }

  lemma {:induction false} RunWithinInstant(limit: Limit, run: Run, peer: string, from: int, now: int)
    requires limit.max >= 0 && limit.windowMs <= 1 && Monotone(run, now)
    ensures run.Empty? || WithinInstant(AllWindowsAfter(limit, run), limit, peer, from, Accepted(limit, run, peer,
              from), run.last.now)
  {
    if run.After? {
      RunWithinInstant(limit, run.earlier, peer, from, run.last.now);
      EvictionIsInvisible(limit, run.earlier, run.last);
    }
  }

  /** The documented reading holds exactly for windows of a single instant and limits of at most one. */
  lemma AtMostMaxExactly(limit: Limit)
    ensures AtMostMaxPerInterval(limit) <==> limit.max >= 0 && (limit.max <= 1 || limit.windowMs <= 1)
  {
    if limit.max < 0 {
      assert Monotone(Empty, 0) && Accepted(limit, Empty, "", 0) == 0;
    } else if limit.max >= 2 && limit.windowMs >= 2 {
      BoundaryBurst(limit, "");
    } else {
      forall run, peer, from, now | Monotone(run, now)
        ensures Accepted(limit, run, peer, from) <= limit.max
      {
        if limit.max == 0 {
          NoneAllowed(limit, run, peer, from);
        } else if limit.max == 1 {
          IntervalBudget(limit, run, peer, from, now);
        } else {
          RunWithinInstant(limit, run, peer, from, now);
        }
      }
    }
  }
}
