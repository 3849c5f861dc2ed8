/** The request budget of one connection: a fixed window and a lifetime limit, against what they promise over time. */
module RequestBudget {
  import opened Util

  /** Instants are nanoseconds of a clock of the caller's. */
  const WINDOW: nat := 60_000_000_000
  const MAX_PER_WINDOW: nat := 240
  const MAX_PER_CONNECTION: nat := 10_000

  datatype Budget = Budget(started: nat, inWindow: nat, total: nat)

  function NewBudget(now: nat): Budget {
    Budget(now, 0, 0)
  }

  /** A new window begins with the first request a whole window after the last one began. */
  function Rolled(b: Budget, now: nat): Budget {
    if SatSub(now, b.started) >= WINDOW then b.(started := now, inWindow := 0) else b
  }

  predicate Allows(b: Budget, now: nat) {
    b.total < MAX_PER_CONNECTION && Rolled(b, now).inWindow < MAX_PER_WINDOW
  }

  function Allowed(b: Budget, now: nat): Budget {
    var r := Rolled(b, now);
    if Allows(b, now) then r.(total := r.total + 1, inWindow := r.inWindow + 1) else r
  }

  class Connection {
    var windowStarted: nat
    var windowRequests: nat
    var totalRequests: nat

    ghost function Spec(): Budget
      reads this
    {
      Budget(windowStarted, windowRequests, totalRequests)
    }

    constructor (now: nat)
      ensures Spec() == NewBudget(now)
    {
      windowStarted, windowRequests, totalRequests := now, 0, 0;
    }

    method Allow(now: nat) returns (allowed: bool)
      modifies this
      ensures allowed == Allows(old(Spec()), now) && Spec() == Allowed(old(Spec()), now)
    {
      if now >= windowStarted && now - windowStarted >= WINDOW {
        windowStarted := now;
        windowRequests := 0;
      }
      if totalRequests >= MAX_PER_CONNECTION || windowRequests >= MAX_PER_WINDOW {
        return false;
      }
      totalRequests := totalRequests + 1;
      windowRequests := windowRequests + 1;
      allowed := true;
    }
  }

  // ---------------------------------------------------------------------------------------------
  // Runs
  // ---------------------------------------------------------------------------------------------

  /** The budget of a connection made at `created` after requests at the given times. */
  function After(created: nat, times: seq<nat>): Budget {
    if times == [] then NewBudget(created) else Allowed(After(created, times[..|times| - 1]), times[|times| - 1])
  }

  /** The times of the requests that were allowed. */
  function Accepted(created: nat, times: seq<nat>): seq<nat> {
    if times == [] then []
    else
      var init, now := times[..|times| - 1], times[|times| - 1];
      if Allows(After(created, init), now) then Accepted(created, init) + [now] else Accepted(created, init)
  }

  ghost predicate Nondecreasing(created: nat, times: seq<nat>) {
    && (forall i :: 0 <= i < |times| ==> created <= times[i])
    && (forall i, j :: 0 <= i < j < |times| ==> times[i] <= times[j])
  }

  /** How many of the times lie in the closed interval. */
  function CountIn(log: seq<nat>, low: int, high: int): nat {
    if log == [] then 0
    else CountIn(log[..|log| - 1], low, high) + if low <= log[|log| - 1] <= high then 1 else 0
  }

  lemma CountSnoc(log: seq<nat>, t: nat, low: int, high: int)
    ensures CountIn(log + [t], low, high) == CountIn(log, low, high) + if low <= t <= high then 1 else 0
  {
    assert (log + [t])[..|log|] == log;
  }

  lemma {:induction false} CountNone(log: seq<nat>, low: int, high: int)
    requires forall i :: 0 <= i < |log| ==> log[i] < low || high < log[i]
    ensures CountIn(log, low, high) == 0
    decreases |log|
  {
    if log != [] { CountNone(log[..|log| - 1], low, high); }
  }

  /** A wider interval counts no less. */
  lemma {:induction false} CountWider(log: seq<nat>, low: int, high: int, low': int, high': int)
    requires low' <= low && high <= high'
    ensures CountIn(log, low, high) <= CountIn(log, low', high')
    decreases |log|
  {
    if log != [] { CountWider(log[..|log| - 1], low, high, low', high'); }
  }

  // ---------------------------------------------------------------------------------------------
  // Limits
  // ---------------------------------------------------------------------------------------------

  /** At most 10000 requests in the life of a connection, whatever the clock does. */
  lemma {:induction false} LifetimeLimit(created: nat, times: seq<nat>)
    ensures |Accepted(created, times)| == After(created, times).total <= 10_000
    ensures After(created, times).inWindow <= 240
    decreases |times|
  {
    if times != [] { LifetimeLimit(created, times[..|times| - 1]); }
  }

  /** The window counter is the number of requests allowed since the window began, and the window is not over. */
  ghost predicate WindowFits(b: Budget, log: seq<nat>, last: nat) {
    && b.started <= last < b.started + WINDOW
    && (forall i :: 0 <= i < |log| ==> log[i] <= last)
    && b.inWindow == CountIn(log, b.started, last)
  }

  lemma WindowStep(b: Budget, log: seq<nat>, last: nat, now: nat)
    requires WindowFits(b, log, last) && last <= now
    ensures WindowFits(Allowed(b, now), if Allows(b, now) then log + [now] else log, now)
  {
    var r := Rolled(b, now);
    if r == b {
      CountSame(log, b.started, last, now);
    } else {
      CountNone(log, now, now);
    }
    CountSnoc(log, now, r.started, now);
  }

  lemma {:induction false} CountSame(log: seq<nat>, low: int, last: nat, now: nat)
    requires (forall i :: 0 <= i < |log| ==> log[i] <= last) && last <= now
    ensures CountIn(log, low, last) == CountIn(log, low, now)
    decreases |log|
  {
    if log != [] { CountSame(log[..|log| - 1], low, last, now); }
  }

  function LastTime(created: nat, times: seq<nat>): nat {
    if times == [] then created else times[|times| - 1]
  }

  lemma {:induction false} WindowAlwaysFits(created: nat, times: seq<nat>)
    requires Nondecreasing(created, times)
    ensures WindowFits(After(created, times), Accepted(created, times), LastTime(created, times))
    decreases |times|
  {
    hide Allowed, Allows;
    if times != [] {
      var init, now := times[..|times| - 1], times[|times| - 1];
      WindowAlwaysFits(created, init);
      WindowStep(After(created, init), Accepted(created, init), LastTime(created, init), now);
    }
  }

  /** A bound on the requests allowed in the minute from `a` on, by where the present window lies. */
  function Bound(b: Budget, a: nat): nat {
    if b.started + WINDOW <= a then 0
    else if b.started <= a then b.inWindow
    else if b.started <= a + WINDOW then MAX_PER_WINDOW + b.inWindow
    else 2 * MAX_PER_WINDOW
  }

  lemma BoundStep(b: Budget, log: seq<nat>, last: nat, now: nat, a: nat)
    requires WindowFits(b, log, last) && last <= now && b.inWindow <= MAX_PER_WINDOW
    requires CountIn(log, a, a + WINDOW) <= Bound(b, a)
    ensures CountIn(if Allows(b, now) then log + [now] else log, a, a + WINDOW) <= Bound(Allowed(b, now), a)
  {
    hide CountIn, Bound, Allows, Allowed;
    CountSnoc(log, now, a, a + WINDOW);
    BoundArithmetic(b, CountIn(log, a, a + WINDOW), now, a);
  }

  lemma BoundArithmetic(b: Budget, count: nat, now: nat, a: nat)
    requires b.started <= now && b.inWindow <= MAX_PER_WINDOW && count <= Bound(b, a)
    ensures count + (if Allows(b, now) && a <= now <= a + WINDOW then 1 else 0) <= Bound(Allowed(b, now), a)
  {
  }

  /** With a clock that does not run backwards, at most 480 requests in any closed interval of a minute. */
  lemma {:induction false} MinuteLimit(created: nat, times: seq<nat>, a: nat)
    requires Nondecreasing(created, times)
    ensures CountIn(Accepted(created, times), a, a + 60_000_000_000) <= Bound(After(created, times), a) <= 480
    decreases |times|
  {
    hide Allowed, Allows, WindowFits;
    LifetimeLimit(created, times);
    if times != [] {
      var init, now := times[..|times| - 1], times[|times| - 1];
      MinuteLimit(created, init, a);
      WindowAlwaysFits(created, init);
      LifetimeLimit(created, init);
      BoundStep(After(created, init), Accepted(created, init), LastTime(created, init), now, a);
    }
  }

  /** When no window begins after `a`, the minute from `a` on holds at most 240. */
  lemma MinuteWithinOneWindow(created: nat, times: seq<nat>, a: nat)
    requires Nondecreasing(created, times) && After(created, times).started <= a
    ensures CountIn(Accepted(created, times), a, a + 60_000_000_000) <= 240
  {
    hide CountIn, Accepted, After;
    MinuteLimit(created, times, a);
    LifetimeLimit(created, times);
  }

  lemma {:induction false} CountSplit(log: seq<nat>, low: int, mid: int, high: int)
    requires low <= mid <= high
    ensures CountIn(log, low, high) == CountIn(log, low, mid - 1) + CountIn(log, mid, high)
    decreases |log|
  {
    if log != [] { CountSplit(log[..|log| - 1], low, mid, high); }
  }

  /** Requests after the minute do not count in it. */
  lemma {:induction false} LaterIsOutside(created: nat, times: seq<nat>, later: seq<nat>, a: nat)
    requires forall i :: 0 <= i < |later| ==> a + WINDOW < later[i]
    ensures CountIn(Accepted(created, times + later), a, a + WINDOW) == CountIn(Accepted(created, times), a, a + WINDOW)
    decreases |later|
  {
    if later == [] {
      assert times + later == times;
    } else {
      var init, now := later[..|later| - 1], later[|later| - 1];
      assert (times + later)[..|times + later| - 1] == times + init && (times + later)[|times + later| - 1] == now;
      LaterIsOutside(created, times, init, a);
      CountSnoc(Accepted(created, times + init), now, a, a + WINDOW);
    }
  }

  /**
   Exactly when a minute of a run holds more than 240: a window begins in it after `a`, and what was allowed from `a` on
   before that window, added to its counter at the end of the minute, is more.
   */
  lemma MinuteExceeds(created: nat, times: seq<nat>, later: seq<nat>, a: nat)
    requires Nondecreasing(created, times)
    requires forall i :: 0 <= i < |times| ==> times[i] <= a + 60_000_000_000
    requires forall i :: 0 <= i < |later| ==> a + 60_000_000_000 < later[i]
    ensures var b, log := After(created, times), Accepted(created, times);
            CountIn(Accepted(created, times + later), a, a + 60_000_000_000) > 240 <==>
              a < b.started && CountIn(log, a, b.started - 1) + b.inWindow > 240
  {
    var b, log := After(created, times), Accepted(created, times);
    LaterIsOutside(created, times, later, a);
    if times != [] {
      hide CountIn, Accepted, After;
      if b.started <= a {
        MinuteWithinOneWindow(created, times, a);
      } else {
        WindowAlwaysFits(created, times);
        CountSplit(log, a, b.started, a + WINDOW);
        CountSame(log, b.started, LastTime(created, times), a + WINDOW);
      }
    }
  }

  lemma DivisionStep(from: nat, to: nat)
    requires to >= from + WINDOW
    ensures to / WINDOW >= from / WINDOW + 1
  {
  }

  lemma DivisionMonotone(from: nat, to: nat)
    requires from <= to
    ensures from / WINDOW <= to / WINDOW
  {
  }

  lemma {:induction false} WindowsElapsed(created: nat, times: seq<nat>)
    requires Nondecreasing(created, times)
    ensures var b := After(created, times);
            created <= b.started <= LastTime(created, times)
                && b.total <= MAX_PER_WINDOW * ((b.started - created) / WINDOW) + b.inWindow
    decreases |times|
  {
    LifetimeLimit(created, times);
    if times != [] {
      var init, now := times[..|times| - 1], times[|times| - 1];
      WindowsElapsed(created, init);
      LifetimeLimit(created, init);
      var b := After(created, init);
      if SatSub(now, b.started) >= WINDOW {
        DivisionStep(b.started - created, now - created);
      }
    }
  }

  /** In the first `t` nanoseconds at most 240 requests a minute begun. */
  lemma StartLimit(created: nat, times: seq<nat>, t: nat)
    requires Nondecreasing(created, times) && LastTime(created, times) <= created + t
    ensures |Accepted(created, times)| <= 240 * (t / 60_000_000_000 + 1)
  {
    WindowsElapsed(created, times);
    LifetimeLimit(created, times);
    DivisionMonotone(After(created, times).started - created, t);
  }

  /** A request is refused only after 10000 were allowed, or 240 within the minute before it. */
  lemma RefusedForAReason(created: nat, times: seq<nat>, now: nat)
    requires Nondecreasing(created, times + [now]) && !Allows(After(created, times), now)
    ensures var log := Accepted(created, times);
            |log| == 10_000 || CountIn(log, now - 60_000_000_000 + 1, now) >= 240
  {
    hide CountIn, After, Accepted;
    assert forall i :: 0 <= i < |times| ==> times[i] == (times + [now])[i];
    assert (times + [now])[|times|] == now;
    assert Nondecreasing(created, times) && LastTime(created, times) <= now;
    WindowAlwaysFits(created, times);
    LifetimeLimit(created, times);
    RefusalCount(After(created, times), Accepted(created, times), LastTime(created, times), now);
  }

  lemma RefusalCount(b: Budget, log: seq<nat>, last: nat, now: nat)
    requires WindowFits(b, log, last) && last <= now && !Allows(b, now)
    ensures b.total >= MAX_PER_CONNECTION || CountIn(log, now - WINDOW + 1, now) >= MAX_PER_WINDOW
  {
    hide CountIn;
    if b.total < MAX_PER_CONNECTION {
      CountWider(log, b.started, last, now - WINDOW + 1, now);
    }
  }

  /** The minute limit is reached: 240 requests at the end of one window and 240 at the start of the next. */
  predicate Straddles(created: nat, times: seq<nat>) {
    && |times| == 2 * MAX_PER_WINDOW
    && (forall i :: 0 <= i < MAX_PER_WINDOW ==> times[i] == created + WINDOW - 1)
    && (forall i :: MAX_PER_WINDOW <= i < 2 * MAX_PER_WINDOW ==> times[i] == created + WINDOW)
  }

  function Straddling(created: nat, n: nat): Budget {
    if n <= MAX_PER_WINDOW then Budget(created, n, n) else Budget(created + WINDOW, n - MAX_PER_WINDOW, n)
  }

  lemma StraddleStep(created: nat, n: nat)
    requires n < 2 * MAX_PER_WINDOW
    ensures var b, now := Straddling(created, n), if n < MAX_PER_WINDOW then created + WINDOW - 1 else created + WINDOW;
            Allows(b, now) && Allowed(b, now) == Straddling(created, n + 1)
  {
  }

  lemma {:induction false} StraddlePrefix(created: nat, times: seq<nat>, n: nat)
    requires Straddles(created, times) && n <= |times|
    ensures After(created, times[..n]) == Straddling(created, n)
    ensures Accepted(created, times[..n]) == times[..n]
  {
    hide Allows, Allowed;
    if n > 0 {
      assert times[..n][..n - 1] == times[..n - 1] && times[..n] == times[..n - 1] + [times[n - 1]];
      StraddlePrefix(created, times, n - 1);
      StraddleStep(created, n - 1);
    }
  }

  lemma {:induction false} CountAll(log: seq<nat>, low: int, high: int)
    requires forall i :: 0 <= i < |log| ==> low <= log[i] <= high
    ensures CountIn(log, low, high) == |log|
    decreases |log|
  {
    if log != [] { CountAll(log[..|log| - 1], low, high); }
  }

  /** So 480 is the best bound: some run has that many requests allowed within two nanoseconds. */
  lemma MinuteLimitIsReached(created: nat) returns (times: seq<nat>)
    ensures |times| == 480 && Nondecreasing(created, times)
    ensures CountIn(Accepted(created, times), created + 60_000_000_000 - 1, created + 60_000_000_000) == 480
  {
    times := seq(480, i => if i < 240 then created + WINDOW - 1 else created + WINDOW);
    StraddlePrefix(created, times, |times|);
    assert times[..|times|] == times;
    CountAll(times, created + WINDOW - 1, created + WINDOW);
  }
}
