/**
  The token bucket that throttles the update server (installation/_updates.py, _TokenBucket),
  over exact real arithmetic. A caller that asks for more than is left sleeps for the
  deficit and leaves the bucket in debt; the time stamp moves only when the bucket is
  refilled, and a full bucket is not refilled.
*/
module TokenBucket {
  datatype Params = Params(capacity: real, rate: real)

  datatype Balance = Balance(tokens: real, timestamp: real)

  /** One successful call: asked at start, returned at done. */
  datatype Call = Call(request: real, start: real, done: real)

  predicate ValidParams(p: Params) { p.capacity > 0.0 && p.rate > 0.0 }

  function Min(a: real, b: real): real { if b < a then b else a }

  /** What the balance would amount to at time t, if the bucket could not overflow. */
  function Worth(p: Params, b: Balance, t: real): real {
    b.tokens + p.rate * (t - b.timestamp)
  }

  function Refilled(p: Params, b: Balance, now: real): Balance {
    if b.tokens < p.capacity then Balance(Min(p.capacity, Worth(p, b, now)), now) else b
  }

  function Delay(p: Params, b: Balance, request: real): real
    requires p.rate > 0.0
  {
    if request > b.tokens then (request - b.tokens) / p.rate else 0.0
  }

  function Taken(b: Balance, request: real): Balance {
    b.(tokens := b.tokens - request)
  }

  function Next(p: Params, b: Balance, c: Call): Balance {
    Taken(Refilled(p, b, c.start), c.request)
  }

  /** When the sleep asked for in call c is over. */
  function Due(p: Params, b: Balance, c: Call): real
    requires p.rate > 0.0
  {
    c.start + Delay(p, Refilled(p, b, c.start), c.request)
  }

  predicate ValidCall(p: Params, b: Balance, t: real, c: Call)
    requires ValidParams(p)
  {
    0.0 < c.request <= p.capacity && t <= c.start && Due(p, b, c) <= c.done
  }

  /** Calls one after another, from time t on: time never goes back, and no sleep ends early. */
  predicate ValidRun(p: Params, b: Balance, t: real, calls: seq<Call>)
    requires ValidParams(p)
    decreases |calls|
  {
    calls == [] ||
    (ValidCall(p, b, t, calls[0]) && ValidRun(p, Next(p, b, calls[0]), calls[0].done, calls[1..]))
  }

  function Granted(calls: seq<Call>): real
    decreases |calls|
  {
    if calls == [] then 0.0 else calls[0].request + Granted(calls[1..])
  }

  /** The balance after a run. */
  function After(p: Params, b: Balance, calls: seq<Call>): Balance
    decreases |calls|
  {
    if calls == [] then b else After(p, Next(p, b, calls[0]), calls[1..])
  }

  function End(t: real, calls: seq<Call>): real {
    if calls == [] then t else calls[|calls| - 1].done
  }

  // ---------- Real arithmetic, one step at a time ----------

  lemma Distribute(rate: real, a: real, b: real)
    ensures rate * (b - a) == rate * b - rate * a
  {
  }

  lemma Monotone(rate: real, a: real, b: real)
    requires rate > 0.0 && a <= b
    ensures rate * a <= rate * b
  {
  }

  lemma WorthGrows(p: Params, b: Balance, t: real, t': real)
    requires ValidParams(p)
    ensures Worth(p, b, t') == Worth(p, b, t) + p.rate * (t' - t)
    ensures t <= t' ==> Worth(p, b, t) <= Worth(p, b, t')
  {
    Distribute(p.rate, b.timestamp, t);
    Distribute(p.rate, b.timestamp, t');
    Distribute(p.rate, t, t');
    if t <= t' {
      Monotone(p.rate, t, t');
    }
  }

  lemma RefillingCreatesNothing(p: Params, b: Balance, now: real, end: real)
    requires ValidParams(p) && b.timestamp <= now
    ensures Refilled(p, b, now).timestamp <= now
    ensures Worth(p, Refilled(p, b, now), end) <= Worth(p, b, end)
  {
    WorthGrows(p, b, now, end);
  }

  /** The sleep is over when the request is worth paying, and not earlier. */
  lemma DelayCoversDeficit(p: Params, b: Balance, request: real, now: real)
    requires ValidParams(p) && b.timestamp <= now
    ensures Delay(p, b, request) >= 0.0
    ensures request <= Worth(p, b, now + Delay(p, b, request))
    ensures request > b.tokens && b.timestamp == now ==> request == Worth(p, b, now + Delay(p, b, request))
  {
    WorthGrows(p, b, b.timestamp, now);
    if request > b.tokens {
      DivideMultiply(p.rate, request - b.tokens);
      WorthGrows(p, b, now, now + Delay(p, b, request));
    }
  }

  lemma DivideMultiply(rate: real, d: real)
    requires rate > 0.0
    ensures rate * (d / rate) == d && (d >= 0.0 ==> d / rate >= 0.0)
  {
  }

  lemma TakingCosts(p: Params, b: Balance, request: real, t: real)
    ensures Worth(p, Taken(b, request), t) == Worth(p, b, t) - request
  {
  }

  // ---------- Theorems over whole runs ----------

  /** A call grants no more than what the balance and the time since its stamp allow. */
  lemma CallIsPaidFor(p: Params, b: Balance, t: real, c: Call, end: real)
    requires ValidParams(p) && b.timestamp <= t && ValidCall(p, b, t, c)
    ensures Next(p, b, c).timestamp <= c.start <= c.done
    ensures c.request + Worth(p, Next(p, b, c), end) <= Worth(p, b, end)
    ensures 0.0 <= Worth(p, Next(p, b, c), c.done)
  {
    var r := Refilled(p, b, c.start);
    RefillingCreatesNothing(p, b, c.start, end);
    DelayCoversDeficit(p, r, c.request, c.start);
    TakingCosts(p, r, c.request, end);
    TakingCosts(p, r, c.request, c.done);
    WorthGrows(p, r, Due(p, b, c), c.done);
  }

  lemma {:induction false} RunIsPaidFor(p: Params, b: Balance, t: real, calls: seq<Call>, end: real)
    requires ValidParams(p) && ValidRun(p, b, t, calls) && b.timestamp <= t && calls != []
    requires end == End(t, calls)
    ensures Granted(calls) <= Worth(p, b, end)
    decreases |calls|
  {
    CallIsPaidFor(p, b, t, calls[0], end);
    var b', granted := Next(p, b, calls[0]), Granted(calls[1..]);
    if |calls| > 1 {
      RunIsPaidFor(p, b', calls[0].done, calls[1..], end);
    }
    assert granted <= Worth(p, b', end);
  }

  /** What a rate-limited source may hand out from time a to time b. */
  function Allowance(p: Params, a: real, b: real): real {
    p.capacity + p.rate * (b - a)
  }

  lemma NonNegative(rate: real, x: real)
    requires rate > 0.0 && x >= 0.0
    ensures rate * x >= 0.0
  {
  }

  lemma AllowanceIsPositive(p: Params, a: real, b: real)
    requires ValidParams(p) && a <= b
    ensures 0.0 < Allowance(p, a, b)
  {
    var dt := b - a;
    NonNegative(p.rate, dt);
    assert Allowance(p, a, b) == p.capacity + p.rate * dt;
  }

  function Created(p: Params, t0: real): Balance { Balance(p.capacity, t0) }

  /** Since the bucket was created, no more was granted than one capacity and the rate allow. */
  lemma {:induction false} GrantedSinceCreation(p: Params, t0: real, calls: seq<Call>)
    requires ValidParams(p) && ValidRun(p, Created(p, t0), t0, calls) && calls != []
    ensures Granted(calls) <= Allowance(p, t0, End(t0, calls))
  {
    RunIsPaidFor(p, Created(p, t0), t0, calls, End(t0, calls));
  }

  /**
    A window that starts at time w, while its first call is waiting or before, and ends with
    the last of the calls. The bucket is not full when it starts, because a call came before.
  */
  lemma {:induction false} WindowAfterFirstCall(p: Params, b: Balance, t: real, calls: seq<Call>, w: real)
    requires ValidParams(p) && ValidRun(p, b, t, calls) && b.timestamp <= t && calls != []
    requires b.tokens < p.capacity && w <= Due(p, b, calls[0])
    ensures Granted(calls) <= Allowance(p, w, End(t, calls))
  {
    var end, c := End(t, calls), calls[0];
    var r := Refilled(p, b, c.start);
    RefilledRun(p, b, t, calls);
    RunIsPaidFor(p, r, c.start, calls, end);
    WindowOfRefilled(p, r, c.request, c.start, w);
    WindowIsPaidFor(p, r, w, end, Granted(calls));
  }

  lemma WindowIsPaidFor(p: Params, r: Balance, w: real, end: real, granted: real)
    requires ValidParams(p) && granted <= Worth(p, r, end) && Worth(p, r, w) <= p.capacity
    ensures granted <= Allowance(p, w, end)
  {
    WorthGrows(p, r, w, end);
  }

  // What a bucket refilled at now is worth when a request of at most one capacity is due.
  lemma WindowOfRefilled(p: Params, r: Balance, request: real, now: real, w: real)
    requires ValidParams(p) && r.tokens <= p.capacity && r.timestamp == now && request <= p.capacity
    requires w <= now + Delay(p, r, request)
    ensures Worth(p, r, w) <= p.capacity
  {
    DelayCoversDeficit(p, r, request, now);
    WorthGrows(p, r, now, now);
    WorthGrows(p, r, w, now + Delay(p, r, request));
  }

  // Refilling just before a call that would refill anyway changes nothing.
  lemma {:induction false} RefilledRun(p: Params, b: Balance, t: real, calls: seq<Call>)
    requires ValidParams(p) && ValidRun(p, b, t, calls) && b.timestamp <= t && calls != []
    ensures ValidRun(p, Refilled(p, b, calls[0].start), calls[0].start, calls)
  {
    var r := Refilled(p, b, calls[0].start);
    assert p.rate * (calls[0].start - calls[0].start) == 0.0;
    assert Refilled(p, r, calls[0].start) == r;
  }

  /** Any window at all, also one that starts while a sleep is overdue or with the first call. */
  lemma {:induction false} AnyWindow(p: Params, b: Balance, t: real, calls: seq<Call>, w: real)
    requires ValidParams(p) && ValidRun(p, b, t, calls) && b.timestamp <= t && calls != []
    requires b.tokens <= p.capacity && w <= calls[0].done
    ensures Granted(calls) <= p.capacity + Allowance(p, w, End(t, calls))
  {
    var c, rest := calls[0], calls[1..];
    CallIsPaidFor(p, b, t, c, 0.0);
    CallSpends(p, b, t, c);
    if rest == [] {
      AllowanceIsPositive(p, w, End(t, calls));
    } else {
      DueNotBeforeStart(p, Next(p, b, c), rest[0]);
      WindowAfterFirstCall(p, Next(p, b, c), c.done, rest, w);
    }
  }

  lemma DueNotBeforeStart(p: Params, b: Balance, c: Call)
    requires ValidParams(p) && b.timestamp <= c.start
    ensures c.start <= Due(p, b, c)
  {
    DelayCoversDeficit(p, Refilled(p, b, c.start), c.request, c.start);
  }

  lemma CallSpends(p: Params, b: Balance, t: real, c: Call)
    requires ValidParams(p) && b.timestamp <= t && b.tokens <= p.capacity && ValidCall(p, b, t, c)
    ensures Next(p, b, c).tokens < p.capacity
    ensures 0.0 <= Worth(p, b, t) ==> -p.capacity <= Next(p, b, c).tokens
  {
    DelayCoversDeficit(p, Refilled(p, b, c.start), c.request, c.start);
    WorthGrows(p, b, t, c.start);
  }

  /** After every call the balance is in [-capacity, capacity), and the next refill repays any debt. */
  lemma {:induction false} BalanceStaysInRange(p: Params, b: Balance, t: real, calls: seq<Call>, now: real)
    requires ValidParams(p) && ValidRun(p, b, t, calls) && b.timestamp <= t
    requires b.tokens <= p.capacity && 0.0 <= Worth(p, b, t) && End(t, calls) <= now
    ensures After(p, b, calls).tokens <= p.capacity
    ensures calls != [] ==> -p.capacity <= After(p, b, calls).tokens < p.capacity
    ensures 0.0 <= Refilled(p, After(p, b, calls), now).tokens
    decreases |calls|
  {
    if calls == [] {
      WorthGrows(p, b, t, now);
    } else {
      CallIsPaidFor(p, b, t, calls[0], 0.0);
      CallSpends(p, b, t, calls[0]);
      BalanceStaysInRange(p, Next(p, b, calls[0]), calls[0].done, calls[1..], now);
    }
  }

  /**
    The bound of one capacity is exact in where the window may start: start it by any eps after
    the first call was due, while that call oversleeps, and some run grants more.
  */
  lemma OverdueWindowBreaksTheBound(p: Params, eps: real) returns (calls: seq<Call>, w: real)
    requires ValidParams(p) && eps > 0.0
    ensures |calls| > 1 && ValidRun(p, Created(p, 0.0), 0.0, calls)
    ensures Due(p, Next(p, Created(p, 0.0), calls[0]), calls[1]) + eps == w == calls[1].done
    ensures Granted(calls[1..]) > Allowance(p, w, End(0.0, calls))
  {
    var due := p.capacity / p.rate;
    DivideMultiply(p.rate, p.capacity);
    NonNegative(p.rate, eps);
    w := due + eps;
    var c0 := Call(p.capacity, 0.0, 0.0);
    var c1 := Call(p.capacity, 0.0, w);
    var b1 := Next(p, Created(p, 0.0), c0);
    var b2 := Next(p, b1, c1);
    assert b1 == Balance(0.0, 0.0) && Refilled(p, b1, 0.0) == b1 && b2 == Balance(-p.capacity, 0.0);
    assert p.rate * (w - 0.0) == p.capacity + p.rate * eps;
    assert p.rate * eps > 0.0;
    var c2 := Call(Min(p.capacity, p.rate * eps), w, w);
    assert Refilled(p, b2, w) == Balance(c2.request, w);
    calls := [c0, c1, c2];
    assert calls[1..] == [c1, c2] && calls[1..][1..] == [c2] && calls[1..][1..][1..] == [];
    assert ValidRun(p, Next(p, b2, c2), w, []);
    assert ValidRun(p, b2, w, [c2]);
    assert ValidRun(p, b1, 0.0, [c1, c2]);
    assert Granted([c2]) == c2.request + Granted([]);
    assert Granted([c1, c2]) == p.capacity + c2.request;
  }

  // ---------- Exactly when a request is due ----------

  /** What the bucket has earned by the start of a call, and can hold, is granted at once. */
  lemma EarnedIsDueAtOnce(p: Params, b: Balance, c: Call)
    requires ValidParams(p) && b.timestamp <= c.start && c.request <= p.capacity
    requires c.request <= b.tokens + p.rate * (c.start - b.timestamp)
    ensures Due(p, b, c) == c.start
  {
    assert Worth(p, b, c.start) == b.tokens + p.rate * (c.start - b.timestamp);
  }

  /** Any other request is due at the very moment when it will have been earned. */
  lemma DueWhenEarned(p: Params, b: Balance, c: Call)
    requires ValidParams(p) && b.timestamp <= c.start && c.request <= p.capacity
    requires c.request > b.tokens + p.rate * (c.start - b.timestamp)
    ensures Due(p, b, c) > c.start
    ensures b.tokens + p.rate * (Due(p, b, c) - b.timestamp) == c.request
  {
    var r, due := Refilled(p, b, c.start), Due(p, b, c);
    WorthGrows(p, b, b.timestamp, c.start);
    assert r == Balance(Worth(p, b, c.start), c.start);
    DelayCoversDeficit(p, r, c.request, c.start);
    LaterIsLater(p.rate, c.request - r.tokens);
    WorthGrows(p, r, c.start, due);
    WorthGrows(p, b, c.start, due);
  }

  lemma LaterIsLater(rate: real, d: real)
    requires rate > 0.0 && d > 0.0
    ensures d / rate > 0.0
  {
  }

  lemma PauseEarns(p: Params, amount: real, pause: real)
    requires ValidParams(p) && amount / p.rate <= pause
    ensures amount <= p.rate * pause
  {
    DivideMultiply(p.rate, amount);
    Monotone(p.rate, amount / p.rate, pause);
  }

  lemma FullIsDueAtOnce(p: Params, b: Balance, c: Call)
    requires ValidParams(p) && b.timestamp <= c.start && -p.capacity <= b.tokens && c.request == p.capacity
    requires 2.0 * p.capacity / p.rate <= c.start - b.timestamp
    ensures Due(p, b, c) == c.start
  {
    PauseEarns(p, 2.0 * p.capacity, c.start - b.timestamp);
    EarnedIsDueAtOnce(p, b, c);
  }

  /** After any run, a pause of two capacities' worth of time makes a whole capacity due at once. */
  lemma {:induction false} FullAfterPause(p: Params, b: Balance, t: real, calls: seq<Call>, c: Call)
    requires ValidParams(p) && ValidRun(p, b, t, calls) && b.timestamp <= t
    requires b.tokens <= p.capacity && 0.0 <= Worth(p, b, t) && calls != []
    requires c.request == p.capacity && 2.0 * p.capacity / p.rate <= c.start - End(t, calls)
    ensures Due(p, After(p, b, calls), c) == c.start
  {
    BalanceStaysInRange(p, b, t, calls, End(t, calls));
    StampIsBeforeEnd(p, b, t, calls);
    LaterIsLater(p.rate, 2.0 * p.capacity);
    FullIsDueAtOnce(p, After(p, b, calls), c);
  }

  lemma {:induction false} StampIsBeforeEnd(p: Params, b: Balance, t: real, calls: seq<Call>)
    requires ValidParams(p) && ValidRun(p, b, t, calls) && b.timestamp <= t
    ensures After(p, b, calls).timestamp <= End(t, calls)
    ensures t <= End(t, calls)
    decreases |calls|
  {
    if calls != [] {
      CallIsPaidFor(p, b, t, calls[0], 0.0);
      StampIsBeforeEnd(p, Next(p, b, calls[0]), calls[0].done, calls[1..]);
    }
  }

  /** No call finds the bucket overflowing: it is full and untouched, or holds all it has earned. */
  predicate NeverOverflows(p: Params, b: Balance, calls: seq<Call>)
    decreases |calls|
  {
    calls == [] ||
    ((b.tokens >= p.capacity || b.tokens + p.rate * (calls[0].start - b.timestamp) <= p.capacity)
     && NeverOverflows(p, Next(p, b, calls[0]), calls[1..]))
  }

  /** Over a run that never overflows nothing is lost: what was not granted is still there at any time. */
  lemma {:induction false} NothingIsLost(p: Params, b: Balance, calls: seq<Call>, time: real)
    requires ValidParams(p) && NeverOverflows(p, b, calls)
    ensures Granted(calls) + Worth(p, After(p, b, calls), time) == Worth(p, b, time)
    decreases |calls|
  {
    if calls != [] {
      var r := Refilled(p, b, calls[0].start);
      assert Worth(p, b, calls[0].start) == b.tokens + p.rate * (calls[0].start - b.timestamp);
      WorthGrows(p, b, calls[0].start, time);
      assert Worth(p, r, time) == Worth(p, b, time);
      TakingCosts(p, r, calls[0].request, time);
      NothingIsLost(p, Next(p, b, calls[0]), calls[1..], time);
    }
  }

  // ---------- The bucket itself ----------

  /** time.monotonic() and time.sleep(): time never goes back, and a sleep never ends early. */
  class Clock {
    var now: real

    method Read() returns (t: real)
      modifies this
      ensures t == now && old(now) <= now
    {
      var passed: real :| passed >= 0.0;
      now := now + passed;
      t := now;
    }

    method Sleep(delay: real)
      requires delay >= 0.0
      modifies this
      ensures old(now) + delay <= now
    {
      var oversleep: real :| oversleep >= 0.0;
      now := now + delay + oversleep;
    }
  }

  datatype Outcome = Paid | TooMuch | CannotSleep

  class Bucket {
    const params: Params
    const clock: Clock
    var tokens: real
    var timestamp: real

    function State(): Balance
      reads this
    {
      Balance(tokens, timestamp)
    }

    constructor (capacity: real, tokensPerSec: real, clock: Clock)
      ensures params == Params(capacity, tokensPerSec) && this.clock == clock
      ensures State() == Created(params, clock.now)
    {
      this.params, this.clock := Params(capacity, tokensPerSec), clock;
      tokens, timestamp := capacity, clock.now;
    }

    /**
      Fails without waiting when more is asked for than the bucket can hold. Without a positive
      rate a deficit cannot be slept off: the division or the sleep raises, after the refill.
    */
    method WaitForFilling(request: real) returns (outcome: Outcome, ghost call: Call)
      requires timestamp <= clock.now
      modifies this, clock
      ensures timestamp <= clock.now && old(clock.now) <= clock.now
      ensures outcome.TooMuch? <==> request > params.capacity
      ensures outcome.TooMuch? ==> State() == old(State())
      ensures !outcome.TooMuch? ==> old(clock.now) <= call.start <= clock.now && call.request == request
      ensures outcome.CannotSleep? ==>
        params.rate <= 0.0 && State() == Refilled(params, old(State()), call.start) && request > tokens
      ensures outcome.Paid? ==>
        && call.done == clock.now && State() == Next(params, old(State()), call)
        && (request <= Refilled(params, old(State()), call.start).tokens ==> call.done == call.start)
        && (params.rate <= 0.0 ==> request <= Refilled(params, old(State()), call.start).tokens)
        && (0.0 < request && ValidParams(params) ==> ValidCall(params, old(State()), old(clock.now), call))
    {
      if request > params.capacity {
        return TooMuch, Call(request, clock.now, clock.now);
      }
      ghost var start := Refill();
      var slept := SleepOffDeficit(request);
      call := Call(request, start, clock.now);
      if !slept {
        return CannotSleep, call;
      }
      tokens := tokens - request;
      return Paid, call;
    }

    method Refill() returns (ghost start: real)
      requires timestamp <= clock.now
      modifies this, clock
      ensures State() == Refilled(params, old(State()), start)
      ensures old(clock.now) <= start == clock.now && timestamp <= start
    {
      start := clock.now;
      if tokens < params.capacity {
        var now := clock.Read();
        start := now;
        var delta := params.rate * (now - timestamp);
        tokens := Min(params.capacity, tokens + delta);
        timestamp := now;
      }
    }

    method SleepOffDeficit(request: real) returns (ok: bool)
      modifies clock
      ensures old(clock.now) <= clock.now
      ensures ok <==> request <= tokens || params.rate > 0.0
      ensures request <= tokens ==> clock.now == old(clock.now)
      ensures params.rate > 0.0 ==> old(clock.now) + Delay(params, State(), request) <= clock.now
    {
      ok := true;
      if request > tokens {
        if params.rate <= 0.0 {
          return false;
        }
        var deficit := request - tokens;
        DivideMultiply(params.rate, deficit);
        var delay := deficit / params.rate;
        clock.Sleep(delay);
      }
    }
  }
}
