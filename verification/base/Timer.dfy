/** A timer: the fields the scheduler reads and writes, and what one look at the clock makes
    of them. Times are nanoseconds in 64 bits; functions are named by numbers. */
module Timer {
  import opened Options

  const WORD: nat := 0x1_0000_0000_0000_0000
  const ERROR_OFFSET: nat := 1000000

  /** The fields as a value. */
  datatype Fields = Fields(interval: nat, start: nat, loopCount: nat, loop: bool, callback: Option<int>)

  class Timer {
    var interval: nat
    var startTimer: nat
    var loopCount: nat
    var loop: bool
    var callback: Option<int>

    ghost function State(): Fields
      reads this
    {
      Fields(interval, startTimer, loopCount, loop, callback)
    }

    constructor (interval: nat, loop: bool, callback: Option<int>)
      ensures State() == Fields(interval, 0, 0, loop, callback)
    {
      this.interval := interval;
      this.startTimer := 0;
      this.loopCount := 0;
      this.loop := loop;
      this.callback := callback;
    }

    method Start(callback: Option<int>, now: nat)
      modifies this
      ensures State() == Started(old(State()), callback, now)
    {
      if callback.Some? {
        this.callback := callback;
      }
      startTimer := now;
      loopCount := 0;
    }

    method Stop()
      modifies this
      ensures State() == Stopped(old(State()))
    {
      startTimer := 0;
      loopCount := 0;
    }

    function IsActive(): (r: bool)
      reads this
      ensures r == Active(State())
    {
      startTimer > 0
    }
  }

  function Started(t: Fields, callback: Option<int>, now: nat): Fields
  {
    t.(callback := if callback.Some? then callback else t.callback, start := now, loopCount := 0)
  }

  function Stopped(t: Fields): Fields { t.(start := 0, loopCount := 0) }

  predicate Active(t: Fields) { t.start > 0 }

  /** The interval in nanoseconds; zero milliseconds stand for a tenth of one. */
  function Period(interval: nat): (p: nat)
    ensures p > 0
  {
    if interval == 0 then 100000 else interval * 1000000
  }

  /** now - start, as unsigned 64-bit arithmetic has it. */
  function Elapsed(t: Fields, now: nat): nat { (now - t.start) % WORD }

  /** How often the timer should have fired by now. */
  function Expected(t: Fields, now: nat): nat { (now - t.start + ERROR_OFFSET) % WORD / Period(t.interval) }

  predicate Due(t: Fields, now: nat) { Active(t) && Expected(t, now) > t.loopCount }

  /** How many firings one look queues. */
  function Fired(t: Fields, now: nat): nat
  {
    if !Due(t, now) || t.callback.None? then 0 else if t.loop then Expected(t, now) - t.loopCount else 1
  }

  function Ticked(t: Fields, now: nat): Fields
  {
    if !Due(t, now) then t
    else if t.callback.Some? && !t.loop then Stopped(t)
    else t.(loopCount := Expected(t, now))
  }

  /** How long this timer lets the loop sleep. */
  function Remaining(t: Fields, now: nat): nat
  {
    if Due(t, now) then 0 else Period(t.interval) - Elapsed(t, now) % Period(t.interval)
  }

  // ----- one timer over many looks at the clock

  /** Wake-up times that the clock can give: none earlier than the one before. */
  predicate Clock(start: nat, times: seq<nat>)
  {
    (forall i :: 0 <= i < |times| ==> start <= times[i] && times[i] - start + ERROR_OFFSET < WORD)
    && forall i, j :: 0 <= i < j < |times| ==> times[i] <= times[j]
  }

  function TickedBy(t: Fields, times: seq<nat>): Fields
  {
    if times == [] then t else Ticked(TickedBy(t, times[..|times| - 1]), times[|times| - 1])
  }

  /** All firings queued over the wake-ups. */
  function Firings(t: Fields, times: seq<nat>): nat
  {
    if times == [] then 0
    else Firings(t, times[..|times| - 1]) + Fired(TickedBy(t, times[..|times| - 1]), times[|times| - 1])
  }

  lemma {:induction false} DivisionGrows(a: nat, b: nat, p: nat)
    requires a <= b && p > 0
    ensures a / p <= b / p
  {
    var q, r := a / p, b / p;
    assert q > r ==> p * q >= p * (r + 1);
  }

  lemma {:induction false} ExpectedUnwrapped(t: Fields, now: nat)
    requires t.start <= now && now - t.start + ERROR_OFFSET < WORD
    ensures Expected(t, now) == (now - t.start + ERROR_OFFSET) / Period(t.interval)
  {
  }

  lemma {:induction false} ExpectedGrows(t: Fields, now: nat, later: nat)
    requires t.start <= now <= later && later - t.start + ERROR_OFFSET < WORD
    ensures Expected(t, now) <= Expected(t, later)
  {
    ExpectedUnwrapped(t, now);
    ExpectedUnwrapped(t, later);
    DivisionGrows(now - t.start + ERROR_OFFSET, later - t.start + ERROR_OFFSET, Period(t.interval));
  }

  /** A timer that has just been started, for the runs that follow. */
  predicate Fresh(t: Fields) { Active(t) && t.loopCount == 0 && t.callback.Some? }

  /** The units: a millisecond is a million nanoseconds, and no interval a tenth of one. */
  lemma {:induction false} Units(interval: nat)
    ensures Period(interval) == if interval == 0 then 100_000 else interval * 1_000_000
    ensures ERROR_OFFSET == 1_000_000 && WORD == 0x1_0000_0000 * 0x1_0000_0000
  {
  }

  /** Starting a timer that has a function makes it fresh from that time on; stopping it
      leaves nothing to fire. */
  lemma {:induction false} StartedIsFresh(t: Fields, callback: Option<int>, now: nat, later: nat)
    requires now > 0 && (callback.Some? || t.callback.Some?)
    ensures var u := Started(t, callback, now);
            && Fresh(u) && u.start == now && u.interval == t.interval && u.loop == t.loop
            && u.callback == if callback.Some? then callback else t.callback
    ensures !Active(Stopped(t)) && Fired(Stopped(t), later) == 0 && Ticked(Stopped(t), later) == Stopped(t)
    ensures Stopped(t).callback == t.callback && Stopped(t).interval == t.interval
  {
  }

  /** A timer without a function queues nothing and stays active, its count brought up to date. */
  lemma {:induction false} WithoutFunction(t: Fields, now: nat)
    requires Active(t) && t.callback.None?
    ensures Fired(t, now) == 0 && Active(Ticked(t, now))
    ensures Ticked(t, now) == if Expected(t, now) > t.loopCount then t.(loopCount := Expected(t, now)) else t
  {
  }

  /** No firing of a looping timer is lost, doubled or drifts: after a wake-up at T, exactly
      (T - start + 1 ms) / interval have been queued, however the wake-ups fell. */
  lemma {:induction false} LoopingCount(t: Fields, times: seq<nat>)
    requires Fresh(t) && t.loop && Clock(t.start, times) && times != []
    ensures Firings(t, times) == (times[|times| - 1] - t.start + ERROR_OFFSET) / Period(t.interval)
    ensures TickedBy(t, times) == t.(loopCount := Firings(t, times))
  {
    hide Period, Expected;
    var init, now := times[..|times| - 1], times[|times| - 1];
    ExpectedUnwrapped(t, now);
    var u := TickedBy(t, init);
    if init != [] {
      LoopingCount(t, init);
      ExpectedUnwrapped(t, init[|init| - 1]);
      ExpectedGrows(t, init[|init| - 1], now);
    }
    SameExpected(t, u, now);
  }

  lemma {:induction false} SameExpected(t: Fields, u: Fields, now: nat)
    requires u.start == t.start && u.interval == t.interval
    ensures Expected(u, now) == Expected(t, now)
  {
  }

  /** A one-shot timer fires once, at the first wake-up that is no more than a millisecond
      early, and is stopped by it. */
  lemma {:induction false} OneShot(t: Fields, times: seq<nat>)
    requires Fresh(t) && !t.loop && Clock(t.start, times)
    ensures var due := exists i :: 0 <= i < |times| && times[i] - t.start + ERROR_OFFSET >= Period(t.interval);
            && Firings(t, times) == (if due then 1 else 0)
            && TickedBy(t, times) == (if due then Stopped(t) else t)
  {
    hide Period, Expected;
    if times != [] {
      var init, now := times[..|times| - 1], times[|times| - 1];
      OneShot(t, init);
      ExpectedUnwrapped(t, now);
      PositiveQuotient(now - t.start + ERROR_OFFSET, Period(t.interval));
      assert times == init + [now];
    }
  }

  lemma {:induction false} PositiveQuotient(a: nat, p: nat)
    requires p > 0
    ensures a / p > 0 <==> a >= p
  {
    assert a >= p ==> a / p * p + p > p;
  }

  /** Firings are never early by more than the millisecond, exactly if the clock was read no
      more than a millisecond before the timer was started: past that the subtraction wraps. */
  lemma {:induction false} NeverEarly(t: Fields, now: nat)
    requires now - t.start + ERROR_OFFSET < WORD && t.start <= WORD
    ensures Expected(t, now) * Period(t.interval) <= now - t.start + ERROR_OFFSET <==> t.start <= now + ERROR_OFFSET
  {
    var a, p := (now - t.start + ERROR_OFFSET) % WORD, Period(t.interval);
    assert a / p * p <= a;
    assert Expected(t, now) * p >= 0;
  }

  /** The loop may sleep as long as the timer says without passing its next nominal deadline. */
  lemma {:induction false} RemainingBound(t: Fields, now: nat)
    requires Active(t) && now - t.start + ERROR_OFFSET < WORD
    ensures var u := Ticked(t, now);
            Active(u) ==> now + Remaining(t, now) <= u.start + (u.loopCount + 1) * Period(u.interval)
  {
    if t.start <= now {
      PassedBound(t, now);
    } else {
      AheadBound(t, now);
    }
  }

  /** A timer that is not due lets the loop sleep until exactly one of its nominal deadlines,
      and no further than its next one after the clock. */
  lemma {:induction false} SleepsToDeadline(t: Fields, now: nat) returns (m: nat)
    requires Active(t) && !Due(t, now) && t.start <= now && now - t.start < WORD
    ensures now + Remaining(t, now) == t.start + m * Period(t.interval)
    ensures now < now + Remaining(t, now) <= now + Period(t.interval)
  {
    var e, p := now - t.start, Period(t.interval);
    Quotient(e, p);
    m := e / p + 1;
  }

  lemma {:induction false} PassedBound(t: Fields, now: nat)
    requires Active(t) && t.start <= now && now - t.start + ERROR_OFFSET < WORD
    ensures var u := Ticked(t, now);
            Active(u) ==> now + Remaining(t, now) <= u.start + (u.loopCount + 1) * Period(u.interval)
  {
    var e, p := now - t.start, Period(t.interval);
    ExpectedUnwrapped(t, now);
    Quotient(e + ERROR_OFFSET, p);
    Quotient(e, p);
    DivisionGrows(e, e + ERROR_OFFSET, p);
    if !Due(t, now) {
      Times(e / p + 1, t.loopCount + 1, p);
    }
  }

  /** A timer started after the clock was read: one interval is no further than its first
      deadline, whatever the wrapped-around age is. */
  lemma {:induction false} AheadBound(t: Fields, now: nat)
    requires t.start > now
    ensures var u := Ticked(t, now);
            Active(u) ==> now + Remaining(t, now) <= u.start + (u.loopCount + 1) * Period(u.interval)
  {
    var u, p := Ticked(t, now), Period(t.interval);
    Quotient(Elapsed(t, now), p);
    Times(1, u.loopCount + 1, p);
  }

  lemma {:induction false} Quotient(a: nat, p: nat)
    requires p > 0
    ensures a == a / p * p + a % p && a % p < p && (a / p + 1) * p == a - a % p + p
  {
  }

  lemma {:induction false} Times(a: nat, b: nat, p: nat)
    requires a <= b
    ensures a * p <= b * p
  {
  }
}
