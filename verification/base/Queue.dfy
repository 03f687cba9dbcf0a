/** The queue's data: posted events, timers, and the timer functions whose turn has come. */
module Queue {
  import opened Options
  import T = Timer

  /** Posting past this many queued events ends the program. */
  const QUEUE_MAX_NUM := 4096

  datatype Event = Event(queueId: int, id: int)

  // ----- one pass of the scheduler over the timers, as values

  function Repeat(f: int, n: nat): (r: seq<int>)
    ensures |r| == n && forall k :: 0 <= k < n ==> r[k] == f
  {
    seq(n, i => f)
  }

  function Queued(t: T.Fields, now: nat): seq<int>
  {
    if t.callback.None? then [] else Repeat(t.callback.value, T.Fired(t, now))
  }

  /** What the pass appends to the timer functions. */
  function AllQueued(ts: seq<T.Fields>, now: nat): seq<int>
  {
    if ts == [] then [] else AllQueued(ts[..|ts| - 1], now) + Queued(ts[|ts| - 1], now)
  }

  function AllTicked(ts: seq<T.Fields>, now: nat): (r: seq<T.Fields>)
    ensures |r| == |ts| && forall k :: 0 <= k < |ts| ==> r[k] == T.Ticked(ts[k], now)
  {
    seq(|ts|, i requires 0 <= i < |ts| => T.Ticked(ts[i], now))
  }

  /** The sleep is the least the active timers allow, and -1 if there is none. */
  predicate IsSleep(ts: seq<T.Fields>, now: nat, sleep: int)
  {
    if exists k :: 0 <= k < |ts| && T.Active(ts[k]) then
      && (exists k :: 0 <= k < |ts| && T.Active(ts[k]) && sleep == T.Remaining(ts[k], now))
      && (forall k :: 0 <= k < |ts| && T.Active(ts[k]) ==> sleep <= T.Remaining(ts[k], now))
    else sleep == -1
  }

  lemma {:induction false} SleepStep(ts: seq<T.Fields>, t: T.Fields, now: nat, sleep: int)
    requires IsSleep(ts, now, sleep)
    ensures IsSleep(ts + [t], now, if !T.Active(t) then sleep
                                   else if sleep < 0 || T.Remaining(t, now) < sleep then T.Remaining(t, now)
                                   else sleep)
  {
    hide T.Remaining, T.Active;
    var us := ts + [t];
    assert us[|ts|] == t;
    if k :| 0 <= k < |ts| && T.Active(ts[k]) && sleep == T.Remaining(ts[k], now) { assert us[k] == ts[k]; }
    assert forall k :: 0 <= k < |us| ==> us[k] == if k < |ts| then ts[k] else t;
  }

  lemma {:induction false} NoTimers(now: nat)
    ensures IsSleep([], now, -1) && AllQueued([], now) == []
  {
  }

  lemma {:induction false} QueuedStep(ts: seq<T.Fields>, i: nat, now: nat)
    requires i < |ts|
    ensures ts[..i + 1] == ts[..i] + [ts[i]]
    ensures AllQueued(ts[..i + 1], now) == AllQueued(ts[..i], now) + Queued(ts[i], now)
  {
    hide Queued;
    assert ts[..i + 1][..i] == ts[..i];
  }

  lemma {:induction false} InactiveRests(t: T.Fields, now: nat)
    requires !T.Active(t)
    ensures T.Ticked(t, now) == t && Queued(t, now) == []
  {
  }

  class Queue {
    const queueId: int
    var eventQueue: seq<Event>
    var timerFunctionQueue: seq<int>
    var timerList: seq<T.Timer>
    var miniTime: int
    var quitFlag: bool
    var quitCode: int

    /** No timer is in the list twice. */
    ghost predicate Valid()
      reads this
    {
      forall i, j :: 0 <= i < j < |timerList| ==> timerList[i] != timerList[j]
    }

    ghost function Fields(): (ts: seq<T.Fields>)
      reads this, timerList
      ensures |ts| == |timerList|
    {
      seq(|timerList|, i requires 0 <= i < |timerList| reads this, timerList => timerList[i].State())
    }

    constructor (queueId: int)
      ensures this.queueId == queueId && Valid() && timerList == [] && timerFunctionQueue == []
      ensures eventQueue == [] && !quitFlag && quitCode == 0
    {
      this.queueId := queueId;
      eventQueue, timerFunctionQueue, timerList := [], [], [];
      miniTime, quitFlag, quitCode := 0, false, 0;
    }

    method AddTimer(timer: T.Timer)
      requires Valid() && timer !in timerList
      modifies this`timerList
      ensures Valid() && timerList == old(timerList) + [timer]
    {
      timerList := timerList + [timer];
    }

    /** The part of postEvent under the lock. Past the limit the program terminates. */
    method PostEvent(event: Event) returns (terminates: bool)
      modifies this`eventQueue
      ensures terminates <==> event.queueId >= 0 && event.queueId == queueId && |old(eventQueue)| > 4096
      ensures eventQueue == if event.queueId >= 0 && event.queueId == queueId && !terminates
                            then old(eventQueue) + [event] else old(eventQueue)
    {
      if event.queueId < 0 {
        return false;
      } else {
        if event.queueId != queueId {
          return false;
        }
      }
      if |eventQueue| > QUEUE_MAX_NUM {
        return true;
      }
      eventQueue := eventQueue + [event];
      return false;
    }

    /** The part of processEvent's event loop under the lock. */
    method TakeEvent() returns (event: Option<Event>)
      modifies this`eventQueue
      ensures event == None ==> old(eventQueue) == [] && eventQueue == []
      ensures event.Some? ==> old(eventQueue) == [event.value] + eventQueue
    {
      if eventQueue == [] {
        return None;
      }
      event := Some(eventQueue[0]);
      eventQueue := eventQueue[1..];
    }

    method Quit(code: int)
      modifies this`quitFlag, this`quitCode
      ensures quitFlag && quitCode == if old(quitFlag) then old(quitCode) else code
    {
      if quitFlag {
        return;
      }
      quitFlag := true;
      quitCode := code;
    }

    /** One timer's turn: its firings are queued and its count is brought up to date.
        `remaining` is how long it lets the loop sleep. */
    method Tick(timer: T.Timer, now: nat) returns (remaining: nat)
      requires timer.IsActive()
      modifies this`timerFunctionQueue, timer
      ensures timer.State() == T.Ticked(old(timer.State()), now)
      ensures timerFunctionQueue == old(timerFunctionQueue) + Queued(old(timer.State()), now)
      ensures remaining == T.Remaining(old(timer.State()), now)
    {
      ghost var t, was := timer.State(), timerFunctionQueue;
      var intervalTime := timer.interval * 1000000;
      if intervalTime <= 0 {
        intervalTime := 100000;
      }
      assert intervalTime == T.Period(timer.interval);
      hide T.Period;
      var expectCount := (now - timer.startTimer + T.ERROR_OFFSET) % T.WORD / intervalTime;
      if expectCount > timer.loopCount {
        if timer.callback.Some? {
          Fire(timer, expectCount - timer.loopCount);
        }
        if timer.IsActive() {
          timer.loopCount := expectCount;
        }
        remaining := 0;
        assert timerFunctionQueue == was + Queued(t, now);
      } else {
        remaining := intervalTime - (now - timer.startTimer) % T.WORD % intervalTime;
        assert timerFunctionQueue == was + Queued(t, now);
      }
    }

    /** The loop that queues the missed firings; a one-shot timer is stopped by its first. */
    method Fire(timer: T.Timer, missed: nat)
      requires timer.IsActive() && timer.callback.Some? && missed > 0
      modifies this`timerFunctionQueue, timer
      ensures timer.State() == if old(timer.loop) then old(timer.State()) else T.Stopped(old(timer.State()))
      ensures timerFunctionQueue == old(timerFunctionQueue) +
                                    Repeat(old(timer.callback).value, if old(timer.loop) then missed else 1)
    {
      var offset_i := 0;
      while offset_i < missed
        invariant offset_i <= missed && timer.State() == old(timer.State())
        invariant offset_i > 0 ==> timer.loop
        invariant timerFunctionQueue == old(timerFunctionQueue) + Repeat(old(timer.callback).value, offset_i)
      {
        timerFunctionQueue := timerFunctionQueue + [timer.callback.value];
        if !timer.loop {
          timer.Stop();
          break;
        }
        offset_i := offset_i + 1;
      }
    }

    method ProcessNextSleepTime(now: nat)
      requires Valid()
      modifies this`timerFunctionQueue, this`miniTime, timerList
      ensures Fields() == AllTicked(old(Fields()), now)
      ensures timerFunctionQueue == old(timerFunctionQueue) + AllQueued(old(Fields()), now)
      ensures IsSleep(old(Fields()), now, miniTime)
    {
      hide T.Ticked, T.Fired, T.Remaining, Queued, IsSleep, AllQueued, T.Active;
      NoTimers(now);
      ghost var ts := Fields();
      miniTime := -1;
      for i := 0 to |timerList|
        invariant forall k :: 0 <= k < i ==> timerList[k].State() == T.Ticked(ts[k], now)
        invariant forall k :: i <= k < |timerList| ==> timerList[k].State() == ts[k]
        invariant timerFunctionQueue == old(timerFunctionQueue) + AllQueued(ts[..i], now)
        invariant IsSleep(ts[..i], now, miniTime)
      {
        var timer := timerList[i];
        QueuedStep(ts, i, now);
        SleepStep(ts[..i], ts[i], now, miniTime);
        if timer.IsActive() {
          var remaining := Tick(timer, now);
          if miniTime < 0 || remaining < miniTime {
            miniTime := remaining;
          }
        } else {
          InactiveRests(ts[i], now);
        }
      }
      assert ts[..|ts|] == ts;
    }
  }

  // ----- what the passes amount to

  /** A nominal deadline of a timer: a whole number of intervals after its start. */
  ghost predicate Deadline(t: T.Fields, time: nat)
  {
    exists m: nat :: time == Nominal(t, m)
  }

  function Nominal(t: T.Fields, m: nat): nat { t.start + m * T.Period(t.interval) }

  /** -1 means that no timer was active; any other sleep ends before the next nominal
      deadline of every timer that is still active. A positive sleep is no shorter than it
      must be: it ends exactly at a nominal deadline of some active timer, or, for a timer
      started after the clock was read, within its first interval. */
  lemma {:induction false} SleepBound(ts: seq<T.Fields>, now: nat, sleep: int)
    requires IsSleep(ts, now, sleep)
    requires forall k :: 0 <= k < |ts| && T.Active(ts[k]) ==> now - ts[k].start + T.ERROR_OFFSET < T.WORD
    ensures sleep == -1 <==> forall k :: 0 <= k < |ts| ==> !T.Active(ts[k])
    ensures forall k :: 0 <= k < |ts| && T.Active(T.Ticked(ts[k], now)) ==>
              var u := T.Ticked(ts[k], now);
              0 <= sleep && now + sleep <= u.start + (u.loopCount + 1) * T.Period(u.interval)
    ensures sleep > 0 ==> exists k :: 0 <= k < |ts| && T.Active(ts[k]) && EndsAt(ts[k], now, sleep)
    ensures (exists k :: 0 <= k < |ts| && T.Due(ts[k], now)) ==> sleep == 0
  {
    hide T.Remaining, T.Period, T.Due, EndsAt;
    forall k | 0 <= k < |ts| && T.Active(T.Ticked(ts[k], now))
      ensures var u := T.Ticked(ts[k], now);
              0 <= sleep && now + sleep <= u.start + (u.loopCount + 1) * T.Period(u.interval)
    {
      T.RemainingBound(ts[k], now);
      StillActive(ts[k], now);
    }
    forall k | 0 <= k < |ts| && T.Due(ts[k], now) ensures sleep == 0 {
      DueNow(ts[k], now);
    }
    if sleep > 0 {
      var k :| 0 <= k < |ts| && T.Active(ts[k]) && sleep == T.Remaining(ts[k], now);
      Attained(ts[k], now);
    }
  }

  ghost predicate EndsAt(t: T.Fields, now: nat, sleep: int)
  {
    sleep > 0 && if t.start <= now then Deadline(t, now + sleep) else sleep <= T.Period(t.interval)
  }

  lemma {:induction false} StillActive(t: T.Fields, now: nat)
    requires T.Active(T.Ticked(t, now))
    ensures T.Active(t)
  {
  }

  lemma {:induction false} DueNow(t: T.Fields, now: nat)
    requires T.Due(t, now)
    ensures T.Active(t) && T.Remaining(t, now) == 0
  {
  }

  lemma {:induction false} Attained(t: T.Fields, now: nat)
    requires T.Active(t) && now - t.start + T.ERROR_OFFSET < T.WORD && T.Remaining(t, now) > 0
    ensures EndsAt(t, now, T.Remaining(t, now))
  {
    hide T.Period;
    if t.start <= now {
      var m := T.SleepsToDeadline(t, now);
      assert now + T.Remaining(t, now) == Nominal(t, m);
    }
  }

  /** The passes' firings are in the order of the timers, each timer's own together. */
  lemma {:induction false} QueuedInOrder(ts: seq<T.Fields>, us: seq<T.Fields>, now: nat)
    ensures AllQueued(ts + us, now) == AllQueued(ts, now) + AllQueued(us, now)
    ensures forall t: T.Fields :: AllQueued([t], now) == Queued(t, now)
    ensures forall t: T.Fields :: t.callback.Some? ==>
              |Queued(t, now)| == T.Fired(t, now)
              && forall k :: 0 <= k < |Queued(t, now)| ==> Queued(t, now)[k] == t.callback.value
  {
    hide T.Fired;
    forall t: T.Fields ensures AllQueued([t], now) == Queued(t, now) {
      assert [t][..0] == [];
    }
    if us == [] {
      assert ts + us == ts;
    } else {
      assert (ts + us)[..|ts + us| - 1] == ts + us[..|us| - 1];
      QueuedInOrder(ts, us[..|us| - 1], now);
    }
  }

  /** Over the wake-ups at `times`: the timers' fields, and all that was queued. */
  function TickedOver(ts: seq<T.Fields>, times: seq<nat>): (r: seq<T.Fields>)
    ensures |r| == |ts|
  {
    if times == [] then ts else AllTicked(TickedOver(ts, times[..|times| - 1]), times[|times| - 1])
  }

  function QueuedOver(ts: seq<T.Fields>, times: seq<nat>): seq<int>
  {
    if times == [] then []
    else
      var init := times[..|times| - 1];
      QueuedOver(ts, init) + AllQueued(TickedOver(ts, init), times[|times| - 1])
  }

  /** Every timer with a function has a function of its own. */
  predicate OwnFunctions(ts: seq<T.Fields>)
  {
    forall i, j :: 0 <= i < j < |ts| && ts[i].callback.Some? ==> ts[i].callback != ts[j].callback
  }

  lemma {:induction false} QueuedCount(ts: seq<T.Fields>, now: nat, k: nat)
    requires OwnFunctions(ts) && k < |ts| && ts[k].callback.Some?
    ensures multiset(AllQueued(ts, now))[ts[k].callback.value] == T.Fired(ts[k], now)
  {
    hide T.Fired;
    var init, last, f := ts[..|ts| - 1], ts[|ts| - 1], ts[k].callback.value;
    if k < |ts| - 1 {
      QueuedCount(init, now, k);
      NotQueued(last, now, f);
    } else {
      NeverQueued(init, now, f);
      RepeatCount(f, T.Fired(last, now));
    }
  }

  lemma {:induction false} RepeatCount(f: int, n: nat)
    ensures multiset(Repeat(f, n))[f] == n
  {
    if n > 0 {
      RepeatCount(f, n - 1);
      assert Repeat(f, n) == Repeat(f, n - 1) + [f];
    }
  }

  lemma {:induction false} NotQueued(t: T.Fields, now: nat, f: int)
    requires t.callback != Some(f)
    ensures multiset(Queued(t, now))[f] == 0
  {
    hide T.Fired;
    assert f !in Queued(t, now);
  }

  lemma {:induction false} NeverQueued(ts: seq<T.Fields>, now: nat, f: int)
    requires forall k :: 0 <= k < |ts| ==> ts[k].callback != Some(f)
    ensures multiset(AllQueued(ts, now))[f] == 0
  {
    hide Queued;
    if ts != [] {
      NeverQueued(ts[..|ts| - 1], now, f);
      NotQueued(ts[|ts| - 1], now, f);
    }
  }

  lemma {:induction false} TickedOverEach(ts: seq<T.Fields>, times: seq<nat>, k: nat)
    requires k < |ts|
    ensures TickedOver(ts, times)[k] == T.TickedBy(ts[k], times)
  {
    if times != [] { TickedOverEach(ts, times[..|times| - 1], k); }
  }

  lemma {:induction false} CallbacksStay(t: T.Fields, times: seq<nat>)
    ensures T.TickedBy(t, times).callback == t.callback
  {
    if times != [] { CallbacksStay(t, times[..|times| - 1]); }
  }

  lemma {:induction false} OwnFunctionsStay(ts: seq<T.Fields>, times: seq<nat>)
    requires OwnFunctions(ts)
    ensures OwnFunctions(TickedOver(ts, times))
  {
    hide TickedOver, T.TickedBy;
    forall k | 0 <= k < |ts| ensures TickedOver(ts, times)[k].callback == ts[k].callback {
      TickedOverEach(ts, times, k);
      CallbacksStay(ts[k], times);
    }
  }

  /** In the queue, among any other timers, each timer's function turns up as often as that
      timer alone would have it. */
  lemma {:induction false} QueuedOverCount(ts: seq<T.Fields>, times: seq<nat>, k: nat)
    requires OwnFunctions(ts) && k < |ts| && ts[k].callback.Some?
    ensures multiset(QueuedOver(ts, times))[ts[k].callback.value] == T.Firings(ts[k], times)
  {
    hide AllQueued, AllTicked, T.Fired, T.Ticked;
    if times != [] {
      var init, now := times[..|times| - 1], times[|times| - 1];
      QueuedOverCount(ts, init, k);
      var us := TickedOver(ts, init);
      OwnFunctionsStay(ts, init);
      TickedOverEach(ts, init, k);
      CallbacksStay(ts[k], init);
      QueuedCount(us, now, k);
    }
  }

  /** The queue's exact count: over any wake-ups, a looping timer's function has been queued
      (T - start + 1 ms) / interval times, in nanoseconds, whatever the other timers did. */
  lemma {:induction false} ExactCount(ts: seq<T.Fields>, times: seq<nat>, k: nat)
    requires OwnFunctions(ts) && k < |ts| && T.Fresh(ts[k]) && ts[k].loop
    requires T.Clock(ts[k].start, times) && times != []
    ensures multiset(QueuedOver(ts, times))[ts[k].callback.value] ==
            (times[|times| - 1] - ts[k].start + 1_000_000)
            / (if ts[k].interval == 0 then 100_000 else ts[k].interval * 1_000_000)
  {
    hide QueuedOver, OwnFunctions, T.Clock, T.Firings;
    QueuedOverCount(ts, times, k);
    T.LoopingCount(ts[k], times);
  }
}
