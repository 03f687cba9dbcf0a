/** The queue's loop as a machine: one thread runs it while any threads post events and ask
    it to quit, between any two of its steps. */
module EventLoop {
  import opened Queue

  /** Where the loop's thread is. `last` marks the processEvent after the loop. */
  datatype Phase =
    | Ready
    | Refused                          // had been told to quit before it started
    | Head                             // about to test the loop's condition
    | Functions(last: bool)            // processEvent: the timer functions
    | Calling(last: bool)              // one of them runs, still at the queue's front
    | Events(last: bool)               // processEvent: the events
    | Dispatching(event: Event, last: bool)
    | Check                            // the test between processEvent and the sleep
    | Planning                         // processNextSleepTime
    | Sleeping
    | Ended                            // end() has been called

  /** `posted`, `dispatched`, `scheduled` and `called` are histories; `atQuit` is how many
      events had been posted when quit was first asked for. A post to a full queue ends the
      program: `terminated`. */
  datatype Loop = Loop(
    phase: Phase, eventQueue: seq<Event>, timerFunctions: seq<int>, quitFlag: bool, terminated: bool,
    posted: seq<Event>, dispatched: seq<Event>, scheduled: seq<int>, called: seq<int>, atQuit: nat)

  datatype Move =
    | Post(event: Event)
    | AskToQuit
    | Go(firings: seq<int>)   // the loop's own step; `firings` is what planning queues

  function Initial(): Loop { Loop(Ready, [], [], false, false, [], [], [], [], 0) }

  function AfterEvents(s: Loop, last: bool): Loop
  {
    if s.eventQueue != [] then
      s.(phase := Dispatching(s.eventQueue[0], last), eventQueue := s.eventQueue[1..])
    else s.(phase := if last then Ended else Check)
  }

  /** One step of the loop's thread. */
  function Turn(s: Loop, firings: seq<int>): Loop
  {
    match s.phase
    case Ready => s.(phase := if s.quitFlag then Refused else Head)
    case Refused => s
    case Head => s.(phase := Functions(s.quitFlag))
    case Functions(last) => s.(phase := if s.timerFunctions != [] then Calling(last) else Events(last))
    case Calling(last) =>
      if s.timerFunctions == [] then s
      else
        s.(phase := Functions(last), called := s.called + [s.timerFunctions[0]],
           timerFunctions := s.timerFunctions[1..])
    case Events(last) => AfterEvents(s, last)
    case Dispatching(event, last) => s.(phase := Events(last), dispatched := s.dispatched + [event])
    case Check => s.(phase := if s.quitFlag then Functions(true) else Planning)
    case Planning =>
      s.(phase := Sleeping, timerFunctions := s.timerFunctions + firings, scheduled := s.scheduled + firings)
    case Sleeping => s.(phase := Head)
    case Ended => s
  }

  function Next(s: Loop, m: Move): Loop
  {
    if s.terminated then s
    else
      match m
      case Post(event) =>
        if |s.eventQueue| > QUEUE_MAX_NUM then s.(terminated := true)
        else s.(eventQueue := s.eventQueue + [event], posted := s.posted + [event])
      case AskToQuit => if s.quitFlag then s else s.(quitFlag := true, atQuit := |s.posted|)
      case Go(firings) => Turn(s, firings)
  }

  function After(moves: seq<Move>): Loop
  {
    if moves == [] then Initial() else Next(After(moves[..|moves| - 1]), moves[|moves| - 1])
  }

  function InFlight(s: Loop): seq<Event> { if s.phase.Dispatching? then [s.phase.event] else [] }

  predicate Last(p: Phase) { (p.Functions? || p.Calling? || p.Events? || p.Dispatching?) && p.last }

  predicate Inv(s: Loop)
  {
    && s.posted == s.dispatched + InFlight(s) + s.eventQueue
    && s.scheduled == s.called + s.timerFunctions
    && (Last(s.phase) || s.phase.Ended? ==> s.quitFlag)
    && (s.quitFlag ==> s.atQuit <= |s.posted|)
    && (s.phase.Ended? ==> s.atQuit <= |s.dispatched| && s.timerFunctions == [])
    && (s.phase.Calling? ==> s.timerFunctions != [])
    && ((s.phase.Events? || s.phase.Dispatching? || s.phase.Check? || s.phase.Planning?) ==> s.timerFunctions == [])
  }

  lemma {:induction false} TurnKeeps(s: Loop, firings: seq<int>)
    requires Inv(s)
    ensures Inv(Turn(s, firings))
  {
    hide AfterEvents;
    match s.phase {
      case Calling(last) => HeadMoves(s.called, s.timerFunctions);
      case Events(last) => EventsKeep(s, last);
      case Dispatching(event, last) => assert s.dispatched + [event] + s.eventQueue == s.posted;
      case Planning => assert s.scheduled + firings == s.called + (s.timerFunctions + firings);
      case _ =>
    }
  }

  lemma {:induction false} HeadMoves(a: seq<int>, b: seq<int>)
    ensures b != [] ==> a + b == a + [b[0]] + b[1..]
  {
  }

  lemma {:induction false} EventsKeep(s: Loop, last: bool)
    requires Inv(s) && s.phase == Events(last)
    ensures Inv(AfterEvents(s, last))
  {
    if s.eventQueue != [] {
      assert s.dispatched + [] + s.eventQueue == s.dispatched + [s.eventQueue[0]] + s.eventQueue[1..];
    }
  }

  lemma {:induction false} RunKeeps(moves: seq<Move>)
    ensures Inv(After(moves))
  {
    hide Inv;
    if moves == [] {
      InitialFine();
    } else {
      var init, m := moves[..|moves| - 1], moves[|moves| - 1];
      RunKeeps(init);
      match m {
        case Go(firings) => TurnKeeps(After(init), firings);
        case _ => OthersKeep(After(init), m);
      }
    }
  }

  lemma {:induction false} InitialFine()
    ensures Inv(Initial())
  {
  }

  lemma {:induction false} OthersKeep(s: Loop, m: Move)
    requires Inv(s) && !m.Go?
    ensures Inv(Next(s, m))
  {
    var t := Next(s, m);
    if m.Post? {
      var gone := s.dispatched + InFlight(s);
      assert gone + s.eventQueue + [m.event] == gone + (s.eventQueue + [m.event]);
    }
  }

  /** Conservation, at every point of every run: what has been dispatched, what is being
      dispatched and what is queued are the posted events, in order; and likewise for the
      timer functions. */
  lemma {:induction false} NothingLost(moves: seq<Move>)
    ensures var s := After(moves);
            s.posted == s.dispatched + InFlight(s) + s.eventQueue && s.scheduled == s.called + s.timerFunctions
  {
    RunKeeps(moves);
  }

  /** By the time end() is called, every event posted before quit has been dispatched, in
      order and before any other, and every timer function that fell due has been called. */
  lemma {:induction false} DispatchedBeforeEnd(moves: seq<Move>, n: nat)
    requires n <= |moves| && !After(moves[..n]).quitFlag && After(moves).phase.Ended?
    ensures After(moves[..n]).posted <= After(moves).dispatched && After(moves).called == After(moves).scheduled
  {
    hide Next;
    RunKeeps(moves);
    PostedGrows(moves, n);
    var s, t := After(moves[..n]), After(moves);
    assert t.posted[..|t.dispatched|] == t.dispatched;
  }

  lemma {:induction false} PostedGrows(moves: seq<Move>, n: nat)
    requires n <= |moves| && !After(moves[..n]).quitFlag
    ensures After(moves[..n]).posted <= After(moves).posted
    ensures After(moves).quitFlag ==> |After(moves[..n]).posted| <= After(moves).atQuit
    decreases |moves|
  {
    hide Turn;
    if n < |moves| {
      var init := moves[..|moves| - 1];
      assert init[..n] == moves[..n];
      PostedGrows(init, n);
      TurnLeavesPosts(After(init), moves[|moves| - 1]);
    } else {
      assert moves[..n] == moves;
    }
  }

  lemma {:induction false} TurnLeavesPosts(s: Loop, m: Move)
    ensures m.Go? ==> var t := Turn(s, m.firings);
                      t.posted == s.posted && t.quitFlag == s.quitFlag && t.atQuit == s.atQuit
  {
  }

  // ----- the way to the end

  predicate Running(p: Phase) { !p.Ready? && !p.Refused? && !p.Planning? }

  /** How many turns are left until end(), once quit is asked for and nobody posts. */
  function TurnsLeft(s: Loop): nat
    requires Running(s.phase)
  {
    var f, e := 2 * |s.timerFunctions|, 2 * |s.eventQueue|;
    match s.phase
    case Head => f + e + 3
    case Functions(last) => f + e + (if last then 2 else 5)
    case Calling(last) => f + e + (if last then 1 else 4)
    case Events(last) => e + (if last then 1 else 4)
    case Dispatching(_, last) => e + (if last then 2 else 5)
    case Check => e + 3
    case Sleeping => f + e + 4
    case Ended => 0
  }

  function Turns(s: Loop, n: nat): Loop
    decreases n
  {
    if n == 0 then s else Turns(Turn(s, []), n - 1)
  }

  lemma {:induction false} OneTurnLess(s: Loop)
    requires Inv(s) && s.quitFlag && Running(s.phase) && !s.phase.Ended?
    ensures Running(Turn(s, []).phase) && TurnsLeft(Turn(s, [])) == TurnsLeft(s) - 1
  {
  }

  /** Asked to quit and left alone, the loop comes to its end in exactly that many turns. */
  lemma {:induction false} QuitEnds(s: Loop)
    requires Inv(s) && s.quitFlag && Running(s.phase)
    ensures Turns(s, TurnsLeft(s)).phase.Ended?
    decreases TurnsLeft(s)
  {
    hide Turn, Inv;
    if !s.phase.Ended? {
      OneTurnLess(s);
      TurnKeeps(s, []);
      TurnLeavesPosts(s, Go([]));
      QuitEnds(Turn(s, []));
    }
  }

  // ----- the edges

  /** A post goes to the end of the queue; past 4096 queued events it ends the program. */
  lemma {:induction false} PostMeaning(s: Loop, event: Event)
    requires !s.terminated
    ensures Next(s, Post(event)).terminated <==> |s.eventQueue| > 4096
    ensures |s.eventQueue| <= 4096 ==> Next(s, Post(event)).eventQueue == s.eventQueue + [event]
    ensures Next(s, Post(event)).terminated ==> Next(s, Post(event)).eventQueue == s.eventQueue
  {
  }

  /** A loop that is asked to quit before it starts never runs: nothing is dispatched or called. */
  lemma {:induction false} NeverStarted(moves: seq<Move>, n: nat)
    requires n < |moves| && moves[n] == AskToQuit && forall k :: 0 <= k < n ==> !moves[k].Go?
    ensures var s := After(moves);
      && s.dispatched == [] && s.called == [] && (s.phase.Ready? || s.phase.Refused?)
      && (s.quitFlag || s.terminated)
    decreases |moves|
  {
    hide Turn;
    var init, m := moves[..|moves| - 1], moves[|moves| - 1];
    if n < |init| {
      NeverStarted(init, n);
      if !After(init).terminated { RefusedStays(After(init), m); }
    } else {
      NotYetStarted(init);
    }
  }

  lemma {:induction false} RefusedStays(s: Loop, m: Move)
    requires s.phase.Refused? || (s.phase.Ready? && s.quitFlag)
    ensures m.Go? ==> Turn(s, m.firings) == s.(phase := Refused)
  {
  }

  lemma {:induction false} NotYetStarted(moves: seq<Move>)
    requires forall k :: 0 <= k < |moves| ==> !moves[k].Go?
    ensures var s := After(moves); s.phase.Ready? && s.dispatched == [] && s.called == []
  {
    if moves != [] { NotYetStarted(moves[..|moves| - 1]); }
  }
}
