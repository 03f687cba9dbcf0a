/** The tick in plain terms: what its loop over the details finds is said by conditions on
    the details, and what follows by the state. */
module ServerTicks {
  import opened Domain
  import opened Options
  import opened Server
  import opened ServerEffects
  import R = ServerRuns

  // ----- one detail

  /** The detail as the tick sees it behind the heartbeat test. */
  function Seen(d: Detail, k: nat, clock: Clock): Detail
  {
    if d.domain.state != WrOffline && d.heartbeatActive && k in clock.heartbeatLost then
      d.(domain := d.domain.(last := d.domain.state, state := WrOffline))
    else d
  }

  predicate Bad(d: Detail) { d.domain.error != 0 || d.domain.state == WrError }

  predicate Reports(d: Detail) { d.domain.state != WrUnknown && d.domain.state != WrOffline && d.domain.version != "" }

  predicate Gathers(h: Helper) { h.state == MrPending || h.state == MrReady || h.state == MrDownloadAsk }

  predicate Awaits(h: Helper) { h.state == MrWait || h.state == MrDeployAsk }

  predicate Deploys(h: Helper)
  {
    h.state == MrDeploy || (h.state == MrCancel && h.lastState == MrDeploy)
  }

  predicate IsAt(d: Detail) { d.domain.version == d.package.version && d.package.version != "" }

  /** The error a detail ends the tick with, 0 for none. */
  function Fault(h: Helper, d: Detail, k: nat, clock: Clock): int
  {
    var s := Seen(d, k, clock);
    if d.package.domain == "" then 1917
    else if Gathers(h) && Reports(s) && !VersionValid(d.domain.version, d.package.version) then 1918
    else if h.state == MrCancel && IsAt(d) then 1919
    else if Deploys(h) && d.deployActive && k in clock.deployExpired then 1920
    else if Deploys(h) && d.deployActive && s.domain.state == WrOffline && d.heartbeatActive
            && k in clock.restartExpired then 1921
    else 0
  }

  predicate CountsValid(h: Helper, d: Detail, k: nat, clock: Clock) { Gathers(h) && Reports(Seen(d, k, clock)) }

  predicate CountsWait(h: Helper, d: Detail, k: nat, clock: Clock)
  {
    Awaits(h) && Seen(d, k, clock).domain.state == WrWait
  }

  predicate CountsCancel(h: Helper, d: Detail, k: nat, clock: Clock)
  {
    h.state == MrCancel && Seen(d, k, clock).domain.state == WrIdle && d.domain.last == WrCancel
  }

  function One(b: bool): nat { if b then 1 else 0 }

  /** One turn of the loop: the fault it finds, or what it adds to each counter; the other
      details and all but details, depends and output stay. */
  lemma {:induction false} TurnMeaning(c: Scan, k: nat, clock: Clock)
    requires k < |c.h.details| && c.stop == 0
    ensures var d, e := c.h.details[k], ScanOne(c, k, clock);
      && e.stop == Fault(c.h, d, k, clock)
      && (e.stop == 0 ==>
            && e.valid == c.valid + One(CountsValid(c.h, d, k, clock))
            && e.wait == c.wait + One(CountsWait(c.h, d, k, clock))
            && e.equal == c.equal + One(IsAt(d))
            && e.cancel == c.cancel + One(CountsCancel(c.h, d, k, clock))
            && e.errors == c.errors + One(Bad(d)))
  {
    hide ScanFirst, ScanRest, VersionValid;
    FirstMeaning(c, k, clock);
    if c.h.details[k].package.domain != "" { RestMeaning(c.h.details[k], ScanFirst(c, k, clock), k, clock); }
  }

  lemma {:induction false} FirstMeaning(c: Scan, k: nat, clock: Clock)
    requires k < |c.h.details|
    ensures var d, e := c.h.details[k], ScanFirst(c, k, clock);
      && e.h.details[k] == Seen(d, k, clock) && e.h.state == c.h.state && e.h.lastState == c.h.lastState
      && e.equal == c.equal + One(IsAt(d)) && e.errors == c.errors + One(Bad(d))
      && e.valid == c.valid && e.wait == c.wait && e.cancel == c.cancel && e.stop == c.stop
  {
  }

  lemma {:induction false} DeployPart(c: Scan, k: nat, clock: Clock)
    requires k < |c.h.details| && c.stop == 0
    ensures var s, e := c.h.details[k], ScanDeploy(c, k, clock);
      && e == c.(h := e.h, stop := e.stop)
      && e.stop == if s.deployActive && k in clock.deployExpired then 1920
                   else if s.deployActive && s.domain.state == WrOffline && s.heartbeatActive
                           && k in clock.restartExpired then 1921
                   else 0
  {
    hide HasDepends, Recompute, Finished, WithDetail;
  }

  lemma {:induction false} RestMeaning(d: Detail, c: Scan, k: nat, clock: Clock)
    requires k < |c.h.details| && c.stop == 0 && c.h.details[k] == Seen(d, k, clock) && d.package.domain != ""
    ensures var e := ScanRest(c, k, clock);
      && e.stop == Fault(c.h, d, k, clock)
      && (e.stop == 0 ==>
            && e.valid == c.valid + One(CountsValid(c.h, d, k, clock))
            && e.wait == c.wait + One(CountsWait(c.h, d, k, clock))
            && e.cancel == c.cancel + One(CountsCancel(c.h, d, k, clock))
            && e.equal == c.equal && e.errors == c.errors)
  {
    hide VersionValid, ScanDeploy, HasDepends;
    DeployPart(c, k, clock);
    if c.h.state == MrCancel { DeployPart(c.(cancel := c.cancel + 1), k, clock); }
  }

  // ----- the whole loop

  /** Nothing ends the loop. */
  predicate Faultless(h: Helper, clock: Clock)
  {
    forall k :: 0 <= k < |h.details| ==> Fault(h, h.details[k], k, clock) == 0
  }

  predicate Tallied(c: Scan, e: Scan, i: nat, n: nat, h: Helper, clock: Clock)
    requires i <= n == |h.details|
  {
    && e.valid <= c.valid + (n - i) && e.wait <= c.wait + (n - i) && e.equal <= c.equal + (n - i)
    && e.cancel <= c.cancel + (n - i) && c.errors <= e.errors
    && (e.valid == c.valid + (n - i) <==> forall k :: i <= k < n ==> CountsValid(h, h.details[k], k, clock))
    && (e.wait == c.wait + (n - i) <==> forall k :: i <= k < n ==> CountsWait(h, h.details[k], k, clock))
    && (e.equal == c.equal + (n - i) <==> forall k :: i <= k < n ==> IsAt(h.details[k]))
    && (e.cancel == c.cancel + (n - i) <==> forall k :: i <= k < n ==> CountsCancel(h, h.details[k], k, clock))
    && (e.errors == c.errors <==> forall k :: i <= k < n ==> !Bad(h.details[k]))
  }

  /** The details from `i` on are still those of `h`, in the same state. */
  predicate Ahead(h: Helper, g: Helper, i: nat)
  {
    && |g.details| == |h.details| && g.state == h.state && g.lastState == h.lastState
    && forall k :: i <= k < |h.details| ==> g.details[k] == h.details[k]
  }

  lemma {:induction false} LoopMeaning(h: Helper, c: Scan, i: nat, n: nat, clock: Clock)
    requires i <= n == |h.details| && c.stop == 0 && Ahead(h, c.h, i)
    ensures var e := ScanFrom(c, i, n, clock);
      && (e.stop == 0 <==> forall k :: i <= k < n ==> Fault(h, h.details[k], k, clock) == 0)
      && (e.stop != 0 ==> exists k :: i <= k < n && e.stop == Fault(h, h.details[k], k, clock)
                                      && forall j :: i <= j < k ==> Fault(h, h.details[j], j, clock) == 0)
      && (e.stop == 0 ==> Tallied(c, e, i, n, h, clock))
    decreases n - i
  {
    hide ScanOne, Fault, CountsValid, CountsWait, CountsCancel, IsAt, Bad;
    if i < n {
      var e := ScanOne(c, i, clock);
      TurnMeaning(c, i, clock);
      SameContext(h, c.h, h.details[i], i, clock);
      if e.stop == 0 {
        TurnKeeps(h, c, i, clock);
        LoopMeaning(h, e, i + 1, n, clock);
        if ScanFrom(e, i + 1, n, clock).stop == 0 { Adds(h, c, e, ScanFrom(e, i + 1, n, clock), i, n, clock); }
      }
    }
  }

  lemma {:induction false} SameContext(h: Helper, g: Helper, d: Detail, k: nat, clock: Clock)
    requires g.state == h.state && g.lastState == h.lastState
    ensures Fault(g, d, k, clock) == Fault(h, d, k, clock)
    ensures CountsValid(g, d, k, clock) <==> CountsValid(h, d, k, clock)
    ensures CountsWait(g, d, k, clock) <==> CountsWait(h, d, k, clock)
    ensures CountsCancel(g, d, k, clock) <==> CountsCancel(h, d, k, clock)
  {
    hide VersionValid;
  }

  lemma {:induction false} TurnKeeps(h: Helper, c: Scan, i: nat, clock: Clock)
    requires Ahead(h, c.h, i) && i < |h.details|
    ensures Ahead(h, ScanOne(c, i, clock).h, i + 1)
  {
    hide ScanOne, AtTarget;
    R.ScanOneDetails(c, i, clock);
    R.ScanOneWithin(c, i, clock);
  }

  lemma {:induction false} Adds(h: Helper, c: Scan, e: Scan, f: Scan, i: nat, n: nat, clock: Clock)
    requires i < n == |h.details| && Tallied(e, f, i + 1, n, h, clock)
    requires var d := h.details[i];
      && e.valid == c.valid + One(CountsValid(h, d, i, clock)) && e.wait == c.wait + One(CountsWait(h, d, i, clock))
      && e.equal == c.equal + One(IsAt(d)) && e.cancel == c.cancel + One(CountsCancel(h, d, i, clock))
      && e.errors == c.errors + One(Bad(d))
    ensures Tallied(c, f, i, n, h, clock)
  {
    hide CountsValid, CountsWait, CountsCancel, IsAt, Bad;
  }

  // ----- the tick

  predicate EveryReports(h: Helper, clock: Clock)
  {
    Gathers(h) && h.details != [] && forall k :: 0 <= k < |h.details| ==> Reports(Seen(h.details[k], k, clock))
  }

  predicate EveryWaits(h: Helper, clock: Clock)
  {
    Awaits(h) && h.details != [] &&
    forall k :: 0 <= k < |h.details| ==> Seen(h.details[k], k, clock).domain.state == WrWait
  }

  predicate EveryAt(h: Helper) { h.details != [] && forall k :: 0 <= k < |h.details| ==> IsAt(h.details[k]) }

  predicate EveryCanceled(h: Helper, clock: Clock)
  {
    h.state == MrCancel && h.details != [] &&
    forall k :: 0 <= k < |h.details| ==>
      Seen(h.details[k], k, clock).domain.state == WrIdle && h.details[k].domain.last == WrCancel
  }

  predicate SomeBad(h: Helper) { exists k :: 0 <= k < |h.details| && Bad(h.details[k]) }

  /** What the loop leaves: only details, depends and output may differ. */
  lemma {:induction false} ScannedMeaning(h: Helper, clock: Clock)
    ensures var c := Scanned(h, clock);
      && c.h == h.(details := c.h.details, depends := c.h.depends, out := c.h.out) && |c.h.details| == |h.details|
      && R.Quiet(h.out, c.h.out) && (h.state != MrDeploy && h.state != MrCancel ==> c.h.depends == h.depends)
      && (c.stop == 0 <==> Faultless(h, clock))
      && (c.stop != 0 ==> exists k :: 0 <= k < |h.details| && c.stop == Fault(h, h.details[k], k, clock)
                                      && forall j :: 0 <= j < k ==> Fault(h, h.details[j], j, clock) == 0)
      && (c.stop == 0 ==>
            && (All(c.valid, c.h) <==> EveryReports(h, clock)) && (All(c.wait, c.h) <==> EveryWaits(h, clock))
            && (All(c.equal, c.h) <==> EveryAt(h)) && (All(c.cancel, c.h) <==> EveryCanceled(h, clock))
            && (c.errors > 0 <==> SomeBad(h)))
  {
    hide ScanFrom, Fault, Seen, Reports, IsAt, Bad;
    var c0 := Scan(h, 0, 0, 0, 0, 0, 0);
    LoopMeaning(h, c0, 0, |h.details|, clock);
    R.ScanWithin(c0, 0, |h.details|, clock);
    if h.state != MrDeploy && h.state != MrCancel { ListKept(c0, 0, |h.details|, clock); }
    if Scanned(h, clock).stop == 0 { Totals(h, c0, Scanned(h, clock), clock); }
  }

  /** Outside the deployment and its cancellation the loop leaves the list alone. */
  lemma {:induction false} ListKept(c: Scan, i: nat, n: nat, clock: Clock)
    requires i <= n == |c.h.details| && c.h.state != MrDeploy && c.h.state != MrCancel
    ensures ScanFrom(c, i, n, clock).h.depends == c.h.depends
    decreases n - i
  {
    hide ScanOne;
    if c.stop == 0 && i < n {
      ListKeptOnce(c, i, clock);
      ListKept(ScanOne(c, i, clock), i + 1, n, clock);
    }
  }

  lemma {:induction false} ListKeptOnce(c: Scan, i: nat, clock: Clock)
    requires i < |c.h.details| && c.h.state != MrDeploy && c.h.state != MrCancel
    ensures var e := ScanOne(c, i, clock); e.h.depends == c.h.depends && e.h.state == c.h.state
  {
    hide ScanFirst, ScanRest;
    HeartbeatKept(c, i, clock);
    CountingKept(ScanFirst(c, i, clock), i, clock);
  }

  lemma {:induction false} HeartbeatKept(c: Scan, i: nat, clock: Clock)
    requires i < |c.h.details|
    ensures var e := ScanFirst(c, i, clock); e.h.depends == c.h.depends && e.h.state == c.h.state
  {
    hide AtTarget;
  }

  lemma {:induction false} CountingKept(c: Scan, i: nat, clock: Clock)
    requires i < |c.h.details| && c.h.state != MrDeploy && c.h.state != MrCancel
    ensures ScanRest(c, i, clock).h == c.h
  {
    hide VersionValid, ScanDeploy, AtTarget;
  }

  lemma {:induction false} Totals(h: Helper, c: Scan, e: Scan, clock: Clock)
    requires c == Scan(h, 0, 0, 0, 0, 0, 0) && |e.h.details| == |h.details| && Tallied(c, e, 0, |h.details|, h, clock)
    ensures (All(e.valid, e.h) <==> EveryReports(h, clock)) && (All(e.wait, e.h) <==> EveryWaits(h, clock))
    ensures (All(e.equal, e.h) <==> EveryAt(h)) && (All(e.cancel, e.h) <==> EveryCanceled(h, clock))
    ensures e.errors > 0 <==> SomeBad(h)
  {
    hide Seen, Reports, IsAt, Bad, Gathers, Awaits;
    if h.details != [] {
      var d := h.details[0];
      assert CountsValid(h, d, 0, clock) ==> Gathers(h);
      assert CountsWait(h, d, 0, clock) ==> Awaits(h);
      assert CountsCancel(h, d, 0, clock) ==> h.state == MrCancel;
    }
  }

  /** The time limit of a state has its own error. */
  function LimitError(state: ServerState): int
  {
    match state
    case MrPending => 1910
    case MrDownload => 1913
    case MrDistribute => 1913
    case MrVerify => 1914
    case MrDeploy => 1915
    case MrCancel => 1916
    case _ => 0
  }

  predicate Awake(h: Helper)
  {
    Open(h) && h.errorCode == 0 && h.state != MrIdle && h.state != MrOffline && h.state != MrUnknown
  }

  /** Everyone reports a version to upgrade from: on to the next question or state. */
  predicate AfterReports(h: Helper, g: Helper, all: bool)
  {
    if all && h.state == MrPending then
      var resume := if h.hasNewId then h.cacheState == MrDeploy else h.cancelResume && h.hasDeployBreaked;
      Enters(h, g, if resume then MrResumeAsk else MrReady)
    else if all && (h.state == MrReady || h.state == MrDownloadAsk) then
      if h.upgrade.download == Forced then g == Download(h)
      else if h.upgrade.download == Attempt && h.state == MrReady then Enters(h, g, MrDownloadAsk)
      else g == h
    else if !all && h.state == MrDownloadAsk then Enters(h, g, MrPending)
    else g == h
  }

  /** Everyone waits: on to the deployment, or to its question. */
  predicate AfterWaits(h: Helper, g: Helper, all: bool)
  {
    if all && (h.state == MrWait || h.state == MrDeployAsk) then
      if h.upgrade.deploy == Forced then g == Deploy(h)
      else if h.upgrade.deploy == Attempt && h.state == MrWait then Enters(h, g, MrDeployAsk)
      else g == h
    else if !all && h.state == MrDeployAsk then Enters(h, g, MrWait)
    else g == h
  }

  lemma {:induction false} EntersFacts(h: Helper, g: Helper, state: ServerState)
    requires Enters(h, g, state)
    ensures g.state == state && g.details == h.details && g.firstStart == h.firstStart && g.upgrade == h.upgrade
    ensures g.depends == h.depends
  {
  }

  lemma {:induction false} StateFacts(h: Helper, state: ServerState)
    ensures Enters(h, SetState(h, state), state) && SetState(h, state).state == state
    ensures SetState(h, state).details == h.details && SetState(h, state).firstStart == h.firstStart
    ensures SetState(h, state).depends == h.depends && SetState(h, state).upgrade == h.upgrade
  {
    hide SetState;
    StateMeaning(h, state);
    EntersFacts(h, SetState(h, state), state);
  }

  lemma {:induction false} ReportsMeaning(h: Helper, all: bool)
    ensures AfterReports(h, AfterValid(h, all), all)
    ensures AfterValid(h, all).details == h.details
    ensures AfterValid(h, all).state == MrDeploy <==> h.state == MrDeploy
    ensures AfterValid(h, all).firstStart == h.firstStart
  {
    hide SetState, Download, Enters;
    StateFacts(h, MrPending);
    StateFacts(h, MrResumeAsk);
    StateFacts(h, MrReady);
    StateFacts(h, MrDownloadAsk);
    DownloadFrame(h);
  }

  lemma {:induction false} DownloadFrame(h: Helper)
    ensures Download(h).details == h.details && Download(h).state == MrDownload
    ensures Download(h).firstStart == h.firstStart
    ensures Download(h).depends == h.depends && Download(h).upgrade == h.upgrade
  {
    hide SetState, Enters;
    StateFacts(h, MrDownload);
  }

  lemma {:induction false} WaitsMeaning(h: Helper, all: bool)
    ensures AfterWaits(h, AfterWait(h, all), all)
    ensures AfterWait(h, all).details == h.details
    ensures AfterWait(h, all).state == MrCancel <==> h.state == MrCancel
  {
    hide SetState, Deploy, Enters;
    StateFacts(h, MrDeployAsk);
    StateFacts(h, MrWait);
    DeployFrame(h);
  }

  lemma {:induction false} ControlKeeps(h: Helper, control: Control)
    ensures SendControl(h, control).details == h.details && SendControl(h, control).depends == h.depends
    ensures SendControl(h, control).upgrade == h.upgrade && SendControl(h, control).state == h.state
  {
    hide SendControl;
    ControlMeaning(h, control);
  }

  lemma {:induction false} DeployFrame(h: Helper)
    ensures Deploy(h).details == h.details && Deploy(h).state == MrDeploy
    ensures Deploy(h).depends == h.depends && Deploy(h).upgrade == h.upgrade
  {
    hide SetState, Enters, SendControl;
    ControlKeeps(h, CtlDeploy);
    StateFacts(SendControl(h, CtlDeploy), MrDeploy);
  }

  /** `g` differs from `h` at most in what the loop changes, and nothing is closed in it. */
  predicate Looped(h: Helper, g: Helper)
  {
    && g == h.(details := g.details, depends := g.depends, out := g.out) && |g.details| == |h.details|
    && R.Quiet(h.out, g.out) && (h.state != MrDeploy && h.state != MrCancel ==> g.depends == h.depends)
  }

  /** The end of a tick whose loop found no fault, from what it leaves in `s`. */
  ghost predicate Concludes(h: Helper, s: Helper, g: Helper, clock: Clock)
  {
    exists m :: AfterReports(s, m, EveryReports(h, clock)) &&
      if EveryAt(h) && (h.firstStart || h.state == MrDeploy) then g == Feedback(m, true, 0)
      else exists w :: AfterWaits(m, w, EveryWaits(h, clock)) && Ended(w, g, EveryCanceled(h, clock), SomeBad(h))
  }

  predicate Ended(w: Helper, g: Helper, canceled: bool, bad: bool)
  {
    g == if canceled then Feedback(w, true, 0) else if bad then Feedback(w, false, 1950) else w
  }

  /** The tick: asleep without an open request, in a resting state or after an error; failed
      by the state's limit, then by the first detail at fault; otherwise decided by what all
      details, or some, are found to be. */
  lemma {:induction false} TickMeaning(h: Helper, clock: Clock)
    ensures var g := Step(h, Tick(clock));
      if !Awake(h) then g == h
      else if clock.stateExpired && LimitError(h.state) != 0 then g == Feedback(h, false, LimitError(h.state))
      else
        exists s :: Looped(h, s) &&
          if Faultless(h, clock) then Concludes(h, s, g, clock)
          else exists k :: 0 <= k < |h.details| && FirstFault(h, k, clock)
                           && g == Feedback(s, false, Fault(h, h.details[k], k, clock))
  {
    hide Feedback, AfterScan, ScanFrom, Fault, EveryReports, EveryWaits, EveryAt, EveryCanceled, SomeBad,
      Concludes, Faultless;
    if Awake(h) && !(clock.stateExpired && LimitError(h.state) != 0) {
      var c := Scanned(h, clock);
      ScannedMeaning(h, clock);
      assert Looped(h, c.h);
      if c.stop == 0 {
        ConclusionMeaning(h, c, clock);
      } else {
        var k :| 0 <= k < |h.details| && c.stop == Fault(h, h.details[k], k, clock)
                 && forall j :: 0 <= j < k ==> Fault(h, h.details[j], j, clock) == 0;
        assert FirstFault(h, k, clock);
      }
    }
  }

  predicate FirstFault(h: Helper, k: nat, clock: Clock)
    requires k < |h.details|
  {
    Fault(h, h.details[k], k, clock) != 0 && forall j :: 0 <= j < k ==> Fault(h, h.details[j], j, clock) == 0
  }

  lemma {:induction false} ConclusionMeaning(h: Helper, c: Scan, clock: Clock)
    requires Looped(h, c.h) && c.stop == 0
    requires (All(c.valid, c.h) <==> EveryReports(h, clock)) && (All(c.wait, c.h) <==> EveryWaits(h, clock))
    requires (All(c.equal, c.h) <==> EveryAt(h)) && (All(c.cancel, c.h) <==> EveryCanceled(h, clock))
    requires c.errors > 0 <==> SomeBad(h)
    ensures Concludes(h, c.h, AfterScan(c), clock)
  {
    hide Feedback, AfterValid, AfterWait, EveryReports, EveryWaits, EveryAt, SomeBad, AfterReports, AfterWaits,
      Reports, Seen;
    var m := AfterValid(c.h, All(c.valid, c.h));
    ReportsMeaning(c.h, All(c.valid, c.h));
    var w := AfterWait(m, All(c.wait, m));
    WaitsMeaning(m, All(c.wait, m));
    CancelStays(c.h, All(c.valid, c.h));
    if !(EveryAt(h) && (h.firstStart || h.state == MrDeploy)) {
      assert Ended(w, AfterScan(c), EveryCanceled(h, clock), SomeBad(h));
    }
  }

  lemma {:induction false} CancelStays(h: Helper, all: bool)
    ensures AfterValid(h, all).state == MrCancel <==> h.state == MrCancel
  {
    hide SetState, Download, Enters;
    StateFacts(h, MrPending);
    StateFacts(h, MrResumeAsk);
    StateFacts(h, MrReady);
    StateFacts(h, MrDownloadAsk);
    DownloadFrame(h);
  }

  // ----- what follows

  function Last(g: Helper): Output
    requires g.out != []
  {
    g.out[|g.out| - 1]
  }

  /** Success is reported: a tick of the deployment of an open request, with no error so far,
      no limit passed, every package named and every domain at its version, ends with a closed
      report of the deployment, its id, and success. */
  lemma {:induction false} DeploymentSucceeds(h: Helper, clock: Clock)
    requires h.state == MrDeploy && h.feedType == TpDeploy && !h.hasFeed && h.errorCode == 0
    requires !clock.stateExpired && clock.deployExpired == {} && clock.restartExpired == {}
    requires h.details != [] && forall k :: 0 <= k < |h.details| ==>
               h.details[k].package.domain != "" && h.details[k].package.version != ""
               && h.details[k].domain.version == h.details[k].package.version
    ensures var g := Step(h, Tick(clock)); g.out != [] && Last(g) == Closed(TpDeploy, h.upgrade.id, true)
    ensures Step(h, Tick(clock)).state == if h.detailSubscribed then MrDoneAsk else MrIdle
  {
    hide Step, Feedback, Seen, Reports;
    TickMeaning(h, clock);
    NoFault(h, clock);
    var g := Step(h, Tick(clock));
    var s :| Looped(h, s) && Concludes(h, s, g, clock);
    var m :| AfterReports(s, m, EveryReports(h, clock)) && g == Feedback(m, true, 0);
    assert m == s;
    FeedbackMeaning(s, true, 0);
  }

  lemma {:induction false} NoFault(h: Helper, clock: Clock)
    requires h.state == MrDeploy && clock.deployExpired == {} && clock.restartExpired == {}
    requires forall k :: 0 <= k < |h.details| ==> h.details[k].package.domain != ""
    ensures Faultless(h, clock)
  {
    hide Seen, Reports, VersionValid;
  }

  /** Cancelling succeeds likewise, once every domain has come back to idle from it. */
  lemma {:induction false} CancellationSucceeds(h: Helper, clock: Clock)
    requires h.state == MrCancel && h.feedType == TpCancel && !h.hasFeed && h.errorCode == 0 && !h.firstStart
    requires !clock.stateExpired && Faultless(h, clock) && EveryCanceled(h, clock)
    ensures var g := Step(h, Tick(clock)); g.out != [] && Last(g) == Closed(TpCancel, h.cancelId, true)
  {
    hide Step, Feedback, Seen, Reports, Faultless, EveryCanceled, EveryAt, SomeBad;
    TickMeaning(h, clock);
    var g := Step(h, Tick(clock));
    var s :| Looped(h, s) && Concludes(h, s, g, clock);
    var m :| AfterReports(s, m, EveryReports(h, clock)) &&
             exists w :: AfterWaits(m, w, EveryWaits(h, clock)) && Ended(w, g, true, SomeBad(h));
    assert m == s;
    var w :| AfterWaits(m, w, EveryWaits(h, clock)) && Ended(w, g, true, SomeBad(h));
    assert w == s;
    FeedbackMeaning(s, true, 0);
  }

  /** A forced deployment starts as soon as everyone waits: CTL_DEPLOY with the list goes out. */
  lemma {:induction false} DeploymentStarts(h: Helper, clock: Clock)
    requires Awake(h) && (h.state == MrWait || h.state == MrDeployAsk) && h.upgrade.deploy == Forced && !h.firstStart
    requires Faultless(h, clock) && EveryWaits(h, clock) && !SomeBad(h)
    ensures var g := Step(h, Tick(clock));
      && g.state == MrDeploy && g.control == CtlDeploy
      && exists s :: Looped(h, s)
                     && g.out == s.out + [Broadcast(CtlDeploy, s.upgrade, s.depends), Proceeding(Kind(h), Id(h))]
  {
    hide Step, Feedback, Seen, Reports, Faultless, EveryWaits, EveryAt, SomeBad, EveryCanceled, EveryReports,
         Concludes;
    TickMeaning(h, clock);
    var g := Step(h, Tick(clock));
    var s :| Looped(h, s) && Concludes(h, s, g, clock);
    NotCanceled(h, clock);
    NotReporting(h, clock);
    ForcedStart(h, s, g, clock);
  }

  lemma {:induction false} ForcedStart(h: Helper, s: Helper, g: Helper, clock: Clock)
    requires Looped(h, s) && Concludes(h, s, g, clock)
    requires (h.state == MrWait || h.state == MrDeployAsk) && h.upgrade.deploy == Forced && !h.firstStart
    requires !EveryReports(h, clock) && EveryWaits(h, clock) && !EveryCanceled(h, clock) && !SomeBad(h)
    ensures g.state == MrDeploy && g.control == CtlDeploy
    ensures g.out == s.out + [Broadcast(CtlDeploy, s.upgrade, s.depends), Proceeding(Kind(h), Id(h))]
  {
    hide Feedback, Seen, EveryWaits, EveryAt, SomeBad, EveryCanceled, EveryReports, Deploy;
    var m :| AfterReports(s, m, false) &&
             exists w :: AfterWaits(m, w, true) && Ended(w, g, false, false);
    var w :| AfterWaits(m, w, true) && Ended(w, g, false, false);
    assert m == s && w == Deploy(s) && g == w;
    DeployMeaning(s);
    assert s.out + [Broadcast(CtlDeploy, s.upgrade, s.depends)] + [Proceeding(Kind(h), Id(h))]
        == s.out + [Broadcast(CtlDeploy, s.upgrade, s.depends), Proceeding(Kind(h), Id(h))];
  }

  lemma {:induction false} NotCanceled(h: Helper, clock: Clock)
    requires h.state != MrCancel
    ensures !EveryCanceled(h, clock)
  {
  }

  lemma {:induction false} NotReporting(h: Helper, clock: Clock)
    requires !Gathers(h)
    ensures !EveryReports(h, clock)
  {
  }

  // ----- deploy timers

  /** The names in the order of the details: one for each that is outstanding, none else. */
  lemma {:induction false} NamesInOrder(ds: seq<Detail>, es: seq<Detail>, d: Detail)
    ensures OutstandingNames(ds + es) == OutstandingNames(ds) + OutstandingNames(es)
    ensures OutstandingNames([d]) == if d.deployActive || d.domain.state == WrWait then [d.domain.name] else []
  {
    assert [d][1..] == [];
    NamesAppend(ds, es);
  }

  lemma {:induction false} NamesAppend(ds: seq<Detail>, es: seq<Detail>)
    ensures OutstandingNames(ds + es) == OutstandingNames(ds) + OutstandingNames(es)
  {
    hide Outstanding;
    if ds == [] {
      assert ds + es == es;
    } else {
      assert (ds + es)[1..] == ds[1..] + es;
      NamesAppend(ds[1..], es);
    }
  }

  /** A turn of the deployment: a running timer ends the tick past its limits and stops when
      its domain is finished, the list then made anew and broadcast; a timer starts for a
      domain that deploys and depends on nobody listed. */
  lemma {:induction false} TimerMeaning(c: Scan, k: nat, clock: Clock)
    requires k < |c.h.details| && c.stop == 0
    ensures var d, e := c.h.details[k], ScanDeploy(c, k, clock);
      var named := exists w :: w in c.h.depends && Names(d.package.depends, w);
      var late := k in clock.deployExpired
                  || (d.domain.state == WrOffline && d.heartbeatActive && k in clock.restartExpired);
      && (d.deployActive && late ==> e.h == c.h)
      && (d.deployActive && !late && d.domain.state == WrIdle && IsAt(d) ==> e == c.(h := Recompute(c.h, k)))
      && (d.deployActive && !late && !(d.domain.state == WrIdle && IsAt(d)) ==> e == c)
      && (!d.deployActive && d.domain.state == WrDeploy && !named ==>
            e == c.(h := c.h.(details := c.h.details[k := d.(deployActive := true)])))
      && (!d.deployActive && (d.domain.state != WrDeploy || named) ==> e == c)
  {
    hide HasDepends, Recompute, Names;
    HasDependsMeaning(c.h.details[k].package.depends, c.h.depends);
  }

  lemma {:induction false} RecomputeMeaning(h: Helper, k: nat)
    requires k < |h.details|
    ensures var g := Recompute(h, k);
      var ds := h.details[k := h.details[k].(deployActive := false)];
      var names := OutstandingNames(ds);
      g == h.(details := ds, depends := names,
              out := h.out + if h.control == CtlDeploy
                             then [Broadcast(CtlDeploy, h.upgrade, names), Scheduled(h.upgrade.id)]
                             else [])
  {
    hide OutstandingNames;
    var names := OutstandingNames(h.details[k := h.details[k].(deployActive := false)]);
    assert h.out + [] == h.out;
    assert h.out + [Broadcast(CtlDeploy, h.upgrade, names)] + [Scheduled(h.upgrade.id)]
        == h.out + [Broadcast(CtlDeploy, h.upgrade, names), Scheduled(h.upgrade.id)];
  }
}
