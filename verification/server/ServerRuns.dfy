/** What holds after every run of the server, whatever events arrive in whatever order. */
module ServerRuns {
  import opened Domain
  import opened Server
  import opened Options

  // ----- what one pass over the details leaves alone

  /** `g` differs from `h` at most in the detail list, the depends and the output. */
  predicate SameButDetails(h: Helper, g: Helper)
  {
    g == h.(details := g.details, depends := g.depends, out := g.out)
  }

  predicate IsClosed(o: Output) { o.Closed? }

  function CountClosed(out: seq<Output>): nat
  {
    if out == [] then 0
    else CountClosed(out[..|out| - 1]) + (if IsClosed(out[|out| - 1]) then 1 else 0)
  }

  lemma {:induction false} CountAppend(a: seq<Output>, b: seq<Output>)
    ensures CountClosed(a + b) == CountClosed(a) + CountClosed(b)
  {
    if b == [] {
      assert a + b == a;
    } else {
      assert (a + b)[..|a + b| - 1] == a + b[..|b| - 1];
      CountAppend(a, b[..|b| - 1]);
    }
  }

  /** `b` is `a` and more outputs, none of them a closed report. */
  predicate Quiet(a: seq<Output>, b: seq<Output>)
  {
    |a| <= |b| && b[..|a|] == a && forall k :: |a| <= k < |b| ==> !IsClosed(b[k])
  }

  lemma {:induction false} QuietCount(a: seq<Output>, b: seq<Output>)
    requires Quiet(a, b)
    ensures CountClosed(b) == CountClosed(a)
    decreases |b|
  {
    if |b| > |a| {
      assert b[..|b| - 1][..|a|] == a;
      QuietCount(a, b[..|b| - 1]);
    } else {
      assert b == a;
    }
  }

  lemma {:induction false} QuietTrans(a: seq<Output>, b: seq<Output>, c: seq<Output>)
    requires Quiet(a, b) && Quiet(b, c)
    ensures Quiet(a, c)
  {
    assert c[..|a|] == c[..|b|][..|a|];
    forall k | |a| <= k < |c| ensures !IsClosed(c[k]) {
      if k < |b| { assert c[k] == c[..|b|][k]; }
    }
  }

  /** A pass so far: only details, depends and unreported output have changed. */
  predicate Within(h: Helper, g: Helper)
  {
    SameButDetails(h, g) && Quiet(h.out, g.out) && |g.details| == |h.details|
  }

  lemma {:induction false} WithinTrans(h: Helper, g: Helper, k: Helper)
    requires Within(h, g) && Within(g, k)
    ensures Within(h, k)
  {
    QuietTrans(h.out, g.out, k.out);
  }

  lemma {:induction false} QuietAppend(a: seq<Output>, o: Output)
    requires !IsClosed(o)
    ensures Quiet(a, a + [o])
  {
  }

  lemma {:induction false} SendControlQuiet(h: Helper, control: Control)
    ensures Quiet(h.out, SendControl(h, control).out)
  {
    QuietRefl(h.out);
    QuietAppend(h.out, Broadcast(control, h.upgrade, h.depends));
  }

  lemma {:induction false} RecomputeWithin(h: Helper, i: nat)
    requires i < |h.details|
    ensures Within(h, Recompute(h, i))
  {
    hide OutstandingNames, SendControl, Within;
    RelistedWithin(h, h.details[i := h.details[i].(deployActive := false)]);
  }

  lemma {:induction false} RelistedWithin(h: Helper, ds: seq<Detail>)
    requires |ds| == |h.details|
    ensures var k := h.(details := ds, depends := OutstandingNames(ds));
            k.control == h.control && k.upgrade == h.upgrade && Within(h, k)
    ensures var k := h.(details := ds, depends := OutstandingNames(ds));
            var s := SendControl(k, CtlDeploy);
            && (h.control == CtlDeploy ==> Within(h, s.(out := s.out + [Scheduled(h.upgrade.id)])))
            && s.upgrade == h.upgrade
  {
    hide OutstandingNames, Within, Quiet;
    var k := h.(details := ds, depends := OutstandingNames(ds));
    SentWithin(h, k);
  }

  lemma {:induction false} SentWithin(h: Helper, k: Helper)
    requires SameButDetails(h, k) && k.out == h.out && |k.details| == |h.details|
    ensures Within(h, k)
    ensures k.control == CtlDeploy ==>
              Within(h, SendControl(k, CtlDeploy).(out := SendControl(k, CtlDeploy).out + [Scheduled(h.upgrade.id)]))
  {
    hide Quiet;
    var s := SendControl(k, CtlDeploy);
    SendControlQuiet(k, CtlDeploy);
    QuietAppend(s.out, Scheduled(h.upgrade.id));
    QuietTrans(h.out, s.out, s.out + [Scheduled(h.upgrade.id)]);
    QuietRefl(h.out);
  }

  lemma {:induction false} ScanRestWithin(c: Scan, i: nat, clock: Clock)
    requires i < |c.h.details|
    ensures Within(c.h, ScanRest(c, i, clock).h)
  {
    hide VersionValid, AtTarget, ScanDeploy, Within;
    WithinRefl(c.h);
    ScanDeployWithin(c, i, clock);
    if c.h.state == MrCancel { ScanDeployWithin(c.(cancel := c.cancel + 1), i, clock); }
  }

  lemma {:induction false} WithinRefl(h: Helper)
    ensures Within(h, h)
  {
  }

  lemma {:induction false} ScanDeployWithin(c: Scan, i: nat, clock: Clock)
    requires i < |c.h.details|
    ensures Within(c.h, ScanDeploy(c, i, clock).h)
  {
    hide HasDepends, AtTarget, Recompute, Within, WithDetail;
    RecomputeWithin(c.h, i);
    WithinRefl(c.h);
    WithDetailWithin(c.h, i, c.h.details[i].(deployActive := true));
  }

  lemma {:induction false} WithDetailWithin(h: Helper, i: nat, d: Detail)
    requires i < |h.details|
    ensures Within(h, WithDetail(h, i, d))
  {
  }

  lemma {:induction false} QuietRefl(a: seq<Output>)
    ensures Quiet(a, a)
  {
  }

  lemma {:induction false} ScanWithin(c: Scan, i: nat, n: nat, clock: Clock)
    requires i <= n == |c.h.details|
    ensures Within(c.h, ScanFrom(c, i, n, clock).h)
    decreases n - i
  {
    hide ScanRest, ScanFirst, Quiet, AtTarget;
    QuietRefl(c.h.out);
    if c.stop == 0 && i < n {
      ScanOneWithin(c, i, clock);
      var e := ScanOne(c, i, clock);
      ScanWithin(e, i + 1, n, clock);
      WithinTrans(c.h, e.h, ScanFrom(e, i + 1, n, clock).h);
    }
  }

  lemma {:induction false} ScanOneWithin(c: Scan, i: nat, clock: Clock)
    requires i < |c.h.details|
    ensures Within(c.h, ScanOne(c, i, clock).h)
  {
    hide ScanRest, ScanFirst, Within;
    WithinRefl(c.h);
    var f := ScanFirst(c, i, clock);
    ScanFirstWithin(c, i, clock);
    ScanRestWithin(f, i, clock);
    WithinTrans(c.h, f.h, ScanRest(f, i, clock).h);
  }

  lemma {:induction false} ScanFirstWithin(c: Scan, i: nat, clock: Clock)
    requires i < |c.h.details|
    ensures Within(c.h, ScanFirst(c, i, clock).h)
  {
    hide Within, WithDetail, AtTarget;
    var d := c.h.details[i];
    WithinRefl(c.h);
    WithDetailWithin(c.h, i, d.(domain := d.domain.(last := d.domain.state, state := WrOffline)));
  }

  // ----- the invariant of every run

  predicate Asking(state: ServerState)
  {
    state == MrDownloadAsk || state == MrDeployAsk || state == MrCancelAsk || state == MrResumeAsk
  }

  /** States in which the server starts or carries on work by itself. */
  predicate Working(state: ServerState)
  {
    state == MrPending || state == MrReady || state == MrDeploy || state == MrCancel || Asking(state)
  }

  predicate Inv(h: Helper)
  {
    && (h.hasFeed ==> h.control == CtlClear && !Working(h.state) && (Closing(h) || h.upgrade == EmptyUpgrade))
    && (Closing(h) ==> h.hasFeed && h.detailSubscribed)
    && (h.state == MrCancelAsk || h.state == MrCancel ==> h.feedType == TpCancel)
    && (h.state == MrCancel ==> h.lastState == MrCancelAsk)
    && (h.state == MrDeployAsk ==> h.upgrade.deploy == Attempt)
    && (h.state == MrDownloadAsk ==> h.upgrade.download == Attempt)
    && (h.state == MrIdle || h.state == MrOffline ==> h.upgrade == EmptyUpgrade)
    && (h.hasFeed ==> h.feedType != TpUnknown)
  }

  /** A request still open: one may yet be closed for it. */
  function Open(h: Helper): nat { if h.hasFeed || h.feedType == TpUnknown then 0 else 1 }

  predicate Accepted(h: Helper, e: Event)
  {
    e.ReqCancel? || (e.ReqUpgrade? && !Closing(h))
  }

  function CountAccepted(h: Helper, events: seq<Event>): nat
  {
    if events == [] then 0
    else
      var init := events[..|events| - 1];
      CountAccepted(h, init) + (if Accepted(Run(h, init), events[|events| - 1]) then 1 else 0)
  }

  // ----- what each building block keeps and changes

  /** Feed, request and subscription as before, and no report closed. */
  predicate Kept(h: Helper, g: Helper)
  {
    && g.hasFeed == h.hasFeed && g.feedType == h.feedType && g.detailSubscribed == h.detailSubscribed
    && g.upgrade == h.upgrade && Quiet(h.out, g.out)
  }

  lemma {:induction false} SetStateFacts(h: Helper, state: ServerState)
    ensures var g := SetState(h, state);
            && Kept(h, g) && g.state == state && g.control == h.control
            && g.lastState == (if h.state == state then h.lastState else h.state)
  {
    hide Quiet, Announced, FeedId;
    if h.state == state {
      QuietRefl(h.out);
    } else {
      AnnouncedQuiet(h, state);
    }
  }

  lemma {:induction false} AnnouncedQuiet(h: Helper, state: ServerState)
    ensures Quiet(h.out, h.out + Announced(h, state))
  {
  }

  lemma {:induction false} SendControlFacts(h: Helper, control: Control)
    ensures var g := SendControl(h, control);
            && Kept(h, g) && g.state == h.state && g.lastState == h.lastState
            && g.control == (if control == CtlUnknown then h.control else control)
  {
    SendControlQuiet(h, control);
  }

  lemma {:induction false} IdleFacts(h: Helper)
    ensures var g := Idle(h);
            && g.state == MrIdle && g.hasFeed == h.hasFeed && g.feedType == h.feedType && Quiet(h.out, g.out)
            && g.upgrade == (if h.state == MrIdle then h.upgrade else EmptyUpgrade) && g.control == h.control
  {
    hide SetState;
    var k := h.(depends := [], details := [], detailSubscribed := false, upgrade := EmptyUpgrade, cancelId := "");
    SetStateFacts(k, MrIdle);
    QuietRefl(h.out);
  }

  lemma {:induction false} PendingFacts(h: Helper)
    ensures Kept(h, Pending(h)) && Pending(h).state == MrPending
  {
    hide SetState, SendControl, Quiet;
    var g := h.(errorCode := 0, depends := PackageNames(h.upgrade.packages), details := Listed(h));
    SendControlFacts(g, CtlReset);
    SetStateFacts(SendControl(g, CtlReset), MrPending);
    QuietTrans(h.out, SendControl(g, CtlReset).out, Pending(h).out);
  }

  lemma {:induction false} DownloadFacts(h: Helper)
    ensures Kept(h, Download(h)) && Download(h).state == MrDownload && Download(h).control == h.control
  {
    hide SetState, Quiet;
    SetStateFacts(h, MrDownload);
    var g := SetState(h, MrDownload);
    QuietAppend(g.out, WebDownload);
    QuietTrans(h.out, g.out, g.out + [WebDownload]);
  }

  lemma {:induction false} DeployFacts(h: Helper)
    ensures Kept(h, Deploy(h)) && Deploy(h).state == MrDeploy
  {
    hide SetState, SendControl, Quiet;
    SendControlFacts(h, CtlDeploy);
    SetStateFacts(SendControl(h, CtlDeploy), MrDeploy);
    QuietTrans(h.out, SendControl(h, CtlDeploy).out, Deploy(h).out);
  }

  lemma {:induction false} ResumeFacts(h: Helper)
    ensures Kept(h, Resume(h)) && Resume(h).state == MrDeploy
  {
    hide Deploy, Quiet;
    var g := h.(lastState := h.cacheLastState, depends := h.cacheDepends);
    DeployFacts(g);
  }

  /** Among what `b` adds to `a` is a closed report of a successful deployment. */
  predicate ReportsDeployed(a: seq<Output>, b: seq<Output>)
  {
    exists k :: |a| <= k < |b| && b[k].Closed? && b[k].kind == TpDeploy && b[k].success
  }

  /** Behind quiet output, the report is among what came after it. */
  lemma {:induction false} ReportsAfterQuiet(a: seq<Output>, b: seq<Output>, c: seq<Output>)
    requires Quiet(a, b) && |b| <= |c| && c[..|b|] == b && ReportsDeployed(a, c)
    ensures ReportsDeployed(b, c)
  {
    assert forall j | |a| <= j < |b| :: c[j] == c[..|b|][j];
    var k :| |a| <= k < |c| && c[k].Closed? && c[k].kind == TpDeploy && c[k].success;
  }

  lemma {:induction false} QuietReportsNothing(a: seq<Output>, b: seq<Output>)
    requires Quiet(a, b)
    ensures !ReportsDeployed(a, b)
  {
  }

  predicate Blocked(h: Helper) { h.hasFeed || h.feedType == TpUnknown }

  lemma {:induction false} FeedbackFacts(h: Helper, finished: bool, error: int)
    ensures Blocked(h) ==> Feedback(h, finished, error) == h
    ensures !Blocked(h) ==>
              var g := Feedback(h, finished, error);
              && g.hasFeed && g.feedType == h.feedType && g.control == CtlClear
              && CountClosed(g.out) == CountClosed(h.out) + 1 && |h.out| <= |g.out| && g.out[..|h.out|] == h.out
              && (Closing(g) ==> g.detailSubscribed) && (h.detailSubscribed ==> Closing(g))
              && (Closing(g) || (g.state == MrIdle && (h.state != MrIdle ==> g.upgrade == EmptyUpgrade)
                                                    && (h.state == MrIdle ==> g.upgrade == h.upgrade)))
              && (ReportsDeployed(h.out, g.out) ==> finished && h.feedType == TpDeploy)
  {
    if !Blocked(h) {
      hide SetState, SendControl, Idle, Quiet, CountClosed;
      var f := h.(hasFeed := true, errorCode := error);
      SendControlFacts(f, CtlClear);
      var g := SendControl(f, CtlClear);
      var report := Closed(h.feedType, FeedId(h), finished);
      var k := g.(out := g.out + [WebStop, report]);
      SetStateFacts(k, if finished then MrDoneAsk else MrErrorAsk);
      IdleFacts(k);
      ClosedOnce(h.out, g.out, report, Feedback(h, finished, error).out);
    }
  }

  /** Quiet output, one closed report, quiet output. */
  lemma {:induction false} ClosedOnce(a: seq<Output>, b: seq<Output>, report: Output, d: seq<Output>)
    requires Quiet(a, b) && Quiet(b + [WebStop, report], d) && IsClosed(report)
    ensures CountClosed(d) == CountClosed(a) + 1 && |a| <= |d| && d[..|a|] == a
    ensures ReportsDeployed(a, d) ==> report.kind == TpDeploy && report.success
  {
    var c := b + [WebStop, report];
    QuietCount(a, b);
    QuietCount(c, d);
    assert c == (b + [WebStop]) + [report];
    assert (b + [WebStop] + [report])[..|b| + 1] == b + [WebStop];
    assert (b + [WebStop])[..|b|] == b;
    assert d[..|a|] == d[..|c|][..|b|][..|a|];
    assert forall j | 0 <= j < |c| :: d[j] == d[..|c|][j];
    assert forall j | 0 <= j < |b| :: c[j] == b[j];
    if ReportsDeployed(a, d) {
      var k :| |a| <= k < |d| && d[k].Closed? && d[k].kind == TpDeploy && d[k].success;
      assert d[k] == c[k];
    }
  }

  // ----- one event

  /** The invariant again, at most `n` more closings than requests open before, and no
      report of a successful deployment unless `deployed`. */
  predicate Fine(h: Helper, g: Helper, n: nat, deployed: bool)
  {
    && Inv(g)
    && CountClosed(g.out) + Open(g) <= CountClosed(h.out) + Open(h) + n
    && (ReportsDeployed(h.out, g.out) ==> deployed)
  }

  lemma {:induction false} KeptFine(h: Helper, g: Helper)
    requires Kept(h, g) && Inv(g)
    ensures Fine(h, g, 0, false)
  {
    QuietCount(h.out, g.out);
    QuietReportsNothing(h.out, g.out);
  }

  lemma {:induction false} FeedbackFine(h: Helper, finished: bool, error: int)
    requires Inv(h)
    ensures Fine(h, Feedback(h, finished, error), 0, finished && h.feedType == TpDeploy)
  {
    hide Feedback, CountClosed;
    FeedbackFacts(h, finished, error);
    QuietRefl(h.out);
    QuietReportsNothing(h.out, h.out);
  }

  lemma {:induction false} IdleFine(h: Helper)
    requires Inv(h)
    ensures Fine(h, Idle(h), 0, false)
  {
    hide Idle, CountClosed;
    IdleFacts(h);
    QuietCount(h.out, Idle(h).out);
    QuietReportsNothing(h.out, Idle(h).out);
  }

  lemma {:induction false} DownloadFine(h: Helper)
    requires Inv(h) && (h.hasFeed ==> !Closing(h))
    ensures Fine(h, Download(h), 0, false)
  {
    hide Download, CountClosed;
    DownloadFacts(h);
    KeptFine(h, Download(h));
  }

  /** Cancelling from its question never closes anything at once: the last state is that
      question, which is not among those the shortcut is for. */
  lemma {:induction false} CancelKeepsOpen(h: Helper)
    requires h.state == MrCancelAsk
    ensures Kept(h, Cancel(h)) && Cancel(h).state == MrCancel && Cancel(h).lastState == MrCancelAsk
  {
    hide SetState, SendControl, Feedback, Quiet;
    SendControlFacts(h, CtlCancel);
    SetStateFacts(SendControl(h, CtlCancel), MrCancel);
    QuietTrans(h.out, SendControl(h, CtlCancel).out, SetState(SendControl(h, CtlCancel), MrCancel).out);
  }

  lemma {:induction false} AnswerFine(h: Helper, answer: Answer)
    requires Inv(h)
    ensures Fine(h, ConfigAnswer(h, answer), 0, false)
  {
    hide Download, Deploy, Cancel, Resume, Pending, Idle, Feedback, CountClosed, Quiet, ReportsDeployed;
    KeptFineRefl(h);
    match h.state {
      case MrDownloadAsk => DownloadFine(h); FeedbackFine(h, false, -1);
      case MrDeployAsk => DeployFacts(h); KeptFine(h, Deploy(h)); FeedbackFine(h, false, -1);
      case MrCancelAsk => CancelKeepsOpen(h); KeptFine(h, Cancel(h)); FeedbackFine(h, false, -1);
      case MrResumeAsk => ResumeAnswerFine(h, answer);
      case MrDoneAsk => IdleFine(h);
      case MrErrorAsk => IdleFine(h);
      case _ =>
    }
  }

  lemma {:induction false} KeptFineRefl(h: Helper)
    requires Inv(h)
    ensures Fine(h, h, 0, false)
  {
    QuietRefl(h.out);
    KeptFine(h, h);
  }

  lemma {:induction false} ResumeAnswerFine(h: Helper, answer: Answer)
    requires Inv(h) && h.state == MrResumeAsk
    ensures Fine(h, ConfigAnswer(h, answer), 0, false)
  {
    hide Resume, Pending, Idle, CountClosed, Quiet, ReportsDeployed;
    if answer == AnsAccept {
      ResumeFacts(h);
      KeptFine(h, Resume(h));
    } else if answer == AnsRefuse && h.hasNewId && h.cacheState == MrDeploy {
      PendingFacts(h);
      KeptFine(h, Pending(h));
    } else if answer == AnsRefuse {
      IdleFine(h);
    } else {
      KeptFineRefl(h);
    }
  }

  lemma {:induction false} ErrorFine(h: Helper, error: int)
    requires Inv(h)
    ensures Fine(h, OnError(h, error), 0, false)
  {
    hide Download, Feedback, CountClosed, Quiet, ReportsDeployed;
    if h.state == MrDownload || h.state == MrVerify || h.state == MrDistribute {
      if h.retryTimes < RETRY_TIMES {
        DownloadFine(h);
      } else {
        FeedbackFine(h.(retryTimes := 0), false, 1000 + error);
      }
    } else {
      FeedbackFine(h, false, 1000 + error);
    }
  }

  lemma {:induction false} UpgradeFine(h: Helper, upgrade: Upgrade)
    requires Inv(h)
    ensures Fine(h, OnUpgrade(h, upgrade), if Closing(h) then 0 else 1, false)
  {
    hide Pending, CountClosed, Quiet, ReportsDeployed;
    if Closing(h) {
      KeptFineRefl(h);
    } else {
      var g := Requested(h, upgrade);
      PendingFacts(g);
      KeptFine(g, Pending(g));
    }
  }

  lemma {:induction false} CancelFine(h: Helper, id: string)
    requires Inv(h)
    ensures Fine(h, OnCancel(h, id), 1, false)
  {
    hide Feedback, SetState, CountClosed, Quiet, ReportsDeployed, MrStateIsAsk, MrStateIsBusy;
    var g := Canceled(h, id);
    if g.state == MrWait || MrStateIsAsk(g.state) {
      ClosingFine(g, true, 0);
    } else if !MrStateIsBusy(g.state) {
      ClosingFine(g, false, 1900);
      var k := Feedback(g, false, 1900);
      ExtraFine(g, k, NoUpgradeToCancel(k.cancelId));
    } else {
      ClosingIsAsk(g);
      SetStateFacts(g, MrCancelAsk);
      KeptFine(g, SetState(g, MrCancelAsk));
    }
  }

  lemma {:induction false} ClosingIsAsk(h: Helper)
    ensures Closing(h) ==> MrStateIsAsk(h.state)
  {
  }

  /** A request that is closed as soon as it arrives. */
  lemma {:induction false} ClosingFine(g: Helper, finished: bool, error: int)
    requires !g.hasFeed && g.feedType == TpCancel && (g.state == MrIdle ==> g.upgrade == EmptyUpgrade)
    ensures Fine(g, Feedback(g, finished, error), 0, false)
    ensures |g.out| <= |Feedback(g, finished, error).out|
  {
    hide Feedback, CountClosed;
    FeedbackFacts(g, finished, error);
  }

  lemma {:induction false} ExtraFine(h: Helper, g: Helper, o: Output)
    requires Fine(h, g, 0, false) && !IsClosed(o) && |h.out| <= |g.out|
    ensures Fine(h, g.(out := g.out + [o]), 0, false)
  {
    QuietAppend(g.out, o);
    QuietCount(g.out, g.out + [o]);
    assert forall j | 0 <= j < |g.out| :: (g.out + [o])[j] == g.out[j];
  }

  lemma {:induction false} PullFine(h: Helper, distributing: bool)
    requires Inv(h)
    ensures Fine(h, OnPull(h, distributing), 0, false)
  {
    hide SendControl, SetState, CountClosed, Quiet, ReportsDeployed;
    KeptFineRefl(h);
    if !Closing(h) && distributing {
      var g := if h.upgrade.download != Skip then SendControl(h, CtlDownload) else h;
      SendControlFacts(h, CtlDownload);
      QuietRefl(h.out);
      SetStateFacts(g, MrDistribute);
      QuietTrans(h.out, g.out, SetState(g, MrDistribute).out);
      KeptFine(h, SetState(g, MrDistribute));
    }
  }

  lemma {:induction false} InitFine(h: Helper, success: bool, state: Option<ServerState>, last: Option<ServerState>,
                                     depends: seq<string>)
    requires Inv(h)
    ensures Fine(h, OnInit(h, success, state, last, depends), 0, false)
  {
    hide Idle, CountClosed, Quiet, ReportsDeployed;
    KeptFineRefl(h);
    if !Closing(h) && success {
      IdleFine(h.(cacheState := if state.Some? then state.value else h.cacheState,
                  cacheLastState := if last.Some? then last.value else h.cacheLastState, cacheDepends := depends));
    }
  }

  lemma {:induction false} StepDoneFine(h: Helper, state: ServerState, request: Output, one: bool)
    requires Inv(h) && (state == MrVerify || state == MrDistribute || state == MrWait) && !IsClosed(request)
    ensures Fine(h, OnStepDone(h, state, if one then [request] else []), 0, false)
  {
    hide SetState, CountClosed, Quiet, ReportsDeployed;
    KeptFineRefl(h);
    if !Closing(h) {
      var g := SetState(h, state);
      SetStateFacts(h, state);
      KeptFine(h, g);
      assert g.out + [] == g.out;
      QuietLonger(h.out, g.out);
      ExtraFine(h, g, request);
    }
  }

  lemma {:induction false} QuietLonger(a: seq<Output>, b: seq<Output>)
    requires Quiet(a, b)
    ensures |a| <= |b|
  {
  }

  lemma {:induction false} ReportedKept(h: Helper, domain: Domain, discovery: bool)
    requires Inv(h)
    ensures Inv(Reported(h, domain, discovery)) && Fine(h, Reported(h, domain, discovery), 0, false)
    ensures Quiet(h.out, Reported(h, domain, discovery).out)
    ensures var g := Reported(h, domain, discovery);
            g.state == h.state && g.upgrade == h.upgrade && Open(g) == Open(h)
  {
    hide Reported, CountClosed, Quiet, ReportsDeployed;
    var r := Reported(h, domain, discovery);
    ReportedFrame(h, domain, discovery);
    QuietCount(h.out, r.out);
    QuietReportsNothing(h.out, r.out);
  }

  /** A report changes the subscription, the details and the quiet output. */
  lemma {:induction false} ReportedFrame(h: Helper, domain: Domain, discovery: bool)
    ensures var r := Reported(h, domain, discovery);
            && r == h.(detailSubscribed := r.detailSubscribed, details := r.details, out := r.out)
            && (h.detailSubscribed ==> r.detailSubscribed) && Quiet(h.out, r.out)
  {
    hide SendControl, Quiet, FindDetail, Update;
    var g := if domain.watcher then h.(detailSubscribed := true) else h;
    ControlFrame(g);
    SendControlQuiet(g, g.control);
    QuietRefl(h.out);
  }

  /** Sending the current control again changes nothing but the output. */
  lemma {:induction false} ControlFrame(h: Helper)
    ensures SendControl(h, h.control) == h.(out := SendControl(h, h.control).out)
  {
    if h.control == CtlUnknown {
      assert SendControl(h, h.control) == h;
    } else {
      assert SendControl(h, h.control) == h.(out := h.out + [Broadcast(h.control, h.upgrade, h.depends)]);
    }
  }

  lemma {:induction false} DomainFine(h: Helper, domain: Domain, discovery: bool)
    requires Inv(h)
    ensures Fine(h, OnDomain(h, domain, discovery), 0, false)
  {
    hide ConfigAnswer, Reported, CountClosed, Quiet;
    KeptFineRefl(h);
    if domain.name != "" {
      ReportedKept(h, domain, discovery);
      var g := Reported(h, domain, discovery);
      if domain.watcher && domain.answer != AnsUnknown {
        AnswerFine(g, domain.answer);
        AnswerGrows(g, domain.answer);
        FineAfterQuiet(h, g, ConfigAnswer(g, domain.answer), false);
      }
    }
  }

  lemma {:induction false} FineAfterQuiet(h: Helper, g: Helper, k: Helper, deployed: bool)
    requires Quiet(h.out, g.out) && Open(g) == Open(h) && Fine(g, k, 0, deployed) && Extends(g.out, k.out)
    ensures Fine(h, k, 0, deployed)
  {
    QuietCount(h.out, g.out);
    if ReportsDeployed(h.out, k.out) { ReportsAfterQuiet(h.out, g.out, k.out); }
  }

  predicate Extends(a: seq<Output>, b: seq<Output>) { |a| <= |b| && b[..|a|] == a }

  lemma {:induction false} AnswerGrows(h: Helper, answer: Answer)
    ensures Extends(h.out, ConfigAnswer(h, answer).out)
  {
    hide Download, Deploy, Cancel, Resume, Pending, Idle, Feedback;
    DownloadFacts(h);
    DeployFacts(h);
    ResumeFacts(h);
    PendingFacts(h);
    IdleFacts(h);
    FeedbackFacts(h, false, -1);
    if h.state == MrCancelAsk { CancelKeepsOpen(h); }
  }

  // ----- the tick

  /** Only entry `i` of the list differs, and neither its package nor the name and version
      it reports. */
  predicate OnlyAt(ds: seq<Detail>, es: seq<Detail>, i: nat)
  {
    && |es| == |ds| && (forall k :: 0 <= k < |ds| && k != i ==> es[k] == ds[k])
    && (i < |ds| ==> es[i].package == ds[i].package && es[i].domain.version == ds[i].domain.version
                     && es[i].domain.name == ds[i].domain.name)
  }

  lemma {:induction false} ScanFirstDetails(c: Scan, i: nat, clock: Clock)
    requires i < |c.h.details|
    ensures OnlyAt(c.h.details, ScanFirst(c, i, clock).h.details, i)
    ensures ScanFirst(c, i, clock).h.state == c.h.state
    ensures ScanFirst(c, i, clock).equal == c.equal + (if AtTarget(c.h.details[i]) then 1 else 0)
    ensures ScanFirst(c, i, clock).wait == c.wait && ScanFirst(c, i, clock).stop == c.stop
    ensures ScanFirst(c, i, clock).h.details[i].domain.state == WrWait ==> c.h.details[i].domain.state == WrWait
  {
    hide AtTarget;
    var d := c.h.details[i];
    if d.domain.state != WrOffline && d.heartbeatActive && i in clock.heartbeatLost {
      assert ScanFirst(c, i, clock).h ==
             WithDetail(c.h, i, d.(domain := d.domain.(last := d.domain.state, state := WrOffline)));
    } else {
      assert ScanFirst(c, i, clock).h == c.h;
    }
  }

  lemma {:induction false} RecomputeDetails(h: Helper, i: nat)
    requires i < |h.details|
    ensures Recompute(h, i).details == h.details[i := h.details[i].(deployActive := false)]
    ensures Recompute(h, i).state == h.state
  {
    hide OutstandingNames;
  }

  lemma {:induction false} ScanDeployDetails(c: Scan, i: nat, clock: Clock)
    requires i < |c.h.details|
    ensures OnlyAt(c.h.details, ScanDeploy(c, i, clock).h.details, i)
    ensures ScanDeploy(c, i, clock).h.state == c.h.state
    ensures ScanDeploy(c, i, clock).equal == c.equal && ScanDeploy(c, i, clock).wait == c.wait
  {
    hide HasDepends, Finished, Recompute;
    var d := c.h.details[i];
    if d.deployActive {
      RecomputeDetails(c.h, i);
    } else {
      var e := ScanDeploy(c, i, clock);
      assert e.h == c.h || e.h == WithDetail(c.h, i, d.(deployActive := true));
    }
  }

  lemma {:induction false} ScanRestDetails(c: Scan, i: nat, clock: Clock)
    requires i < |c.h.details|
    ensures OnlyAt(c.h.details, ScanRest(c, i, clock).h.details, i)
    ensures ScanRest(c, i, clock).h.state == c.h.state
    ensures ScanRest(c, i, clock).equal == c.equal
    ensures c.wait <= ScanRest(c, i, clock).wait <= c.wait + 1
    ensures ScanRest(c, i, clock).wait > c.wait ==> c.h.details[i].domain.state == WrWait
  {
    hide AtTarget, VersionValid, ScanDeploy;
    ScanDeployDetails(c, i, clock);
    if c.h.state == MrCancel { ScanDeployDetails(c.(cancel := c.cancel + 1), i, clock); }
  }

  /** What a look at one domain changes in the list, and what it counts. */
  lemma {:induction false} ScanOneDetails(c: Scan, i: nat, clock: Clock)
    requires i < |c.h.details|
    ensures var e := ScanOne(c, i, clock);
            && OnlyAt(c.h.details, e.h.details, i) && e.h.state == c.h.state
            && c.wait <= e.wait <= c.wait + 1
            && (e.wait > c.wait ==> c.h.details[i].domain.state == WrWait)
            && (e.stop == 0 ==> e.equal == c.equal + (if AtTarget(c.h.details[i]) then 1 else 0))
  {
    hide AtTarget, ScanFirst, ScanRest;
    ScanFirstDetails(c, i, clock);
    ScanRestDetails(ScanFirst(c, i, clock), i, clock);
  }

  /** A count that reaches the number of domains is about all of them. */
  lemma {:induction false} ScanCounts(c: Scan, i: nat, n: nat, clock: Clock)
    requires i <= n == |c.h.details| && c.stop == 0 && ScanFrom(c, i, n, clock).stop == 0
    ensures var e := ScanFrom(c, i, n, clock);
            && e.equal <= c.equal + (n - i) && e.wait <= c.wait + (n - i)
            && (e.equal == c.equal + (n - i) ==> forall k :: i <= k < n ==> AtTarget(c.h.details[k]))
            && (e.wait == c.wait + (n - i) ==> forall k :: i <= k < n ==> c.h.details[k].domain.state == WrWait)
    decreases n - i
  {
    hide AtTarget, ScanOne;
    if i < n {
      var e := ScanOne(c, i, clock);
      if e.stop == 0 {
        ScanOneDetails(c, i, clock);
        ScanCounts(e, i + 1, n, clock);
      }
    }
  }

  predicate AllAtTarget(h: Helper)
  {
    h.details != [] && forall k :: 0 <= k < |h.details| ==> AtTarget(h.details[k])
  }

  predicate AllWaiting(h: Helper)
  {
    h.details != [] && forall k :: 0 <= k < |h.details| ==> h.details[k].domain.state == WrWait
  }

  lemma {:induction false} AfterValidKept(h: Helper, all: bool)
    requires Inv(h) && !h.hasFeed
    ensures Kept(h, AfterValid(h, all)) && Inv(AfterValid(h, all))
    ensures |AfterValid(h, all).details| == |h.details|
    ensures AfterValid(h, all).state == MrDeploy <==> h.state == MrDeploy
    ensures AfterValid(h, all).state == MrWait || AfterValid(h, all).state == MrDeployAsk ==> AfterValid(h, all) == h
  {
    hide Inv, Kept, SetState, Download;
    KeptRefl(h);
    if !all {
      AskedKept(h, MrPending);
    } else if h.state == MrPending {
      AskedKept(h, MrResumeAsk);
      AskedKept(h, MrReady);
    } else {
      DownloadKept(h);
      if h.upgrade.download == Attempt { AskedKept(h, MrDownloadAsk); }
    }
  }

  lemma {:induction false} KeptRefl(h: Helper)
    ensures Kept(h, h)
  {
  }

  lemma {:induction false} AskedKept(h: Helper, state: ServerState)
    requires Inv(h) && !h.hasFeed
    requires state == MrPending || state == MrResumeAsk || state == MrReady
             || (state == MrDownloadAsk && h.upgrade.download == Attempt)
    ensures Kept(h, SetState(h, state)) && Inv(SetState(h, state))
    ensures SetState(h, state).details == h.details && SetState(h, state).state == state
  {
    hide Quiet, Announced;
    SetStateFacts(h, state);
  }

  lemma {:induction false} DownloadKept(h: Helper)
    requires Inv(h) && !h.hasFeed
    ensures Kept(h, Download(h)) && Inv(Download(h)) && Download(h).details == h.details && Download(h).state == MrDownload
  {
    hide Quiet, Announced, Download;
    DownloadFacts(h);
    DownloadDetails(h);
  }

  lemma {:induction false} DownloadDetails(h: Helper)
    ensures Download(h).details == h.details
  {
  }

  lemma {:induction false} AfterWaitKept(h: Helper, all: bool)
    requires Inv(h) && !h.hasFeed
    ensures Kept(h, AfterWait(h, all)) && Inv(AfterWait(h, all))
    ensures AfterWait(h, all).state == MrCancel ==> h.state == MrCancel
    ensures AfterWait(h, all).state == MrDeploy && h.state != MrDeploy ==> all && h.upgrade.deploy == Forced
  {
    hide Quiet, Announced, Deploy;
    QuietRefl(h.out);
    DeployFacts(h);
    SetStateFacts(h, MrDeployAsk);
    SetStateFacts(h, MrWait);
  }

  lemma {:induction false} AfterScanFine(c: Scan)
    requires Inv(c.h) && !c.h.hasFeed
    ensures Fine(c.h, AfterScan(c), 0, All(c.equal, c.h))
    ensures AfterScan(c).state == MrDeploy && c.h.state != MrDeploy ==> All(c.wait, c.h) && c.h.upgrade.deploy == Forced
    ensures Extends(c.h.out, AfterScan(c).out)
  {
    hide AfterValid, Concluded, Feedback, Fine, Extends, Inv;
    var h1 := AfterValid(c.h, All(c.valid, c.h));
    AfterValidKept(c.h, All(c.valid, c.h));
    if All(c.equal, h1) && (h1.firstStart || h1.state == MrDeploy) {
      FeedbackEnds(c.h, h1, true, 0);
      FineWeakens(c.h, Feedback(h1, true, 0), h1.feedType == TpDeploy, All(c.equal, c.h));
    } else {
      AfterWaitFine(c, h1);
      FineWeakens(c.h, AfterScan(c), false, All(c.equal, c.h));
    }
  }

  lemma {:induction false} FineWeakens(h: Helper, g: Helper, p: bool, q: bool)
    requires Fine(h, g, 0, p) && (p ==> q)
    ensures Fine(h, g, 0, q)
  {
  }

  lemma {:induction false} KeptTrans(h: Helper, g: Helper, k: Helper)
    requires Kept(h, g) && Kept(g, k)
    ensures Kept(h, k)
  {
    hide Quiet;
    QuietTrans(h.out, g.out, k.out);
  }

  /** What follows the test for a deployment that is done. */
  lemma {:induction false} AfterWaitFine(c: Scan, h1: Helper)
    requires Inv(h1) && !h1.hasFeed && Kept(c.h, h1) && |h1.details| == |c.h.details|
    requires h1.state == MrDeploy <==> c.h.state == MrDeploy
    ensures var g := Concluded(h1, c.wait, c.cancel, c.errors);
            && Fine(c.h, g, 0, false) && Extends(c.h.out, g.out)
            && (g.state == MrDeploy && c.h.state != MrDeploy ==> All(c.wait, c.h) && c.h.upgrade.deploy == Forced)
  {
    hide AfterWait, Feedback, Fine, Extends, Inv, Quiet;
    var h2 := AfterWait(h1, All(c.wait, h1));
    AfterWaitKept(h1, All(c.wait, h1));
    KeptTrans(c.h, h1, h2);
    CancelsCancel(h2);
    FeedbackEnds(c.h, h2, true, 0);
    FeedbackEnds(c.h, h2, false, 1950);
    KeptFine(c.h, h2);
    QuietExtends(c.h.out, h2.out);
  }

  lemma {:induction false} CancelsCancel(h: Helper)
    requires Inv(h)
    ensures h.state == MrCancel ==> h.feedType != TpDeploy
  {
  }

  lemma {:induction false} QuietExtends(a: seq<Output>, b: seq<Output>)
    requires Quiet(a, b)
    ensures Extends(a, b)
  {
  }

  /** A feedback behind quiet work. */
  lemma {:induction false} FeedbackEnds(h: Helper, g: Helper, finished: bool, error: int)
    requires Kept(h, g) && Inv(g) && !g.hasFeed
    ensures Fine(h, Feedback(g, finished, error), 0, finished && g.feedType == TpDeploy)
    ensures Extends(h.out, Feedback(g, finished, error).out)
    ensures g.state != MrDeploy ==> Feedback(g, finished, error).state != MrDeploy
  {
    hide Feedback, Quiet, CountClosed;
    FeedbackFine(g, finished, error);
    FeedbackFacts(g, finished, error);
    QuietCount(h.out, g.out);
    QuietExtends(h.out, g.out);
    ExtendsTrans(h.out, g.out, Feedback(g, finished, error).out);
    FineAfterQuiet(h, g, Feedback(g, finished, error), finished && g.feedType == TpDeploy);
  }

  lemma {:induction false} ExtendsTrans(a: seq<Output>, b: seq<Output>, c: seq<Output>)
    requires Extends(a, b) && Extends(b, c)
    ensures Extends(a, c)
  {
    assert c[..|a|] == c[..|b|][..|a|];
  }

  lemma {:induction false} WithinKept(h: Helper, g: Helper)
    requires Inv(h) && Within(h, g)
    ensures Kept(h, g) && Inv(g) && g.state == h.state && g.hasFeed == h.hasFeed
  {
  }

  /** One tick: the invariant, the report of a successful deployment, and the deployment
      started without asking. */
  lemma {:induction false} TickFine(h: Helper, clock: Clock)
    requires Inv(h)
    ensures Fine(h, ProcessDomains(h, clock), 0, AllAtTarget(h))
    ensures ProcessDomains(h, clock).state == MrDeploy && h.state != MrDeploy ==>
              AllWaiting(h) && h.upgrade.deploy == Forced
  {
    hide Scanned, ScanFrom, Feedback, AfterScan, Quiet, CountClosed, ReportsDeployed, AtTarget;
    if Sleeping(h) {
      KeptFineRefl(h);
    } else if TimedOut(h, clock) {
      QuietRefl(h.out);
      FeedbackEnds(h, h, false, Limit(h.state));
    } else {
      ScannedFine(h, clock);
    }
  }

  lemma {:induction false} ScannedFine(h: Helper, clock: Clock)
    requires Inv(h) && !Sleeping(h)
    ensures var c := Scanned(h, clock);
            && (c.stop != 0 ==> Fine(h, Feedback(c.h, false, c.stop), 0, false))
            && (c.stop != 0 ==> h.state != MrDeploy ==> Feedback(c.h, false, c.stop).state != MrDeploy)
            && (c.stop == 0 ==> Fine(h, AfterScan(c), 0, AllAtTarget(h)))
            && (c.stop == 0 ==> AfterScan(c).state == MrDeploy && h.state != MrDeploy ==>
                                  AllWaiting(h) && h.upgrade.deploy == Forced)
  {
    hide ScanFrom, Feedback, AfterScan, Quiet, CountClosed, ReportsDeployed, AtTarget;
    var c := Scanned(h, clock);
    var n := |h.details|;
    ScanWithin(Scan(h, 0, 0, 0, 0, 0, 0), 0, n, clock);
    WithinKept(h, c.h);
    if c.stop != 0 {
      FeedbackEnds(h, c.h, false, c.stop);
    } else {
      ScanCounts(Scan(h, 0, 0, 0, 0, 0, 0), 0, n, clock);
      AfterScanFine(c);
      FineAfterQuiet(h, c.h, AfterScan(c), All(c.equal, c.h));
    }
  }

  // ----- the theorems

  /** Every event keeps the invariant, and what it reports or closes is accounted for. */
  lemma {:induction false} StepFine(h: Helper, e: Event)
    requires Inv(h)
    ensures Fine(h, Step(h, e), if Accepted(h, e) then 1 else 0, e.Tick? && AllAtTarget(h))
  {
    hide OnError, OnUpgrade, OnCancel, OnPull, OnInit, OnStepDone, OnDomain, ProcessDomains, Idle, CountClosed,
         ReportsDeployed, AtTarget;
    KeptFineRefl(h);
    match e {
      case ResError(error) => ErrorFine(h, error);
      case ReqActive(active) => KeptFine(h, h.(active := active)) by { QuietRefl(h.out); }
      case ReqIdle => IdleFine(h);
      case ReqUpgrade(upgrade) => UpgradeFine(h, upgrade);
      case ReqCancel(id) => CancelFine(h, id);
      case ReqPull(distributing) => PullFine(h, distributing);
      case ResInit(success, state, last, depends) => InitFine(h, success, state, last, depends);
      case ResDownloadDone => StepDoneFine(h, MrVerify, WebVerify, true);
      case ResVerifyDone => StepDoneFine(h, MrDistribute, WebDistribute, true);
      case ResDistributeDone => StepDoneFine(h, MrWait, WebStop, false);
      case ResDomain(domain, discovery) => DomainFine(h, domain, discovery);
      case Tick(clock) => TickFine(h, clock);
      case _ =>
    }
  }

  /** The invariant after every run. */
  lemma {:induction false} RunKeeps(firstStart: bool, sorting: map<seq<Detail>, seq<Detail>>, events: seq<Event>)
    ensures Inv(Run(Initial(firstStart, sorting), events))
    ensures var h := Run(Initial(firstStart, sorting), events);
            CountClosed(h.out) + Open(h) <= CountAccepted(Initial(firstStart, sorting), events)
  {
    hide Step, CountClosed;
    if events == [] {
      NothingClosed();
    } else {
      var init := events[..|events| - 1];
      RunKeeps(firstStart, sorting, init);
      StepFine(Run(Initial(firstStart, sorting), init), events[|events| - 1]);
    }
  }

  lemma {:induction false} NothingClosed()
    ensures CountClosed([]) == 0
  {
  }

  /** Quiescence: once a request has been reported closed, and until the next one, the last
      control is CTL_CLEAR, the server is in no working state, and it waits for the user's
      answer unless its upgrade is empty. Late web events change nothing of this. */
  lemma {:induction false} QuietOnceClosed(firstStart: bool, sorting: map<seq<Detail>, seq<Detail>>, events: seq<Event>)
    ensures var h := Run(Initial(firstStart, sorting), events);
            h.hasFeed ==> h.control == CtlClear && !Working(h.state) && (Closing(h) || h.upgrade == EmptyUpgrade)
  {
    RunKeeps(firstStart, sorting, events);
  }

  /** One closing per request, over every run. */
  lemma {:induction false} OneClosingPerRequest(firstStart: bool, sorting: map<seq<Detail>, seq<Detail>>, events: seq<Event>)
    ensures CountClosed(Run(Initial(firstStart, sorting), events).out) <= CountAccepted(Initial(firstStart, sorting), events)
  {
    RunKeeps(firstStart, sorting, events);
  }

  /** A successful deployment is reported only by a tick at which every domain of a
      non-empty list reports its package's version. */
  lemma {:induction false} SuccessMeansAllAtTarget(firstStart: bool, sorting: map<seq<Detail>, seq<Detail>>, events: seq<Event>, e: Event)
    ensures var h := Run(Initial(firstStart, sorting), events);
            ReportsDeployed(h.out, Step(h, e).out) ==> e.Tick? && AllAtTarget(h)
  {
    RunKeeps(firstStart, sorting, events);
    StepFine(Run(Initial(firstStart, sorting), events), e);
  }

  /** The user, the forced method with everyone waiting, or nobody. */
  predicate Consented(h: Helper, e: Event)
  {
    || (e.Tick? && h.upgrade.deploy == Forced && AllWaiting(h))
    || (e.ResDomain? && e.domain.watcher && e.domain.answer == AnsAccept
        && ((h.state == MrDeployAsk && h.upgrade.deploy == Attempt) || h.state == MrResumeAsk))
  }

  lemma {:induction false} AnswerDeploys(h: Helper, answer: Answer)
    requires h.state != MrDeploy && ConfigAnswer(h, answer).state == MrDeploy
    ensures answer == AnsAccept && (h.state == MrDeployAsk || h.state == MrResumeAsk)
  {
    hide Download, Deploy, Cancel, Resume, Pending, Idle, Feedback, CountClosed, Quiet;
    DownloadFacts(h);
    PendingFacts(h);
    IdleFacts(h);
    FeedbackFacts(h, false, -1);
    if h.state == MrCancelAsk { CancelKeepsOpen(h); }
  }

  lemma {:induction false} StepDeploys(h: Helper, e: Event)
    requires Inv(h) && h.state != MrDeploy && Step(h, e).state == MrDeploy
    ensures Consented(h, e)
  {
    hide ConfigAnswer, Reported, ProcessDomains, OnError, OnUpgrade, OnCancel, OnPull, OnInit, OnStepDone, Idle,
         CountClosed, Quiet, ReportsDeployed, AllWaiting, AllAtTarget;
    match e {
      case ResDomain(domain, discovery) =>
        ReportedKept(h, domain, discovery);
        AnswerDeploys(Reported(h, domain, discovery), domain.answer);
      case Tick(clock) => TickDeploys(h, clock);
      case _ => QuietEvents(h, e);
    }
  }

  lemma {:induction false} TickDeploys(h: Helper, clock: Clock)
    requires Inv(h) && h.state != MrDeploy && ProcessDomains(h, clock).state == MrDeploy
    ensures AllWaiting(h) && h.upgrade.deploy == Forced
  {
    hide ProcessDomains, CountClosed, Quiet, ReportsDeployed, AllWaiting, AllAtTarget, Inv;
    TickFine(h, clock);
  }

  /** No other event enters the deployment. */
  lemma {:induction false} QuietEvents(h: Helper, e: Event)
    requires h.state != MrDeploy && !e.ResDomain? && !e.Tick?
    ensures Step(h, e).state != MrDeploy
  {
    hide OnUpgrade, OnCancel, OnError, OnInit, Idle, SetState, SendControl, OnDomain, ProcessDomains;
    match e {
      case ResError(error) => QuietError(h, error);
      case ReqIdle => IdleFacts(h);
      case ReqUpgrade(upgrade) => QuietUpgrade(h, upgrade);
      case ReqCancel(id) => QuietCancel(h, id);
      case ReqPull(_) =>
        SetStateFacts(h, MrDistribute);
        SetStateFacts(SendControl(h, CtlDownload), MrDistribute);
      case ResInit(success, state, last, depends) => QuietInit(h, success, state, last, depends);
      case ResDownloadDone => SetStateFacts(h, MrVerify);
      case ResVerifyDone => SetStateFacts(h, MrDistribute);
      case ResDistributeDone => SetStateFacts(h, MrWait);
      case _ =>
    }
  }

  lemma {:induction false} QuietError(h: Helper, error: int)
    requires h.state != MrDeploy
    ensures OnError(h, error).state != MrDeploy
  {
    hide Download, Feedback;
    DownloadFacts(h);
    FeedbackFacts(h, false, 1000 + error);
    FeedbackFacts(h.(retryTimes := 0), false, 1000 + error);
  }

  lemma {:induction false} QuietUpgrade(h: Helper, upgrade: Upgrade)
    requires h.state != MrDeploy
    ensures OnUpgrade(h, upgrade).state != MrDeploy
  {
    hide Pending;
    PendingFacts(Requested(h, upgrade));
  }

  lemma {:induction false} QuietCancel(h: Helper, id: string)
    requires h.state != MrDeploy
    ensures OnCancel(h, id).state != MrDeploy
  {
    hide Feedback, SetState, MrStateIsAsk, MrStateIsBusy;
    FeedbackFacts(Canceled(h, id), true, 0);
    FeedbackFacts(Canceled(h, id), false, 1900);
    SetStateFacts(Canceled(h, id), MrCancelAsk);
  }

  lemma {:induction false} QuietInit(h: Helper, success: bool, state: Option<ServerState>, last: Option<ServerState>,
                                      depends: seq<string>)
    requires h.state != MrDeploy
    ensures OnInit(h, success, state, last, depends).state != MrDeploy
  {
    hide Idle;
    IdleFacts(h.(cacheState := if state.Some? then state.value else h.cacheState,
                 cacheLastState := if last.Some? then last.value else h.cacheLastState, cacheDepends := depends));
  }

  /** Consent: in every run, each step into the deployment was consented to. */
  lemma {:induction false} DeployOnlyWithConsent(firstStart: bool, sorting: map<seq<Detail>, seq<Detail>>, events: seq<Event>, e: Event)
    ensures var h := Run(Initial(firstStart, sorting), events);
            h.state != MrDeploy && Step(h, e).state == MrDeploy ==> Consented(h, e)
  {
    hide Step;
    RunKeeps(firstStart, sorting, events);
    var h := Run(Initial(firstStart, sorting), events);
    if h.state != MrDeploy && Step(h, e).state == MrDeploy { StepDeploys(h, e); }
  }

  /** While the outcome is shown, nothing but the user's acceptance leads away from it, and
      that leads to idle. */
  lemma {:induction false} OutcomeStays(h: Helper, e: Event)
    requires Inv(h) && Closing(h)
    ensures Closing(Step(h, e)) ||
            (e.ResDomain? && e.domain.watcher && e.domain.answer == AnsAccept && Step(h, e).state == MrIdle)
  {
    hide Idle, OnError, OnCancel, OnDomain, Pending, SetState, SendControl, ScanFrom, AfterScan;
    match e {
      case ReqCancel(id) => CancelClosing(h, id);
      case ResError(error) => ErrorClosing(h, error);
      case ResDomain(domain, discovery) => DomainClosing(h, domain, discovery);
      case _ =>
    }
  }

  lemma {:induction false} ErrorClosing(h: Helper, error: int)
    requires Inv(h) && Closing(h)
    ensures Closing(OnError(h, error))
  {
    hide Download, Feedback;
    FeedbackFacts(h, false, 1000 + error);
  }

  lemma {:induction false} CancelClosing(h: Helper, id: string)
    requires Inv(h) && Closing(h)
    ensures Closing(OnCancel(h, id))
  {
    hide Feedback, SetState;
    FeedbackFacts(Canceled(h, id), true, 0);
  }

  lemma {:induction false} DomainClosing(h: Helper, domain: Domain, discovery: bool)
    requires Inv(h) && Closing(h)
    ensures Closing(OnDomain(h, domain, discovery)) ||
            (domain.watcher && domain.answer == AnsAccept && OnDomain(h, domain, discovery).state == MrIdle)
  {
    hide Idle, Reported, Quiet;
    ReportedKept(h, domain, discovery);
    IdleFacts(Reported(h, domain, discovery));
  }
}
