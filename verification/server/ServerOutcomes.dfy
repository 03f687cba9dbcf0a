/** Whatever an event reports as closed is what the user is shown. */
module ServerOutcomes {
  import opened Domain
  import opened Options
  import opened Server
  import opened ServerEffects
  import opened ServerTicks
  import R = ServerRuns

  /** Every closed report from `h` to `g` is a success if the outcome shown is MR_DONE_ASK, and
      a failure if it is MR_ERROR_ASK. */
  predicate Told(h: Helper, g: Helper)
  {
    |h.out| <= |g.out| &&
    forall k :: |h.out| <= k < |g.out| && g.out[k].Closed? && Closing(g) ==>
      (g.out[k].success <==> g.state == MrDoneAsk)
  }

  lemma {:induction false} QuietTold(h: Helper, g: Helper)
    requires R.Quiet(h.out, g.out)
    ensures Told(h, g)
  {
  }

  /** A feedback behind quiet work. */
  lemma {:induction false} FeedbackTold(h: Helper, g: Helper, finished: bool, error: int)
    requires R.Quiet(h.out, g.out)
    ensures Told(h, Feedback(g, finished, error))
  {
    hide Feedback;
    FeedbackMeaning(g, finished, error);
  }

  lemma {:induction false} AnswerTold(h: Helper, g: Helper, answer: Answer)
    requires R.Quiet(h.out, g.out)
    ensures Told(h, ConfigAnswer(g, answer))
  {
    hide Download, Deploy, Cancel, Resume, Pending, Idle, Feedback, Told, R.Quiet;
    QuietTold(h, g);
    R.DownloadFacts(g);
    R.DeployFacts(g);
    R.ResumeFacts(g);
    R.PendingFacts(g);
    R.IdleFacts(g);
    if g.state == MrCancelAsk { R.CancelKeepsOpen(g); }
    FeedbackTold(h, g, false, -1);
    AnswerCases(h, g, answer);
  }

  /** An answer is quiet, or a feedback. */
  lemma {:induction false} AnswerCases(h: Helper, g: Helper, answer: Answer)
    requires R.Quiet(h.out, g.out) && Told(h, Feedback(g, false, -1))
    requires R.Quiet(g.out, Download(g).out) && R.Quiet(g.out, Deploy(g).out) && R.Quiet(g.out, Resume(g).out)
    requires R.Quiet(g.out, Pending(g).out) && R.Quiet(g.out, Idle(g).out)
    requires g.state == MrCancelAsk ==> R.Quiet(g.out, Cancel(g).out)
    ensures Told(h, ConfigAnswer(g, answer))
  {
    hide Download, Deploy, Cancel, Resume, Pending, Idle, Feedback, Told, R.Quiet;
    var k := ConfigAnswer(g, answer);
    if answer == AnsRefuse && (g.state == MrDownloadAsk || g.state == MrDeployAsk || g.state == MrCancelAsk) {
    } else {
      R.QuietRefl(g.out);
      R.QuietTrans(h.out, g.out, k.out);
      QuietTold(h, k);
    }
  }

  lemma {:induction false} NoteTold(h: Helper, g: Helper, o: Output)
    requires Told(h, g) && !o.Closed?
    ensures Told(h, g.(out := g.out + [o]))
  {
  }

  lemma {:induction false} CancelTold(h: Helper, id: string)
    ensures Told(h, OnCancel(h, id))
  {
    hide Feedback, SetState, Told, R.Quiet, MrStateIsAsk, MrStateIsBusy;
    var c := Canceled(h, id);
    R.QuietRefl(h.out);
    FeedbackTold(h, c, true, 0);
    FeedbackTold(h, c, false, 1900);
    var k := Feedback(c, false, 1900);
    NoteTold(h, k, NoUpgradeToCancel(k.cancelId));
    R.SetStateFacts(c, MrCancelAsk);
    QuietTold(h, SetState(c, MrCancelAsk));
  }

  lemma {:induction false} ErrorTold(h: Helper, error: int)
    ensures Told(h, OnError(h, error))
  {
    hide Feedback, Download, Told, R.Quiet;
    R.QuietRefl(h.out);
    R.DownloadFacts(h);
    QuietTold(h, Download(h).(retryTimes := Download(h).retryTimes + 1));
    FeedbackTold(h, h, false, 1000 + error);
    FeedbackTold(h, h.(retryTimes := 0), false, 1000 + error);
  }

  lemma {:induction false} EntersQuiet(h: Helper, g: Helper, state: ServerState)
    requires Enters(h, g, state)
    ensures R.Quiet(h.out, g.out)
  {
  }

  lemma {:induction false} ReportsQuiet(s: Helper, m: Helper, all: bool)
    requires AfterReports(s, m, all)
    ensures R.Quiet(s.out, m.out)
  {
    hide Enters, Download, R.Quiet;
    R.QuietRefl(s.out);
    R.DownloadFacts(s);
    if Enters(s, m, MrResumeAsk) { EntersQuiet(s, m, MrResumeAsk); }
    if Enters(s, m, MrReady) { EntersQuiet(s, m, MrReady); }
    if Enters(s, m, MrDownloadAsk) { EntersQuiet(s, m, MrDownloadAsk); }
    if Enters(s, m, MrPending) { EntersQuiet(s, m, MrPending); }
  }

  lemma {:induction false} WaitsQuiet(s: Helper, m: Helper, all: bool)
    requires AfterWaits(s, m, all)
    ensures R.Quiet(s.out, m.out)
  {
    hide Enters, Deploy, R.Quiet;
    R.QuietRefl(s.out);
    R.DeployFacts(s);
    if Enters(s, m, MrDeployAsk) { EntersQuiet(s, m, MrDeployAsk); }
    if Enters(s, m, MrWait) { EntersQuiet(s, m, MrWait); }
  }

  lemma {:induction false} TickTold(h: Helper, clock: Clock)
    ensures Told(h, Step(h, Tick(clock)))
  {
    hide Step, Feedback, Told, R.Quiet, Looped, Concludes, Faultless, Fault;
    var g := Step(h, Tick(clock));
    TickMeaning(h, clock);
    R.QuietRefl(h.out);
    QuietTold(h, h);
    FeedbackTold(h, h, false, LimitError(h.state));
    if Awake(h) && !(clock.stateExpired && LimitError(h.state) != 0) {
      var s :| Looped(h, s) &&
               if Faultless(h, clock) then Concludes(h, s, g, clock)
               else exists k :: 0 <= k < |h.details| && FirstFault(h, k, clock)
                                && g == Feedback(s, false, Fault(h, h.details[k], k, clock));
      LoopedQuiet(h, s);
      if Faultless(h, clock) {
        ConcludedTold(h, s, g, clock);
      } else {
        var k :| 0 <= k < |h.details| && FirstFault(h, k, clock)
                 && g == Feedback(s, false, Fault(h, h.details[k], k, clock));
        FeedbackTold(h, s, false, Fault(h, h.details[k], k, clock));
      }
    }
  }

  lemma {:induction false} LoopedQuiet(h: Helper, s: Helper)
    requires Looped(h, s)
    ensures R.Quiet(h.out, s.out)
  {
  }

  lemma {:induction false} ConcludedTold(h: Helper, s: Helper, g: Helper, clock: Clock)
    requires R.Quiet(h.out, s.out) && Concludes(h, s, g, clock)
    ensures Told(h, g)
  {
    hide Feedback, Told, R.Quiet, AfterReports, AfterWaits, EveryAt, EveryReports, EveryWaits, EveryCanceled, SomeBad;
    var m :| AfterReports(s, m, EveryReports(h, clock)) &&
      if EveryAt(h) && (h.firstStart || h.state == MrDeploy) then g == Feedback(m, true, 0)
      else exists w :: AfterWaits(m, w, EveryWaits(h, clock)) && Ended(w, g, EveryCanceled(h, clock), SomeBad(h));
    ReportsQuiet(s, m, EveryReports(h, clock));
    R.QuietTrans(h.out, s.out, m.out);
    if EveryAt(h) && (h.firstStart || h.state == MrDeploy) {
      FeedbackTold(h, m, true, 0);
    } else {
      var w :| AfterWaits(m, w, EveryWaits(h, clock)) && Ended(w, g, EveryCanceled(h, clock), SomeBad(h));
      WaitsQuiet(m, w, EveryWaits(h, clock));
      R.QuietTrans(h.out, m.out, w.out);
      QuietTold(h, w);
      FeedbackTold(h, w, true, 0);
      FeedbackTold(h, w, false, 1950);
    }
  }

  lemma {:induction false} QuietStep(h: Helper, e: Event)
    requires R.Inv(h)
    requires e.ReqActive? || e.ReqIdle? || e.ReqUpgrade? || e.ReqPull? || e.ResInit? || e.ResDownloadDone?
             || e.ResVerifyDone? || e.ResDistributeDone? || e.ResFeedbackDone? || e.ResTransferProgress?
    ensures R.Quiet(h.out, Step(h, e).out)
  {
    hide Idle, Pending, SetState, SendControl, R.Quiet, R.Inv;
    R.QuietRefl(h.out);
    match e {
      case ReqIdle => R.IdleFacts(h);
      case ReqUpgrade(upgrade) => R.PendingFacts(Requested(h, upgrade));
      case ReqPull(distributing) => PullQuiet(h, distributing);
      case ResInit(success, state, last, depends) => InitQuiet(h, success, state, last, depends);
      case ResDownloadDone => WebQuiet(h, MrVerify, [WebVerify]);
      case ResVerifyDone => WebQuiet(h, MrDistribute, [WebDistribute]);
      case ResDistributeDone => WebQuiet(h, MrWait, []);
      case _ =>
    }
  }

  lemma {:induction false} PullQuiet(h: Helper, distributing: bool)
    ensures R.Quiet(h.out, OnPull(h, distributing).out)
  {
    hide SetState, SendControl, R.Quiet;
    R.QuietRefl(h.out);
    var k := SendControl(h, CtlDownload);
    R.SendControlQuiet(h, CtlDownload);
    R.SetStateFacts(h, MrDistribute);
    R.SetStateFacts(k, MrDistribute);
    R.QuietTrans(h.out, k.out, SetState(k, MrDistribute).out);
  }

  lemma {:induction false} InitQuiet(h: Helper, success: bool, state: Option<ServerState>, last: Option<ServerState>,
                                     depends: seq<string>)
    ensures R.Quiet(h.out, OnInit(h, success, state, last, depends).out)
  {
    hide Idle, R.Quiet;
    R.QuietRefl(h.out);
    R.IdleFacts(h.(cacheState := if state.Some? then state.value else h.cacheState,
                   cacheLastState := if last.Some? then last.value else h.cacheLastState, cacheDepends := depends));
  }

  lemma {:induction false} WebQuiet(h: Helper, state: ServerState, request: seq<Output>)
    requires forall k :: 0 <= k < |request| ==> !request[k].Closed?
    ensures R.Quiet(h.out, OnStepDone(h, state, request).out)
  {
    hide SetState;
    R.SetStateFacts(h, state);
  }

  /** Every event tells the truth: a report it closes is a success exactly when the outcome it
      shows, if it shows one, is MR_DONE_ASK. */
  lemma {:induction false} OutcomeIsTold(h: Helper, e: Event)
    requires R.Inv(h)
    ensures Told(h, Step(h, e))
  {
    hide R.Inv, Told, OnError, OnCancel, OnDomain, ProcessDomains;
    match e {
      case ResError(error) => ErrorTold(h, error);
      case ReqCancel(id) => CancelTold(h, id);
      case ResDomain(domain, discovery) => DomainTold(h, domain, discovery);
      case Tick(clock) => TickTold(h, clock);
      case _ => QuietStep(h, e); QuietTold(h, Step(h, e));
    }
  }

  lemma {:induction false} DomainTold(h: Helper, domain: Domain, discovery: bool)
    ensures Told(h, OnDomain(h, domain, discovery))
  {
    hide Reported, ConfigAnswer, Told, R.Quiet;
    R.QuietRefl(h.out);
    QuietTold(h, h);
    R.ReportedFrame(h, domain, discovery);
    var r := Reported(h, domain, discovery);
    QuietTold(h, r);
    AnswerTold(h, r, domain.answer);
  }
}
