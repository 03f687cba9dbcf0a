/** How long the depends list stays the whole list: from the request until the deployment. */
module ServerLists {
  import opened Domain
  import opened Options
  import opened Server
  import opened ServerEffects
  import opened ServerTicks
  import R = ServerRuns

  /** States in which nothing is taken from the list. */
  predicate Settled(state: ServerState)
  {
    state != MrDeploy && state != MrCancel && state != MrResumeAsk && state != MrIdle && state != MrOffline
    && state != MrUnknown
  }

  predicate SameList(h: Helper, g: Helper) { g.depends == h.depends && g.upgrade == h.upgrade }

  lemma {:induction false} FeedbackList(h: Helper, g: Helper, finished: bool, error: int)
    requires SameList(h, g)
    ensures g.state != MrIdle && Feedback(g, finished, error).state != MrIdle ==>
              SameList(h, Feedback(g, finished, error))
  {
    hide Feedback;
    FeedbackMeaning(g, finished, error);
  }

  lemma {:induction false} AnswerList(h: Helper, g: Helper, answer: Answer)
    requires SameList(h, g) && Settled(g.state) && ConfigAnswer(g, answer).state != MrIdle
    ensures SameList(h, ConfigAnswer(g, answer))
  {
    hide Download, Deploy, Cancel, Resume, Pending, Idle, Feedback, SameList;
    HandledList(h, g);
    FeedbackList(h, g, false, -1);
    IdleState(g);
  }

  lemma {:induction false} HandledList(h: Helper, g: Helper)
    requires SameList(h, g)
    ensures SameList(h, Download(g)) && SameList(h, Deploy(g))
    ensures g.state == MrCancelAsk ==> SameList(h, Cancel(g))
  {
    hide Download, Deploy, Cancel;
    DownloadFrame(g);
    DeployFrame(g);
    if g.state == MrCancelAsk { CancelList(g); }
  }

  lemma {:induction false} IdleState(h: Helper)
    ensures Idle(h).state == MrIdle
  {
    hide Idle;
    IdleMeaning(h);
  }

  lemma {:induction false} CancelList(h: Helper)
    requires h.state == MrCancelAsk
    ensures SameList(h, Cancel(h))
  {
    hide Cancel;
    CancellingMeaning(h);
    var k := h.(control := CtlCancel, out := h.out + [Broadcast(CtlCancel, h.upgrade, h.depends)]);
    EntersFacts(k, Cancel(h), MrCancel);
  }

  lemma {:induction false} TickList(h: Helper, clock: Clock)
    requires Settled(h.state) && Step(h, Tick(clock)).state != MrIdle
    ensures SameList(h, Step(h, Tick(clock)))
  {
    hide Step, Feedback, Concludes, Faultless, Fault, Looped, Awake, LimitError, SameList, FirstFault;
    SameTo(h);
    TickMeaning(h, clock);
    FeedbackList(h, h, false, LimitError(h.state));
    if Awake(h) && !(clock.stateExpired && LimitError(h.state) != 0) { LoopedList(h, Step(h, Tick(clock)), clock); }
  }

  lemma {:induction false} SameTo(h: Helper)
    ensures SameList(h, h) && (Settled(h.state) ==> h.state != MrIdle)
  {
  }

  lemma {:induction false} LoopedSame(h: Helper, s: Helper)
    requires Settled(h.state) && Looped(h, s)
    ensures SameList(h, s) && s.state != MrIdle
  {
  }

  lemma {:induction false} LoopedList(h: Helper, g: Helper, clock: Clock)
    requires Settled(h.state) && g.state != MrIdle
    requires exists s :: Looped(h, s) &&
               if Faultless(h, clock) then Concludes(h, s, g, clock)
               else exists k :: 0 <= k < |h.details| && FirstFault(h, k, clock)
                                && g == Feedback(s, false, Fault(h, h.details[k], k, clock))
    ensures SameList(h, g)
  {
    hide Feedback, Concludes, Faultless, Fault, Looped, SameList, FirstFault, Settled;
    var s :| Looped(h, s) &&
             if Faultless(h, clock) then Concludes(h, s, g, clock)
             else exists k :: 0 <= k < |h.details| && FirstFault(h, k, clock)
                              && g == Feedback(s, false, Fault(h, h.details[k], k, clock));
    LoopedSame(h, s);
    if Faultless(h, clock) {
      ConcludedList(h, s, g, clock);
    } else {
      var k :| 0 <= k < |h.details| && FirstFault(h, k, clock)
               && g == Feedback(s, false, Fault(h, h.details[k], k, clock));
      FeedbackList(h, s, false, Fault(h, h.details[k], k, clock));
    }
  }

  lemma {:induction false} ConcludedList(h: Helper, s: Helper, g: Helper, clock: Clock)
    requires SameList(h, s) && s.state != MrIdle && Concludes(h, s, g, clock) && g.state != MrIdle
    ensures SameList(h, g)
  {
    hide Feedback, EveryAt, EveryReports, EveryWaits, EveryCanceled, SomeBad, AfterReports, AfterWaits;
    var m :| AfterReports(s, m, EveryReports(h, clock)) &&
      if EveryAt(h) && (h.firstStart || h.state == MrDeploy) then g == Feedback(m, true, 0)
      else exists w :: AfterWaits(m, w, EveryWaits(h, clock)) && Ended(w, g, EveryCanceled(h, clock), SomeBad(h));
    ReportsList(s, m, EveryReports(h, clock));
    FeedbackList(h, m, true, 0);
    if !(EveryAt(h) && (h.firstStart || h.state == MrDeploy)) {
      var w :| AfterWaits(m, w, EveryWaits(h, clock)) && Ended(w, g, EveryCanceled(h, clock), SomeBad(h));
      WaitsList(m, w, EveryWaits(h, clock));
      FeedbackList(h, w, true, 0);
      FeedbackList(h, w, false, 1950);
    }
  }

  lemma {:induction false} ReportsList(s: Helper, m: Helper, all: bool)
    requires AfterReports(s, m, all) && s.state != MrIdle
    ensures SameList(s, m) && m.state != MrIdle
  {
    hide Enters, Download;
    DownloadFrame(s);
    if Enters(s, m, MrResumeAsk) { EntersFacts(s, m, MrResumeAsk); }
    if Enters(s, m, MrReady) { EntersFacts(s, m, MrReady); }
    if Enters(s, m, MrDownloadAsk) { EntersFacts(s, m, MrDownloadAsk); }
    if Enters(s, m, MrPending) { EntersFacts(s, m, MrPending); }
  }

  lemma {:induction false} WaitsList(s: Helper, m: Helper, all: bool)
    requires AfterWaits(s, m, all) && s.state != MrIdle
    ensures SameList(s, m) && m.state != MrIdle
  {
    hide Enters, Deploy;
    DeployFrame(s);
    if Enters(s, m, MrDeployAsk) { EntersFacts(s, m, MrDeployAsk); }
    if Enters(s, m, MrWait) { EntersFacts(s, m, MrWait); }
  }

  lemma {:induction false} PullList(h: Helper, distributing: bool)
    ensures SameList(h, OnPull(h, distributing))
  {
    hide SetState, SendControl;
    ControlKeeps(h, CtlDownload);
    StateFacts(h, MrDistribute);
    StateFacts(SendControl(h, CtlDownload), MrDistribute);
  }

  lemma {:induction false} StepDoneList(h: Helper, state: ServerState, request: seq<Output>)
    ensures SameList(h, OnStepDone(h, state, request))
  {
    hide SetState, Enters;
    StateFacts(h, state);
  }

  lemma {:induction false} InitList(h: Helper, e: Event)
    requires e.ResInit? && OnInit(h, e.success, e.state, e.last, e.depends).state != MrIdle
    ensures SameList(h, OnInit(h, e.success, e.state, e.last, e.depends))
  {
    hide Idle;
    IdleMeaning(h.(cacheState := if e.state.Some? then e.state.value else h.cacheState,
                   cacheLastState := if e.last.Some? then e.last.value else h.cacheLastState,
                   cacheDepends := e.depends));
  }

  lemma {:induction false} WebList(h: Helper, e: Event)
    requires Settled(h.state) && Step(h, e).state != MrIdle
    requires !e.ReqUpgrade? && !e.Tick? && !e.ResDomain? && !e.ReqCancel? && !e.ResError?
    ensures SameList(h, Step(h, e))
  {
    hide Idle, OnPull, OnInit, OnStepDone, Settled;
    IdleMeaning(h);
    match e {
      case ReqPull(distributing) => PullList(h, distributing);
      case ResInit(_, _, _, _) => InitList(h, e);
      case ResDownloadDone => StepDoneList(h, MrVerify, [WebVerify]);
      case ResVerifyDone => StepDoneList(h, MrDistribute, [WebDistribute]);
      case ResDistributeDone => StepDoneList(h, MrWait, []);
      case _ =>
    }
  }

  lemma {:induction false} CancelRequestList(h: Helper, id: string)
    requires Settled(h.state) && OnCancel(h, id).state != MrIdle
    ensures SameList(h, OnCancel(h, id))
  {
    hide Feedback, SetState, MrStateIsAsk, MrStateIsBusy;
    var c := Canceled(h, id);
    FeedbackList(h, c, true, 0);
    FeedbackList(h, c, false, 1900);
    StateFacts(c, MrCancelAsk);
  }

  lemma {:induction false} ErrorList(h: Helper, error: int)
    requires Settled(h.state) && OnError(h, error).state != MrIdle
    ensures SameList(h, OnError(h, error))
  {
    hide Feedback, Download;
    DownloadFrame(h);
    FeedbackList(h, h, false, 1000 + error);
    FeedbackList(h, h.(retryTimes := 0), false, 1000 + error);
  }

  /** One event that neither begins a new upgrade nor drops this one leaves the list whole. */
  lemma {:induction false} ListStays(h: Helper, e: Event)
    requires Settled(h.state) && !e.ReqUpgrade? && Step(h, e).state != MrIdle
    ensures SameList(h, Step(h, e))
  {
    hide OnError, OnCancel, OnDomain, ProcessDomains, Settled, SameList;
    match e {
      case ResError(error) => ErrorList(h, error);
      case ReqCancel(id) => CancelRequestList(h, id);
      case ResDomain(domain, discovery) => DomainList(h, domain, discovery);
      case Tick(clock) => TickList(h, clock);
      case _ => WebList(h, e);
    }
  }

  lemma {:induction false} DomainList(h: Helper, domain: Domain, discovery: bool)
    requires Settled(h.state) && OnDomain(h, domain, discovery).state != MrIdle
    ensures SameList(h, OnDomain(h, domain, discovery))
  {
    hide Reported, ConfigAnswer, R.Quiet;
    R.ReportedFrame(h, domain, discovery);
    var r := Reported(h, domain, discovery);
    if domain.name != "" && domain.watcher && domain.answer != AnsUnknown { AnswerList(h, r, domain.answer); }
  }

  /** From an accepted request on, through any events that neither make another one, drop the
      upgrade, resume a broken one nor begin to deploy or cancel, the list names every package
      of the upgrade, in order. */
  lemma {:induction false} WholeList(h: Helper, upgrade: Upgrade, events: seq<Event>)
    requires !Closing(h) && forall k :: 0 <= k < |events| ==> !events[k].ReqUpgrade?
    requires var start := Step(h, ReqUpgrade(upgrade));
             forall k :: 0 <= k <= |events| ==> Settled(Run(start, events[..k]).state)
    ensures var g := Run(Step(h, ReqUpgrade(upgrade)), events);
            && g.upgrade == upgrade && |g.depends| == |upgrade.packages|
            && forall k :: 0 <= k < |upgrade.packages| ==> g.depends[k] == upgrade.packages[k].domain
  {
    hide Step, Settled;
    var start := Step(h, ReqUpgrade(upgrade));
    if events == [] {
      RequestList(h, upgrade);
    } else {
      var init, e := events[..|events| - 1], events[|events| - 1];
      forall k | 0 <= k <= |init| ensures init[..k] == events[..k] {
      }
      WholeList(h, upgrade, init);
      assert events[..|events|] == events;
      SettledIsNotIdle(Run(start, events).state);
      ListStays(Run(start, init), e);
    }
  }

  lemma {:induction false} SettledIsNotIdle(state: ServerState)
    requires Settled(state)
    ensures state != MrIdle
  {
  }

  lemma {:induction false} RequestList(h: Helper, upgrade: Upgrade)
    requires !Closing(h)
    ensures var g := Step(h, ReqUpgrade(upgrade));
            && g.upgrade == upgrade && |g.depends| == |upgrade.packages|
            && forall k :: 0 <= k < |upgrade.packages| ==> g.depends[k] == upgrade.packages[k].domain
  {
    hide Pending;
    PendingMeaning(Requested(h, upgrade));
  }
}
