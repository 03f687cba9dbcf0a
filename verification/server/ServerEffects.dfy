/** What each event makes of the server, in plain terms: states, controls, reports, requests. */
module ServerEffects {
  import opened Domain
  import opened Options
  import opened Server
  import R = ServerRuns

  // ----- states, controls and reports

  function Kind(h: Helper): FeedType { if h.feedType == TpDeploy then TpDeploy else TpCancel }

  function Id(h: Helper): string { if h.feedType == TpDeploy then h.upgrade.id else h.cancelId }

  /** Entering a state: the last one kept, and for a busy one the request reported as
      proceeding; nothing if the server is there already. */
  predicate Enters(h: Helper, g: Helper, state: ServerState)
  {
    var busy := {MrPending, MrReady, MrDownload, MrVerify, MrDistribute, MrWait, MrDeploy, MrCancel};
    if h.state == state then g == h
    else g == h.(state := state, lastState := h.state,
                 out := h.out + if state in busy then [Proceeding(Kind(h), Id(h))] else [])
  }

  lemma {:induction false} StateMeaning(h: Helper, state: ServerState)
    ensures Enters(h, SetState(h, state), state)
  {
  }

  lemma {:induction false} ControlMeaning(h: Helper, control: Control)
    ensures SendControl(h, CtlUnknown) == h
    ensures control != CtlUnknown ==>
              SendControl(h, control)
              == h.(control := control, out := h.out + [Broadcast(control, h.upgrade, h.depends)])
  {
  }

  /** Idle drops the whole upgrade. */
  lemma {:induction false} IdleMeaning(h: Helper)
    ensures h.state == MrIdle ==> Idle(h) == h
    ensures h.state != MrIdle ==>
              Idle(h) == h.(state := MrIdle, lastState := h.state, depends := [], details := [],
                            detailSubscribed := false, upgrade := Upgrade("", Skip, Skip, []), cancelId := "")
  {
    assert h.out + [] == h.out;
  }

  /** A feedback that is not held back by an earlier one, or for want of a request. */
  predicate Open(h: Helper) { !h.hasFeed && h.feedType != TpUnknown }

  function ClosedOut(h: Helper, finished: bool): seq<Output>
  {
    h.out + [Broadcast(CtlClear, h.upgrade, h.depends), WebStop, Closed(h.feedType, Id(h), finished)]
  }

  /** Closing a request: CTL_CLEAR, the web queue stopped, one report of its kind, id and
      result, and then the outcome shown to a user who is there, or idle. */
  lemma {:induction false} FeedbackMeaning(h: Helper, finished: bool, error: int)
    ensures !Open(h) ==> Feedback(h, finished, error) == h
    ensures Open(h) ==>
              var g := Feedback(h, finished, error);
              && g.hasFeed && g.errorCode == error && g.control == CtlClear && g.out == ClosedOut(h, finished)
              && (h.detailSubscribed ==>
                    g.state == (if finished then MrDoneAsk else MrErrorAsk) && g.upgrade == h.upgrade
                    && g.details == h.details && g.depends == h.depends && g.detailSubscribed)
              && (!h.detailSubscribed ==>
                    g.state == MrIdle && (h.state != MrIdle ==> g.upgrade == EmptyUpgrade && g.details == []))
  {
    hide SetState, SendControl, Idle, FeedId, ClosedOut, Id;
    if Open(h) {
      var g := SendControl(h.(hasFeed := true, errorCode := error), CtlClear);
      var k := g.(out := g.out + [WebStop, Closed(h.feedType, FeedId(h), finished)]);
      ClosedFrame(h, finished, error);
      if h.detailSubscribed { ShownMeaning(k, finished); } else { IdleMeaning(k); }
    }
  }

  lemma {:induction false} ClosedFrame(h: Helper, finished: bool, error: int)
    requires Open(h)
    ensures var g := SendControl(h.(hasFeed := true, errorCode := error), CtlClear);
      var k := g.(out := g.out + [WebStop, Closed(h.feedType, FeedId(h), finished)]);
      && k == h.(hasFeed := true, errorCode := error, control := CtlClear, out := ClosedOut(h, finished))
      && g.feedType == h.feedType && g.upgrade == h.upgrade && g.cancelId == h.cancelId && FeedId(g) == FeedId(h)
  {
    assert h.out + [Broadcast(CtlClear, h.upgrade, h.depends)] + [WebStop, Closed(h.feedType, FeedId(h), finished)]
        == ClosedOut(h, finished);
  }

  lemma {:induction false} ShownMeaning(k: Helper, finished: bool)
    ensures var g := SetState(k, if finished then MrDoneAsk else MrErrorAsk);
      g == k.(state := if finished then MrDoneAsk else MrErrorAsk, lastState := g.lastState)
  {
    hide SetState;
    StateMeaning(k, if finished then MrDoneAsk else MrErrorAsk);
    assert k.out + [] == k.out;
  }

  // ----- a request

  function Fresh(p: Package): Detail
  {
    Detail(Domain(p.domain, WrOffline, WrOffline, false, 0, "", AnsUnknown, ""), p, false, false)
  }

  /** pending(): a list of all packages' names, a new detail for each, and CTL_RESET with both. */
  lemma {:induction false} PendingMeaning(h: Helper)
    ensures var g := Pending(h);
      var ps := h.upgrade.packages;
      var rows := seq(|ps|, i requires 0 <= i < |ps| => Fresh(ps[i]));
      && g.state == MrPending && g.errorCode == 0 && g.control == CtlReset && g.upgrade == h.upgrade
      && |g.depends| == |ps| && (forall k :: 0 <= k < |ps| ==> g.depends[k] == ps[k].domain)
      && g.details == (if rows in h.sorting then h.sorting[rows] else rows)
      && g.out == h.out + [Broadcast(CtlReset, h.upgrade, g.depends)]
                  + if h.state == MrPending then [] else [Proceeding(Kind(h), Id(h))]
  {
    hide SetState, SendControl;
    var ps := h.upgrade.packages;
    assert NewDetails(ps) == seq(|ps|, i requires 0 <= i < |ps| => Fresh(ps[i]));
    var g := h.(errorCode := 0, depends := PackageNames(ps), details := Listed(h));
    ControlMeaning(g, CtlReset);
    StateMeaning(SendControl(g, CtlReset), MrPending);
    assert SendControl(g, CtlReset).out + [] == SendControl(g, CtlReset).out;
  }

  /** An accepted REQ_UPGRADE opens a request to deploy, remembers its id, and starts it. */
  lemma {:induction false} UpgradeMeaning(h: Helper, upgrade: Upgrade)
    ensures Closing(h) ==> OnUpgrade(h, upgrade) == h
    ensures !Closing(h) ==>
              var known := h.lastId == upgrade.id;
              OnUpgrade(h, upgrade) ==
              Pending(h.(hasFeed := false, feedType := TpDeploy, upgrade := upgrade, lastId := upgrade.id,
                         hasNewId := !known,
                         cancelResume := known && upgrade.id != "" && h.lastCancelId == upgrade.id,
                         hasDeployBreaked := known && h.hasDeployBreaked))
  {
    hide Pending;
  }

  /** REQ_CANCEL: closed at once while waiting or asking, refused with a report of its own
      where nothing goes on, and otherwise asked about. */
  lemma {:induction false} CancelMeaning(h: Helper, id: string)
    ensures var c := h.(hasFeed := false, feedType := TpCancel, cancelId := id, lastCancelId := id,
                        hasDeployBreaked := h.hasDeployBreaked || h.state == MrDeploy);
      var g := OnCancel(h, id);
      var asks := {MrDownloadAsk, MrDeployAsk, MrCancelAsk, MrResumeAsk, MrDoneAsk, MrErrorAsk};
      if h.state == MrWait || h.state in asks then g == Feedback(c, true, 0)
      else if h.state == MrIdle || h.state == MrOffline || h.state == MrUnknown then
        var k := Feedback(c, false, 1900);
        g == k.(out := k.out + [NoUpgradeToCancel(k.cancelId)])
      else Enters(c, g, MrCancelAsk)
  {
    hide Feedback, SetState;
    StateMeaning(Canceled(h, id), MrCancelAsk);
  }

  // ----- the steps between

  lemma {:induction false} DownloadMeaning(h: Helper)
    ensures exists k :: Enters(h, k, MrDownload) && Download(h) == k.(out := k.out + [WebDownload])
  {
    StateMeaning(h, MrDownload);
  }

  /** CTL_DEPLOY with the list of the moment, then the deployment. */
  lemma {:induction false} DeployMeaning(h: Helper)
    ensures var k := h.(control := CtlDeploy, out := h.out + [Broadcast(CtlDeploy, h.upgrade, h.depends)]);
      Enters(k, Deploy(h), MrDeploy)
  {
    hide SetState;
    StateMeaning(SendControl(h, CtlDeploy), MrDeploy);
  }

  /** Resuming deploys with the list and the last state from the cached status. */
  lemma {:induction false} ResumeMeaning(h: Helper)
    ensures var g := Deploy(h.(depends := h.cacheDepends, lastState := h.cacheLastState));
      Resume(h) == g.(cacheState := MrUnknown)
  {
    hide Deploy;
  }

  /** Cancelling from its question: CTL_CANCEL and the cancel state. */
  lemma {:induction false} CancellingMeaning(h: Helper)
    requires h.state == MrCancelAsk
    ensures var k := h.(control := CtlCancel, out := h.out + [Broadcast(CtlCancel, h.upgrade, h.depends)]);
      Enters(k, Cancel(h), MrCancel)
  {
    hide SetState, Feedback;
    StateMeaning(SendControl(h, CtlCancel), MrCancel);
  }

  /** From anywhere else the state it came from decides whether the cancellation is over at once. */
  lemma {:induction false} ShortcutMeaning(h: Helper)
    requires h.state != MrCancelAsk && h.state != MrCancel
    ensures var k := h.(control := CtlCancel, out := h.out + [Broadcast(CtlCancel, h.upgrade, h.depends)]);
      exists m :: Enters(k, m, MrCancel)
        && Cancel(h) == if h.state in {MrIdle, MrPending, MrReady, MrDownload, MrVerify} then Feedback(m, true, 0) else m
  {
    hide SetState, Feedback;
    StateMeaning(SendControl(h, CtlCancel), MrCancel);
    var m := SetState(SendControl(h, CtlCancel), MrCancel);
    assert m.lastState == h.state;
  }

  /** A transfer that fails is started again twice, then given up; any other error ends the request. */
  lemma {:induction false} ErrorMeaning(h: Helper, error: int)
    ensures var transfer := h.state == MrDownload || h.state == MrVerify || h.state == MrDistribute;
      var g := OnError(h, error);
      if transfer && h.retryTimes < 2 then g == Download(h).(retryTimes := h.retryTimes + 1)
      else if transfer then g == Feedback(h.(retryTimes := 0), false, 1000 + error)
      else g == Feedback(h, false, 1000 + error)
  {
    hide Feedback, SetState;
    StateMeaning(h, MrDownload);
  }

  /** The web queue distributes: CTL_DOWNLOAD unless the download is skipped, then the state. */
  lemma {:induction false} PullMeaning(h: Helper, distributing: bool)
    ensures var k := if h.upgrade.download == Skip then h
                     else h.(control := CtlDownload, out := h.out + [Broadcast(CtlDownload, h.upgrade, h.depends)]);
      if distributing && !Closing(h) then Enters(k, OnPull(h, distributing), MrDistribute)
      else OnPull(h, distributing) == h
  {
    hide SetState;
    ControlMeaning(h, CtlDownload);
    StateMeaning(h, MrDistribute);
    StateMeaning(SendControl(h, CtlDownload), MrDistribute);
  }

  /** Downloaded leads to verifying, verified to distributing, distributed to waiting. */
  lemma {:induction false} WebMeaning(h: Helper)
    requires !Closing(h)
    ensures exists k :: Enters(h, k, MrVerify) && Step(h, ResDownloadDone) == k.(out := k.out + [WebVerify])
    ensures exists k :: Enters(h, k, MrDistribute) && Step(h, ResVerifyDone) == k.(out := k.out + [WebDistribute])
    ensures Enters(h, Step(h, ResDistributeDone), MrWait)
    ensures Step(h, ReqIdle) == Idle(h)
  {
    hide SetState, Enters, Idle, OnStepDone;
    StateMeaning(h, MrVerify);
    StateMeaning(h, MrDistribute);
    StateMeaning(h, MrWait);
    StepDone(h, MrVerify, [WebVerify]);
    StepDone(h, MrDistribute, [WebDistribute]);
    StepDone(h, MrWait, []);
    Appended(SetState(h, MrWait));
  }

  lemma {:induction false} StepDone(h: Helper, state: ServerState, request: seq<Output>)
    requires !Closing(h)
    ensures OnStepDone(h, state, request) == SetState(h, state).(out := SetState(h, state).out + request)
  {
    hide SetState;
  }

  /** Switching the server on or off, and news of the transfer and of the feedback, change
      nothing else. */
  lemma {:induction false} NewsMeaning(h: Helper, active: bool)
    ensures Step(h, ReqActive(active)) == h.(active := active)
    ensures Step(h, ResFeedbackDone) == h && Step(h, ResTransferProgress) == h
  {
  }

  lemma {:induction false} Appended(h: Helper)
    ensures h.(out := h.out + []) == h
  {
  }

  /** While an outcome is shown the web queue's steps change nothing. */
  lemma {:induction false} WebBlocked(h: Helper, active: bool)
    requires Closing(h)
    ensures Step(h, ResDownloadDone) == h && Step(h, ResVerifyDone) == h && Step(h, ResDistributeDone) == h
    ensures Step(h, ReqIdle) == h && Step(h, ReqPull(true)) == h
    ensures Step(h, ReqActive(active)) == h.(active := active)
  {
    hide SetState, SendControl, Idle, OnError, OnUpgrade, OnCancel, OnInit, OnDomain, ProcessDomains;
  }

  /** A finished initialisation takes over the cached status and idles. */
  lemma {:induction false} InitMeaning(h: Helper, state: Option<ServerState>, last: Option<ServerState>,
                                       depends: seq<string>)
    requires !Closing(h)
    ensures var k := h.(cacheDepends := depends, cacheState := if state == None then h.cacheState else state.value,
                        cacheLastState := if last == None then h.cacheLastState else last.value);
      OnInit(h, true, state, last, depends) == Idle(k) && OnInit(h, false, state, last, depends) == h
  {
    hide Idle;
  }

  // ----- answers and reports

  /** The user's answer, question by question; any other answer, and any answer to a server
      that does not ask, is nothing, except that it uses up the question about resuming. */
  lemma {:induction false} AnswerMeaning(h: Helper)
    ensures h.state == MrDownloadAsk ==>
              ConfigAnswer(h, AnsAccept) == Download(h) && ConfigAnswer(h, AnsRefuse) == Feedback(h, false, -1)
    ensures h.state == MrDeployAsk ==>
              ConfigAnswer(h, AnsAccept) == Deploy(h) && ConfigAnswer(h, AnsRefuse) == Feedback(h, false, -1)
    ensures h.state == MrCancelAsk ==>
              ConfigAnswer(h, AnsAccept) == Cancel(h) && ConfigAnswer(h, AnsRefuse) == Feedback(h, false, -1)
    ensures h.state == MrResumeAsk ==>
              && ConfigAnswer(h, AnsAccept) == Resume(h).(hasDeployBreaked := false)
              && ConfigAnswer(h, AnsRefuse) ==
                 (if h.hasNewId && h.cacheState == MrDeploy then Pending(h) else Idle(h)).(hasDeployBreaked := false)
    ensures Closing(h) ==> ConfigAnswer(h, AnsAccept) == Idle(h) && ConfigAnswer(h, AnsRefuse) == h
    ensures h.state != MrResumeAsk ==> ConfigAnswer(h, AnsOther) == h && ConfigAnswer(h, AnsUnknown) == h
    ensures h.state !in {MrDownloadAsk, MrDeployAsk, MrCancelAsk, MrResumeAsk, MrDoneAsk, MrErrorAsk} ==>
              ConfigAnswer(h, AnsAccept) == h && ConfigAnswer(h, AnsRefuse) == h
  {
    hide Download, Deploy, Cancel, Resume, Pending, Idle, Feedback;
  }

  /** A report of a known domain replaces that domain and starts its heartbeat, and leaves
      every other detail alone; a client looking for the server is sent the control again. */
  lemma {:induction false} ReportMeaning(h: Helper, domain: Domain, discovery: bool, k: nat)
    requires k < |h.details| && h.details[k].domain.name == domain.name
    requires forall j :: 0 <= j < k ==> h.details[j].domain.name != domain.name
    ensures var g := Reported(h, domain, discovery);
      && g.details == h.details[k := Detail(domain, h.details[k].package, h.details[k].deployActive, true)]
      && g.detailSubscribed == (h.detailSubscribed || domain.watcher) && g.state == h.state
      && g.out == h.out + if discovery && h.control != CtlUnknown
                          then [Broadcast(h.control, h.upgrade, h.depends)] else []
  {
    hide SendControl, FindDetail, Update;
    FoundFirst(h.details, domain.name, k);
    ControlAgain(if domain.watcher then h.(detailSubscribed := true) else h);
    Replaced(h.details[k].domain, domain);
  }

  lemma {:induction false} ControlAgain(h: Helper)
    ensures SendControl(h, h.control) ==
            h.(out := h.out + if h.control != CtlUnknown then [Broadcast(h.control, h.upgrade, h.depends)] else [])
    ensures h.out + [] == h.out
  {
    assert h.out + [] == h.out;
  }

  lemma {:induction false} Replaced(d: Domain, other: Domain)
    requires d.name == other.name
    ensures Update(d, other) == other
  {
  }

  lemma {:induction false} FoundFirst(ds: seq<Detail>, name: string, k: nat)
    requires k < |ds| && ds[k].domain.name == name && forall j :: 0 <= j < k ==> ds[j].domain.name != name
    ensures FindDetail(ds, name) == k
  {
    if k > 0 {
      forall j | 0 <= j < k ensures ds[1..][j] == ds[j + 1] {
      }
      FoundFirst(ds[1..], name, k - 1);
    }
  }

  /** A stranger's report matters only for a user who watches. */
  lemma {:induction false} StrangerMeaning(h: Helper, domain: Domain, discovery: bool)
    requires forall j :: 0 <= j < |h.details| ==> h.details[j].domain.name != domain.name
    ensures var g := Reported(h, domain, discovery);
      && g.details == h.details && g.detailSubscribed == (h.detailSubscribed || domain.watcher) && g.state == h.state
      && g.out == h.out + if domain.watcher && discovery && h.control != CtlUnknown then
                            [Broadcast(h.control, h.upgrade, h.depends)] else []
  {
    hide SendControl, FindDetail;
    ControlAgain(if domain.watcher then h.(detailSubscribed := true) else h);
  }

  /** An answer is obeyed when a watcher gives one; a nameless report is nothing. */
  lemma {:induction false} DomainMeaning(h: Helper, domain: Domain, discovery: bool)
    ensures domain.name == "" ==> Step(h, ResDomain(domain, discovery)) == h
    ensures domain.name != "" && (!domain.watcher || domain.answer == AnsUnknown) ==>
              Step(h, ResDomain(domain, discovery)) == Reported(h, domain, discovery)
    ensures domain.name != "" && domain.watcher && domain.answer != AnsUnknown ==>
              Step(h, ResDomain(domain, discovery)) == ConfigAnswer(Reported(h, domain, discovery), domain.answer)
  {
    hide Reported, ConfigAnswer;
  }
}
