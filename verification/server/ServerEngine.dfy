/** ServerEngine as the program runs it: handlers that update the helper record behind
    `hpr` step by step. Each is proved to make exactly the state Server gives for it. */
module ServerEngine {
  import opened Domain
  import S = Server
  import opened Options

  class ServerEngine {
    var hpr: S.Helper

    constructor (firstStart: bool, sorting: map<seq<Detail>, seq<Detail>>)
      ensures hpr == S.Initial(firstStart, sorting)
    {
      hpr := S.Initial(firstStart, sorting);
    }

    method SetState(state: ServerState)
      modifies this
      ensures hpr == S.SetState(old(hpr), state)
    {
      if hpr.state != state {
        hpr := hpr.(lastState := hpr.state);
        hpr := hpr.(state := state);
        if MrStateIsBusy(hpr.state) {
          var feed: S.Output;
          if hpr.feedType == S.TpDeploy {
            feed := S.Proceeding(S.TpDeploy, hpr.upgrade.id);
          } else {
            feed := S.Proceeding(S.TpCancel, hpr.cancelId);
          }
          hpr := hpr.(out := hpr.out + [feed]);
        } else {
          assert hpr.out + [] == hpr.out;
        }
      }
    }

    method SendControlMessage(control: Control)
      modifies this
      ensures hpr == S.SendControl(old(hpr), control)
    {
      if control == CtlUnknown {
        return;
      }
      if hpr.control != control {
        hpr := hpr.(control := control);
      }
      hpr := hpr.(out := hpr.out + [S.Broadcast(control, hpr.upgrade, hpr.depends)]);
    }

    method Idle()
      modifies this
      ensures hpr == S.Idle(old(hpr))
    {
      if hpr.state != MrIdle {
        hpr := hpr.(depends := []);
        hpr := hpr.(details := []);
        hpr := hpr.(detailSubscribed := false);
        hpr := hpr.(upgrade := EmptyUpgrade, cancelId := "");
        SetState(MrIdle);
      }
    }

    method Pending()
      modifies this
      ensures hpr == S.Pending(old(hpr))
    {
      hide S.SetState, S.SendControl, S.PackageNames, S.NewDetails, S.Sorted;
      hpr := hpr.(errorCode := 0);
      ListPackages();
      hpr := hpr.(details := S.Sorted(hpr.sorting, hpr.details));
      SendControlMessage(CtlReset);
      SetState(MrPending);
    }

    /** pending()'s loop: a detail and a name for every package. */
    method ListPackages()
      modifies this
      ensures hpr == old(hpr).(depends := S.PackageNames(old(hpr).upgrade.packages),
                               details := S.NewDetails(old(hpr).upgrade.packages))
    {
      hide S.NewDetail;
      var packages := hpr.upgrade.packages;
      var depends: seq<string> := [];
      var details: seq<Detail> := [];
      for i := 0 to |packages|
        invariant hpr == old(hpr)
        invariant depends == S.PackageNames(packages[..i]) && details == S.NewDetails(packages[..i])
      {
        assert packages[..i + 1] == packages[..i] + [packages[i]];
        depends := depends + [packages[i].domain];
        details := details + [S.NewDetail(packages[i])];
      }
      assert packages[..|packages|] == packages;
      hpr := hpr.(depends := depends, details := details);
    }

    method Download()
      modifies this
      ensures hpr == S.Download(old(hpr))
    {
      SetState(MrDownload);
      hpr := hpr.(out := hpr.out + [S.WebDownload]);
    }

    method Deploy()
      modifies this
      ensures hpr == S.Deploy(old(hpr))
    {
      SendControlMessage(CtlDeploy);
      SetState(MrDeploy);
    }

    method Resume()
      modifies this
      ensures hpr == S.Resume(old(hpr))
    {
      hide S.Deploy;
      hpr := hpr.(lastState := hpr.cacheLastState);
      hpr := hpr.(depends := hpr.cacheDepends);
      Deploy();
      hpr := hpr.(cacheState := MrUnknown);
    }

    method Cancel()
      modifies this
      ensures hpr == S.Cancel(old(hpr))
    {
      hide S.SetState, S.SendControl, S.Feedback;
      SendControlMessage(CtlCancel);
      SetState(MrCancel);
      var last := hpr.lastState;
      if last == MrIdle || last == MrPending || last == MrReady || last == MrDownload || last == MrVerify {
        Feedback(true, 0);
      }
    }

    /** The id of the request a report is about. */
    method WebFeedId() returns (id: string)
      ensures id == S.FeedId(hpr)
    {
      if hpr.feedType == S.TpDeploy {
        id := hpr.upgrade.id;
      } else {
        id := hpr.cancelId;
      }
    }

    method Feedback(finished: bool, error: int)
      modifies this
      ensures hpr == S.Feedback(old(hpr), finished, error)
    {
      hide S.SetState, S.SendControl, S.Idle, S.FeedId;
      if hpr.hasFeed {
        return;
      }
      if hpr.feedType == S.TpUnknown {
        return;
      }
      var id := WebFeedId();
      hpr := hpr.(hasFeed := true, errorCode := error);
      var state := if finished then MrDoneAsk else MrErrorAsk;
      SendControlMessage(CtlClear);
      KeepsId(old(hpr).(hasFeed := true, errorCode := error));
      hpr := hpr.(out := hpr.out + [S.WebStop, S.Closed(hpr.feedType, id, finished)]);
      if hpr.detailSubscribed {
        SetState(state);
      } else {
        Idle();
      }
    }

    static lemma {:induction false} KeepsId(h: S.Helper)
      ensures var g := S.SendControl(h, CtlClear);
              g.feedType == h.feedType && g.detailSubscribed == h.detailSubscribed
    {
    }

    method ConfigAnswer(answer: Answer)
      modifies this
      ensures hpr == S.ConfigAnswer(old(hpr), answer)
    {
      hide S.Download, S.Deploy, S.Cancel, S.Resume, S.Pending, S.Idle, S.Feedback;
      if hpr.state == MrDownloadAsk {
        if answer == AnsAccept {
          Download();
        } else if answer == AnsRefuse {
          Feedback(false, -1);
        }
      } else if hpr.state == MrDeployAsk {
        if answer == AnsAccept {
          Deploy();
        } else if answer == AnsRefuse {
          Feedback(false, -1);
        }
      } else if hpr.state == MrCancelAsk {
        if answer == AnsAccept {
          Cancel();
        } else if answer == AnsRefuse {
          Feedback(false, -1);
        }
      } else if hpr.state == MrResumeAsk {
        if answer == AnsAccept {
          Resume();
        } else if answer == AnsRefuse {
          if hpr.hasNewId && hpr.cacheState == MrDeploy {
            Pending();
          } else {
            Idle();
          }
        }
        hpr := hpr.(hasDeployBreaked := false);
      } else if hpr.state == MrDoneAsk {
        if answer == AnsAccept {
          Idle();
        }
      } else if hpr.state == MrErrorAsk {
        if answer == AnsAccept {
          Idle();
        }
      }
    }

    method OnError(error: int)
      modifies this
      ensures hpr == S.OnError(old(hpr), error)
    {
      hide S.Download, S.Feedback;
      if hpr.state == MrDownload || hpr.state == MrVerify || hpr.state == MrDistribute {
        if hpr.retryTimes < S.RETRY_TIMES {
          Download();
          hpr := hpr.(retryTimes := hpr.retryTimes + 1);
        } else {
          hpr := hpr.(retryTimes := 0);
          Feedback(false, 1000 + error);
        }
      } else {
        Feedback(false, 1000 + error);
      }
    }

    method OnUpgrade(upgrade: Upgrade)
      modifies this
      ensures hpr == S.OnUpgrade(old(hpr), upgrade)
    {
      hide S.Pending, S.Requested;
      if hpr.state == MrDoneAsk || hpr.state == MrErrorAsk {
        return;
      }
      Request(upgrade);
      Pending();
    }

    /** Taking over a new request's upgrade. */
    method Request(upgrade: Upgrade)
      modifies this
      ensures hpr == S.Requested(old(hpr), upgrade)
    {
      var hasNewId := hpr.lastId != upgrade.id;
      var cancelResume := !hasNewId && hpr.lastCancelId != "" && hpr.lastCancelId == upgrade.id;
      var hasDeployBreaked := hpr.hasDeployBreaked;
      if hasNewId {
        hasDeployBreaked := false;
      }
      hpr := hpr.(hasFeed := false, feedType := S.TpDeploy, hasNewId := hasNewId, cancelResume := cancelResume,
                  upgrade := upgrade, lastId := upgrade.id, hasDeployBreaked := hasDeployBreaked);
    }

    method OnCancel(id: string)
      modifies this
      ensures hpr == S.OnCancel(old(hpr), id)
    {
      hide S.Feedback, S.SetState, S.Canceled, MrStateIsAsk, MrStateIsBusy;
      RequestCancel(id);
      if hpr.state == MrWait {
        Feedback(true, 0);
        return;
      }
      if MrStateIsAsk(hpr.state) {
        Feedback(true, 0);
        return;
      }
      if !MrStateIsBusy(hpr.state) {
        Feedback(false, 1900);
        hpr := hpr.(out := hpr.out + [S.NoUpgradeToCancel(hpr.cancelId)]);
        return;
      }
      SetState(MrCancelAsk);
    }

    /** Taking over a request to cancel. */
    method RequestCancel(id: string)
      modifies this
      ensures hpr == S.Canceled(old(hpr), id)
    {
      hpr := hpr.(hasFeed := false, feedType := S.TpCancel, cancelId := id, lastCancelId := id);
      if hpr.state == MrDeploy {
        hpr := hpr.(hasDeployBreaked := true);
      }
    }

    method OnPull(distributing: bool)
      modifies this
      ensures hpr == S.OnPull(old(hpr), distributing)
    {
      hide S.SendControl, S.SetState;
      if hpr.state == MrDoneAsk || hpr.state == MrErrorAsk {
        return;
      }
      if !distributing {
        return;
      }
      if hpr.upgrade.download != Skip {
        SendControlMessage(CtlDownload);
      }
      SetState(MrDistribute);
    }

    method OnInit(success: bool, state: Option<ServerState>, last: Option<ServerState>, depends: seq<string>)
      modifies this
      ensures hpr == S.OnInit(old(hpr), success, state, last, depends)
    {
      hide S.Idle;
      if hpr.state == MrDoneAsk || hpr.state == MrErrorAsk {
        return;
      }
      if success {
        var cacheState, cacheLastState := hpr.cacheState, hpr.cacheLastState;
        if state.Some? {
          cacheState := state.value;
        }
        if last.Some? {
          cacheLastState := last.value;
        }
        hpr := hpr.(cacheState := cacheState, cacheLastState := cacheLastState, cacheDepends := depends);
        Idle();
      }
    }

    method OnStepDone(state: ServerState, request: seq<S.Output>)
      modifies this
      ensures hpr == S.OnStepDone(old(hpr), state, request)
    {
      hide S.SetState;
      if hpr.state == MrDoneAsk || hpr.state == MrErrorAsk {
        return;
      }
      SetState(state);
      hpr := hpr.(out := hpr.out + request);
    }

    /** Details::find, as an index. */
    method Find(name: string) returns (k: int)
      ensures k == S.FindDetail(hpr.details, name)
    {
      assert hpr.details[0..] == hpr.details;
      for i := 0 to |hpr.details|
        invariant S.FindDetail(hpr.details, name) ==
                  (if S.FindDetail(hpr.details[i..], name) < 0 then -1 else i + S.FindDetail(hpr.details[i..], name))
      {
        assert hpr.details[i..][1..] == hpr.details[i + 1..];
        if hpr.details[i].domain.name == name {
          return i;
        }
      }
      return -1;
    }

    /** RES_DOMAIN up to the answer. */
    method Report(domain: Domain, discovery: bool)
      modifies this
      ensures hpr == S.Reported(old(hpr), domain, discovery)
    {
      hide S.SendControl, S.FindDetail, Update;
      if domain.watcher {
        hpr := hpr.(detailSubscribed := true);
      }
      ghost var g := hpr;
      var k := Find(domain.name);
      if k >= 0 {
        var d := hpr.details[k];
        d := d.(heartbeatActive := true);
        if discovery {
          SendControlMessage(hpr.control);
          ControlLeavesDetails(g);
        }
        if d.domain != domain {
          d := d.(domain := Update(d.domain, domain));
        } else {
          UpdateWithItself(domain);
        }
        hpr := hpr.(details := hpr.details[k := d]);
      } else {
        if domain.watcher && discovery {
          SendControlMessage(hpr.control);
        }
      }
    }

    static lemma {:induction false} UpdateWithItself(d: Domain)
      ensures Update(d, d) == d
    {
    }

    static lemma {:induction false} ControlLeavesDetails(h: S.Helper)
      ensures S.SendControl(h, h.control).details == h.details
    {
    }

    method OnDomain(domain: Domain, discovery: bool)
      modifies this
      ensures hpr == S.OnDomain(old(hpr), domain, discovery)
    {
      hide S.ConfigAnswer, S.Reported;
      if domain.name == "" {
        return;
      }
      Report(domain, discovery);
      if domain.watcher && domain.answer != AnsUnknown {
        ConfigAnswer(domain.answer);
      }
    }

    method EventChanged(e: S.Event)
      modifies this
      ensures hpr == S.Step(old(hpr), e)
    {
      hide S.OnError, S.OnUpgrade, S.OnCancel, S.OnPull, S.OnInit, S.OnStepDone, S.OnDomain, S.ProcessDomains, S.Idle;
      match e {
        case ResError(error) => OnError(error);
        case ReqActive(active) => hpr := hpr.(active := active);
        case ReqIdle =>
          if !(hpr.state == MrDoneAsk || hpr.state == MrErrorAsk) {
            Idle();
          }
        case ReqUpgrade(upgrade) => OnUpgrade(upgrade);
        case ReqCancel(id) => OnCancel(id);
        case ReqPull(distributing) => OnPull(distributing);
        case ResInit(success, state, last, depends) => OnInit(success, state, last, depends);
        case ResDownloadDone => OnStepDone(MrVerify, [S.WebVerify]);
        case ResVerifyDone => OnStepDone(MrDistribute, [S.WebDistribute]);
        case ResDistributeDone => OnStepDone(MrWait, []);
        case ResFeedbackDone =>
        case ResTransferProgress =>
        case ResDomain(domain, discovery) => OnDomain(domain, discovery);
        case Tick(clock) => ProcessDomains(clock);
      }
    }

    /** The recomputation in the middle of the pass. */
    method Recompute(i: nat)
      requires i < |hpr.details|
      modifies this
      ensures hpr == S.Recompute(old(hpr), i)
    {
      hide S.SendControl, S.OutstandingNames;
      hpr := hpr.(details := hpr.details[i := hpr.details[i].(deployActive := false)]);
      var depends := ListOutstanding();
      hpr := hpr.(depends := depends);
      if hpr.control == CtlDeploy {
        SendControlMessage(CtlDeploy);
        hpr := hpr.(out := hpr.out + [S.Scheduled(hpr.upgrade.id)]);
      }
    }

    /** The names of the domains whose deployment is not over. */
    method ListOutstanding() returns (depends: seq<string>)
      ensures depends == S.OutstandingNames(hpr.details)
    {
      hide S.OutstandingNames;
      depends := [];
      var ds := hpr.details;
      assert ds[0..] == ds;
      for k := 0 to |ds|
        invariant depends + S.OutstandingNames(ds[k..]) == S.OutstandingNames(ds)
      {
        OutstandingTurn(ds, k);
        if ds[k].deployActive || ds[k].domain.state == WrWait {
          depends := depends + [ds[k].domain.name];
        }
      }
      assert ds[|ds|..] == [] && S.OutstandingNames([]) == [] by { NoneOutstanding(); }
    }

    static lemma {:induction false} NoneOutstanding()
      ensures S.OutstandingNames([]) == []
    {
    }

    static lemma {:induction false} OutstandingTurn(ds: seq<Detail>, k: nat)
      requires k < |ds|
      ensures S.OutstandingNames(ds[k..]) ==
              (if S.Outstanding(ds[k]) then [ds[k].domain.name] else []) + S.OutstandingNames(ds[k + 1..])
    {
      assert ds[k..][1..] == ds[k + 1..];
    }

    /** After the pass: has everyone found a version to upgrade from? */
    method AfterValid(all: bool)
      modifies this
      ensures hpr == S.AfterValid(old(hpr), all)
    {
      hide S.SetState, S.Download;
      if all {
        if hpr.state == MrPending {
          if hpr.hasNewId {
            if hpr.cacheState == MrDeploy {
              SetState(MrResumeAsk);
            } else {
              SetState(MrReady);
            }
          } else {
            if hpr.cancelResume && hpr.hasDeployBreaked {
              SetState(MrResumeAsk);
            } else {
              SetState(MrReady);
            }
          }
        } else if hpr.state == MrReady || hpr.state == MrDownloadAsk {
          if hpr.upgrade.download == Forced {
            Download();
          } else if hpr.upgrade.download == Attempt && hpr.state == MrReady {
            SetState(MrDownloadAsk);
          }
        }
      } else {
        if hpr.state == MrDownloadAsk {
          SetState(MrPending);
        }
      }
    }

    /** After the pass: is everyone waiting for the deployment? */
    method AfterWait(all: bool)
      modifies this
      ensures hpr == S.AfterWait(old(hpr), all)
    {
      hide S.SetState, S.Deploy;
      if all {
        if hpr.state == MrWait || hpr.state == MrDeployAsk {
          if hpr.upgrade.deploy == Forced {
            Deploy();
          } else if hpr.upgrade.deploy == Attempt && hpr.state == MrWait {
            SetState(MrDeployAsk);
          }
        }
      } else {
        if hpr.state == MrDeployAsk {
          SetState(MrWait);
        }
      }
    }

    /** The end of processDomains, with the pass's counters. */
    method AfterScan(valid: nat, wait: nat, equal: nat, cancel: nat, errors: nat)
      modifies this
      ensures hpr == S.AfterScan(S.Scan(old(hpr), valid, wait, equal, cancel, errors, 0))
    {
      hide S.Feedback, S.AfterValid, S.Concluded;
      AfterValid(valid != 0 && valid == |hpr.details|);
      if equal != 0 && equal == |hpr.details| {
        if hpr.firstStart || hpr.state == MrDeploy {
          Feedback(true, 0);
          return;
        }
      }
      Conclude(wait, cancel, errors);
    }

    /** The end of processDomains, once no finished deployment was found. */
    method Conclude(wait: nat, cancel: nat, errors: nat)
      modifies this
      ensures hpr == S.Concluded(old(hpr), wait, cancel, errors)
    {
      hide S.Feedback, S.AfterWait;
      AfterWait(wait != 0 && wait == |hpr.details|);
      if cancel != 0 && cancel == |hpr.details| {
        if hpr.state == MrCancel {
          Feedback(true, 0);
          return;
        }
      }
      if errors > 0 {
        Feedback(false, 1950);
        return;
      }
    }

    method ProcessDomains(clock: S.Clock)
      modifies this
      ensures hpr == S.ProcessDomains(old(hpr), clock)
    {
      hide S.Feedback, S.AfterScan, S.ScanOne;
      if hpr.feedType == S.TpUnknown || hpr.state == MrIdle || hpr.state == MrUnknown || hpr.state == MrOffline
         || hpr.hasFeed || hpr.errorCode != 0 {
        return;
      }
      if clock.stateExpired {
        if S.Limit(hpr.state) != 0 {
          Feedback(false, S.Limit(hpr.state));
          return;
        }
      }
      var valid, wait, equal, cancel, errors := 0, 0, 0, 0, 0;
      var n := |hpr.details|;
      for i := 0 to n
        invariant |hpr.details| == n
        invariant S.Scanned(old(hpr), clock) ==
                  S.ScanFrom(S.Scan(hpr, valid, wait, equal, cancel, errors, 0), i, n, clock)
      {
        var stop: int;
        valid, wait, equal, cancel, errors, stop := ProcessDomain(i, clock, valid, wait, equal, cancel, errors);
        if stop != 0 {
          Feedback(false, stop);
          return;
        }
      }
      AfterScan(valid, wait, equal, cancel, errors);
    }

    /** One turn of processDomains' loop. A non-zero `stop` is the error it gives up with. */
    method ProcessDomain(i: nat, clock: S.Clock, valid0: nat, wait0: nat, equal0: nat, cancel0: nat, errors0: nat)
        returns (valid: nat, wait: nat, equal: nat, cancel: nat, errors: nat, stop: int)
      requires i < |hpr.details|
      modifies this
      ensures S.Scan(hpr, valid, wait, equal, cancel, errors, stop) ==
              S.ScanOne(S.Scan(old(hpr), valid0, wait0, equal0, cancel0, errors0, 0), i, clock)
    {
      hide S.ScanFirst, S.ScanRest;
      valid, wait, equal, cancel, errors, stop := valid0, wait0, equal0, cancel0, errors0, 0;
      if hpr.details[i].package.domain == "" {
        stop := 1917;
        return;
      }
      equal, errors := CountDomain(i, clock, valid, wait, equal, cancel, errors);
      valid, wait, cancel, stop := JudgeDomain(i, clock, valid, wait, equal, cancel, errors);
    }

    /** The counting and the heartbeat at the start of a turn. */
    method CountDomain(i: nat, clock: S.Clock, valid: nat, wait: nat, equal0: nat, cancel: nat, errors0: nat)
        returns (equal: nat, errors: nat)
      requires i < |hpr.details|
      modifies this
      ensures S.Scan(hpr, valid, wait, equal, cancel, errors, 0) ==
              S.ScanFirst(S.Scan(old(hpr), valid, wait, equal0, cancel, errors0, 0), i, clock)
    {
      hide DetectVersionEqual;
      equal, errors := equal0, errors0;
      var d := hpr.details[i];
      if DetectVersionEqual(d.domain.version, d.package.version) {
        equal := equal + 1;
      }
      if d.domain.error != 0 || d.domain.state == WrError {
        errors := errors + 1;
      }
      if d.domain.state != WrOffline && d.heartbeatActive {
        if i in clock.heartbeatLost {
          d := d.(domain := d.domain.(last := d.domain.state));
          d := d.(domain := d.domain.(state := WrOffline));
          hpr := hpr.(details := hpr.details[i := d]);
        }
      }
    }

    /** The rest of a turn, by the server's state. */
    method JudgeDomain(i: nat, clock: S.Clock, valid0: nat, wait0: nat, equal: nat, cancel0: nat, errors: nat)
        returns (valid: nat, wait: nat, cancel: nat, stop: int)
      requires i < |hpr.details|
      modifies this
      ensures S.Scan(hpr, valid, wait, equal, cancel, errors, stop) ==
              S.ScanRest(S.Scan(old(hpr), valid0, wait0, equal, cancel0, errors, 0), i, clock)
    {
      hide DetectVersionEqual, VersionValid, S.ScanDeploy;
      valid, wait, cancel, stop := valid0, wait0, cancel0, 0;
      var d := hpr.details[i];
      if hpr.state == MrPending || hpr.state == MrReady || hpr.state == MrDownloadAsk {
        if d.domain.state != WrUnknown && d.domain.state != WrOffline && d.domain.version != "" {
          var isValid := DetectVersionValid(d.domain.version, d.package.version);
          if isValid {
            valid := valid + 1;
          } else {
            stop := 1918;
          }
        }
      } else if hpr.state == MrDeploy || hpr.state == MrCancel {
        if hpr.state == MrCancel {
          if DetectVersionEqual(d.domain.version, d.package.version) {
            stop := 1919;
            return;
          } else {
            if d.domain.state == WrIdle {
              if d.domain.last == WrCancel {
                cancel := cancel + 1;
              }
            }
          }
        }
        if hpr.state == MrDeploy || hpr.lastState == MrDeploy {
          stop := JudgeDeploying(i, clock, S.Scan(hpr, valid, wait, equal, cancel, errors, 0));
        }
      } else if hpr.state == MrWait || hpr.state == MrDeployAsk {
        if d.domain.state == WrWait {
          wait := wait + 1;
        }
      }
    }

    /** The deploying part of a turn; `c` holds the counters it must leave alone. */
    method JudgeDeploying(i: nat, clock: S.Clock, ghost c: S.Scan) returns (stop: int)
      requires i < |hpr.details| && c.h == hpr && c.stop == 0
      modifies this
      ensures c.(h := hpr, stop := stop) == S.ScanDeploy(c, i, clock)
    {
      hide HasDepends, DetectVersionEqual, S.Recompute;
      stop := 0;
      var d := hpr.details[i];
      if d.deployActive {
        if i in clock.deployExpired {
          return 1920;
        }
        if d.domain.state == WrOffline {
          if d.heartbeatActive {
            if i in clock.restartExpired {
              return 1921;
            }
          }
        }
        if d.domain.state == WrIdle && DetectVersionEqual(d.domain.version, d.package.version) {
          Recompute(i);
        }
      } else {
        var found := ComputeHasDepends(d.package.depends, hpr.depends);
        if !found {
          if d.domain.state == WrDeploy {
            hpr := hpr.(details := hpr.details[i := d.(deployActive := true)]);
          }
        }
      }
    }
  }
}
