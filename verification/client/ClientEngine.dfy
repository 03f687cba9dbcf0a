/** ClientEngine as the program runs it: handlers that update the helper record behind
    `hpr` step by step. Each is proved to make exactly the state Client gives for it. */
module ClientEngine {
  import opened Domain
  import C = Client

  class ClientEngine {
    var hpr: C.Helper

    constructor (name: string, version: string, subscribed: bool, cancelEnable: bool)
      ensures hpr == C.Initial(name, version, subscribed, cancelEnable)
    {
      hpr := C.Initial(name, version, subscribed, cancelEnable);
    }

    method SetDomainState(state: ClientState)
      modifies this
      ensures hpr == old(hpr).(domain := C.Entered(old(hpr).domain, state))
    {
      if hpr.domain.state != state {
        hpr := hpr.(domain := hpr.domain.(last := hpr.domain.state));
        hpr := hpr.(domain := hpr.domain.(state := state));
      }
    }

    /** A line that starts or stops the work thread, or posts an event. */
    method Emit(output: C.Output)
      modifies this
      ensures hpr == old(hpr).(out := old(hpr).out + [output])
    {
      hpr := hpr.(out := hpr.out + [output]);
    }

    method SendDomainMessage(ok: bool)
      modifies this
      ensures hpr == C.Sent(old(hpr), ok)
    {
      var domain := hpr.domain.(name := hpr.name, version := hpr.version, info := hpr.info);
      if hpr.subscribed {
        domain := domain.(watcher := true);
      } else {
        domain := domain.(watcher := false, answer := AnsUnknown);
      }
      assert domain == C.Described(hpr);
      hide C.Described;
      ghost var g := hpr;
      hpr := hpr.(domain := domain, out := hpr.out + [C.SendDomain(domain, hpr.needDiscovery)]);
      if ok {
        hpr := hpr.(needDiscovery := false);
      } else {
        hpr := hpr.(needDiscovery := true);
        if hpr.subscribed {
          if hpr.serverState != MrOffline {
            hpr := hpr.(out := hpr.out + [C.ShowDetail(MrOffline, true)], serverState := MrOffline);
          }
        }
      }
      assert hpr.out == C.Sent(g, ok).out;
    }

    /** The package for this client's domain in a control message. */
    method ChoosePackage(packages: seq<Package>) returns (package: Package)
      ensures package == C.Chosen(packages, hpr.name, hpr.package)
    {
      assert packages[0..] == packages;
      for i := 0 to |packages|
        invariant C.Chosen(packages, hpr.name, hpr.package) == C.Chosen(packages[i..], hpr.name, hpr.package)
      {
        assert packages[i..][1..] == packages[i + 1..];
        if packages[i].domain == hpr.name {
          return packages[i];
        }
      }
      return hpr.package;
    }

    method Take(control: Control, upgrade: Upgrade)
      modifies this
      ensures hpr == C.Took(old(hpr), control, upgrade)
    {
      hide C.Chosen;
      hpr := hpr.(control := control);
      hpr := hpr.(domain := hpr.domain.(name := hpr.name, version := hpr.version, info := hpr.info));
      var package := ChoosePackage(upgrade.packages);
      hpr := hpr.(package := package);
    }

    method OnReset()
      modifies this
      ensures hpr == C.OnReset(old(hpr))
    {
      hide C.Entered;
      hpr := hpr.(hasCancelAction := false);
      hpr := hpr.(domain := hpr.domain.(error := 0));
      if hpr.domain.state == WrOffline {
        SetDomainState(WrIdle);
      }
    }

    /** The error and the answer forgotten on the way into a state. */
    method Begin(state: ClientState)
      modifies this
      ensures hpr == C.Begin(old(hpr), state)
    {
      hide C.Entered;
      hpr := hpr.(domain := hpr.domain.(error := 0));
      SetDomainState(state);
      hpr := hpr.(domain := hpr.domain.(answer := AnsUnknown));
    }

    method OnDownload()
      modifies this
      ensures hpr == C.OnDownload(old(hpr))
    {
      hide C.Begin;
      hpr := hpr.(hasCancelAction := false);
      if !hpr.package.hasFiles {
        return;
      }
      if hpr.domain.state == WrDownload || hpr.domain.state == WrError {
        return;
      }
      Begin(WrDownload);
      Emit(C.StopThread);
      Emit(C.StartDownload);
    }

    method OnDeploy(depends: seq<string>)
      modifies this
      ensures hpr == C.OnDeploy(old(hpr), depends)
    {
      hide HasDepends, DetectVersionEqual, C.Begin, C.Entered, VersionValid;
      hpr := hpr.(hasCancelAction := false);
      if !hpr.package.hasFiles {
        return;
      }
      if hpr.domain.state == WrDeploy || hpr.domain.state == WrError {
        return;
      }
      if DetectVersionEqual(hpr.domain.version, hpr.package.version) && hpr.domain.state == WrIdle {
        return;
      }
      if hpr.domain.state == WrIdle {
        SetDomainState(WrWait);
      }
      var found := ComputeHasDepends(hpr.package.depends, depends);
      if found {
        return;
      }
      StartDeploying();
    }

    /** The end of CTL_DEPLOY, for a client that is free to deploy. */
    method StartDeploying()
      modifies this
      ensures var b := C.Begin(old(hpr), WrDeploy);
              var valid := VersionValid(b.domain.version, b.package.version);
              hpr == C.Emit(b, [C.StopThread, if C.AtTarget(b) then C.PostDeployDone
                                              else if !valid then C.PostError(2900)
                                              else C.StartDeploy])
    {
      hide DetectVersionEqual, C.Begin, VersionValid;
      Begin(WrDeploy);
      Emit(C.StopThread);
      if DetectVersionEqual(hpr.domain.version, hpr.package.version) {
        Emit(C.PostDeployDone);
        return;
      }
      var valid := DetectVersionValid(hpr.domain.version, hpr.package.version);
      if !valid {
        Emit(C.PostError(2900));
        return;
      }
      Emit(C.StartDeploy);
    }

    method OnCancel()
      modifies this
      ensures hpr == C.OnCancel(old(hpr))
    {
      hide DetectVersionEqual, C.Entered;
      hpr := hpr.(hasCancelAction := true);
      if !hpr.package.hasFiles {
        return;
      }
      if hpr.domain.state == WrCancel || hpr.domain.state == WrError {
        return;
      }
      hpr := hpr.(domain := hpr.domain.(error := 0));
      SetDomainState(WrCancel);
      if DetectVersionEqual(hpr.domain.version, hpr.package.version) {
        Emit(C.PostError(2901));
        return;
      }
      if hpr.domain.last == WrIdle {
        Emit(C.PostCancelDone);
        return;
      }
      if hpr.cancelEnable {
        if hpr.domain.last == WrWait {
          Emit(C.PostCancelDone);
        }
      } else {
        if hpr.domain.last == WrDeploy {
          Emit(C.PostError(2902));
        }
      }
    }

    method OnClear()
      modifies this
      ensures hpr == C.OnClear(old(hpr))
    {
      hide C.Entered;
      hpr := hpr.(hasCancelAction := false);
      Emit(C.StopThread);
      SetDomainState(WrIdle);
      hpr := hpr.(domain := hpr.domain.(answer := AnsUnknown));
    }

    method OnControl(control: Control, upgrade: Upgrade, depends: seq<string>)
      modifies this
      ensures hpr == C.Obeyed(C.Took(old(hpr), control, upgrade), control, depends)
    {
      hide C.Took, C.OnReset, C.OnDownload, C.OnDeploy, C.OnCancel, C.OnClear;
      Take(control, upgrade);
      match control {
        case CtlUnknown =>
        case CtlReset => OnReset();
        case CtlDownload => OnDownload();
        case CtlDeploy => OnDeploy(depends);
        case CtlCancel => OnCancel();
        case CtlClear => OnClear();
      }
    }

    method OnDetail(state: ServerState)
      modifies this
      ensures hpr == C.OnDetail(old(hpr), state)
    {
      var stateChanged := false;
      if hpr.serverState != state {
        hpr := hpr.(serverState := state);
        stateChanged := true;
      }
      Emit(C.ShowDetail(state, stateChanged));
    }

    /** Into a state with the work thread on a new job. */
    method Work(state: ClientState, job: C.Output)
      modifies this
      ensures hpr == C.Work(old(hpr), state, job)
    {
      hide C.Entered;
      SetDomainState(state);
      hpr := hpr.(domain := hpr.domain.(answer := AnsUnknown));
      Emit(C.StopThread);
      Emit(job);
    }

    method OnVerified()
      modifies this
      ensures hpr == C.Verified(old(hpr))
    {
      hide C.Entered, C.Work;
      if !hpr.package.hasPatch || hpr.patched {
        hpr := hpr.(patched := false);
        SetDomainState(WrWait);
        hpr := hpr.(domain := hpr.domain.(answer := AnsUnknown));
      } else {
        Work(WrPatch, C.StartPatch);
      }
    }

    method Unanswer()
      modifies this
      ensures hpr == C.Unanswered(old(hpr))
    {
      hpr := hpr.(domain := hpr.domain.(answer := AnsUnknown));
    }

    method OnError(error: int)
      modifies this
      ensures hpr == C.OnError(old(hpr), error)
    {
      hide C.Entered;
      SetDomainState(WrError);
      hpr := hpr.(domain := hpr.domain.(error := error));
      hpr := hpr.(domain := hpr.domain.(answer := AnsUnknown));
    }

    method OnDeployDone()
      modifies this
      ensures hpr == C.OnDeployDone(old(hpr))
    {
      hide C.Entered;
      hpr := hpr.(version := hpr.package.version);
      SetDomainState(WrIdle);
      hpr := hpr.(domain := hpr.domain.(answer := AnsUnknown, version := hpr.version));
    }

    /** eventChanged, and the timer that repeats the message to the server. */
    method EventChanged(e: C.Event, ok: bool)
      modifies this
      ensures hpr == C.Step(old(hpr), e, ok)
    {
      hide C.OnError, C.Obeyed, C.Work, C.Verified, C.Unanswered, C.OnDeployDone, C.Entered, C.Sent, C.OnDetail;
      if e.ReqDetail? {
        OnDetail(e.state);
        return;
      }
      match e {
        case ResError(error) => OnError(error);
        case ReqControl(control, upgrade, depends) => OnControl(control, upgrade, depends);
        case ResDownload => Work(WrVerify, C.StartVerify);
        case ResVerify => OnVerified();
        case ResPatch(patched) =>
          hpr := hpr.(patched := patched);
          Work(WrVerify, C.StartVerify);
        case ResAnswer(answer) =>
          hpr := hpr.(domain := hpr.domain.(answer := answer));
        case ResTransferProgress => Unanswer();
        case ResDeployDone => OnDeployDone();
        case ResCancelDone =>
          SetDomainState(WrIdle);
          hpr := hpr.(domain := hpr.domain.(answer := AnsUnknown));
        case ResDeployProgress => Unanswer();
        case ReplyTimer =>
      }
      assert hpr == C.Handled(old(hpr), e);
      SendDomainMessage(ok);
      if e.ResAnswer? {
        Unanswer();
      }
    }
  }
}
