/** What each event makes of a client, in plain terms: its state, its package, what it posts,
    starts and sends. */
module ClientEffects {
  import opened Domain
  import opened Client

  // ----- the package

  /** `p` is the upgrade's first package for the name. */
  predicate FirstFor(ps: seq<Package>, name: string, k: nat)
  {
    k < |ps| && ps[k].domain == name && forall j :: 0 <= j < k ==> ps[j].domain != name
  }

  lemma {:induction false} ChosenMeaning(ps: seq<Package>, name: string, sofar: Package)
    ensures (exists k: nat :: FirstFor(ps, name, k) && Chosen(ps, name, sofar) == ps[k])
            || ((forall k :: 0 <= k < |ps| ==> ps[k].domain != name) && Chosen(ps, name, sofar) == sofar)
  {
    if ps != [] {
      if ps[0].domain == name {
        assert FirstFor(ps, name, 0);
      } else {
        ChosenMeaning(ps[1..], name, sofar);
        if k: nat :| FirstFor(ps[1..], name, k) && Chosen(ps[1..], name, sofar) == ps[1..][k] {
          assert forall j :: 1 <= j <= k ==> ps[j] == ps[1..][j - 1];
          assert FirstFor(ps, name, k + 1);
        } else {
          assert forall j :: 1 <= j < |ps| ==> ps[j] == ps[1..][j - 1];
        }
      }
    }
  }

  /** After a control the client has the upgrade's first package of its name, if there is
      one, and the control, whichever it is. */
  lemma {:induction false} ControlTakesPackage(h: Helper, control: Control, upgrade: Upgrade, depends: seq<string>,
                                               ok: bool)
    ensures var g := Step(h, ReqControl(control, upgrade, depends), ok);
      && g.control == control && g.name == h.name
      && ((exists k: nat :: FirstFor(upgrade.packages, h.name, k) && g.package == upgrade.packages[k])
          || ((forall k :: 0 <= k < |upgrade.packages| ==> upgrade.packages[k].domain != h.name)
              && g.package == h.package))
  {
    hide Obeyed, Sent, Chosen, FirstFor;
    var t := Took(h, control, upgrade);
    ChosenMeaning(upgrade.packages, h.name, h.package);
    ObeyedTame(t, control, depends);
    ObeyedControl(t, control, depends);
    SentFacts(Obeyed(t, control, depends), ok);
    SentControl(Obeyed(t, control, depends), ok);
  }

  lemma {:induction false} ObeyedControl(h: Helper, control: Control, depends: seq<string>)
    ensures Obeyed(h, control, depends).control == h.control
  {
    hide Entered, HasDepends, VersionValid, DetectVersionEqual;
  }

  lemma {:induction false} SentControl(h: Helper, ok: bool)
    ensures Sent(h, ok).control == h.control
  {
  }

  // ----- the controls

  /** The state entered from another, and the last one kept. */
  predicate Enters(d: Domain, e: Domain, state: ClientState)
  {
    e.state == state && e.last == if d.state == state then d.last else d.state
  }

  lemma {:induction false} EnteredMeaning(d: Domain, state: ClientState)
    ensures Enters(d, Entered(d, state), state)
    ensures Entered(d, state) == d.(state := state, last := Entered(d, state).last)
  {
  }

  lemma {:induction false} ResetMeaning(h: Helper)
    ensures var g := OnReset(h);
      && !g.hasCancelAction && g.out == h.out && g.domain.error == 0
      && (if h.domain.state == WrOffline then Enters(h.domain, g.domain, WrIdle)
          else g.domain.state == h.domain.state && g.domain.last == h.domain.last)
  {
  }

  /** The transfer starts unless there are no files, it runs already, or the client failed. */
  lemma {:induction false} DownloadMeaning(h: Helper)
    ensures var g := OnDownload(h);
      && !g.hasCancelAction
      && (if h.package.hasFiles && h.domain.state != WrDownload && h.domain.state != WrError then
            Enters(h.domain, g.domain, WrDownload) && g.domain.error == 0
            && g.out == h.out + [StopThread, StartDownload]
          else g.domain == h.domain && g.out == h.out)
  {
    hide Entered;
    EnteredMeaning(h.domain.(error := 0), WrDownload);
  }

  predicate Skips(h: Helper)
  {
    || !h.package.hasFiles || h.domain.state == WrDeploy || h.domain.state == WrError
    || (h.domain.state == WrIdle && h.domain.version == h.package.version && h.package.version != "")
  }

  predicate Finished(h: Helper) { h.domain.version == h.package.version && h.package.version != "" }

  lemma {:induction false} DeploySkips(h: Helper, depends: seq<string>)
    requires Skips(h)
    ensures OnDeploy(h, depends) == h.(hasCancelAction := false)
  {
    hide HasDepends, Begin;
  }

  lemma {:induction false} DeployWaits(h: Helper, depends: seq<string>)
    requires !Skips(h) && HasDepends(h.package.depends, depends)
    ensures var g := OnDeploy(h, depends);
      && !g.hasCancelAction && g.out == h.out
      && if h.domain.state == WrIdle then Enters(h.domain, g.domain, WrWait) else g.domain == h.domain
  {
    hide HasDepends, Begin;
  }

  lemma {:induction false} DeployStarts(h: Helper, depends: seq<string>)
    requires !Skips(h) && !HasDepends(h.package.depends, depends)
    ensures var g := OnDeploy(h, depends);
      && !g.hasCancelAction && g.domain.state == WrDeploy && g.domain.error == 0
      && g.domain.last == (if h.domain.state == WrIdle then WrWait else h.domain.state)
      && g.out == h.out + [StopThread, if Finished(h) then PostDeployDone
                                       else if VersionValid(h.domain.version, h.package.version) then StartDeploy
                                       else PostError(2900)]
  {
    hide HasDepends, VersionValid, Begin;
    var g := h.(hasCancelAction := false);
    var w := if g.domain.state == WrIdle then SetDomainState(g, WrWait) else g;
    BegunMeaning(w);
  }

  lemma {:induction false} BegunMeaning(h: Helper)
    requires h.domain.state != WrDeploy
    ensures var g := Begin(h, WrDeploy);
      && g == h.(domain := g.domain) && g.domain.state == WrDeploy && g.domain.last == h.domain.state
      && g.domain.error == 0 && g.domain.version == h.domain.version
  {
  }

  /** CTL_DEPLOY: nothing for a client without files, one that deploys, has failed or is
      finished; waiting for one whose depends text names a listed domain; for the others the
      deployment, done at once at the target version, failed for a version that does not grow. */
  lemma {:induction false} DeployMeaning(h: Helper, depends: seq<string>)
    ensures var g := OnDeploy(h, depends);
      var named := exists w :: w in depends && Names(h.package.depends, w);
      && !g.hasCancelAction
      && (if Skips(h) then g.domain == h.domain && g.out == h.out
          else if named then
            g.out == h.out
            && if h.domain.state == WrIdle then Enters(h.domain, g.domain, WrWait) else g.domain == h.domain
          else
            && g.domain.state == WrDeploy && g.domain.error == 0
            && g.domain.last == (if h.domain.state == WrIdle then WrWait else h.domain.state)
            && g.out == h.out + [StopThread, if Finished(h) then PostDeployDone
                                             else if VersionValid(h.domain.version, h.package.version) then StartDeploy
                                             else PostError(2900)])
  {
    hide OnDeploy, HasDepends, VersionValid, Names, Skips;
    HasDependsMeaning(h.package.depends, depends);
    if Skips(h) {
      DeploySkips(h, depends);
    } else if HasDepends(h.package.depends, depends) {
      DeployWaits(h, depends);
    } else {
      DeployStarts(h, depends);
    }
  }

  /** CTL_CANCEL: an error for a client already at its target, done at once for an idle or,
      where cancelling is enabled, a waiting one, and an error for a deploying one where it
      is not; the work thread answers for the others. */
  lemma {:induction false} CancelMeaning(h: Helper)
    ensures var g := OnCancel(h);
      && g.hasCancelAction
      && (if h.package.hasFiles && h.domain.state != WrCancel && h.domain.state != WrError then
            && Enters(h.domain, g.domain, WrCancel) && g.domain.error == 0
            && g.out == h.out +
                 if h.domain.version == h.package.version && h.package.version != "" then [PostError(2901)]
                 else if h.domain.state == WrIdle then [PostCancelDone]
                 else if h.cancelEnable && h.domain.state == WrWait then [PostCancelDone]
                 else if !h.cancelEnable && h.domain.state == WrDeploy then [PostError(2902)]
                 else []
          else g.domain == h.domain && g.out == h.out)
  {
    hide Entered;
    EnteredMeaning(h.domain.(error := 0), WrCancel);
    assert h.out + [] == h.out;
  }

  lemma {:induction false} ClearMeaning(h: Helper)
    ensures var g := OnClear(h);
      && !g.hasCancelAction && Enters(h.domain, g.domain, WrIdle) && g.domain.answer == AnsUnknown
      && g.out == h.out + [StopThread]
  {
  }

  /** Each control does its own. */
  lemma {:induction false} ControlMeaning(h: Helper, depends: seq<string>)
    ensures Obeyed(h, CtlUnknown, depends) == h && Obeyed(h, CtlReset, depends) == OnReset(h)
    ensures Obeyed(h, CtlDownload, depends) == OnDownload(h) && Obeyed(h, CtlDeploy, depends) == OnDeploy(h, depends)
    ensures Obeyed(h, CtlCancel, depends) == OnCancel(h) && Obeyed(h, CtlClear, depends) == OnClear(h)
  {
  }

  // ----- the client's own events

  /** Downloading leads to verifying, verifying to waiting unless there are patches not yet
      applied, and patching back to verifying. */
  lemma {:induction false} TransferMeaning(h: Helper, patched: bool)
    ensures var g := Handled(h, ResDownload);
      Enters(h.domain, g.domain, WrVerify) && g.out == h.out + [StopThread, StartVerify]
    ensures var g := Handled(h, ResVerify);
      if h.package.hasPatch && !h.patched then
        Enters(h.domain, g.domain, WrPatch) && g.out == h.out + [StopThread, StartPatch] && g.patched == h.patched
      else Enters(h.domain, g.domain, WrWait) && g.out == h.out && !g.patched
    ensures var g := Handled(h, ResPatch(patched));
      Enters(h.domain, g.domain, WrVerify) && g.out == h.out + [StopThread, StartVerify] && g.patched == patched
  {
    hide Work, Verified, Enters;
    WorkMeaning(h, WrVerify, StartVerify);
    WorkMeaning(h.(patched := patched), WrVerify, StartVerify);
    VerifiedMeaning(h);
  }

  lemma {:induction false} WorkMeaning(h: Helper, state: ClientState, job: Output)
    ensures var g := Work(h, state, job);
      Enters(h.domain, g.domain, state) && g.out == h.out + [StopThread, job] && g.patched == h.patched
  {
  }

  lemma {:induction false} VerifiedMeaning(h: Helper)
    ensures var g := Verified(h);
      if h.package.hasPatch && !h.patched then
        Enters(h.domain, g.domain, WrPatch) && g.out == h.out + [StopThread, StartPatch] && g.patched == h.patched
      else Enters(h.domain, g.domain, WrWait) && g.out == h.out && !g.patched
  {
    hide Work;
    WorkMeaning(h, WrPatch, StartPatch);
  }

  /** A finished deployment brings the package's version, an error its code, and a finished
      cancellation leaves the version alone. */
  lemma {:induction false} OutcomeMeaning(h: Helper, error: int)
    ensures var g := Handled(h, ResDeployDone);
      && Enters(h.domain, g.domain, WrIdle) && g.version == h.package.version && g.domain.version == h.package.version
      && g.out == h.out
    ensures var g := Handled(h, ResCancelDone);
      Enters(h.domain, g.domain, WrIdle) && g.version == h.version && g.out == h.out
    ensures var g := Handled(h, ResError(error));
      Enters(h.domain, g.domain, WrError) && g.domain.error == error && g.version == h.version && g.out == h.out
    ensures Handled(h, ReplyTimer) == h
  {
    hide Entered;
    EnteredMeaning(h.domain, WrIdle);
    EnteredMeaning(h.domain, WrError);
  }

  // ----- messages

  /** The message: everything the client knows of itself, an answer only where there is a user
      to give it, and the search for the server as long as no message got through. */
  lemma {:induction false} MessageMeaning(h: Helper, ok: bool)
    ensures var g := Sent(h, ok);
      var d := h.domain.(name := h.name, version := h.version, info := h.info, watcher := h.subscribed,
                         answer := if h.subscribed then h.domain.answer else AnsUnknown);
      && g.domain == d && g.needDiscovery == !ok
      && g.out == h.out + [SendDomain(d, h.needDiscovery)]
                  + (if !ok && h.subscribed && h.serverState != MrOffline then [ShowDetail(MrOffline, true)] else [])
      && g.serverState == if !ok && h.subscribed then MrOffline else h.serverState
  {
  }

  /** Every event but a detail message ends with one message, and an answer is sent once. */
  lemma {:induction false} StepSends(h: Helper, e: Event, ok: bool)
    ensures !e.ReqDetail? && !e.ResAnswer? ==> Step(h, e, ok) == Sent(Handled(h, e), ok)
    ensures e.ResAnswer? ==>
              var asked := h.(domain := h.domain.(answer := e.answer));
              var g := Step(h, e, ok);
              g.out == Sent(asked, ok).out && g.domain == Sent(asked, ok).domain.(answer := AnsUnknown)
    ensures e.ReqDetail? ==>
              var g := Step(h, e, ok);
              g.serverState == e.state && g.out == h.out + [ShowDetail(e.state, e.state != h.serverState)]
              && g.domain == h.domain
  {
    hide Sent;
  }

  /** Whatever ends or starts a piece of work forgets the answer. */
  lemma {:induction false} AnswerForgotten(h: Helper, e: Event)
    requires !e.ReqControl? && !e.ReqDetail? && !e.ResAnswer? && !e.ReplyTimer?
    ensures Handled(h, e).domain.answer == AnsUnknown && OnClear(h).domain.answer == AnsUnknown
    ensures e.ResTransferProgress? || e.ResDeployProgress? ==>
              Handled(h, e) == h.(domain := h.domain.(answer := AnsUnknown))
  {
  }

  lemma {:induction false} StartForgets(h: Helper, depends: seq<string>)
    ensures OnDownload(h).out != h.out ==> OnDownload(h).domain.answer == AnsUnknown
    ensures OnDeploy(h, depends).out != h.out ==> OnDeploy(h, depends).domain.answer == AnsUnknown
  {
    hide HasDepends, VersionValid, DetectVersionEqual, Entered;
  }

  /** A client that starts without an answer never keeps one: a message carries the answer of
      its own event, and of that alone. */
  lemma {:induction false} AnswerOnce(h: Helper, e: Event, ok: bool)
    requires h.domain.answer == AnsUnknown
    ensures Step(h, e, ok).domain.answer == AnsUnknown
    ensures !e.ReqDetail? ==>
              && Handled(h, e).domain.answer == (if e.ResAnswer? then e.answer else AnsUnknown)
              && SendDomain(Described(Handled(h, e)), Handled(h, e).needDiscovery) in Step(h, e, ok).out
  {
    hide HasDepends, VersionValid, DetectVersionEqual, Obeyed, Chosen;
    if e.ReqControl? { ControlAnswer(Took(h, e.control, e.upgrade), e.control, e.depends); }
    if !e.ReqDetail? { Says(Handled(h, e), ok); }
  }

  lemma {:induction false} Says(h: Helper, ok: bool)
    ensures SendDomain(Described(h), h.needDiscovery) in Sent(h, ok).out
    ensures Sent(h, ok).domain.answer == if h.subscribed then h.domain.answer else AnsUnknown
  {
    assert Sent(h, ok).out[|h.out|] == SendDomain(Described(h), h.needDiscovery);
  }

  lemma {:induction false} ControlAnswer(h: Helper, control: Control, depends: seq<string>)
    requires h.domain.answer == AnsUnknown
    ensures Obeyed(h, control, depends).domain.answer == AnsUnknown
  {
    hide OnDeploy, OnCancel;
    DeployAnswer(h, depends);
    CancelAnswer(h);
  }

  lemma {:induction false} DeployAnswer(h: Helper, depends: seq<string>)
    requires h.domain.answer == AnsUnknown
    ensures OnDeploy(h, depends).domain.answer == AnsUnknown
  {
    hide HasDepends, VersionValid, DetectVersionEqual;
  }

  lemma {:induction false} CancelAnswer(h: Helper)
    requires h.domain.answer == AnsUnknown
    ensures OnCancel(h).domain.answer == AnsUnknown
  {
    hide DetectVersionEqual;
  }
}
