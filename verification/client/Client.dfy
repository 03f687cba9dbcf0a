/** The client's helper record and what its handlers make of it. Messages to the server,
    events a client posts to itself and jobs for its work thread are appended to `out`. */
module Client {
  import opened Domain
  import opened Options

  datatype Output =
    | SendDomain(domain: Domain, discovery: bool)
    | ShowDetail(state: ServerState, changed: bool)
    | PostDeployDone
    | PostCancelDone
    | PostError(error: int)
    | StopThread
    | StartDownload
    | StartVerify
    | StartPatch
    | StartDeploy

  /** `patched` says whether patchNewFiles is non-empty, `subscribed` whether there is a
      detail function. */
  datatype Helper = Helper(
    name: string, version: string, info: string, subscribed: bool, cancelEnable: bool, hasCancelAction: bool,
    needDiscovery: bool, control: Control, serverState: ServerState, patched: bool, domain: Domain, package: Package,
    out: seq<Output>)

  datatype Event =
    | ResError(error: int)
    | ReqControl(control: Control, upgrade: Upgrade, depends: seq<string>)
    | ReqDetail(state: ServerState)
    | ResDownload
    | ResVerify
    | ResPatch(patched: bool)
    | ResAnswer(answer: Answer)
    | ResTransferProgress
    | ResDeployDone
    | ResCancelDone
    | ResDeployProgress
    | ReplyTimer   // the periodic timer

  const NoPackage := Package("", "", "", false, false)

  function Initial(name: string, version: string, subscribed: bool, cancelEnable: bool): Helper
  {
    Helper(name, version, "", subscribed, cancelEnable, false, true, CtlUnknown, MrOffline, false,
           Domain("", WrIdle, WrOffline, false, 0, "", AnsUnknown, ""), NoPackage, [])
  }

  function Entered(d: Domain, state: ClientState): Domain
  {
    if d.state == state then d else d.(last := d.state, state := state)
  }

  function SetDomainState(h: Helper, state: ClientState): Helper { h.(domain := Entered(h.domain, state)) }

  function Emit(h: Helper, outputs: seq<Output>): Helper { h.(out := h.out + outputs) }

  /** What the client tells about itself. */
  function Described(h: Helper): Domain
  {
    h.domain.(name := h.name, version := h.version, info := h.info, watcher := h.subscribed,
              answer := if h.subscribed then h.domain.answer else AnsUnknown)
  }

  /** sendDomainMessage; `ok` is whether the transport took the message. */
  function Sent(h: Helper, ok: bool): Helper
  {
    var lost := !ok && h.subscribed && h.serverState != MrOffline;
    h.(domain := Described(h), needDiscovery := !ok,
       serverState := if lost then MrOffline else h.serverState,
       out := h.out + [SendDomain(Described(h), h.needDiscovery)] + if lost then [ShowDetail(MrOffline, true)] else [])
  }

  /** The package for a domain: the first of its name, or the one so far. */
  function Chosen(ps: seq<Package>, name: string, sofar: Package): Package
  {
    if ps == [] then sofar else if ps[0].domain == name then ps[0] else Chosen(ps[1..], name, sofar)
  }

  function Took(h: Helper, control: Control, upgrade: Upgrade): Helper
  {
    h.(control := control, package := Chosen(upgrade.packages, h.name, h.package),
       domain := h.domain.(name := h.name, version := h.version, info := h.info))
  }

  predicate AtTarget(h: Helper) { DetectVersionEqual(h.domain.version, h.package.version) }

  /** Entering a state with the answer and the error forgotten. */
  function Begin(h: Helper, state: ClientState): Helper
  {
    h.(domain := Entered(h.domain.(error := 0), state).(answer := AnsUnknown))
  }

  function OnReset(h: Helper): Helper
  {
    var g := h.(hasCancelAction := false, domain := h.domain.(error := 0));
    if g.domain.state == WrOffline then SetDomainState(g, WrIdle) else g
  }

  function OnDownload(h: Helper): Helper
  {
    var g := h.(hasCancelAction := false);
    if !g.package.hasFiles || g.domain.state == WrDownload || g.domain.state == WrError then g
    else Emit(Begin(g, WrDownload), [StopThread, StartDownload])
  }

  function OnDeploy(h: Helper, depends: seq<string>): Helper
  {
    var g := h.(hasCancelAction := false);
    if !g.package.hasFiles || g.domain.state == WrDeploy || g.domain.state == WrError
       || (AtTarget(g) && g.domain.state == WrIdle)
    then g
    else
      var w := if g.domain.state == WrIdle then SetDomainState(g, WrWait) else g;
      if HasDepends(w.package.depends, depends) then w
      else
        var b := Begin(w, WrDeploy);
        Emit(b, [StopThread, if AtTarget(b) then PostDeployDone
                             else if !VersionValid(b.domain.version, b.package.version) then PostError(2900)
                             else StartDeploy])
  }

  function OnCancel(h: Helper): Helper
  {
    var g := h.(hasCancelAction := true);
    if !g.package.hasFiles || g.domain.state == WrCancel || g.domain.state == WrError then g
    else
      var c := g.(domain := Entered(g.domain.(error := 0), WrCancel));
      if AtTarget(c) then Emit(c, [PostError(2901)])
      else if c.domain.last == WrIdle then Emit(c, [PostCancelDone])
      else if c.cancelEnable then if c.domain.last == WrWait then Emit(c, [PostCancelDone]) else c
      else if c.domain.last == WrDeploy then Emit(c, [PostError(2902)])
      else c
  }

  function OnClear(h: Helper): Helper
  {
    var g := Emit(h.(hasCancelAction := false), [StopThread]);
    g.(domain := Entered(g.domain, WrIdle).(answer := AnsUnknown))
  }

  function Obeyed(h: Helper, control: Control, depends: seq<string>): Helper
  {
    match control
    case CtlUnknown => h
    case CtlReset => OnReset(h)
    case CtlDownload => OnDownload(h)
    case CtlDeploy => OnDeploy(h, depends)
    case CtlCancel => OnCancel(h)
    case CtlClear => OnClear(h)
  }

  function OnDetail(h: Helper, state: ServerState): Helper
  {
    Emit(h.(serverState := state), [ShowDetail(state, state != h.serverState)])
  }

  /** Into `state` with the work thread stopped and started again. */
  function Work(h: Helper, state: ClientState, job: Output): Helper
  {
    Emit(h.(domain := Entered(h.domain, state).(answer := AnsUnknown)), [StopThread, job])
  }

  /** A finished verification leads on to waiting, or first to patching. */
  function Verified(h: Helper): Helper
  {
    if !h.package.hasPatch || h.patched then
      h.(patched := false, domain := Entered(h.domain, WrWait).(answer := AnsUnknown))
    else Work(h, WrPatch, StartPatch)
  }

  function OnError(h: Helper, error: int): Helper
  {
    h.(domain := Entered(h.domain, WrError).(error := error, answer := AnsUnknown))
  }

  function OnDeployDone(h: Helper): Helper
  {
    h.(version := h.package.version,
       domain := Entered(h.domain, WrIdle).(answer := AnsUnknown, version := h.package.version))
  }

  /** What a handler does before it sends the domain message. */
  function Handled(h: Helper, e: Event): Helper
  {
    match e
    case ResError(error) => OnError(h, error)
    case ReqControl(control, upgrade, depends) => Obeyed(Took(h, control, upgrade), control, depends)
    case ReqDetail(state) => h
    case ResDownload => Work(h, WrVerify, StartVerify)
    case ResVerify => Verified(h)
    case ResPatch(patched) => Work(h.(patched := patched), WrVerify, StartVerify)
    case ResAnswer(answer) => h.(domain := h.domain.(answer := answer))
    case ResTransferProgress => Unanswered(h)
    case ResDeployDone => OnDeployDone(h)
    case ResCancelDone => h.(domain := Entered(h.domain, WrIdle).(answer := AnsUnknown))
    case ResDeployProgress => Unanswered(h)
    case ReplyTimer => h
  }

  function Unanswered(h: Helper): Helper { h.(domain := h.domain.(answer := AnsUnknown)) }

  /** One event; `ok` is whether the transport takes the message the handler sends. */
  function Step(h: Helper, e: Event, ok: bool): Helper
  {
    match e
    case ReqDetail(state) => OnDetail(h, state)
    case ResAnswer(_) => Unanswered(Sent(Handled(h, e), ok))
    case _ => Sent(Handled(h, e), ok)
  }

  /** At the version of its package. */
  predicate Deployed(h: Helper) { DetectVersionEqual(h.version, h.package.version) }

  /** Idle at the version of its package. */
  predicate Done(h: Helper) { h.domain.state == WrIdle && Deployed(h) }

  /** The events that take a finished client out of that. */
  predicate Disturbs(h: Helper, e: Event)
  {
    match e
    case ResError(_) => true
    case ResDownload => true
    case ResVerify => true
    case ResPatch(_) => true
    case ReqControl(control, _, _) => (control == CtlDownload || control == CtlCancel) && h.package.hasFiles
    case _ => false
  }

  /** The upgrade in the event, if there is one, brings this client no other package. */
  predicate SamePackage(h: Helper, e: Event)
  {
    e.ReqControl? ==> Chosen(e.upgrade.packages, h.name, h.package) == h.package
  }

  /** `b` is `a` and more, none of it a message to the server. */
  predicate Silent(a: seq<Output>, b: seq<Output>)
  {
    |a| <= |b| && b[..|a|] == a && forall k :: |a| <= k < |b| ==> !b[k].SendDomain?
  }

  /** What obeying a control never touches, and when it may enter the deployment. */
  predicate Tame(h: Helper, g: Helper)
  {
    g.name == h.name && g.version == h.version && g.package == h.package && g.subscribed == h.subscribed
    && g.domain.version == h.domain.version && Silent(h.out, g.out)
  }

  lemma {:induction false} BegunTame(h: Helper, state: ClientState, outputs: seq<Output>)
    requires forall k :: 0 <= k < |outputs| ==> !outputs[k].SendDomain?
    ensures Tame(h, Emit(Begin(h, state), outputs)) && Begin(h, state).domain.state == state
  {
  }

  lemma {:induction false} ResetTame(h: Helper)
    ensures Tame(h, OnReset(h)) && (Done(h) ==> Done(OnReset(h)))
    ensures OnReset(h).domain.state == WrDeploy ==> h.domain.state == WrDeploy
  {
  }

  lemma {:induction false} DownloadTame(h: Helper)
    ensures Tame(h, OnDownload(h))
    ensures Done(h) ==> (Done(OnDownload(h)) <==> !h.package.hasFiles)
    ensures OnDownload(h).domain.state == WrDeploy ==> h.domain.state == WrDeploy
  {
    hide Begin, DetectVersionEqual;
    BegunTame(h.(hasCancelAction := false), WrDownload, [StopThread, StartDownload]);
  }

  lemma {:induction false} DeployTame(h: Helper, depends: seq<string>)
    ensures Tame(h, OnDeploy(h, depends))
    ensures Done(h) && h.domain.version == h.version ==> Done(OnDeploy(h, depends))
    ensures OnDeploy(h, depends).domain.state == WrDeploy && h.domain.state != WrDeploy ==>
              h.package.hasFiles && h.domain.state != WrError && !HasDepends(h.package.depends, depends)
  {
    hide HasDepends, VersionValid, DetectVersionEqual, Begin;
    var g := h.(hasCancelAction := false);
    var w := if g.domain.state == WrIdle then SetDomainState(g, WrWait) else g;
    BegunTame(w, WrDeploy, [StopThread, PostDeployDone]);
    BegunTame(w, WrDeploy, [StopThread, PostError(2900)]);
    BegunTame(w, WrDeploy, [StopThread, StartDeploy]);
  }

  lemma {:induction false} CancelTame(h: Helper)
    ensures Tame(h, OnCancel(h))
    ensures Done(h) ==> (Done(OnCancel(h)) <==> !h.package.hasFiles)
    ensures OnCancel(h).domain.state == WrDeploy ==> h.domain.state == WrDeploy
  {
    hide DetectVersionEqual;
  }

  lemma {:induction false} ClearTame(h: Helper)
    ensures Tame(h, OnClear(h)) && (Done(h) ==> Done(OnClear(h)))
    ensures OnClear(h).domain.state != WrDeploy
  {
  }

  lemma {:induction false} ObeyedTame(h: Helper, control: Control, depends: seq<string>)
    ensures var g := Obeyed(h, control, depends);
      && Tame(h, g)
      && (Done(h) && h.domain.version == h.version ==>
            (Done(g) <==> !((control == CtlDownload || control == CtlCancel) && h.package.hasFiles)))
      && (g.domain.state == WrDeploy && h.domain.state != WrDeploy ==>
            control == CtlDeploy && h.package.hasFiles && h.domain.state != WrError
            && !HasDepends(h.package.depends, depends))
  {
    hide OnReset, OnDownload, OnDeploy, OnCancel, OnClear, HasDepends, DetectVersionEqual;
    ResetTame(h);
    DownloadTame(h);
    DeployTame(h, depends);
    CancelTame(h);
    ClearTame(h);
  }

  lemma {:induction false} HandledFacts(h: Helper, e: Event)
    ensures var g := Handled(h, e);
      && g.name == h.name && g.subscribed == h.subscribed && Silent(h.out, g.out)
      && (SamePackage(h, e) ==> g.package == h.package)
      && (g.version == h.version || (e.ResDeployDone? && g.version == h.package.version))
      && (Done(h) && SamePackage(h, e) ==> (Done(g) <==> !Disturbs(h, e)))
      && (g.domain.state == WrDeploy && h.domain.state != WrDeploy ==>
            e.ReqControl? && e.control == CtlDeploy && h.domain.state != WrError
            && g.package.hasFiles && !HasDepends(g.package.depends, e.depends))
  {
    hide Obeyed, HasDepends, Chosen;
    if e.ReqControl? {
      ObeyedTame(Took(h, e.control, e.upgrade), e.control, e.depends);
    } else {
      HandledOther(h, e);
    }
  }

  lemma {:induction false} HandledOther(h: Helper, e: Event)
    requires !e.ReqControl?
    ensures var g := Handled(h, e);
      && g.name == h.name && g.subscribed == h.subscribed && Silent(h.out, g.out) && g.package == h.package
      && (g.version == h.version || (e.ResDeployDone? && g.version == h.package.version))
      && (Done(h) ==> (Done(g) <==> !Disturbs(h, e)))
      && (g.domain.state == WrDeploy ==> h.domain.state == WrDeploy)
  {
    hide Obeyed, Took, Work, Verified, OnDeployDone, OnError, Entered, DetectVersionEqual, Silent;
    SilentRefl(h.out);
    WorkTame(h, WrVerify, StartVerify);
    if e.ResPatch? { WorkTame(h.(patched := e.patched), WrVerify, StartVerify); }
    if e.ResVerify? { VerifiedTame(h); }
    EnteredFacts(h.domain, WrIdle);
    if e.ResDeployDone? { DeployDoneFacts(h); }
    if e.ResError? { ErrorFacts(h, e.error); }
  }

  lemma {:induction false} SilentRefl(a: seq<Output>)
    ensures Silent(a, a)
  {
  }

  lemma {:induction false} EnteredFacts(d: Domain, state: ClientState)
    ensures Entered(d, state).state == state && Entered(d, state).version == d.version && Entered(d, state).name == d.name
  {
  }

  lemma {:induction false} DeployDoneFacts(h: Helper)
    ensures var g := OnDeployDone(h);
      && g.name == h.name && g.subscribed == h.subscribed && g.out == h.out && g.package == h.package
      && g.version == h.package.version && g.domain.state == WrIdle && (Done(h) ==> Done(g))
  {
  }

  lemma {:induction false} ErrorFacts(h: Helper, error: int)
    ensures var g := OnError(h, error);
      && g.name == h.name && g.subscribed == h.subscribed && g.out == h.out && g.package == h.package
      && g.version == h.version && g.domain.state == WrError
  {
  }

  lemma {:induction false} WorkTame(h: Helper, state: ClientState, job: Output)
    requires !job.SendDomain?
    ensures Tame(h, Work(h, state, job)) && Work(h, state, job).domain.state == state
  {
  }

  lemma {:induction false} VerifiedTame(h: Helper)
    ensures Tame(h, Verified(h)) && (Verified(h).domain.state == WrWait || Verified(h).domain.state == WrPatch)
  {
    WorkTame(h, WrPatch, StartPatch);
    hide Work;
  }

  lemma {:induction false} SentFacts(h: Helper, ok: bool)
    ensures var g := Sent(h, ok);
      && g.name == h.name && g.subscribed == h.subscribed && g.package == h.package && g.version == h.version
      && g.domain.state == h.domain.state && g.domain == Described(h)
      && |g.out| > |h.out| && g.out[..|h.out|] == h.out && g.out[|h.out|] == SendDomain(Described(h), h.needDiscovery)
      && forall k :: |h.out| < k < |g.out| ==> !g.out[k].SendDomain?
  {
  }

  lemma {:induction false} DetailFacts(h: Helper, state: ServerState)
    ensures OnDetail(h, state) == h.(serverState := state, out := OnDetail(h, state).out)
    ensures Silent(h.out, OnDetail(h, state).out)
  {
  }

  /** A finished client stays finished under exactly the undisturbing events. */
  lemma {:induction false} DoneStays(h: Helper, e: Event, ok: bool)
    requires Done(h) && SamePackage(h, e)
    ensures Done(Step(h, e, ok)) <==> !Disturbs(h, e)
  {
    hide Handled, Sent, OnDetail, Chosen, DetectVersionEqual;
    HandledFacts(h, e);
    SentFacts(Handled(h, e), ok);
    if e.ReqDetail? { DetailFacts(h, e.state); }
  }

  /** A client keeps its target version under every event, whatever becomes of its state. */
  lemma {:induction false} DeployedStays(h: Helper, e: Event, ok: bool)
    requires Deployed(h) && SamePackage(h, e)
    ensures Deployed(Step(h, e, ok))
  {
    hide Handled, Sent, OnDetail, Chosen;
    HandledFacts(h, e);
    SentFacts(Handled(h, e), ok);
    if e.ReqDetail? { DetailFacts(h, e.state); }
  }

  lemma {:induction false} PackageStays(h: Helper, e: Event, ok: bool)
    requires SamePackage(h, e)
    ensures Step(h, e, ok).package == h.package && Step(h, e, ok).name == h.name
  {
    hide Handled, Sent, OnDetail, Chosen;
    HandledFacts(h, e);
    SentFacts(Handled(h, e), ok);
    if e.ReqDetail? { DetailFacts(h, e.state); }
  }

  /** Deploying starts with nothing but CTL_DEPLOY, for a package with files, behind no
      failure, and with no domain that the package's depends text names still listed. */
  lemma {:induction false} DeployNeedsFreedom(h: Helper, e: Event, ok: bool)
    requires Step(h, e, ok).domain.state == WrDeploy && h.domain.state != WrDeploy
    ensures e.ReqControl? && e.control == CtlDeploy && h.domain.state != WrError
    ensures var p := Step(h, e, ok).package;
            p.hasFiles && forall w :: w in e.depends ==> !Names(p.depends, w)
  {
    hide Handled, Sent, OnDetail, HasDepends, Names;
    HandledFacts(h, e);
    SentFacts(Handled(h, e), ok);
    if e.ReqControl? { HasDependsMeaning(Step(h, e, ok).package.depends, e.depends); }
    if e.ReqDetail? { DetailFacts(h, e.state); }
  }

  /** Every message tells the state and the version the client has from then on. */
  lemma {:induction false} MessagesAreTrue(h: Helper, e: Event, ok: bool, k: nat)
    requires |h.out| <= k < |Step(h, e, ok).out| && Step(h, e, ok).out[k].SendDomain?
    ensures var g := Step(h, e, ok);
            var d := g.out[k].domain;
            d.name == g.name && d.state == g.domain.state && d.version == g.version && d.watcher == g.subscribed
  {
    hide Handled, Sent, OnDetail;
    HandledFacts(h, e);
    SentFacts(Handled(h, e), ok);
    if e.ReqDetail? { DetailFacts(h, e.state); }
  }

  lemma {:induction false} OutputGrows(h: Helper, e: Event, ok: bool)
    ensures |h.out| <= |Step(h, e, ok).out| && Step(h, e, ok).out[..|h.out|] == h.out
  {
    hide Handled, Sent, OnDetail;
    HandledFacts(h, e);
    var g := Handled(h, e);
    SentFacts(g, ok);
    if e.ReqDetail? {
      DetailFacts(h, e.state);
    } else {
      assert Sent(g, ok).out[..|g.out|][..|h.out|] == Sent(g, ok).out[..|h.out|];
    }
  }

  // ----- whole runs

  function Run(h: Helper, events: seq<(Event, bool)>): Helper
  {
    if events == [] then h
    else
      var last := events[|events| - 1];
      Step(Run(h, events[..|events| - 1]), last.0, last.1)
  }

  /** The last control in a run that is not CTL_UNKNOWN. */
  function LastControl(events: seq<(Event, bool)>): Control
  {
    if events == [] then CtlUnknown
    else
      var e := events[|events| - 1].0;
      if e.ReqControl? && e.control != CtlUnknown then e.control else LastControl(events[..|events| - 1])
  }

  /** The flag that breaks off downloads, verifications and patches is up exactly while
      CTL_CANCEL is the server's last word. */
  lemma {:induction false} CancelActionMeaning(name: string, version: string, subscribed: bool, cancelEnable: bool,
                                               events: seq<(Event, bool)>)
    ensures Run(Initial(name, version, subscribed, cancelEnable), events).hasCancelAction
            <==> LastControl(events) == CtlCancel
  {
    hide Step;
    if events != [] {
      var init := events[..|events| - 1];
      CancelActionMeaning(name, version, subscribed, cancelEnable, init);
      var last := events[|events| - 1];
      CancelActionStep(Run(Initial(name, version, subscribed, cancelEnable), init), last.0, last.1);
    }
  }

  lemma {:induction false} CancelActionStep(h: Helper, e: Event, ok: bool)
    ensures Step(h, e, ok).hasCancelAction ==
            if e.ReqControl? && e.control != CtlUnknown then e.control == CtlCancel else h.hasCancelAction
  {
    hide Entered, Described, Obeyed, Took;
    if e.ReqControl? {
      TookFlag(h, e.control, e.upgrade);
      ObeyedFlag(Took(h, e.control, e.upgrade), e.control, e.depends);
    }
  }

  lemma {:induction false} TookFlag(h: Helper, control: Control, upgrade: Upgrade)
    ensures Took(h, control, upgrade).hasCancelAction == h.hasCancelAction
  {
  }

  lemma {:induction false} ObeyedFlag(h: Helper, control: Control, depends: seq<string>)
    ensures Obeyed(h, control, depends).hasCancelAction ==
            if control == CtlUnknown then h.hasCancelAction else control == CtlCancel
  {
    hide Entered, HasDepends, VersionValid, DetectVersionEqual;
  }
}
