/** One server and its clients during a deployment. Control messages and domain reports
    travel through a network that may delay, reorder, repeat and lose them; every handler
    runs as one step. */
module DeployOrder {
  import opened Domain
  import opened Options
  import S = Server
  import R = ServerRuns
  import D = ServerDetails
  import C = Client

  /** `from` is how much of the server's output had gone out before the deployment began. */
  datatype System = System(server: S.Helper, clients: map<string, C.Helper>, from: nat)

  datatype Move =
    | ServerMove(e: S.Event)                      // a timer tick or a web event
    | Report(client: string, j: nat)              // the server gets a client's message
    | Deliver(client: string, j: nat, ok: bool)   // a client gets a broadcast
    | ClientMove(client: string, event: C.Event, ok: bool)

  function ControlEvent(o: S.Output): C.Event
    requires o.Broadcast?
  {
    C.ReqControl(o.control, o.upgrade, o.depends)
  }

  /** A new request begins another deployment. REQ_IDLE and a finished initialisation drop
      the list, which is harmless unless CTL_DEPLOY is the control. */
  predicate DuringDeployment(h: S.Helper, e: S.Event)
  {
    !e.ResDomain? && !e.ReqUpgrade? && (e.ReqIdle? || (e.ResInit? && e.success) ==> h.control != CtlDeploy)
  }

  // ----- the guard on the recomputation of `depends`

  /** What a dependent domain waits for: that the client is idle at its target version or,
      where `calm` is off, that it is at that version. */
  predicate Ready(c: C.Helper, calm: bool) { if calm then C.Done(c) else C.Deployed(c) }

  function DoneNames(clients: map<string, C.Helper>, calm: bool): set<string>
  {
    set n | n in clients && Ready(clients[n], calm)
  }

  /** Every domain waits in the server's eyes, has its deploy timer running, or is done. */
  predicate Accounted(ds: seq<Detail>, done: set<string>)
  {
    forall k :: 0 <= k < |ds| ==> S.Outstanding(ds[k]) || ds[k].domain.name in done
  }

  /** A deploy timer is stopped at this domain's turn: `depends` is computed anew. */
  predicate Recomputes(c: S.Scan, i: nat, clock: S.Clock)
    requires i < |c.h.details|
  {
    c.h.details[i].deployActive && !S.ScanOne(c, i, clock).h.details[i].deployActive
  }

  predicate GuardedFrom(c: S.Scan, i: nat, n: nat, clock: S.Clock, done: set<string>)
    requires i <= n == |c.h.details|
    decreases n - i
  {
    c.stop != 0 || i == n ||
    (var e := S.ScanOne(c, i, clock);
     (Recomputes(c, i, clock) ==> Accounted(e.h.details, done)) && GuardedFrom(e, i + 1, n, clock, done))
  }

  predicate Guarded(h: S.Helper, clock: S.Clock, done: set<string>)
  {
    GuardedFrom(S.Scan(h, 0, 0, 0, 0, 0, 0), 0, |h.details|, clock, done)
  }

  /** The move is about things that are there. */
  predicate Fits(s: System, m: Move)
  {
    match m
    case ServerMove(e) => !e.ResDomain?
    case Report(n, j) => n in s.clients && j < |s.clients[n].out| && s.clients[n].out[j].SendDomain?
    case Deliver(n, j, ok) => n in s.clients && s.from <= j < |s.server.out| && s.server.out[j].Broadcast?
    case ClientMove(n, e, ok) => n in s.clients && !e.ReqControl?
  }

  function ServerEvent(s: System, m: Move): S.Event
    requires Fits(s, m) && (m.ServerMove? || m.Report?)
  {
    if m.ServerMove? then m.e
    else
      var o := s.clients[m.client].out[m.j];
      S.ResDomain(o.domain, o.discovery)
  }

  function ClientEvent(s: System, m: Move): C.Event
    requires Fits(s, m) && (m.Deliver? || m.ClientMove?)
  {
    if m.ClientMove? then m.event else ControlEvent(s.server.out[m.j])
  }

  /** Where `calm` is on, nothing takes a finished client out of that. */
  predicate Undisturbed(c: C.Helper, e: C.Event, calm: bool) { calm && C.Done(c) ==> !C.Disturbs(c, e) }

  predicate Allowed(s: System, m: Move, calm: bool)
  {
    Fits(s, m) &&
    match m
    case ServerMove(e) =>
      DuringDeployment(s.server, e) && (e.Tick? ==> Guarded(s.server, e.clock, DoneNames(s.clients, calm)))
    case Report(n, j) => true
    case _ => Undisturbed(s.clients[m.client], ClientEvent(s, m), calm)
  }

  function Next(s: System, m: Move): System
    requires Fits(s, m)
  {
    if m.ServerMove? || m.Report? then s.(server := S.Step(s.server, ServerEvent(s, m)))
    else s.(clients := s.clients[m.client := C.Step(s.clients[m.client], ClientEvent(s, m), m.ok)])
  }

  /** `t` is where a run of allowed moves leads. */
  ghost predicate Leads(s: System, moves: seq<Move>, t: System, calm: bool)
  {
    if moves == [] then t == s
    else
      var init, m := moves[..|moves| - 1], moves[|moves| - 1];
      exists u :: Leads(s, init, u, calm) && Fits(u, m) && Allowed(u, m, calm) && t == Next(u, m)
  }

  // ----- the invariant

  /** The upgrade's packages in the order of the details, where the broadcasts of the deployment begin, and the domains
      that are done. */
  datatype World = World(ps: seq<Package>, from: nat, done: set<string>)

  /** Who is not listed is done. */
  predicate Covered(w: World, depends: seq<string>)
  {
    forall k :: 0 <= k < |w.ps| ==> w.ps[k].domain in depends || w.ps[k].domain in w.done
  }

  predicate Shaped(w: World, ds: seq<Detail>)
  {
    |ds| == |w.ps| && forall k :: 0 <= k < |ds| ==> Row(w, ds[k], w.ps[k])
  }

  predicate Row(w: World, d: Detail, p: Package)
  {
    d.domain.name == p.domain && d.package == p && (S.Finished(d) ==> p.domain in w.done)
  }

  predicate Known(w: World, ps: seq<Package>) { forall k :: 0 <= k < |ps| ==> ps[k] in w.ps }

  predicate Good(w: World, o: S.Output)
  {
    o.Broadcast? ==> Known(w, o.upgrade.packages) && (o.control == CtlDeploy ==> Covered(w, o.depends))
  }

  predicate Outs(w: World, out: seq<S.Output>)
  {
    w.from <= |out| && forall j :: w.from <= j < |out| ==> Good(w, out[j])
  }

  predicate Upgrading(state: ServerState)
  {
    state == MrDownload || state == MrVerify || state == MrDistribute || state == MrWait
    || state == MrDeployAsk || state == MrDeploy || state == MrCancelAsk || state == MrCancel
  }

  predicate Live(w: World, h: S.Helper)
  {
    && h.feedType != S.TpUnknown && !h.hasFeed && Upgrading(h.state)
    && Known(w, h.upgrade.packages) && Covered(w, h.depends) && Shaped(w, h.details) && Outs(w, h.out)
  }

  /** The outcome has been reported and waits for the user. */
  predicate Shown(w: World, h: S.Helper)
  {
    S.Closing(h) && h.control != CtlDeploy && Known(w, h.upgrade.packages) && Outs(w, h.out)
  }

  predicate Resting(state: ServerState)
  {
    state == MrIdle || state == MrDownload || state == MrVerify || state == MrDistribute || state == MrWait
    || state == MrCancelAsk || state == MrCancel || state == MrDoneAsk || state == MrErrorAsk
  }

  /** The upgrade has been dropped; late events may still move the server about. */
  predicate Gone(w: World, h: S.Helper)
  {
    && h.details == [] && h.upgrade == EmptyUpgrade && h.control != CtlDeploy && Resting(h.state) && Outs(w, h.out)
  }

  predicate Over(w: World, h: S.Helper) { Shown(w, h) || Gone(w, h) }

  predicate ServerSound(w: World, h: S.Helper) { R.Inv(h) && (Live(w, h) || Over(w, h)) }

  /** A message that claims a finished domain is true. */
  predicate Honest(w: World, d: Domain)
  {
    d.state == WrIdle ==>
      forall k :: 0 <= k < |w.ps| && w.ps[k].domain == d.name && DetectVersionEqual(d.version, w.ps[k].version) ==>
        d.name in w.done
  }

  predicate Packaged(w: World, n: string, p: Package)
  {
    forall k :: 0 <= k < |w.ps| && w.ps[k].domain == n ==> w.ps[k] == p
  }

  /** Every domain of the upgrade that the text names is done. */
  ghost predicate Freed(w: World, text: string)
  {
    forall k :: 0 <= k < |w.ps| && Names(text, w.ps[k].domain) ==> w.ps[k].domain in w.done
  }

  ghost predicate ClientSound(w: World, n: string, c: C.Helper)
  {
    && c.name == n && Packaged(w, n, c.package)
    && (forall j :: 0 <= j < |c.out| && c.out[j].SendDomain? ==> Honest(w, c.out[j].domain))
    && (c.domain.state == WrDeploy ==> Freed(w, c.package.depends))
  }

  function WorldOf(ps: seq<Package>, s: System, calm: bool): World
  {
    World(ps, s.from, DoneNames(s.clients, calm))
  }

  ghost predicate Sound(ps: seq<Package>, s: System, calm: bool)
  {
    var w := WorldOf(ps, s, calm);
    ServerSound(w, s.server) && forall n :: n in s.clients ==> ClientSound(w, n, s.clients[n])
  }

  // ----- the server's operations

  lemma {:induction false} OutsAppend(w: World, out: seq<S.Output>, os: seq<S.Output>)
    requires Outs(w, out) && forall j :: 0 <= j < |os| ==> Good(w, os[j])
    ensures Outs(w, out + os)
  {
    hide Good;
  }

  lemma {:induction false} SendOuts(w: World, h: S.Helper, control: Control)
    requires Outs(w, h.out) && Known(w, h.upgrade.packages) && (control == CtlDeploy ==> Covered(w, h.depends))
    ensures Outs(w, S.SendControl(h, control).out)
    ensures var g := S.SendControl(h, control); g == h.(control := g.control, out := g.out)
    ensures S.SendControl(h, control).control == if control == CtlUnknown then h.control else control
  {
    hide Outs, Covered;
    OutsAppend(w, h.out, [S.Broadcast(control, h.upgrade, h.depends)]);
  }

  lemma {:induction false} StateOuts(w: World, h: S.Helper, state: ServerState)
    requires Outs(w, h.out)
    ensures Outs(w, S.SetState(h, state).out)
    ensures var g := S.SetState(h, state); g == h.(state := state, lastState := g.lastState, out := g.out)
  {
    hide Outs, S.Announced;
    StateFrame(h, state);
    if h.state != state {
      AnnouncementIsGood(w, h, state);
      OutsAppend(w, h.out, S.Announced(h, state));
    }
  }

  lemma {:induction false} StateFrame(h: S.Helper, state: ServerState)
    ensures var g := S.SetState(h, state); g == h.(state := state, lastState := g.lastState, out := g.out)
    ensures S.SetState(h, state).out == if h.state == state then h.out else h.out + S.Announced(h, state)
  {
    hide S.Announced;
    if h.state == state {
      assert S.SetState(h, state) == h;
    } else {
      assert S.SetState(h, state) == h.(lastState := h.state, state := state, out := h.out + S.Announced(h, state));
    }
  }

  lemma {:induction false} AnnouncementIsGood(w: World, h: S.Helper, state: ServerState)
    ensures forall j :: 0 <= j < |S.Announced(h, state)| ==> Good(w, S.Announced(h, state)[j])
  {
    hide Covered;
  }

  lemma {:induction false} IdleGone(w: World, h: S.Helper)
    requires Outs(w, h.out) && h.control != CtlDeploy && (h.state == MrIdle ==> Gone(w, h))
    ensures Gone(w, S.Idle(h))
  {
    hide S.SetState, Outs;
    var g := h.(depends := [], details := [], detailSubscribed := false, upgrade := EmptyUpgrade, cancelId := "");
    StateOuts(w, g, MrIdle);
  }

  lemma {:induction false} DownloadSound(w: World, h: S.Helper)
    requires Outs(w, h.out)
    ensures Live(w, h) ==> Live(w, S.Download(h))
    ensures Gone(w, h) ==> Gone(w, S.Download(h))
  {
    hide S.SetState, Outs, Covered, Shaped;
    StateOuts(w, h, MrDownload);
    OutsAppend(w, S.SetState(h, MrDownload).out, [S.WebDownload]);
  }

  lemma {:induction false} DeployLive(w: World, h: S.Helper)
    requires Live(w, h)
    ensures Live(w, S.Deploy(h))
  {
    hide S.SetState, S.SendControl, Outs, Covered, Shaped;
    SendOuts(w, h, CtlDeploy);
    StateOuts(w, S.SendControl(h, CtlDeploy), MrDeploy);
  }

  lemma {:induction false} SetStateSound(w: World, h: S.Helper, state: ServerState)
    requires Outs(w, h.out)
    ensures Live(w, h) && Upgrading(state) ==> Live(w, S.SetState(h, state))
    ensures Gone(w, h) && Resting(state) ==> Gone(w, S.SetState(h, state))
  {
    hide S.SetState, Outs, Covered, Shaped;
    StateOuts(w, h, state);
  }

  /** A feedback that is not held back ends the deployment. */
  lemma {:induction false} FeedbackOver(w: World, h: S.Helper, finished: bool, error: int)
    requires !h.hasFeed && h.feedType != S.TpUnknown && Known(w, h.upgrade.packages) && Outs(w, h.out)
    requires h.state == MrIdle ==> Gone(w, h)
    ensures Over(w, S.Feedback(h, finished, error))
  {
    hide S.SetState, S.SendControl, S.Idle, Outs;
    var f := h.(hasFeed := true, errorCode := error);
    var g := S.SendControl(f, CtlClear);
    SendOuts(w, f, CtlClear);
    var k := g.(out := g.out + [S.WebStop, S.Closed(h.feedType, S.FeedId(h), finished)]);
    OutsAppend(w, g.out, [S.WebStop, S.Closed(h.feedType, S.FeedId(h), finished)]);
    StateOuts(w, k, if finished then MrDoneAsk else MrErrorAsk);
    IdleGone(w, k);
  }

  lemma {:induction false} FeedbackSound(w: World, h: S.Helper, finished: bool, error: int)
    requires Live(w, h) || Gone(w, h) || (Shown(w, h) && h.hasFeed)
    ensures Over(w, S.Feedback(h, finished, error))
  {
    hide Outs, Covered, Shaped, S.SendControl, S.SetState, S.Idle;
    if !h.hasFeed && h.feedType != S.TpUnknown { FeedbackOver(w, h, finished, error); }
  }

  lemma {:induction false} ReportedSound(w: World, h: S.Helper, d: Domain, discovery: bool)
    requires Honest(w, d)
    ensures Live(w, h) ==> Live(w, S.Reported(h, d, discovery))
    ensures Shown(w, h) ==> Shown(w, S.Reported(h, d, discovery))
    ensures Gone(w, h) ==> Gone(w, S.Reported(h, d, discovery))
  {
    hide S.SendControl, S.FindDetail, Outs, Covered, Honest, Shaped;
    ReportedFrame(h, d, discovery);
    if Live(w, h) || Over(w, h) { ReportedOuts(w, h, d, discovery); }
    if Live(w, h) { ReportedShape(w, h, d, discovery); }
  }

  lemma {:induction false} ReportedFrame(h: S.Helper, d: Domain, discovery: bool)
    ensures var g := S.Reported(h, d, discovery);
            && g == h.(detailSubscribed := g.detailSubscribed, details := g.details, out := g.out)
            && |g.details| == |h.details|
  {
    hide S.FindDetail, Update, S.SendControl;
    R.ControlFrame(if d.watcher then h.(detailSubscribed := true) else h);
  }

  lemma {:induction false} ReportedOuts(w: World, h: S.Helper, d: Domain, discovery: bool)
    requires Outs(w, h.out) && Known(w, h.upgrade.packages) && (h.control == CtlDeploy ==> Covered(w, h.depends))
    ensures Outs(w, S.Reported(h, d, discovery).out)
  {
    hide S.SendControl, S.FindDetail, Outs, Covered, Update;
    var g := if d.watcher then h.(detailSubscribed := true) else h;
    SendOuts(w, g, g.control);
  }

  lemma {:induction false} ReportedShape(w: World, h: S.Helper, d: Domain, discovery: bool)
    requires Shaped(w, h.details) && Honest(w, d)
    ensures Shaped(w, S.Reported(h, d, discovery).details)
  {
    hide S.FindDetail, Honest, Row, Update, S.SendControl;
    R.ControlFrame(if d.watcher then h.(detailSubscribed := true) else h);
    var k := S.FindDetail(h.details, d.name);
    if k >= 0 {
      RowUpdated(w, h.details[k], w.ps[k], d);
    }
  }

  lemma {:induction false} RowUpdated(w: World, row: Detail, p: Package, d: Domain)
    requires Row(w, row, p) && Honest(w, d) && row.domain.name == d.name && p in w.ps
    ensures Row(w, row.(domain := Update(row.domain, d), heartbeatActive := true), p)
  {
    var k :| 0 <= k < |w.ps| && w.ps[k] == p;
  }

  /** Cancelling from its question. */
  lemma {:induction false} CancelSound(w: World, h: S.Helper)
    requires h.state == MrCancelAsk && Outs(w, h.out) && Known(w, h.upgrade.packages)
    ensures Live(w, h) ==> Live(w, S.Cancel(h))
    ensures Gone(w, h) ==> Gone(w, S.Cancel(h))
  {
    hide S.Cancel, S.SetState, S.SendControl, Outs, Covered, Shaped;
    CancelIsTwoSteps(h);
    SendOuts(w, h, CtlCancel);
    SetStateSound(w, S.SendControl(h, CtlCancel), MrCancel);
  }

  lemma {:induction false} CancelIsTwoSteps(h: S.Helper)
    requires h.state == MrCancelAsk
    ensures S.Cancel(h) == S.SetState(S.SendControl(h, CtlCancel), MrCancel)
  {
    hide S.Feedback, S.SendControl, S.SetState;
    R.SendControlFacts(h, CtlCancel);
    R.SetStateFacts(S.SendControl(h, CtlCancel), MrCancel);
  }

  lemma {:induction false} AnswerSound(w: World, h: S.Helper, answer: Answer)
    requires ServerSound(w, h)
    ensures var g := S.ConfigAnswer(h, answer); Live(w, g) || Over(w, g)
  {
    hide S.Download, S.Deploy, S.Cancel, S.Resume, S.Pending, S.Idle, S.Feedback, Outs, Covered, Shaped, R.Inv;
    ShownHasFeed(h);
    FeedbackSound(w, h, false, -1);
    if h.state == MrCancelAsk && (Live(w, h) || Gone(w, h)) { CancelSound(w, h); }
    if Live(w, h) { DeployLive(w, h); } else { IdleGone(w, h); }
  }

  lemma {:induction false} ShownHasFeed(h: S.Helper)
    requires R.Inv(h)
    ensures S.Closing(h) ==> h.hasFeed && h.detailSubscribed
    ensures h.hasFeed ==> h.feedType != S.TpUnknown
  {
  }

  // ----- the tick

  lemma {:induction false} Listed(ds: seq<Detail>, k: nat)
    requires k < |ds| && S.Outstanding(ds[k])
    ensures ds[k].domain.name in S.OutstandingNames(ds)
  {
    if k > 0 { Listed(ds[1..], k - 1); }
  }

  lemma {:induction false} RecomputeLive(w: World, h: S.Helper, i: nat)
    requires Live(w, h) && i < |h.details| && Accounted(S.Recompute(h, i).details, w.done)
    ensures Live(w, S.Recompute(h, i))
  {
    hide S.SendControl, S.OutstandingNames, Outs, S.Finished;
    var g := S.WithDetail(h, i, h.details[i].(deployActive := false));
    TimerStopped(w, h, i);
    var k := g.(depends := S.OutstandingNames(g.details));
    StillCovered(w, g.details);
    SendOuts(w, k, CtlDeploy);
    OutsAppend(w, S.SendControl(k, CtlDeploy).out, [S.Scheduled(h.upgrade.id)]);
  }

  lemma {:induction false} TimerStopped(w: World, h: S.Helper, i: nat)
    requires Shaped(w, h.details) && i < |h.details|
    ensures Shaped(w, S.WithDetail(h, i, h.details[i].(deployActive := false)).details)
    ensures Accounted(S.Recompute(h, i).details, w.done) ==>
              Accounted(S.WithDetail(h, i, h.details[i].(deployActive := false)).details, w.done)
  {
  }

  lemma {:induction false} StillCovered(w: World, ds: seq<Detail>)
    requires Shaped(w, ds) && Accounted(ds, w.done)
    ensures Covered(w, S.OutstandingNames(ds))
  {
    hide S.Finished, S.Outstanding, S.OutstandingNames;
    forall k | 0 <= k < |w.ps| ensures w.ps[k].domain in S.OutstandingNames(ds) || w.ps[k].domain in w.done {
      assert Row(w, ds[k], w.ps[k]);
      if S.Outstanding(ds[k]) { Listed(ds, k); }
    }
  }

  lemma {:induction false} FirstLive(w: World, c: S.Scan, i: nat, clock: S.Clock)
    requires Live(w, c.h) && i < |c.h.details|
    ensures var f := S.ScanFirst(c, i, clock).h;
            Live(w, f) && |f.details| == |c.h.details| && f.details[i].deployActive == c.h.details[i].deployActive
  {
    hide Covered, Outs, Shaped, S.AtTarget;
    var d := c.h.details[i];
    var offline := d.(domain := d.domain.(last := d.domain.state, state := WrOffline));
    RowOf(w, c.h.details, i);
    OneRow(w, c.h.details, i, offline);
  }

  lemma {:induction false} RowOf(w: World, ds: seq<Detail>, i: nat)
    requires Shaped(w, ds) && i < |ds|
    ensures |w.ps| == |ds| && Row(w, ds[i], w.ps[i])
  {
  }

  lemma {:induction false} OneRow(w: World, ds: seq<Detail>, i: nat, d: Detail)
    requires Shaped(w, ds) && i < |ds| && Row(w, d, w.ps[i])
    ensures Shaped(w, ds[i := d])
  {
  }

  lemma {:induction false} DeployScanLive(w: World, c: S.Scan, i: nat, clock: S.Clock)
    requires Live(w, c.h) && i < |c.h.details|
    requires var e := S.ScanDeploy(c, i, clock);
             c.h.details[i].deployActive && !e.h.details[i].deployActive ==> Accounted(e.h.details, w.done)
    ensures Live(w, S.ScanDeploy(c, i, clock).h)
  {
    hide Covered, Outs, S.Recompute, HasDepends, S.AtTarget;
    assert Row(w, c.h.details[i], w.ps[i]);
    if c.h.details[i].deployActive {
      StopsTimer(c.h, i);
      if Accounted(S.Recompute(c.h, i).details, w.done) { RecomputeLive(w, c.h, i); }
    }
  }

  lemma {:induction false} StopsTimer(h: S.Helper, i: nat)
    requires i < |h.details|
    ensures !S.Recompute(h, i).details[i].deployActive
  {
  }

  lemma {:induction false} ScanOneLive(w: World, c: S.Scan, i: nat, clock: S.Clock)
    requires Live(w, c.h) && i < |c.h.details|
    requires Recomputes(c, i, clock) ==> Accounted(S.ScanOne(c, i, clock).h.details, w.done)
    ensures Live(w, S.ScanOne(c, i, clock).h)
  {
    hide S.ScanFirst, S.ScanDeploy, VersionValid, Accounted, Covered, Outs, Shaped, S.AtTarget;
    FirstLive(w, c, i, clock);
    var f := S.ScanFirst(c, i, clock);
    if c.h.details[i].package.domain != "" && f.h.state == MrDeploy { DeployScanLive(w, f, i, clock); }
    if c.h.details[i].package.domain != "" && f.h.state == MrCancel && f.h.lastState == MrDeploy
       && !S.AtTarget(f.h.details[i]) {
      var canceled := f.h.details[i].domain.state == WrIdle && f.h.details[i].domain.last == WrCancel;
      DeployScanLive(w, if canceled then f.(cancel := f.cancel + 1) else f, i, clock);
    }
  }

  lemma {:induction false} ScanLive(w: World, c: S.Scan, i: nat, n: nat, clock: S.Clock)
    requires Live(w, c.h) && i <= n == |c.h.details| && GuardedFrom(c, i, n, clock, w.done)
    ensures Live(w, S.ScanFrom(c, i, n, clock).h)
    decreases n - i
  {
    hide S.ScanOne, Live, Accounted;
    if c.stop == 0 && i < n {
      ScanOneLive(w, c, i, clock);
      ScanLive(w, S.ScanOne(c, i, clock), i + 1, n, clock);
    }
  }

  lemma {:induction false} AfterScanSound(w: World, c: S.Scan)
    requires Live(w, c.h)
    ensures Live(w, S.AfterScan(c)) || Over(w, S.AfterScan(c))
  {
    hide S.SetState, S.Deploy, S.Download, S.Feedback, Outs, Covered, Shaped;
    var h := c.h;
    FeedbackSound(w, h, true, 0);
    AfterWaitLive(w, h, S.All(c.wait, h));
    var k := S.AfterWait(h, S.All(c.wait, h));
    FeedbackSound(w, k, true, 0);
    FeedbackSound(w, k, false, 1950);
  }

  lemma {:induction false} AfterWaitLive(w: World, h: S.Helper, all: bool)
    requires Live(w, h)
    ensures Live(w, S.AfterWait(h, all))
  {
    hide S.SetState, S.Deploy, Outs, Covered, Shaped;
    DeployLive(w, h);
    SetStateSound(w, h, MrDeployAsk);
    SetStateSound(w, h, MrWait);
  }

  lemma {:induction false} TickSound(w: World, h: S.Helper, clock: S.Clock)
    requires ServerSound(w, h) && Guarded(h, clock, w.done)
    ensures var g := S.ProcessDomains(h, clock); Live(w, g) || Over(w, g)
  {
    hide S.ScanFrom, S.Feedback, S.AfterScan, GuardedFrom, Outs, Covered, Shaped, R.Inv;
    ShownHasFeed(h);
    FeedbackSound(w, h, false, S.Limit(h.state));
    if Live(w, h) {
      ScanLive(w, S.Scan(h, 0, 0, 0, 0, 0, 0), 0, |h.details|, clock);
      var c := S.Scanned(h, clock);
      FeedbackSound(w, c.h, false, c.stop);
      AfterScanSound(w, c);
    } else if Gone(w, h) {
      NothingToScan(h, clock);
    }
  }

  /** Without details a tick that gets that far does nothing. */
  lemma {:induction false} NothingToScan(h: S.Helper, clock: S.Clock)
    requires h.details == [] && Resting(h.state)
    ensures S.Scanned(h, clock).stop == 0 && S.AfterScan(S.Scanned(h, clock)) == h
  {
    hide S.SetState, S.Deploy, S.Download, S.Feedback;
  }

  lemma {:induction false} ErrorSound(w: World, h: S.Helper, error: int)
    requires ServerSound(w, h)
    ensures var g := S.OnError(h, error); Live(w, g) || Over(w, g)
  {
    hide S.Download, S.Feedback, Outs, Covered, Shaped, R.Inv;
    ShownHasFeed(h);
    DownloadSound(w, h);
    FeedbackSound(w, h, false, 1000 + error);
    FeedbackSound(w, h.(retryTimes := 0), false, 1000 + error);
  }

  lemma {:induction false} StepDoneSound(w: World, h: S.Helper, state: ServerState, request: seq<S.Output>)
    requires Live(w, h) || Over(w, h)
    requires state == MrVerify || state == MrDistribute || state == MrWait
    requires forall j :: 0 <= j < |request| ==> !request[j].Broadcast?
    ensures var g := S.OnStepDone(h, state, request); Live(w, g) || Over(w, g)
  {
    hide S.SetState, Outs, Covered, Shaped;
    StateOuts(w, h, state);
    OutsAppend(w, S.SetState(h, state).out, request);
  }

  lemma {:induction false} PullSound(w: World, h: S.Helper, distributing: bool)
    requires Live(w, h) || Over(w, h)
    ensures var g := S.OnPull(h, distributing); Live(w, g) || Over(w, g)
  {
    hide S.SetState, S.SendControl, Outs, Covered, Shaped;
    SendOuts(w, h, CtlDownload);
    SetStateSound(w, h, MrDistribute);
    SetStateSound(w, S.SendControl(h, CtlDownload), MrDistribute);
  }

  lemma {:induction false} RequestedCancelSound(w: World, h: S.Helper, id: string)
    requires ServerSound(w, h)
    ensures var g := S.OnCancel(h, id); Live(w, g) || Over(w, g)
  {
    hide S.SetState, S.Feedback, Outs, Covered, Shaped, R.Inv;
    var g := S.Canceled(h, id);
    FeedbackOver(w, g, true, 0);
    FeedbackOver(w, g, false, 1900);
    SetStateSound(w, g, MrCancelAsk);
    var k := S.Feedback(g, false, 1900);
    if Over(w, k) { NoteSound(w, k, S.NoUpgradeToCancel(k.cancelId)); }
  }

  lemma {:induction false} NoteSound(w: World, h: S.Helper, o: S.Output)
    requires Over(w, h) && !o.Broadcast?
    ensures Over(w, h.(out := h.out + [o]))
  {
    hide Outs;
    OutsAppend(w, h.out, [o]);
  }

  lemma {:induction false} IdleSound(w: World, h: S.Helper)
    requires (Live(w, h) || Gone(w, h)) && h.control != CtlDeploy
    ensures Over(w, S.Idle(h))
  {
    hide S.Idle, Outs, Covered, Shaped;
    IdleGone(w, h);
  }

  lemma {:induction false} InitSound(w: World, h: S.Helper, success: bool, state: Option<ServerState>,
                                     last: Option<ServerState>, depends: seq<string>)
    requires (Live(w, h) || Over(w, h)) && (success ==> h.control != CtlDeploy)
    ensures var g := S.OnInit(h, success, state, last, depends); Live(w, g) || Over(w, g)
  {
    hide S.Idle, Outs, Covered, Shaped;
    if success && !S.Closing(h) {
      IdleGone(w, h.(cacheState := if state.Some? then state.value else h.cacheState,
                     cacheLastState := if last.Some? then last.value else h.cacheLastState, cacheDepends := depends));
    }
  }

  lemma {:induction false} DomainSound(w: World, h: S.Helper, d: Domain, discovery: bool)
    requires ServerSound(w, h) && Honest(w, d)
    ensures var g := S.OnDomain(h, d, discovery); Live(w, g) || Over(w, g)
  {
    hide S.Reported, S.ConfigAnswer, R.Inv, Live, Shown, Gone, Honest;
    ReportedSound(w, h, d, discovery);
    R.ReportedKept(h, d, discovery);
    AnswerSound(w, S.Reported(h, d, discovery), d.answer);
  }

  lemma {:induction false} ServerStepSound(w: World, h: S.Helper, e: S.Event)
    requires ServerSound(w, h)
    requires if e.ResDomain? then Honest(w, e.domain) else DuringDeployment(h, e)
    requires e.Tick? ==> Guarded(h, e.clock, w.done)
    ensures ServerSound(w, S.Step(h, e))
  {
    hide S.OnError, S.OnStepDone, S.OnDomain, S.OnCancel, S.OnPull, S.OnInit, S.Idle, S.ProcessDomains, R.Inv, Outs,
         Covered, Shaped, Honest, Guarded;
    StepKeepsInv(h, e);
    match e {
      case ResError(error) => ErrorSound(w, h, error);
      case ReqIdle => if !S.Closing(h) { IdleSound(w, h); }
      case ReqCancel(id) => RequestedCancelSound(w, h, id);
      case ReqPull(distributing) => PullSound(w, h, distributing);
      case ResInit(success, state, last, depends) => InitSound(w, h, success, state, last, depends);
      case ResDownloadDone => StepDoneSound(w, h, MrVerify, [S.WebVerify]);
      case ResVerifyDone => StepDoneSound(w, h, MrDistribute, [S.WebDistribute]);
      case ResDistributeDone => StepDoneSound(w, h, MrWait, []);
      case ResDomain(d, discovery) => DomainSound(w, h, d, discovery);
      case Tick(clock) => TickSound(w, h, clock);
      case _ =>
    }
  }

  lemma {:induction false} StepKeepsInv(h: S.Helper, e: S.Event)
    requires R.Inv(h)
    ensures R.Inv(S.Step(h, e))
  {
    hide S.Step, R.Inv;
    R.StepFine(h, e);
  }

  // ----- more clients done

  /** `v` is `w` with perhaps more domains done. */
  predicate Later(w: World, v: World) { v.ps == w.ps && v.from == w.from && w.done <= v.done }

  lemma {:induction false} OutsLater(w: World, v: World, out: seq<S.Output>)
    requires Later(w, v) && Outs(w, out)
    ensures Outs(v, out)
  {
    forall j | w.from <= j < |out| ensures Good(v, out[j]) {
      assert Good(w, out[j]);
    }
  }

  lemma {:induction false} ServerLater(w: World, v: World, h: S.Helper)
    requires Later(w, v) && ServerSound(w, h)
    ensures ServerSound(v, h)
  {
    hide R.Inv, Outs, S.Finished;
    OutsLater(w, v, h.out);
    if Live(w, h) {
      forall k | 0 <= k < |h.details| ensures Row(v, h.details[k], v.ps[k]) {
        assert Row(w, h.details[k], w.ps[k]);
      }
    }
  }

  lemma {:induction false} ClientLater(w: World, v: World, n: string, c: C.Helper)
    requires Later(w, v) && ClientSound(w, n, c)
    ensures ClientSound(v, n, c)
  {
    forall j | 0 <= j < |c.out| && c.out[j].SendDomain? ensures Honest(v, c.out[j].domain) {
      assert Honest(w, c.out[j].domain);
    }
  }

  // ----- the clients' steps

  lemma {:induction false} ChosenIsOwn(w: World, n: string, p: Package, ps: seq<Package>)
    requires Packaged(w, n, p) && forall k :: 0 <= k < |ps| ==> ps[k] in w.ps
    ensures C.Chosen(ps, n, p) == p
  {
    if ps != [] {
      assert ps[0] in w.ps;
      ChosenIsOwn(w, n, p, ps[1..]);
    }
  }

  /** What a client's own step needs of the event, and what it does to the client. */
  lemma {:induction false} ClientStepSound(w: World, v: World, n: string, c: C.Helper, e: C.Event, ok: bool)
    requires ClientSound(w, n, c) && Later(w, v) && C.SamePackage(c, e)
    requires e.ReqControl? && e.control == CtlDeploy ==> Covered(w, e.depends)
    requires C.Done(C.Step(c, e, ok)) ==> n in v.done
    ensures ClientSound(v, n, C.Step(c, e, ok))
  {
    hide C.Step, Freed, Honest, Names, C.SamePackage;
    var g := C.Step(c, e, ok);
    C.PackageStays(c, e, ok);
    ClientLater(w, v, n, c);
    C.OutputGrows(c, e, ok);
    forall j | 0 <= j < |g.out| && g.out[j].SendDomain? ensures Honest(v, g.out[j].domain) {
      if j < |c.out| {
        assert g.out[..|c.out|][j] == c.out[j];
      } else {
        C.MessagesAreTrue(c, e, ok, j);
        TrueIsHonest(v, n, g, g.out[j].domain);
      }
    }
    if g.domain.state == WrDeploy && c.domain.state != WrDeploy {
      C.DeployNeedsFreedom(c, e, ok);
      NamedAreDone(w, v, g.package.depends, e.depends);
    }
  }

  lemma {:induction false} TrueIsHonest(v: World, n: string, g: C.Helper, d: Domain)
    requires Packaged(v, n, g.package) && (C.Done(g) ==> n in v.done)
    requires d.name == n && d.state == g.domain.state && d.version == g.version
    ensures Honest(v, d)
  {
  }

  lemma {:induction false} NamedAreDone(w: World, v: World, text: string, depends: seq<string>)
    requires Covered(w, depends) && Later(w, v) && forall x :: x in depends ==> !Names(text, x)
    ensures Freed(v, text)
  {
    hide Names;
  }

  // ----- the system

  lemma {:induction false} ServerMoveSound(ps: seq<Package>, s: System, m: Move, calm: bool)
    requires Sound(ps, s, calm) && Allowed(s, m, calm) && (m.ServerMove? || m.Report?)
    ensures Sound(ps, Next(s, m), calm)
  {
    hide ServerSound, S.Step, Freed, Guarded, DoneNames, DuringDeployment;
    var w := WorldOf(ps, s, calm);
    if m.Report? { assert ClientSound(w, m.client, s.clients[m.client]); }
    ServerStepSound(w, s.server, ServerEvent(s, m));
  }

  lemma {:induction false} ClientMoveSound(ps: seq<Package>, s: System, m: Move, calm: bool)
    requires Sound(ps, s, calm) && Allowed(s, m, calm) && (m.Deliver? || m.ClientMove?)
    ensures Sound(ps, Next(s, m), calm)
  {
    hide ServerSound, ClientSound, C.Step, C.Done, C.Disturbs, C.SamePackage, Ready, Guarded;
    var w, t := WorldOf(ps, s, calm), Next(s, m);
    var v := WorldOf(ps, t, calm);
    var n, c, e := m.client, s.clients[m.client], ClientEvent(s, m);
    EventFits(ps, s, m, calm);
    ReadyStays(c, e, m.ok, calm);
    assert Later(w, v);
    ServerLater(w, v, s.server);
    forall k | k in t.clients ensures ClientSound(v, k, t.clients[k]) {
      assert ClientSound(w, k, s.clients[k]);
      if k == n {
        ClientStepSound(w, v, n, c, e, m.ok);
      } else {
        ClientLater(w, v, k, s.clients[k]);
      }
    }
  }

  lemma {:induction false} ReadyStays(c: C.Helper, e: C.Event, ok: bool, calm: bool)
    requires C.SamePackage(c, e) && Undisturbed(c, e, calm)
    ensures Ready(c, calm) ==> Ready(C.Step(c, e, ok), calm)
    ensures C.Done(C.Step(c, e, ok)) ==> Ready(C.Step(c, e, ok), calm)
  {
    hide C.Step, C.Disturbs, C.SamePackage;
    if C.Done(c) { C.DoneStays(c, e, ok); }
    if C.Deployed(c) { C.DeployedStays(c, e, ok); }
  }

  /** A delivered broadcast brings the client's own package and a list that covers. */
  lemma {:induction false} EventFits(ps: seq<Package>, s: System, m: Move, calm: bool)
    requires Sound(ps, s, calm) && Fits(s, m) && (m.Deliver? || m.ClientMove?)
    ensures var e := ClientEvent(s, m);
            && C.SamePackage(s.clients[m.client], e)
            && (e.ReqControl? && e.control == CtlDeploy ==> Covered(WorldOf(ps, s, calm), e.depends))
  {
    hide R.Inv, Covered, Freed, Shaped, Honest;
    var w := WorldOf(ps, s, calm);
    assert ClientSound(w, m.client, s.clients[m.client]);
    if m.Deliver? {
      var o := s.server.out[m.j];
      assert Good(w, o);
      ChosenIsOwn(w, m.client, s.clients[m.client].package, o.upgrade.packages);
    }
  }

  lemma {:induction false} RunSound(ps: seq<Package>, s: System, moves: seq<Move>, t: System, calm: bool)
    requires Sound(ps, s, calm) && Leads(s, moves, t, calm)
    ensures Sound(ps, t, calm)
    decreases |moves|
  {
    hide Sound, Allowed, Next;
    if moves != [] {
      var init, m := moves[..|moves| - 1], moves[|moves| - 1];
      var u :| Leads(s, init, u, calm) && Fits(u, m) && Allowed(u, m, calm) && t == Next(u, m);
      RunSound(ps, s, init, u, calm);
      if m.ServerMove? || m.Report? { ServerMoveSound(ps, u, m, calm); } else { ClientMoveSound(ps, u, m, calm); }
    }
  }

  /** The server has everyone distributed and waits, or asks, for the deployment to begin. The
      details are the packages' in any order. Nobody deploys yet, and no message on its way
      makes a false claim of being finished. */
  ghost predicate Start(s: System)
  {
    var h := s.server;
    var ps := D.Arranged(h.details);
    var w := WorldOf(ps, s, true);
    && R.Inv(h) && h.feedType == S.TpDeploy && !h.hasFeed && (h.state == MrWait || h.state == MrDeployAsk)
    && h.depends == S.PackageNames(h.upgrade.packages) && s.from == |h.out| && Shaped(w, h.details)
    && Known(w, h.upgrade.packages) && (forall k :: 0 <= k < |ps| ==> ps[k] in h.upgrade.packages)
    && forall n :: n in s.clients ==>
         && s.clients[n].name == n && s.clients[n].domain.state != WrDeploy && Packaged(w, n, s.clients[n].package)
         && forall j :: 0 <= j < |s.clients[n].out| && s.clients[n].out[j].SendDomain? ==>
              Honest(w, s.clients[n].out[j].domain)
  }

  /** Every run of the server that waits for an untouched deployment is such a start: with all
      clients waiting, and nobody seen or claiming to be finished. */
  lemma {:induction false} RunsStart(firstStart: bool, sorting: map<seq<Detail>, seq<Detail>>, events: seq<S.Event>,
                                     clients: map<string, C.Helper>)
    requires D.Permutes(sorting)
    requires var h := S.Run(S.Initial(firstStart, sorting), events);
             && h.feedType == S.TpDeploy && !h.hasFeed && (h.state == MrWait || h.state == MrDeployAsk)
             && h.depends == S.PackageNames(h.upgrade.packages)
             && (forall k :: 0 <= k < |h.details| ==> !S.Finished(h.details[k]))
             && forall n :: n in clients ==>
                  && clients[n].name == n && clients[n].domain.state == WrWait
                  && (forall k :: 0 <= k < |h.upgrade.packages| && h.upgrade.packages[k].domain == n ==>
                        h.upgrade.packages[k] == clients[n].package)
                  && forall j :: 0 <= j < |clients[n].out| && clients[n].out[j].SendDomain? ==>
                       clients[n].out[j].domain.state != WrIdle
    ensures var h := S.Run(S.Initial(firstStart, sorting), events); Start(System(h, clients, |h.out|))
  {
    hide S.Run, R.Inv, S.Finished, C.Done;
    R.RunKeeps(firstStart, sorting, events);
    D.DetailsMatchPackages(firstStart, sorting, events);
    var h := S.Run(S.Initial(firstStart, sorting), events);
    SamePackages(h);
    var w := WorldOf(D.Arranged(h.details), System(h, clients, |h.out|), true);
    assert Shaped(w, h.details);
    forall n | n in clients ensures Packaged(w, n, clients[n].package) {
      forall k | 0 <= k < |w.ps| && w.ps[k].domain == n ensures w.ps[k] == clients[n].package {
        assert w.ps[k] in h.upgrade.packages;
      }
    }
  }

  lemma {:induction false} SamePackages(h: S.Helper)
    requires D.Matching(h)
    ensures forall p :: p in D.Arranged(h.details) <==> p in h.upgrade.packages
  {
    assert forall p :: p in D.Arranged(h.details) <==> p in multiset(h.upgrade.packages);
  }

  lemma {:induction false} StartSound(s: System, calm: bool)
    requires Start(s)
    ensures Sound(D.Arranged(s.server.details), s, calm)
  {
    hide R.Inv, Honest, Freed, S.Finished;
    var h := s.server;
    var w, v := WorldOf(D.Arranged(h.details), s, true), WorldOf(D.Arranged(h.details), s, calm);
    assert Later(w, v);
    forall k | 0 <= k < |w.ps| ensures w.ps[k].domain in h.depends && Row(v, h.details[k], v.ps[k]) {
      assert Row(w, h.details[k], w.ps[k]);
      var m :| 0 <= m < |h.upgrade.packages| && h.upgrade.packages[m] == w.ps[k];
      assert h.depends[m] == w.ps[k].domain;
    }
    forall n | n in s.clients ensures ClientSound(v, n, s.clients[n]) {
      ClientLater(w, v, n, s.clients[n]);
    }
  }

  /** The order of deployment: in every run a client that deploys has every domain of the
      upgrade that its package's depends text names idle at its target version. */
  lemma {:induction false} DependenciesFirst(s: System, moves: seq<Move>, t: System, n: string, k: nat)
    requires Start(s) && Leads(s, moves, t, true)
    requires n in t.clients && t.clients[n].domain.state == WrDeploy
    requires k < |s.server.upgrade.packages| &&
             Names(t.clients[n].package.depends, s.server.upgrade.packages[k].domain)
    ensures var other := s.server.upgrade.packages[k].domain;
            other in t.clients && C.Done(t.clients[other])
  {
    hide Start, Leads, Names, C.Done;
    NamedAreReady(s, moves, t, n, k, true);
  }

  /** Whatever errors, late transfers and controls reach the finished clients: it has every
      such domain at its target version. */
  lemma {:induction false} DependenciesDeployed(s: System, moves: seq<Move>, t: System, n: string, k: nat)
    requires Start(s) && Leads(s, moves, t, false)
    requires n in t.clients && t.clients[n].domain.state == WrDeploy
    requires k < |s.server.upgrade.packages| &&
             Names(t.clients[n].package.depends, s.server.upgrade.packages[k].domain)
    ensures var other := s.server.upgrade.packages[k].domain;
            other in t.clients && C.Deployed(t.clients[other])
  {
    hide Start, Leads, Names, C.Deployed;
    NamedAreReady(s, moves, t, n, k, false);
  }

  lemma {:induction false} NamedAreReady(s: System, moves: seq<Move>, t: System, n: string, k: nat, calm: bool)
    requires Start(s) && Leads(s, moves, t, calm)
    requires n in t.clients && t.clients[n].domain.state == WrDeploy
    requires k < |s.server.upgrade.packages| &&
             Names(t.clients[n].package.depends, s.server.upgrade.packages[k].domain)
    ensures var other := s.server.upgrade.packages[k].domain;
            other in t.clients && Ready(t.clients[other], calm)
  {
    hide Names, Ready, ServerSound, Leads, R.Inv, Shaped, Packaged, Honest;
    var ps := D.Arranged(s.server.details);
    assert s.server.upgrade.packages[k] in ps;
    var m :| 0 <= m < |ps| && ps[m] == s.server.upgrade.packages[k];
    StartSound(s, calm);
    RunSound(ps, s, moves, t, calm);
    assert ClientSound(WorldOf(ps, t, calm), n, t.clients[n]);
    assert ps[m].domain in DoneNames(t.clients, calm);
  }

  // ----- the guard

  lemma {:induction false} OnlyOutstandingListed(ds: seq<Detail>, name: string)
    requires name in S.OutstandingNames(ds)
    ensures exists k :: 0 <= k < |ds| && S.Outstanding(ds[k]) && ds[k].domain.name == name
  {
    if S.Outstanding(ds[0]) && ds[0].domain.name == name {
    } else {
      OnlyOutstandingListed(ds[1..], name);
      var k :| 0 <= k < |ds[1..]| && S.Outstanding(ds[1..][k]) && ds[1..][k].domain.name == name;
      assert ds[k + 1] == ds[1..][k];
    }
  }

  /** The recomputed list covers everyone who is not done exactly under the guard. */
  lemma {:induction false} RecomputationCovers(w: World, ds: seq<Detail>)
    requires Shaped(w, ds)
    requires forall i, j :: 0 <= i < j < |ds| ==> ds[i].domain.name != ds[j].domain.name
    ensures Covered(w, S.OutstandingNames(ds)) <==> Accounted(ds, w.done)
  {
    hide S.Finished, S.Outstanding, S.OutstandingNames;
    forall k | 0 <= k < |ds|
      ensures ds[k].domain.name == w.ps[k].domain
      ensures ds[k].domain.name in S.OutstandingNames(ds) <==> S.Outstanding(ds[k])
    {
      assert Row(w, ds[k], w.ps[k]);
      if S.Outstanding(ds[k]) { Listed(ds, k); }
      if ds[k].domain.name in S.OutstandingNames(ds) { OnlyOutstandingListed(ds, ds[k].domain.name); }
    }
  }

  /** It is enough that every domain the server sees waits, has its timer running, or is
      finished in the server's own eyes. */
  lemma {:induction false} SeenIsEnough(w: World, ds: seq<Detail>)
    requires Shaped(w, ds) && forall k :: 0 <= k < |ds| ==> S.Outstanding(ds[k]) || S.Finished(ds[k])
    ensures Accounted(ds, w.done)
  {
    hide S.Finished, S.Outstanding;
    forall k | 0 <= k < |ds| ensures S.Outstanding(ds[k]) || ds[k].domain.name in w.done {
      assert Row(w, ds[k], w.ps[k]);
    }
  }

  /** REQ_IDLE in the middle of a deployment leaves CTL_DEPLOY as the control with an empty
      list: the next watcher that looks for the server gets it, and deploys at once
      whatever it depends on. */
  lemma {:induction false} IdleLosesTheOrder(h: S.Helper, watcher: Domain, c: C.Helper, ok: bool)
    requires h.state != MrIdle && !S.Closing(h) && h.control == CtlDeploy
    requires watcher.name != "" && watcher.watcher && watcher.answer == AnsUnknown
    requires c.domain.state == WrWait && c.package.hasFiles
    ensures var g := S.Step(S.Step(h, S.ReqIdle), S.ResDomain(watcher, true));
            var o := S.Broadcast(CtlDeploy, EmptyUpgrade, []);
            g.out == h.out + [o] && C.Step(c, ControlEvent(o), ok).domain.state == WrDeploy
  {
    hide C.Step, S.Idle, S.Reported, HasDepends;
    var g := S.Idle(h);
    Idled(h);
    DiscoveryRepeats(g, watcher);
    assert C.Chosen([], c.name, c.package) == c.package;
    HasDependsMeaning(c.package.depends, []);
    FreeToDeploy(c, EmptyUpgrade, [], ok);
  }

  lemma {:induction false} Idled(h: S.Helper)
    requires h.state != MrIdle
    ensures var g := S.Idle(h);
            g.out == h.out && g.control == h.control && g.depends == [] && g.details == [] && g.upgrade == EmptyUpgrade
  {
  }

  lemma {:induction false} DiscoveryRepeats(g: S.Helper, watcher: Domain)
    requires g.details == [] && g.control != CtlUnknown && watcher.watcher
    ensures S.Reported(g, watcher, true).out == g.out + [S.Broadcast(g.control, g.upgrade, g.depends)]
  {
  }

  lemma {:induction false} FreeToDeploy(c: C.Helper, upgrade: Upgrade, depends: seq<string>, ok: bool)
    requires c.domain.state == WrWait && c.package.hasFiles && !HasDepends(c.package.depends, depends)
    requires C.Chosen(upgrade.packages, c.name, c.package) == c.package
    ensures C.Step(c, C.ReqControl(CtlDeploy, upgrade, depends), ok).domain.state == WrDeploy
  {
    hide C.Sent, C.Handled, C.Chosen, HasDepends;
    FreeIsBegun(c, upgrade, depends);
    C.SentFacts(C.Handled(c, C.ReqControl(CtlDeploy, upgrade, depends)), ok);
  }

  lemma {:induction false} FreeIsBegun(c: C.Helper, upgrade: Upgrade, depends: seq<string>)
    requires c.domain.state == WrWait && c.package.hasFiles && !HasDepends(c.package.depends, depends)
    requires C.Chosen(upgrade.packages, c.name, c.package) == c.package
    ensures C.Handled(c, C.ReqControl(CtlDeploy, upgrade, depends)).domain.state == WrDeploy
  {
    hide VersionValid, DetectVersionEqual, C.Chosen, HasDepends;
  }
}
