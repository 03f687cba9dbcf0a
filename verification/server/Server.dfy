/** The server's helper record and what each handler makes of it. Everything the engine
    hands to the web queue or broadcasts to its clients is appended to `out`. */
module Server {
  import opened Domain
  import opened Options

  datatype FeedType = TpUnknown | TpDeploy | TpCancel

  datatype Output =
    | Broadcast(control: Control, upgrade: Upgrade, depends: seq<string>)
    | Closed(kind: FeedType, id: string, success: bool)
    | Proceeding(kind: FeedType, id: string)
    | Scheduled(id: string)
    | NoUpgradeToCancel(id: string)
    | WebStop
    | WebDownload
    | WebVerify
    | WebDistribute

  datatype Helper = Helper(
    active: bool, firstStart: bool, hasFeed: bool, detailSubscribed: bool, hasDeployBreaked: bool,
    hasNewId: bool, cancelResume: bool, state: ServerState, lastState: ServerState,
    cacheState: ServerState, cacheLastState: ServerState, cacheDepends: seq<string>, control: Control,
    retryTimes: nat, errorCode: int, cancelId: string, lastId: string, lastCancelId: string,
    feedType: FeedType, upgrade: Upgrade, details: seq<Detail>, depends: seq<string>, out: seq<Output>,
    sorting: map<seq<Detail>, seq<Detail>>)

  const RETRY_TIMES := 2

  /** Events of the queue and of the timer. Clocks, the web queue's state and the cached
      status file are inputs. */
  datatype Event =
    | ResError(error: int)
    | ReqActive(active: bool)
    | ReqIdle
    | ReqUpgrade(upgrade: Upgrade)
    | ReqCancel(id: string)
    | ReqPull(distributing: bool)
    | ResInit(success: bool, state: Option<ServerState>, last: Option<ServerState>, depends: seq<string>)
    | ResDownloadDone
    | ResVerifyDone
    | ResDistributeDone
    | ResFeedbackDone
    | ResTransferProgress
    | ResDomain(domain: Domain, discovery: bool)
    | Tick(clock: Clock)

  /** Which limits have passed: the state's own, and by index in the detail list the
      heartbeat's, the deployment's and the restart's. */
  datatype Clock = Clock(stateExpired: bool, heartbeatLost: set<nat>, deployExpired: set<nat>, restartExpired: set<nat>)

  function Initial(firstStart: bool, sorting: map<seq<Detail>, seq<Detail>>): Helper
  {
    Helper(true, firstStart, false, false, false, false, false, MrOffline, MrOffline, MrUnknown, MrUnknown, [],
           CtlUnknown, 0, 0, "", "", "", TpUnknown, EmptyUpgrade, [], [], [], sorting)
  }

  function FeedId(h: Helper): string
  {
    if h.feedType == TpDeploy then h.upgrade.id else h.cancelId
  }

  /** The report that goes with entering a busy state. */
  function Announced(h: Helper, state: ServerState): seq<Output>
  {
    if MrStateIsBusy(state) then [Proceeding(if h.feedType == TpDeploy then TpDeploy else TpCancel, FeedId(h))] else []
  }

  function SetState(h: Helper, state: ServerState): Helper
  {
    if h.state == state then h
    else h.(lastState := h.state, state := state, out := h.out + Announced(h, state))
  }

  function SendControl(h: Helper, control: Control): Helper
  {
    if control == CtlUnknown then h
    else h.(control := control, out := h.out + [Broadcast(control, h.upgrade, h.depends)])
  }

  function Idle(h: Helper): Helper
  {
    if h.state == MrIdle then h
    else
      SetState(h.(depends := [], details := [], detailSubscribed := false, upgrade := EmptyUpgrade, cancelId := ""),
               MrIdle)
  }

  function NewDetail(p: Package): Detail
  {
    Detail(Domain(p.domain, WrOffline, WrOffline, false, 0, "", AnsUnknown, ""), p, false, false)
  }

  function NewDetails(ps: seq<Package>): seq<Detail>
  {
    seq(|ps|, i requires 0 <= i < |ps| => NewDetail(ps[i]))
  }

  function PackageNames(ps: seq<Package>): seq<string>
  {
    seq(|ps|, i requires 0 <= i < |ps| => ps[i].domain)
  }

  /** Details::sort: whatever it makes of a list, since its comparison is no order. */
  function Sorted(sorting: map<seq<Detail>, seq<Detail>>, ds: seq<Detail>): seq<Detail>
  {
    if ds in sorting then sorting[ds] else ds
  }

  /** The details that a request starts with. */
  function Listed(h: Helper): seq<Detail> { Sorted(h.sorting, NewDetails(h.upgrade.packages)) }

  function Pending(h: Helper): Helper
  {
    var g := h.(errorCode := 0, depends := PackageNames(h.upgrade.packages), details := Listed(h));
    SetState(SendControl(g, CtlReset), MrPending)
  }

  function Download(h: Helper): Helper
  {
    var g := SetState(h, MrDownload);
    g.(out := g.out + [WebDownload])
  }

  function Deploy(h: Helper): Helper { SetState(SendControl(h, CtlDeploy), MrDeploy) }

  function Resume(h: Helper): Helper
  {
    Deploy(h.(lastState := h.cacheLastState, depends := h.cacheDepends)).(cacheState := MrUnknown)
  }

  function Cancel(h: Helper): Helper
  {
    var g := SetState(SendControl(h, CtlCancel), MrCancel);
    if g.lastState == MrIdle || g.lastState == MrPending || g.lastState == MrReady
       || g.lastState == MrDownload || g.lastState == MrVerify
    then Feedback(g, true, 0)
    else g
  }

  function Feedback(h: Helper, finished: bool, error: int): Helper
  {
    if h.hasFeed || h.feedType == TpUnknown then h
    else
      var g := SendControl(h.(hasFeed := true, errorCode := error), CtlClear);
      var k := g.(out := g.out + [WebStop, Closed(h.feedType, FeedId(h), finished)]);
      if k.detailSubscribed then SetState(k, if finished then MrDoneAsk else MrErrorAsk) else Idle(k)
  }

  function ConfigAnswer(h: Helper, answer: Answer): Helper
  {
    match h.state
    case MrDownloadAsk =>
      if answer == AnsAccept then Download(h) else if answer == AnsRefuse then Feedback(h, false, -1) else h
    case MrDeployAsk =>
      if answer == AnsAccept then Deploy(h) else if answer == AnsRefuse then Feedback(h, false, -1) else h
    case MrCancelAsk =>
      if answer == AnsAccept then Cancel(h) else if answer == AnsRefuse then Feedback(h, false, -1) else h
    case MrResumeAsk =>
      var g :=
        if answer == AnsAccept then Resume(h)
        else if answer == AnsRefuse then
          if h.hasNewId && h.cacheState == MrDeploy then Pending(h) else Idle(h)
        else h;
      g.(hasDeployBreaked := false)
    case MrDoneAsk => if answer == AnsAccept then Idle(h) else h
    case MrErrorAsk => if answer == AnsAccept then Idle(h) else h
    case _ => h
  }

  predicate Closing(h: Helper) { h.state == MrDoneAsk || h.state == MrErrorAsk }

  function OnError(h: Helper, error: int): Helper
  {
    if h.state == MrDownload || h.state == MrVerify || h.state == MrDistribute then
      if h.retryTimes < RETRY_TIMES then
        var g := Download(h);
        g.(retryTimes := g.retryTimes + 1)
      else Feedback(h.(retryTimes := 0), false, 1000 + error)
    else Feedback(h, false, 1000 + error)
  }

  function Requested(h: Helper, upgrade: Upgrade): Helper
  {
    var hasNewId := h.lastId != upgrade.id;
    h.(hasFeed := false, feedType := TpDeploy, hasNewId := hasNewId,
       cancelResume := !hasNewId && h.lastCancelId != "" && h.lastCancelId == upgrade.id,
       upgrade := upgrade, lastId := upgrade.id,
       hasDeployBreaked := if hasNewId then false else h.hasDeployBreaked)
  }

  function OnUpgrade(h: Helper, upgrade: Upgrade): Helper
  {
    if Closing(h) then h else Pending(Requested(h, upgrade))
  }

  function Canceled(h: Helper, id: string): Helper
  {
    h.(hasFeed := false, feedType := TpCancel, cancelId := id, lastCancelId := id,
       hasDeployBreaked := h.hasDeployBreaked || h.state == MrDeploy)
  }

  function OnCancel(h: Helper, id: string): Helper
  {
    var g := Canceled(h, id);
    if g.state == MrWait then Feedback(g, true, 0)
    else if MrStateIsAsk(g.state) then Feedback(g, true, 0)
    else if !MrStateIsBusy(g.state) then
      var k := Feedback(g, false, 1900);
      k.(out := k.out + [NoUpgradeToCancel(k.cancelId)])
    else SetState(g, MrCancelAsk)
  }

  function OnPull(h: Helper, distributing: bool): Helper
  {
    if Closing(h) || !distributing then h
    else SetState(if h.upgrade.download != Skip then SendControl(h, CtlDownload) else h, MrDistribute)
  }

  function OnInit(h: Helper, success: bool, state: Option<ServerState>, last: Option<ServerState>,
                  depends: seq<string>): Helper
  {
    if Closing(h) || !success then h
    else
      Idle(h.(cacheState := if state.Some? then state.value else h.cacheState,
              cacheLastState := if last.Some? then last.value else h.cacheLastState,
              cacheDepends := depends))
  }

  /** A web step is done: on to `state`, with `request` to the web queue. */
  function OnStepDone(h: Helper, state: ServerState, request: seq<Output>): Helper
  {
    if Closing(h) then h
    else
      var g := SetState(h, state);
      g.(out := g.out + request)
  }

  /** The first detail for a name, or -1. */
  function FindDetail(ds: seq<Detail>, name: string): (k: int)
    ensures k == -1 || (0 <= k < |ds| && ds[k].domain.name == name)
    ensures k == -1 ==> forall j :: 0 <= j < |ds| ==> ds[j].domain.name != name
  {
    if ds == [] then -1
    else if ds[0].domain.name == name then 0
    else
      var k := FindDetail(ds[1..], name);
      assert forall j :: 1 <= j < |ds| ==> ds[j] == ds[1..][j - 1];
      if k < 0 then -1 else k + 1
  }

  function Reported(h: Helper, domain: Domain, discovery: bool): Helper
  {
    var g := if domain.watcher then h.(detailSubscribed := true) else h;
    var k := FindDetail(g.details, domain.name);
    if k >= 0 then
      var d := g.details[k];
      var s := if discovery then SendControl(g, g.control) else g;
      s.(details := s.details[k := d.(domain := Update(d.domain, domain), heartbeatActive := true)])
    else if domain.watcher && discovery then SendControl(g, g.control)
    else g
  }

  function OnDomain(h: Helper, domain: Domain, discovery: bool): Helper
  {
    if domain.name == "" then h
    else
      var g := Reported(h, domain, discovery);
      if domain.watcher && domain.answer != AnsUnknown then ConfigAnswer(g, domain.answer) else g
  }

  // ----- the timer's pass over the details

  /** The pass so far; a non-zero `stop` is the error the tick ends with. */
  datatype Scan = Scan(h: Helper, valid: nat, wait: nat, equal: nat, cancel: nat, errors: nat, stop: int)

  function Stop(c: Scan, error: int): Scan { c.(stop := error) }

  predicate AtTarget(d: Detail) { DetectVersionEqual(d.domain.version, d.package.version) }

  predicate Finished(d: Detail) { d.domain.state == WrIdle && AtTarget(d) }

  predicate Outstanding(d: Detail) { d.deployActive || d.domain.state == WrWait }

  function OutstandingNames(ds: seq<Detail>): seq<string>
  {
    if ds == [] then []
    else (if Outstanding(ds[0]) then [ds[0].domain.name] else []) + OutstandingNames(ds[1..])
  }

  function WithDetail(h: Helper, i: nat, d: Detail): Helper
    requires i < |h.details|
  {
    h.(details := h.details[i := d])
  }

  /** A domain has finished deploying: who is still outstanding is computed anew. */
  function Recompute(h: Helper, i: nat): (g: Helper)
    requires i < |h.details|
    ensures |g.details| == |h.details|
  {
    var g := WithDetail(h, i, h.details[i].(deployActive := false));
    var k := g.(depends := OutstandingNames(g.details));
    if k.control == CtlDeploy then
      var s := SendControl(k, CtlDeploy);
      s.(out := s.out + [Scheduled(s.upgrade.id)])
    else k
  }

  function ScanDeploy(c: Scan, i: nat, clock: Clock): (e: Scan)
    requires i < |c.h.details|
    ensures |e.h.details| == |c.h.details|
  {
    var d := c.h.details[i];
    if d.deployActive then
      if i in clock.deployExpired then Stop(c, 1920)
      else if d.domain.state == WrOffline && d.heartbeatActive && i in clock.restartExpired then Stop(c, 1921)
      else if Finished(d) then c.(h := Recompute(c.h, i))
      else c
    else if !HasDepends(d.package.depends, c.h.depends) && d.domain.state == WrDeploy then
      c.(h := WithDetail(c.h, i, d.(deployActive := true)))
    else c
  }

  /** Counting, and the heartbeat. */
  function ScanFirst(c: Scan, i: nat, clock: Clock): (e: Scan)
    requires i < |c.h.details|
    ensures |e.h.details| == |c.h.details|
  {
    var d := c.h.details[i];
    var e := c.(equal := if AtTarget(d) then c.equal + 1 else c.equal,
                errors := if d.domain.error != 0 || d.domain.state == WrError then c.errors + 1 else c.errors);
    if d.domain.state != WrOffline && d.heartbeatActive && i in clock.heartbeatLost then
      e.(h := WithDetail(c.h, i, d.(domain := d.domain.(last := d.domain.state, state := WrOffline))))
    else e
  }

  function ScanRest(c: Scan, i: nat, clock: Clock): (e: Scan)
    requires i < |c.h.details|
    ensures |e.h.details| == |c.h.details|
  {
    var d := c.h.details[i];
    match c.h.state
    case MrPending | MrReady | MrDownloadAsk =>
      if d.domain.state != WrUnknown && d.domain.state != WrOffline && d.domain.version != "" then
        if VersionValid(d.domain.version, d.package.version) then c.(valid := c.valid + 1) else Stop(c, 1918)
      else c
    case MrDeploy => ScanDeploy(c, i, clock)
    case MrCancel =>
      if AtTarget(d) then Stop(c, 1919)
      else
        var e := if d.domain.state == WrIdle && d.domain.last == WrCancel then c.(cancel := c.cancel + 1) else c;
        if e.h.lastState == MrDeploy then ScanDeploy(e, i, clock) else e
    case MrWait | MrDeployAsk => if d.domain.state == WrWait then c.(wait := c.wait + 1) else c
    case _ => c
  }

  function ScanOne(c: Scan, i: nat, clock: Clock): (e: Scan)
    requires i < |c.h.details|
    ensures |e.h.details| == |c.h.details|
  {
    if c.h.details[i].package.domain == "" then Stop(c, 1917)
    else ScanRest(ScanFirst(c, i, clock), i, clock)
  }

  function ScanFrom(c: Scan, i: nat, n: nat, clock: Clock): (e: Scan)
    requires i <= n == |c.h.details|
    ensures |e.h.details| == n
    decreases n - i
  {
    if c.stop != 0 || i == n then c else ScanFrom(ScanOne(c, i, clock), i + 1, n, clock)
  }

  predicate TimedOut(h: Helper, clock: Clock) { clock.stateExpired && Limit(h.state) != 0 }

  /** The error code of a state's own time limit, 0 where it has none. */
  function Limit(state: ServerState): int
  {
    match state
    case MrPending => 1910
    case MrDownload | MrDistribute => 1913
    case MrVerify => 1914
    case MrDeploy => 1915
    case MrCancel => 1916
    case _ => 0
  }

  predicate All(count: nat, h: Helper) { count != 0 && count == |h.details| }

  function AfterValid(h: Helper, all: bool): Helper
  {
    if all then
      if h.state == MrPending then
        if h.hasNewId then SetState(h, if h.cacheState == MrDeploy then MrResumeAsk else MrReady)
        else SetState(h, if h.cancelResume && h.hasDeployBreaked then MrResumeAsk else MrReady)
      else if h.state == MrReady || h.state == MrDownloadAsk then
        if h.upgrade.download == Forced then Download(h)
        else if h.upgrade.download == Attempt && h.state == MrReady then SetState(h, MrDownloadAsk)
        else h
      else h
    else if h.state == MrDownloadAsk then SetState(h, MrPending)
    else h
  }

  function AfterWait(h: Helper, all: bool): Helper
  {
    if all then
      if h.state == MrWait || h.state == MrDeployAsk then
        if h.upgrade.deploy == Forced then Deploy(h)
        else if h.upgrade.deploy == Attempt && h.state == MrWait then SetState(h, MrDeployAsk)
        else h
      else h
    else if h.state == MrDeployAsk then SetState(h, MrWait)
    else h
  }

  /** The end of a tick that found no finished deployment. */
  function Concluded(h: Helper, wait: nat, cancel: nat, errors: nat): Helper
  {
    var g := AfterWait(h, All(wait, h));
    if All(cancel, g) && g.state == MrCancel then Feedback(g, true, 0)
    else if errors > 0 then Feedback(g, false, 1950)
    else g
  }

  function AfterScan(c: Scan): Helper
  {
    var h1 := AfterValid(c.h, All(c.valid, c.h));
    if All(c.equal, h1) && (h1.firstStart || h1.state == MrDeploy) then Feedback(h1, true, 0)
    else Concluded(h1, c.wait, c.cancel, c.errors)
  }

  predicate Sleeping(h: Helper)
  {
    h.feedType == TpUnknown || h.state == MrIdle || h.state == MrUnknown || h.state == MrOffline
    || h.hasFeed || h.errorCode != 0
  }

  function Scanned(h: Helper, clock: Clock): Scan
  {
    ScanFrom(Scan(h, 0, 0, 0, 0, 0, 0), 0, |h.details|, clock)
  }

  function ProcessDomains(h: Helper, clock: Clock): Helper
  {
    if Sleeping(h) then h
    else if TimedOut(h, clock) then Feedback(h, false, Limit(h.state))
    else
      var c := Scanned(h, clock);
      if c.stop != 0 then Feedback(c.h, false, c.stop) else AfterScan(c)
  }

  function Step(h: Helper, e: Event): Helper
  {
    match e
    case ResError(error) => OnError(h, error)
    case ReqActive(active) => h.(active := active)
    case ReqIdle => if Closing(h) then h else Idle(h)
    case ReqUpgrade(upgrade) => OnUpgrade(h, upgrade)
    case ReqCancel(id) => OnCancel(h, id)
    case ReqPull(distributing) => OnPull(h, distributing)
    case ResInit(success, state, last, depends) => OnInit(h, success, state, last, depends)
    case ResDownloadDone => OnStepDone(h, MrVerify, [WebVerify])
    case ResVerifyDone => OnStepDone(h, MrDistribute, [WebDistribute])
    case ResDistributeDone => OnStepDone(h, MrWait, [])
    case ResFeedbackDone => h
    case ResTransferProgress => h
    case ResDomain(domain, discovery) => OnDomain(h, domain, discovery)
    case Tick(clock) => ProcessDomains(h, clock)
  }

  /** The state after a whole run from `h`. */
  function Run(h: Helper, events: seq<Event>): Helper
  {
    if events == [] then h else Step(Run(h, events[..|events| - 1]), events[|events| - 1])
  }
}
