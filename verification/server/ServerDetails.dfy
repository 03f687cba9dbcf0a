/** The detail list over every run: the upgrade's packages, each exactly as often, in
    whatever order the sort leaves them, and each detail named after its package. */
module ServerDetails {
  import opened Domain
  import opened Server
  import opened Options
  import R = ServerRuns

  function Arranged(ds: seq<Detail>): (ps: seq<Package>)
    ensures |ps| == |ds| && forall k :: 0 <= k < |ds| ==> ps[k] == ds[k].package
  {
    seq(|ds|, i requires 0 <= i < |ds| => ds[i].package)
  }

  predicate Named(ds: seq<Detail>)
  {
    forall k :: 0 <= k < |ds| ==> ds[k].domain.name == ds[k].package.domain
  }

  predicate Matching(h: Helper)
  {
    multiset(Arranged(h.details)) == multiset(h.upgrade.packages) && Named(h.details)
  }

  /** The sort only moves the details about. */
  predicate Permutes(sorting: map<seq<Detail>, seq<Detail>>)
  {
    forall ds :: ds in sorting ==> multiset(sorting[ds]) == multiset(ds)
  }

  // ----- what every operation but pending() does to the list

  /** The same rows, whatever has become of their states. */
  predicate SameRows(ds: seq<Detail>, es: seq<Detail>)
  {
    |es| == |ds| && forall k :: 0 <= k < |ds| ==> es[k].package == ds[k].package && es[k].domain.name == ds[k].domain.name
  }

  /** The rows kept with the upgrade, or both dropped. */
  predicate Kin(h: Helper, g: Helper)
  {
    g.sorting == h.sorting &&
    ((g.upgrade == h.upgrade && SameRows(h.details, g.details)) || (g.upgrade == EmptyUpgrade && g.details == []))
  }

  lemma {:induction false} KinMatches(h: Helper, g: Helper)
    requires Matching(h) && Kin(h, g)
    ensures Matching(g)
  {
    if SameRows(h.details, g.details) && g.upgrade == h.upgrade {
      assert Arranged(g.details) == Arranged(h.details);
    } else {
      assert Arranged(g.details) == [];
    }
  }

  lemma {:induction false} KinTrans(h: Helper, g: Helper, k: Helper)
    requires Kin(h, g) && Kin(g, k)
    ensures Kin(h, k)
  {
  }

  lemma {:induction false} SameRowsRefl(ds: seq<Detail>)
    ensures SameRows(ds, ds)
  {
  }

  lemma {:induction false} StateKin(h: Helper, state: ServerState)
    ensures Kin(h, SetState(h, state))
  {
    hide SameRows, SetState;
    SameRowsRefl(h.details);
    StateFrame(h, state);
  }

  lemma {:induction false} StateFrame(h: Helper, state: ServerState)
    ensures var g := SetState(h, state);
            g.upgrade == h.upgrade && g.details == h.details && g.sorting == h.sorting && g.state == state
  {
    hide Announced;
    if h.state == state {
      assert SetState(h, state) == h;
    } else {
      assert SetState(h, state) == h.(lastState := h.state, state := state, out := h.out + Announced(h, state));
    }
  }

  lemma {:induction false} ControlKin(h: Helper, control: Control)
    ensures Kin(h, SendControl(h, control))
  {
  }

  lemma {:induction false} IdleKin(h: Helper)
    ensures Kin(h, Idle(h))
  {
    hide SetState, SameRows;
    SameRowsRefl(h.details);
    StateFrame(h.(depends := [], details := [], detailSubscribed := false, upgrade := EmptyUpgrade, cancelId := ""),
               MrIdle);
  }

  lemma {:induction false} DownloadKin(h: Helper)
    ensures Kin(h, Download(h))
  {
    hide SetState;
    StateKin(h, MrDownload);
  }

  lemma {:induction false} DeployKin(h: Helper)
    ensures Kin(h, Deploy(h))
  {
    hide SetState, SendControl, Kin;
    ControlKin(h, CtlDeploy);
    StateKin(SendControl(h, CtlDeploy), MrDeploy);
    KinTrans(h, SendControl(h, CtlDeploy), Deploy(h));
  }

  lemma {:induction false} ResumeKin(h: Helper)
    ensures Kin(h, Resume(h))
  {
    hide Deploy;
    DeployKin(h.(lastState := h.cacheLastState, depends := h.cacheDepends));
  }

  lemma {:induction false} FeedbackKin(h: Helper, finished: bool, error: int)
    ensures Kin(h, Feedback(h, finished, error))
  {
    hide SendControl, SetState, Idle;
    var f := h.(hasFeed := true, errorCode := error);
    ControlKin(f, CtlClear);
    var g := SendControl(f, CtlClear);
    var k := g.(out := g.out + [WebStop, Closed(h.feedType, FeedId(h), finished)]);
    StateKin(k, if finished then MrDoneAsk else MrErrorAsk);
    IdleKin(k);
  }

  lemma {:induction false} CancelKin(h: Helper)
    ensures Kin(h, Cancel(h))
  {
    hide SendControl, SetState, Feedback, Kin;
    var k := SendControl(h, CtlCancel);
    var g := SetState(k, MrCancel);
    ControlKin(h, CtlCancel);
    StateKin(k, MrCancel);
    KinTrans(h, k, g);
    FeedbackKin(g, true, 0);
    KinTrans(h, g, Feedback(g, true, 0));
  }

  // ----- pending()

  lemma {:induction false} PendingMatches(h: Helper)
    requires Permutes(h.sorting)
    ensures Matching(Pending(h)) && Pending(h).sorting == h.sorting
  {
    hide SetState, SendControl, NewDetails, Matching, Sorted;
    ListedMatches(h);
    var g := h.(errorCode := 0, depends := PackageNames(h.upgrade.packages), details := Listed(h));
    ControlKin(g, CtlReset);
    StateKin(SendControl(g, CtlReset), MrPending);
    KinMatches(g, SendControl(g, CtlReset));
    KinMatches(SendControl(g, CtlReset), Pending(h));
  }

  lemma {:induction false} ListedMatches(h: Helper)
    requires Permutes(h.sorting)
    ensures forall g: Helper :: g.upgrade == h.upgrade && g.details == Listed(h) ==> Matching(g)
  {
    var ds, es := NewDetails(h.upgrade.packages), Listed(h);
    assert Arranged(ds) == h.upgrade.packages;
    PermutedPackages(ds, es);
    forall k | 0 <= k < |es| ensures es[k].domain.name == es[k].package.domain {
      assert es[k] in multiset(ds);
    }
  }

  lemma {:induction false} PermutedPackages(ds: seq<Detail>, es: seq<Detail>)
    requires multiset(es) == multiset(ds)
    ensures multiset(Arranged(es)) == multiset(Arranged(ds))
    decreases |ds|
  {
    hide Arranged;
    if ds == [] {
      NoneLeft(es);
    } else {
      var k := FirstTaken(ds, es);
      PermutedPackages(ds[..0] + ds[1..], es[..k] + es[k + 1..]);
      TakenPackage(ds, 0);
      TakenPackage(es, k);
    }
  }

  lemma {:induction false} NoneLeft<T>(s: seq<T>)
    requires multiset(s) == multiset([])
    ensures s == []
  {
    assert |multiset(s)| == 0;
  }

  lemma {:induction false} FirstTaken<T>(s: seq<T>, t: seq<T>) returns (k: nat)
    requires multiset(t) == multiset(s) && s != []
    ensures k < |t| && t[k] == s[0] && multiset(t[..k] + t[k + 1..]) == multiset(s[..0] + s[1..])
  {
    assert s[0] in multiset(t);
    k :| 0 <= k < |t| && t[k] == s[0];
    Taken(s, 0);
    Taken(t, k);
    assert multiset(t[..k] + t[k + 1..]) == multiset(t) - multiset{s[0]};
    assert multiset(s[..0] + s[1..]) == multiset(s) - multiset{s[0]};
  }

  lemma {:induction false} Taken<T>(s: seq<T>, k: nat)
    requires k < |s|
    ensures multiset(s) == multiset(s[..k] + s[k + 1..]) + multiset{s[k]}
  {
    assert s == s[..k] + [s[k]] + s[k + 1..];
  }

  lemma {:induction false} TakenPackage(ds: seq<Detail>, k: nat)
    requires k < |ds|
    ensures multiset(Arranged(ds)) == multiset(Arranged(ds[..k] + ds[k + 1..])) + multiset{ds[k].package}
  {
    var ps := Arranged(ds);
    Taken(ps, k);
    assert Arranged(ds[..k] + ds[k + 1..]) == ps[..k] + ps[k + 1..];
  }

  // ----- the handlers

  predicate Keeps(h: Helper, g: Helper) { Permutes(h.sorting) && Matching(h) ==> Matching(g) && g.sorting == h.sorting }

  lemma {:induction false} KinKeeps(h: Helper, g: Helper)
    requires Kin(h, g)
    ensures Keeps(h, g)
  {
    hide Matching;
    if Matching(h) { KinMatches(h, g); }
  }

  lemma {:induction false} ReportedKin(h: Helper, domain: Domain, discovery: bool)
    ensures Kin(h, Reported(h, domain, discovery))
  {
    hide SendControl, FindDetail, Update, SameRows;
    SameRowsRefl(h.details);
    R.ControlFrame(if domain.watcher then h.(detailSubscribed := true) else h);
    var k := FindDetail(h.details, domain.name);
    if k >= 0 {
      var d := h.details[k];
      UpdateKeepsName(d.domain, domain);
      OneRow(h.details, k, d.(domain := Update(d.domain, domain), heartbeatActive := true));
    }
  }

  lemma {:induction false} OneRow(ds: seq<Detail>, k: nat, d: Detail)
    requires k < |ds| && d.package == ds[k].package && d.domain.name == ds[k].domain.name
    ensures SameRows(ds, ds[k := d])
  {
  }

  lemma {:induction false} UpdateKeepsName(d: Domain, other: Domain)
    ensures Update(d, other).name == d.name
  {
  }

  lemma {:induction false} AnswerKeeps(h: Helper, answer: Answer)
    ensures Keeps(h, ConfigAnswer(h, answer))
  {
    hide Download, Deploy, Cancel, Resume, Pending, Idle, Feedback, Matching, Permutes;
    DownloadKin(h);
    DeployKin(h);
    CancelKin(h);
    ResumeKin(h);
    IdleKin(h);
    FeedbackKin(h, false, -1);
    if Permutes(h.sorting) { PendingMatches(h); }
    AnswerCases(h, answer);
  }

  /** An answer leads to pending() or to kin. */
  lemma {:induction false} AnswerCases(h: Helper, answer: Answer)
    requires Kin(h, Download(h)) && Kin(h, Deploy(h)) && Kin(h, Cancel(h)) && Kin(h, Resume(h)) && Kin(h, Idle(h))
    requires Kin(h, Feedback(h, false, -1))
    requires Permutes(h.sorting) ==> Matching(Pending(h)) && Pending(h).sorting == h.sorting
    ensures Keeps(h, ConfigAnswer(h, answer))
  {
    hide Download, Deploy, Cancel, Resume, Pending, Idle, Feedback, Matching, Permutes, Keeps;
    var g := ConfigAnswer(h, answer);
    if h.state == MrResumeAsk && answer == AnsRefuse && h.hasNewId && h.cacheState == MrDeploy {
      PendingKeeps(h, g);
    } else {
      KinKeeps(h, g);
    }
  }

  lemma {:induction false} PendingKeeps(h: Helper, g: Helper)
    requires g == Pending(h).(hasDeployBreaked := false)
    requires Permutes(h.sorting) ==> Matching(Pending(h)) && Pending(h).sorting == h.sorting
    ensures Keeps(h, g)
  {
    hide Pending, Permutes;
  }

  lemma {:induction false} DomainKeeps(h: Helper, domain: Domain, discovery: bool)
    ensures Keeps(h, OnDomain(h, domain, discovery))
  {
    hide Reported, ConfigAnswer, Matching, Permutes;
    ReportedKin(h, domain, discovery);
    KinKeeps(h, Reported(h, domain, discovery));
    AnswerKeeps(Reported(h, domain, discovery), domain.answer);
  }

  // ----- the tick

  lemma {:induction false} ScanKin(c: Scan, i: nat, n: nat, clock: Clock)
    requires i <= n == |c.h.details|
    ensures Kin(c.h, ScanFrom(c, i, n, clock).h)
    decreases n - i
  {
    hide ScanOne, Kin;
    KinRefl(c.h);
    if c.stop == 0 && i < n {
      var e := ScanOne(c, i, clock);
      TurnKin(c, i, clock);
      ScanKin(e, i + 1, n, clock);
      KinTrans(c.h, e.h, ScanFrom(e, i + 1, n, clock).h);
    }
  }

  lemma {:induction false} KinRefl(h: Helper)
    ensures Kin(h, h)
  {
  }

  lemma {:induction false} TurnKin(c: Scan, i: nat, clock: Clock)
    requires i < |c.h.details|
    ensures Kin(c.h, ScanOne(c, i, clock).h)
  {
    hide ScanOne, AtTarget;
    R.ScanOneDetails(c, i, clock);
    R.ScanOneWithin(c, i, clock);
  }

  lemma {:induction false} AfterScanKin(c: Scan)
    ensures Kin(c.h, AfterScan(c))
  {
    hide AfterValid, AfterWait, Feedback, Kin;
    var h1 := AfterValid(c.h, All(c.valid, c.h));
    AfterValidKin(c.h, All(c.valid, c.h));
    FeedbackKin(h1, true, 0);
    KinTrans(c.h, h1, Feedback(h1, true, 0));
    var h2 := AfterWait(h1, All(c.wait, h1));
    AfterWaitKin(h1, All(c.wait, h1));
    KinTrans(c.h, h1, h2);
    FeedbackKin(h2, true, 0);
    FeedbackKin(h2, false, 1950);
    KinTrans(c.h, h2, Feedback(h2, true, 0));
    KinTrans(c.h, h2, Feedback(h2, false, 1950));
  }

  lemma {:induction false} AfterValidKin(h: Helper, all: bool)
    ensures Kin(h, AfterValid(h, all))
  {
    hide SetState, Download, Kin;
    KinRefl(h);
    StateKin(h, MrResumeAsk);
    StateKin(h, MrReady);
    StateKin(h, MrDownloadAsk);
    StateKin(h, MrPending);
    DownloadKin(h);
  }

  lemma {:induction false} AfterWaitKin(h: Helper, all: bool)
    ensures Kin(h, AfterWait(h, all))
  {
    hide SetState, Deploy, Kin;
    KinRefl(h);
    StateKin(h, MrDeployAsk);
    StateKin(h, MrWait);
    DeployKin(h);
  }

  lemma {:induction false} TickKin(h: Helper, clock: Clock)
    ensures Kin(h, ProcessDomains(h, clock))
  {
    hide ScanFrom, AfterScan, Feedback, Kin;
    KinRefl(h);
    FeedbackKin(h, false, Limit(h.state));
    var c := Scanned(h, clock);
    ScanKin(Scan(h, 0, 0, 0, 0, 0, 0), 0, |h.details|, clock);
    FeedbackKin(c.h, false, c.stop);
    KinTrans(h, c.h, Feedback(c.h, false, c.stop));
    AfterScanKin(c);
    KinTrans(h, c.h, AfterScan(c));
  }

  // ----- the web events

  lemma {:induction false} ErrorKin(h: Helper, error: int)
    ensures Kin(h, OnError(h, error))
  {
    hide Download, Feedback, SameRows;
    SameRowsRefl(h.details);
    DownloadKin(h);
    FeedbackKin(h, false, 1000 + error);
    if h.retryTimes >= RETRY_TIMES { FeedbackKin(h.(retryTimes := 0), false, 1000 + error); }
  }

  lemma {:induction false} UpgradeKeeps(h: Helper, upgrade: Upgrade)
    ensures Keeps(h, OnUpgrade(h, upgrade))
  {
    hide Pending, Matching, Permutes;
    if Permutes(h.sorting) { PendingMatches(Requested(h, upgrade)); }
  }

  lemma {:induction false} CancelRequestKin(h: Helper, id: string)
    ensures Kin(h, OnCancel(h, id))
  {
    hide Feedback, SetState, MrStateIsAsk, MrStateIsBusy;
    var g := Canceled(h, id);
    FeedbackKin(g, true, 0);
    FeedbackKin(g, false, 1900);
    StateKin(g, MrCancelAsk);
  }

  lemma {:induction false} PullKin(h: Helper, distributing: bool)
    ensures Kin(h, OnPull(h, distributing))
  {
    hide SendControl, SetState, Kin;
    KinRefl(h);
    ControlKin(h, CtlDownload);
    var g := SendControl(h, CtlDownload);
    StateKin(h, MrDistribute);
    StateKin(g, MrDistribute);
    KinTrans(h, g, SetState(g, MrDistribute));
  }

  lemma {:induction false} InitKin(h: Helper, success: bool, state: Option<ServerState>, last: Option<ServerState>,
                                   depends: seq<string>)
    ensures Kin(h, OnInit(h, success, state, last, depends))
  {
    hide Idle;
    IdleKin(h.(cacheState := if state.Some? then state.value else h.cacheState,
               cacheLastState := if last.Some? then last.value else h.cacheLastState, cacheDepends := depends));
  }

  lemma {:induction false} StepDoneKin(h: Helper, state: ServerState, request: seq<Output>)
    ensures Kin(h, OnStepDone(h, state, request))
  {
    hide SetState;
    StateKin(h, state);
  }

  lemma {:induction false} StepKeeps(h: Helper, e: Event)
    ensures Keeps(h, Step(h, e))
  {
    hide OnError, OnUpgrade, OnCancel, OnPull, OnInit, OnStepDone, OnDomain, ProcessDomains, Idle, Keeps, Kin;
    KinRefl(h);
    match e {
      case ReqUpgrade(upgrade) => UpgradeKeeps(h, upgrade);
      case ResDomain(domain, discovery) => DomainKeeps(h, domain, discovery);
      case _ => OtherKin(h, e); KinKeeps(h, Step(h, e));
    }
  }

  lemma {:induction false} OtherKin(h: Helper, e: Event)
    requires !e.ReqUpgrade? && !e.ResDomain?
    ensures Kin(h, Step(h, e))
  {
    hide OnError, OnUpgrade, OnCancel, OnPull, OnInit, OnStepDone, OnDomain, ProcessDomains, Idle, SameRows;
    SameRowsRefl(h.details);
    match e {
      case ResError(error) => ErrorKin(h, error);
      case ReqIdle => IdleKin(h);
      case ReqCancel(id) => CancelRequestKin(h, id);
      case ReqPull(distributing) => PullKin(h, distributing);
      case ResInit(success, state, last, depends) => InitKin(h, success, state, last, depends);
      case ResDownloadDone => StepDoneKin(h, MrVerify, [WebVerify]);
      case ResVerifyDone => StepDoneKin(h, MrDistribute, [WebDistribute]);
      case ResDistributeDone => StepDoneKin(h, MrWait, []);
      case Tick(clock) => TickKin(h, clock);
      case _ =>
    }
  }

  /** In every run in which the sort only moves details about, the details are a permutation
      of the upgrade's packages, each named after its package. */
  lemma {:induction false} DetailsMatchPackages(firstStart: bool, sorting: map<seq<Detail>, seq<Detail>>,
                                                events: seq<Event>)
    requires Permutes(sorting)
    ensures var h := Run(Initial(firstStart, sorting), events); Matching(h) && h.sorting == sorting
  {
    hide Step, Permutes;
    if events == [] {
      assert Arranged([]) == [];
    } else {
      DetailsMatchPackages(firstStart, sorting, events[..|events| - 1]);
      StepKeeps(Run(Initial(firstStart, sorting), events[..|events| - 1]), events[|events| - 1]);
    }
  }
}
