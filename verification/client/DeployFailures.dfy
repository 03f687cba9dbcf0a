/** Two runs that break one rule of DeployOrder once, and in which a client deploys before
    the one it depends on. */
module DeployFailures {
  import opened Domain
  import opened DeployOrder
  import opened DeployScenes
  import E = DeployExample
  import S = Server
  import C = Client
  import D = ServerDetails

  /** Only the guard forbids the tick. */
  predicate UnguardedTick(s: System, clock: S.Clock, t: System)
  {
    && DuringDeployment(s.server, S.Tick(clock)) && !Guarded(s.server, clock, DoneNames(s.clients, true))
    && t == Next(s, ServerMove(S.Tick(clock)))
  }

  // ----- a domain seen deploying before its timer runs

  const PackageA := Package("a", "2", "", true, false)
  const PackageB := Package("b", "2", "", true, false)
  const PackageC := Package("c", "2", "b", true, false)
  const Trio := Upgrade("u", Skip, Forced, [PackageA, PackageB, PackageC])

  const A0 := Seen("a", WrWait, WrVerify, "1")
  const A1 := Seen("a", WrDeploy, WrWait, "1")
  const A2 := Seen("a", WrIdle, WrDeploy, "2")
  const B0 := Seen("b", WrWait, WrVerify, "1")
  const B1 := Seen("b", WrDeploy, WrWait, "1")
  const C0 := Seen("c", WrWait, WrVerify, "1")
  const C1 := Seen("c", WrDeploy, WrWait, "1")

  function Knowing(a: Domain, timerA: bool, b: Domain, timerB: bool): seq<Detail>
  {
    [Detail(a, PackageA, timerA, true), Detail(b, PackageB, timerB, true), Detail(C0, PackageC, false, true)]
  }

  const ClientA0 := Client(A0, CtlReset, PackageA, [])
  const ClientA1 := Client(A1, CtlDeploy, PackageA, Begun(A1))
  const ClientA2 := Client(A2, CtlDeploy, PackageA, Begun(A1) + [C.SendDomain(A2, false)])
  const ClientB0 := Client(B0, CtlReset, PackageB, [])
  const ClientB1 := Client(B1, CtlDeploy, PackageB, Begun(B1))
  const ClientC0 := Client(C0, CtlReset, PackageC, [])
  const ClientC1 := Client(C1, CtlDeploy, PackageC, Begun(C1))

  const All := ["a", "b", "c"]
  const BroadcastAll := S.Broadcast(CtlDeploy, Trio, All)
  const BroadcastC := S.Broadcast(CtlDeploy, Trio, ["c"])
  const Out1 := [BroadcastAll, S.Proceeding(S.TpDeploy, "u")]
  const Out2 := Out1 + [BroadcastC, S.Scheduled("u")]

  const H0 := Serving(MrWait, MrDistribute, CtlReset, Trio, Knowing(A0, false, B0, false), All, [])
  const H1 := Serving(MrDeploy, MrWait, CtlDeploy, Trio, Knowing(A0, false, B0, false), All, Out1)
  const H2 := Serving(MrDeploy, MrWait, CtlDeploy, Trio, Knowing(A1, false, B0, false), All, Out1)
  const H3 := Serving(MrDeploy, MrWait, CtlDeploy, Trio, Knowing(A1, true, B0, false), All, Out1)
  const H4 := Serving(MrDeploy, MrWait, CtlDeploy, Trio, Knowing(A2, true, B0, false), All, Out1)
  const H5 := Serving(MrDeploy, MrWait, CtlDeploy, Trio, Knowing(A2, true, B1, false), All, Out1)
  const H6 := Serving(MrDeploy, MrWait, CtlDeploy, Trio, Knowing(A2, false, B1, false), ["c"], Out2)
  const H7 := Serving(MrDeploy, MrWait, CtlDeploy, Trio, Knowing(A2, false, B1, true), ["c"], Out2)

  function With(h: S.Helper, a: C.Helper, b: C.Helper, c: C.Helper): System
  {
    System(h, map["a" := a, "b" := b, "c" := c], 0)
  }

  lemma {:induction false} EveryoneWaits()
    ensures S.Step(H0, S.Tick(Quiet)) == H1
  {
    hide S.ScanOne, S.AfterScan, S.ScanFrom;
    WaitingTurn(0);
    WaitingTurn(1);
    WaitingTurn(2);
    ThreeTurns(Waiting(0), Waiting(1), Waiting(2), Waiting(3));
    AllWait();
  }

  lemma {:induction false} AllWait()
    ensures S.AfterScan(Waiting(3)) == H1
  {
    assert S.AfterScan(Waiting(3)) == S.Deploy(H0);
  }

  function Waiting(n: nat): S.Scan { S.Scan(H0, 0, n, 0, 0, 0, 0) }

  lemma {:induction false} WaitingTurn(i: nat)
    requires i < 3
    ensures S.ScanOne(Waiting(i), i, Quiet) == Waiting(i + 1)
  {
    hide VersionValid, HasDepends;
    assert H0.details[i].domain.state == WrWait && H0.details[i].domain.version == "1";
  }

  lemma {:induction false} ThreeTurns(c0: S.Scan, c1: S.Scan, c2: S.Scan, c3: S.Scan)
    requires |c0.h.details| == |c1.h.details| == |c2.h.details| == |c3.h.details| == 3
    requires c0.stop == c1.stop == c2.stop == 0
    requires S.ScanOne(c0, 0, Quiet) == c1 && S.ScanOne(c1, 1, Quiet) == c2 && S.ScanOne(c2, 2, Quiet) == c3
    ensures S.ScanFrom(c0, 0, 3, Quiet) == c3
  {
    hide S.ScanOne;
    assert S.ScanFrom(c3, 3, 3, Quiet) == c3;
    assert S.ScanFrom(c2, 2, 3, Quiet) == c3;
    assert S.ScanFrom(c1, 1, 3, Quiet) == c3;
  }

  lemma {:induction false} Reports()
    ensures S.Step(H1, S.ResDomain(A1, false)) == H2 && S.Step(H3, S.ResDomain(A2, false)) == H4
    ensures S.Step(H4, S.ResDomain(B1, false)) == H5
  {
    AReports(H1, A1);
    AReports(H3, A2);
    hide S.Step;
    BReports();
  }

  lemma {:induction false} AReports(h: S.Helper, d: Domain)
    requires (h == H1 && d == A1) || (h == H3 && d == A2)
    ensures S.Step(h, S.ResDomain(d, false)) == if h == H1 then H2 else H4
  {
    assert S.FindDetail(h.details, "a") == 0;
  }

  lemma {:induction false} BReports()
    ensures S.Step(H4, S.ResDomain(B1, false)) == H5
  {
    assert H4.details[1..][0].domain.name == "b";
    assert S.FindDetail(H4.details[1..], "b") == 0;
    assert S.FindDetail(H4.details, "b") == 1;
  }

  lemma {:induction false} TimerStarts()
    ensures S.Step(H2, S.Tick(Quiet)) == H3
  {
    hide S.ScanOne;
    var c0 := S.Scan(H2, 0, 0, 0, 0, 0, 0);
    var c1 := S.Scan(H3, 0, 0, 0, 0, 0, 0);
    ABegins(c0, c1);
    WaiterStays(c1, 1);
    WaiterStays(c1, 2);
    ThreeTurns(c0, c1, c1, c1);
    assert S.AfterScan(c1) == H3;
  }

  lemma {:induction false} ABegins(c: S.Scan, e: S.Scan)
    requires c == S.Scan(H2, 0, 0, 0, 0, 0, 0) && e == S.Scan(H3, 0, 0, 0, 0, 0, 0)
    ensures S.ScanOne(c, 0, Quiet) == e
  {
    hide S.ScanOne, S.WithDetail, DependsNames, HasDepends, Names;
    E.WhoDepends('b', All);
    Timed();
    BeginnerIsTimed(c, 0);
  }

  lemma {:induction false} Timed()
    ensures S.WithDetail(H2, 0, H2.details[0].(deployActive := true)) == H3
    ensures S.WithDetail(H6, 1, H6.details[1].(deployActive := true)) == H7
  {
    KnowingTimed(A1, false, B0);
    KnowingTimed(A2, false, B1);
  }

  lemma {:induction false} KnowingTimed(a: Domain, timerB: bool, b: Domain)
    ensures Knowing(a, false, b, timerB)[0 := Knowing(a, false, b, timerB)[0].(deployActive := true)]
            == Knowing(a, true, b, timerB)
    ensures Knowing(a, false, b, false)[1 := Knowing(a, false, b, false)[1].(deployActive := true)]
            == Knowing(a, false, b, true)
  {
  }

  lemma {:induction false} Recomputed()
    ensures S.Recompute(H5, 0) == H6
  {
    var g := S.WithDetail(H5, 0, H5.details[0].(deployActive := false));
    assert S.OutstandingNames(g.details[1..][1..]) == ["c"] by { assert g.details[1..][1..][1..] == []; }
    assert S.OutstandingNames(g.details[1..]) == ["c"];
    assert S.OutstandingNames(g.details) == ["c"];
  }

  lemma {:induction false} BDropsOut(done: set<string>)
    requires "b" !in done
    ensures S.Step(H5, S.Tick(Quiet)) == H7 && !Guarded(H5, Quiet, done)
  {
    hide S.ScanOne;
    var c0 := S.Scan(H5, 0, 0, 0, 0, 0, 0);
    var c1 := S.Scan(H6, 0, 0, 1, 0, 0, 0);
    var c2 := S.Scan(H7, 0, 0, 1, 0, 0, 0);
    AEnds(c0, c1);
    BBeginsLate(c1, c2);
    WaiterStays(c2, 2);
    ThreeTurns(c0, c1, c2, c2);
    assert S.AfterScan(c2) == H7;
    assert Recomputes(c0, 0, Quiet);
    assert !S.Outstanding(H6.details[1]);
  }

  lemma {:induction false} AEnds(c: S.Scan, e: S.Scan)
    requires c == S.Scan(H5, 0, 0, 0, 0, 0, 0) && e == S.Scan(H6, 0, 0, 1, 0, 0, 0)
    ensures S.ScanOne(c, 0, Quiet) == e
  {
    hide VersionValid, HasDepends, S.Recompute;
    Recomputed();
  }

  lemma {:induction false} BBeginsLate(c: S.Scan, e: S.Scan)
    requires c == S.Scan(H6, 0, 0, 1, 0, 0, 0) && e == S.Scan(H7, 0, 0, 1, 0, 0, 0)
    ensures S.ScanOne(c, 1, Quiet) == e
  {
    hide S.ScanOne, S.WithDetail, DependsNames, HasDepends, Names;
    E.WhoDepends('b', ["c"]);
    Timed();
    BeginnerIsTimed(c, 1);
  }

  lemma {:induction false} ClientsDeploy()
    ensures C.Step(ClientA0, ControlEvent(BroadcastAll), true) == ClientA1
    ensures C.Step(ClientB0, ControlEvent(BroadcastAll), true) == ClientB1
    ensures C.Step(ClientC0, ControlEvent(BroadcastC), true) == ClientC1
  {
    hide HasDepends, C.Step;
    E.WhoDepends('b', All);
    E.WhoDepends('b', ["c"]);
    var ps := Trio.packages;
    assert ps[1..] == [PackageB, PackageC] && ps[1..][1..] == [PackageC];
    assert C.Chosen(ps[1..], "b", PackageB) == PackageB;
    assert C.Chosen(ps[1..][1..], "c", PackageC) == PackageC;
    assert C.Chosen(ps[1..], "c", PackageC) == PackageC;
    WaiterDeploys("a", PackageA, Trio, All);
    WaiterDeploys("b", PackageB, Trio, All);
    WaiterDeploys("c", PackageC, Trio, ["c"]);
  }

  lemma {:induction false} AIsDone()
    ensures C.Step(ClientA1, C.ResDeployDone, true) == ClientA2
  {
  }

  lemma {:induction false} NotDone()
    ensures !C.Done(ClientA0) && !C.Done(ClientB0) && !C.Done(ClientC0) && !C.Deployed(ClientB1)
  {
  }

  lemma {:induction false} OneClient(h: S.Helper, a: C.Helper, b: C.Helper, c: C.Helper, d: C.Helper)
    ensures var s := With(h, a, b, c);
            && s.(clients := s.clients["a" := d]) == With(h, d, b, c)
            && s.(clients := s.clients["b" := d]) == With(h, a, d, c)
            && s.(clients := s.clients["c" := d]) == With(h, a, b, d)
  {
    var m := With(h, a, b, c).clients;
    assert m["a" := d] == With(h, d, b, c).clients;
    assert m["b" := d] == With(h, a, d, c).clients;
    assert m["c" := d] == With(h, a, b, d).clients;
  }

  lemma {:induction false} NobodyFinished()
    ensures forall k :: 0 <= k < 3 ==> !S.Finished(H0.details[k])
  {
  }

  lemma {:induction false} Starts()
    ensures Start(With(H0, ClientA0, ClientB0, ClientC0))
  {
    hide S.Finished;
    assert S.PackageNames(Trio.packages) == All;
    NobodyFinished();
    assert D.Arranged(H0.details) == Trio.packages;
  }

  const Moves := [Tick, Deliver("a", 0, true), Report("a", 2), Tick, ClientMove("a", C.ResDeployDone, true),
                  Report("a", 3), Deliver("b", 0, true), Report("b", 2)]

  const States := [With(H0, ClientA0, ClientB0, ClientC0), With(H1, ClientA0, ClientB0, ClientC0),
                   With(H1, ClientA1, ClientB0, ClientC0), With(H2, ClientA1, ClientB0, ClientC0),
                   With(H3, ClientA1, ClientB0, ClientC0), With(H3, ClientA2, ClientB0, ClientC0),
                   With(H4, ClientA2, ClientB0, ClientC0), With(H4, ClientA2, ClientB1, ClientC0),
                   With(H5, ClientA2, ClientB1, ClientC0)]

  const Slipped := With(H7, ClientA2, ClientB1, ClientC0)
  const Broken := With(H7, ClientA2, ClientB1, ClientC1)

  lemma {:induction false} Begins()
    ensures Goes(States[0], Tick, States[1])
  {
    hide S.Step, Goes;
    EveryoneWaits();
    QuietTick(States[0], H1);
  }

  lemma {:induction false} AIsTold()
    ensures Goes(States[1], Deliver("a", 0, true), States[2])
  {
    hide S.Step, C.Step, Goes, C.Done;
    ClientsDeploy();
    NotDone();
    DeliverGoes(States[1], "a", 0, BroadcastAll, ClientA1);
    OneClient(H1, ClientA0, ClientB0, ClientC0, ClientA1);
  }

  lemma {:induction false} AIsSeen()
    ensures Goes(States[2], Report("a", 2), States[3])
  {
    hide S.Step, Goes;
    Reports();
    ReportGoes(States[2], "a", 2, A1, false, H2);
  }

  lemma {:induction false} AIsTimed()
    ensures Goes(States[3], Tick, States[4])
  {
    hide S.Step, Goes;
    TimerStarts();
    QuietTick(States[3], H3);
  }

  lemma {:induction false} AGetsDone()
    ensures Goes(States[4], ClientMove("a", C.ResDeployDone, true), States[5])
  {
    hide S.Step, C.Step, Goes, C.Done;
    AIsDone();
    ClientGoes(States[4], "a", C.ResDeployDone, ClientA2);
    OneClient(H3, ClientA1, ClientB0, ClientC0, ClientA2);
  }

  lemma {:induction false} AIsSeenDone()
    ensures Goes(States[5], Report("a", 3), States[6])
  {
    hide S.Step, C.Step, Goes;
    Reports();
    ReportGoes(States[5], "a", 3, A2, false, H4);
  }

  lemma {:induction false} BBegins()
    ensures Goes(States[6], Deliver("b", 0, true), States[7]) && Goes(States[7], Report("b", 2), States[8])
  {
    hide S.Step, C.Step, Goes, C.Done;
    ClientsDeploy();
    NotDone();
    DeliverGoes(States[6], "b", 0, BroadcastAll, ClientB1);
    OneClient(H4, ClientA2, ClientB0, ClientC0, ClientB1);
    Reports();
    ReportGoes(States[7], "b", 2, B1, false, H5);
  }

  lemma {:induction false} Slips()
    ensures UnguardedTick(States[8], Quiet, Slipped)
  {
    hide S.Step, Guarded;
    NotDone();
    BDropsOut(DoneNames(States[8].clients, true));
  }

  lemma {:induction false} CDeploys()
    ensures Leads(Slipped, [Deliver("c", 2, true)], Broken, true)
  {
    hide S.Step, C.Step, Goes, C.Done, Leads;
    ClientsDeploy();
    NotDone();
    DeliverGoes(Slipped, "c", 2, BroadcastC, ClientC1);
    OneClient(H7, ClientA2, ClientB1, ClientC0, ClientC1);
    PathLeads([Slipped, Broken], [Deliver("c", 2, true)]);
  }

  /** From the start to a broken order with one unguarded tick: a is done while the server
      sees b deploying without a timer, b drops out of the list, and c, which depends on b,
      deploys with b not even at its target version. */
  lemma {:induction false} OneUnguardedTick()
    ensures Start(States[0]) && Leads(States[0], Moves, States[8], true)
    ensures UnguardedTick(States[8], Quiet, Slipped) && Leads(Slipped, [Deliver("c", 2, true)], Broken, true)
    ensures Broken.clients["c"].domain.state == WrDeploy && Names(PackageC.depends, "b")
    ensures Broken.clients["c"].package == PackageC && !C.Deployed(Broken.clients["b"])
  {
    hide Goes, Start, Leads, Names, UnguardedTick;
    Starts();
    Begins();
    AIsTold();
    AIsSeen();
    AIsTimed();
    AGetsDone();
    AIsSeenDone();
    BBegins();
    Slips();
    CDeploys();
    NotDone();
    E.WhoDepends('b', []);
    assert Path(States, Moves);
    PathLeads(States, Moves);
  }

  // ----- REQ_IDLE in mid-deployment

  /** The second client of DeployExample, with a user interface and looking for the server. */
  const Watching := E.B0.(watcher := true)
  const Watcher0 := Client(Watching, CtlReset, E.PackageB, []).(needDiscovery := true)
  const Watcher1 := Client(Watching, CtlReset, E.PackageB, [C.SendDomain(Watching, true)])

  const EmptyBroadcast := S.Broadcast(CtlDeploy, EmptyUpgrade, [])
  const Idled := Serving(MrIdle, MrDeploy, CtlDeploy, EmptyUpgrade, [], [], E.Out1)
  const Asked := Idled.(detailSubscribed := true, out := E.Out1 + [EmptyBroadcast])

  const Watcher2 := C.Step(Watcher1, ControlEvent(EmptyBroadcast), true)

  const IdleStates := [E.With(E.H0, E.ClientA0, Watcher0), E.With(E.H1, E.ClientA0, Watcher0),
                       E.With(E.H1, E.ClientA0, Watcher1)]
  const IdleMoves := [Tick, ClientMove("b", C.ReplyTimer, true)]
  const Dropped := [E.With(Idled, E.ClientA0, Watcher1), E.With(Asked, E.ClientA0, Watcher1),
                    E.With(Asked, E.ClientA0, Watcher2)]
  const DroppedMoves := [Report("b", 0), Deliver("b", 2, true)]

  lemma {:induction false} ServerIdles()
    ensures S.Step(E.H1, S.ReqIdle) == Idled && S.Step(Idled, S.ResDomain(Watching, true)) == Asked
  {
    assert E.Out1 + [] == E.Out1;
  }

  lemma {:induction false} WatcherAsks()
    ensures C.Step(Watcher0, C.ReplyTimer, true) == Watcher1 && !C.Done(Watcher0) && !C.Done(Watcher1)
  {
  }

  lemma {:induction false} WatcherDeploys()
    ensures Watcher2.domain.state == WrDeploy && Watcher2.package == E.PackageB
  {
    hide VersionValid, HasDepends;
    E.WhoDepends('a', []);
    assert C.Took(Watcher1, CtlDeploy, EmptyUpgrade) == Watcher1.(control := CtlDeploy);
  }

  lemma {:induction false} UntilIdle()
    ensures Leads(IdleStates[0], IdleMoves, IdleStates[2], true)
  {
    hide S.Step, C.Step, Goes, C.Done, Leads;
    E.EveryoneWaits();
    QuietTick(IdleStates[0], E.H1);
    WatcherAsks();
    ClientGoes(IdleStates[1], "b", C.ReplyTimer, Watcher1);
    E.OneClient(E.H1, E.ClientA0, Watcher0, Watcher1);
    PathLeads(IdleStates, IdleMoves);
  }

  lemma {:induction false} AfterIdle()
    ensures Leads(Dropped[0], DroppedMoves, Dropped[2], true)
  {
    hide S.Step, C.Step, Goes, C.Done, Leads;
    ServerIdles();
    ReportGoes(Dropped[0], "b", 0, Watching, true, Asked);
    WatcherAsks();
    DeliverGoes(Dropped[1], "b", 2, EmptyBroadcast, Watcher2);
    E.OneClient(Asked, E.ClientA0, Watcher1, Watcher2);
    PathLeads(Dropped, DroppedMoves);
  }

  /** From the start to a broken order with one REQ_IDLE: the control stays CTL_DEPLOY, a
      client looking for the server gets it with an empty list, and deploys with the one it
      depends on still waiting. */
  lemma {:induction false} OneReqIdle()
    ensures Start(IdleStates[0]) && Leads(IdleStates[0], IdleMoves, IdleStates[2], true)
    ensures Next(IdleStates[2], ServerMove(S.ReqIdle)) == Dropped[0] && IdleStates[2].server.control == CtlDeploy
    ensures Leads(Dropped[0], DroppedMoves, Dropped[2], true)
    ensures Dropped[2].clients["b"].domain.state == WrDeploy && Dropped[2].clients["b"].package == E.PackageB
    ensures Names(E.PackageB.depends, "a") && Dropped[2].clients["a"].domain.state == WrWait
    ensures !C.Deployed(Dropped[2].clients["a"])
  {
    hide S.Step, C.Step, Start, Leads, Names;
    E.Starts(Watcher0);
    UntilIdle();
    ServerIdles();
    AfterIdle();
    WatcherDeploys();
    E.WhoDepends('a', []);
  }
}
