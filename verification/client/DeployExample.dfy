/** A run of the deployment from its start to a client that deploys after the one it depends
    on: the guards of DeployOrder leave room for what the program is for. */
module DeployExample {
  import opened Domain
  import opened Text
  import opened Strings
  import opened DeployOrder
  import opened DeployScenes
  import S = Server
  import C = Client
  import D = ServerDetails

  const PackageA := Package("a", "2", "", true, false)
  const PackageB := Package("b", "2", "a", true, false)
  const Both := Upgrade("u", Skip, Forced, [PackageA, PackageB])

  const A0 := Seen("a", WrWait, WrVerify, "1")
  const A1 := Seen("a", WrDeploy, WrWait, "1")
  const A2 := Seen("a", WrIdle, WrDeploy, "2")
  const B0 := Seen("b", WrWait, WrVerify, "1")
  const B1 := Seen("b", WrDeploy, WrWait, "1")

  /** The details while the server knows domain a as `a` and b as waiting. */
  function Knowing(a: Domain, timer: bool): seq<Detail>
  {
    [Detail(a, PackageA, timer, true), Detail(B0, PackageB, false, true)]
  }

  const ClientA0 := Client(A0, CtlReset, PackageA, [])
  const ClientA1 := Client(A1, CtlDeploy, PackageA, Begun(A1))
  const ClientA2 := Client(A2, CtlDeploy, PackageA, Begun(A1) + [C.SendDomain(A2, false)])
  const ClientB0 := Client(B0, CtlReset, PackageB, [])
  const ClientB1 := Client(B1, CtlDeploy, PackageB, Begun(B1))

  const Broadcast1 := S.Broadcast(CtlDeploy, Both, ["a", "b"])
  const Broadcast2 := S.Broadcast(CtlDeploy, Both, ["b"])
  const Out1 := [Broadcast1, S.Proceeding(S.TpDeploy, "u")]
  const Out2 := Out1 + [Broadcast2, S.Scheduled("u")]

  const H0 := Serving(MrWait, MrDistribute, CtlReset, Both, Knowing(A0, false), ["a", "b"], [])
  const H1 := Serving(MrDeploy, MrWait, CtlDeploy, Both, Knowing(A0, false), ["a", "b"], Out1)
  const H2 := Serving(MrDeploy, MrWait, CtlDeploy, Both, Knowing(A1, false), ["a", "b"], Out1)
  const H3 := Serving(MrDeploy, MrWait, CtlDeploy, Both, Knowing(A1, true), ["a", "b"], Out1)
  const H4 := Serving(MrDeploy, MrWait, CtlDeploy, Both, Knowing(A2, true), ["a", "b"], Out1)
  const H5 := Serving(MrDeploy, MrWait, CtlDeploy, Both, Knowing(A2, false), ["b"], Out2)

  function With(h: S.Helper, a: C.Helper, b: C.Helper): System { System(h, map["a" := a, "b" := b], 0) }

  // ----- who depends on whom

  lemma {:induction false} OneName(c: char)
    requires c != ' ' && c != '\n'
    ensures DependsNames([c]) == [[c]] && Names([c], [c])
  {
    var s := [c];
    AtChar(s, 0, '\n');
    AtChar(s, 0, ' ');
    assert Find(s, "\n", 1) == -1 && Find(s, " ", 1) == -1;
    assert Find(s, "\n", 0) == -1 && Find(s, " ", 0) == -1;
    assert s[0..] == s;
    assert IsName(s, 0, 1) && s[0..1] == s;
  }

  lemma {:induction false} WhoDepends(c: char, depends: seq<string>)
    requires c != ' ' && c != '\n'
    ensures !HasDepends("", depends) && (HasDepends([c], depends) <==> [c] in depends) && Names([c], [c])
  {
    OneName(c);
    assert DependsNames([c])[0] == [c];
  }

  // ----- the server's steps

  function Waiting(n: nat): S.Scan { S.Scan(H0, 0, n, 0, 0, 0, 0) }

  lemma {:induction false} WaitingTurn(i: nat)
    requires i < 2
    ensures S.ScanOne(Waiting(i), i, Quiet) == Waiting(i + 1)
  {
    hide VersionValid, HasDepends;
    assert H0.details[i].domain.state == WrWait && H0.details[i].domain.version == "1";
  }

  lemma {:induction false} TwoTurns(c0: S.Scan, c1: S.Scan, c2: S.Scan)
    requires |c0.h.details| == |c1.h.details| == |c2.h.details| == 2 && c0.stop == c1.stop == 0
    requires S.ScanOne(c0, 0, Quiet) == c1 && S.ScanOne(c1, 1, Quiet) == c2
    ensures S.ScanFrom(c0, 0, 2, Quiet) == c2
  {
    hide S.ScanOne;
    assert S.ScanFrom(c2, 2, 2, Quiet) == c2;
    assert S.ScanFrom(c1, 1, 2, Quiet) == c2;
  }

  lemma {:induction false} EveryoneWaits()
    ensures S.Step(H0, S.Tick(Quiet)) == H1
  {
    hide S.ScanOne, S.AfterScan, S.ScanFrom;
    WaitingTurn(0);
    WaitingTurn(1);
    TwoTurns(Waiting(0), Waiting(1), Waiting(2));
    AllWait();
  }

  lemma {:induction false} AllWait()
    ensures S.AfterScan(Waiting(2)) == H1
  {
    assert S.AfterScan(Waiting(2)) == S.Deploy(H0);
  }

  lemma {:induction false} AReports(d: Domain, h: S.Helper)
    requires (h == H1 && d == A1) || (h == H3 && d == A2)
    ensures S.Step(h, S.ResDomain(d, false)) == if h == H1 then H2 else H4
  {
    assert S.FindDetail(h.details, "a") == 0;
  }

  lemma {:induction false} TimerStarts()
    ensures S.Step(H2, S.Tick(Quiet)) == H3
  {
    hide S.ScanOne, S.ScanFrom;
    var c0 := S.Scan(H2, 0, 0, 0, 0, 0, 0);
    var c1 := S.Scan(H3, 0, 0, 0, 0, 0, 0);
    ABegins(c0, c1);
    WaiterStays(c1, 1);
    TwoTurns(c0, c1, c1);
    assert S.AfterScan(c1) == H3;
  }

  lemma {:induction false} ABegins(c: S.Scan, e: S.Scan)
    requires c == S.Scan(H2, 0, 0, 0, 0, 0, 0) && e == S.Scan(H3, 0, 0, 0, 0, 0, 0)
    ensures S.ScanOne(c, 0, Quiet) == e
  {
    hide S.ScanOne, S.WithDetail, DependsNames, HasDepends, Names;
    WhoDepends('a', ["a", "b"]);
    ATimed();
    BeginnerIsTimed(c, 0);
  }

  lemma {:induction false} ATimed()
    ensures S.WithDetail(H2, 0, H2.details[0].(deployActive := true)) == H3
  {
    KnowingTimed(A1);
  }

  lemma {:induction false} KnowingTimed(a: Domain)
    ensures Knowing(a, false)[0 := Knowing(a, false)[0].(deployActive := true)] == Knowing(a, true)
  {
  }

  lemma {:induction false} AIsFinished(done: set<string>)
    requires "a" in done
    ensures S.Step(H4, S.Tick(Quiet)) == H5 && Guarded(H4, Quiet, done)
  {
    hide S.ScanOne, S.ScanFrom, GuardedFrom;
    var c0 := S.Scan(H4, 0, 0, 0, 0, 0, 0);
    var c1 := S.Scan(H5, 0, 0, 1, 0, 0, 0);
    AEnds(c0, c1);
    WaiterStays(c1, 1);
    TwoTurns(c0, c1, c1);
    assert S.AfterScan(c1) == H5;
    AIsGuarded(c0, c1, done);
  }

  lemma {:induction false} AIsGuarded(c: S.Scan, e: S.Scan, done: set<string>)
    requires c == S.Scan(H4, 0, 0, 0, 0, 0, 0) && e == S.Scan(H5, 0, 0, 1, 0, 0, 0) && "a" in done
    requires S.ScanOne(c, 0, Quiet) == e
    ensures GuardedFrom(c, 0, 2, Quiet, done)
  {
    hide S.ScanOne, Accounted;
    ARecomputed(done);
    NoTimerNoGuard(e, 1, 2, Quiet, done);
  }

  lemma {:induction false} AEnds(c: S.Scan, e: S.Scan)
    requires c == S.Scan(H4, 0, 0, 0, 0, 0, 0) && e == S.Scan(H5, 0, 0, 1, 0, 0, 0)
    ensures S.ScanOne(c, 0, Quiet) == e
  {
    hide VersionValid, HasDepends, S.Recompute;
    ARecomputed({"a"});
  }

  lemma {:induction false} ARecomputed(done: set<string>)
    requires "a" in done
    ensures S.Recompute(H4, 0) == H5 && Accounted(H5.details, done)
  {
    var g := S.WithDetail(H4, 0, H4.details[0].(deployActive := false));
    assert S.OutstandingNames(g.details[1..]) == ["b"] by { assert g.details[1..][1..] == []; }
    assert S.OutstandingNames(g.details) == ["b"];
  }

  // ----- the clients' steps

  lemma {:induction false} ADeploys()
    ensures C.Step(ClientA0, ControlEvent(Broadcast1), true) == ClientA1
  {
    hide HasDepends, C.Step;
    WhoDepends('a', ["a", "b"]);
    WaiterDeploys("a", PackageA, Both, ["a", "b"]);
  }

  lemma {:induction false} BDeploys()
    ensures C.Step(ClientB0, ControlEvent(Broadcast2), true) == ClientB1
  {
    hide HasDepends, C.Step;
    WhoDepends('a', ["b"]);
    assert Both.packages[1..] == [PackageB];
    assert C.Chosen(Both.packages[1..], "b", PackageB) == PackageB;
    WaiterDeploys("b", PackageB, Both, ["b"]);
  }

  lemma {:induction false} AIsDone()
    ensures C.Step(ClientA1, C.ResDeployDone, true) == ClientA2 && C.Done(ClientA2)
  {
  }

  lemma {:induction false} NotDone()
    ensures !C.Done(ClientA0) && !C.Done(ClientB0)
  {
  }

  // ----- the run

  lemma {:induction false} Starts(b: C.Helper)
    requires b.name == "b" && b.domain.state == WrWait && b.package == PackageB && b.out == []
    ensures Start(With(H0, ClientA0, b))
  {
    assert S.PackageNames(Both.packages) == ["a", "b"];
    assert D.Arranged(H0.details) == Both.packages;
  }

  const Moves := [Tick, Deliver("a", 0, true), Report("a", 2), Tick, ClientMove("a", C.ResDeployDone, true),
                  Report("a", 3), Tick, Deliver("b", 2, true)]

  const States := [With(H0, ClientA0, ClientB0), With(H1, ClientA0, ClientB0), With(H1, ClientA1, ClientB0),
                   With(H2, ClientA1, ClientB0), With(H3, ClientA1, ClientB0), With(H3, ClientA2, ClientB0),
                   With(H4, ClientA2, ClientB0), With(H5, ClientA2, ClientB0), With(H5, ClientA2, ClientB1)]

  lemma {:induction false} OneClient(h: S.Helper, a: C.Helper, b: C.Helper, c: C.Helper)
    ensures var s := With(h, a, b);
            && s.(clients := s.clients["a" := c]) == With(h, c, b)
            && s.(clients := s.clients["b" := c]) == With(h, a, c)
  {
  }

  lemma {:induction false} Begins()
    ensures Goes(States[0], Tick, States[1])
  {
    hide S.Step, Goes;
    EveryoneWaits();
    QuietTick(States[0], H1);
  }

  lemma {:induction false} AIsTold()
    ensures Goes(States[1], Deliver("a", 0, true), States[2])
  {
    hide S.Step, C.Step, Goes, C.Done;
    ADeploys();
    NotDone();
    DeliverGoes(States[1], "a", 0, Broadcast1, ClientA1);
    OneClient(H1, ClientA0, ClientB0, ClientA1);
  }

  lemma {:induction false} AIsSeen()
    ensures Goes(States[2], Report("a", 2), States[3])
  {
    hide S.Step, Goes;
    AReports(A1, H1);
    ReportGoes(States[2], "a", 2, A1, false, H2);
  }

  lemma {:induction false} AIsTimed()
    ensures Goes(States[3], Tick, States[4])
  {
    hide S.Step, Goes;
    TimerStarts();
    QuietTick(States[3], H3);
  }

  lemma {:induction false} AGetsDone()
    ensures Goes(States[4], ClientMove("a", C.ResDeployDone, true), States[5])
  {
    hide S.Step, C.Step, Goes, C.Done;
    AIsDone();
    ClientGoes(States[4], "a", C.ResDeployDone, ClientA2);
    OneClient(H3, ClientA1, ClientB0, ClientA2);
  }

  lemma {:induction false} AIsSeenDone()
    ensures Goes(States[5], Report("a", 3), States[6])
  {
    hide S.Step, C.Step, Goes;
    AReports(A2, H3);
    ReportGoes(States[5], "a", 3, A2, false, H4);
  }

  lemma {:induction false} Ends()
    ensures Goes(States[6], Tick, States[7])
  {
    hide S.Step, C.Step, Goes, Guarded, C.Done;
    var done := DoneNames(States[6].clients, true);
    assert "a" in done by { AIsDone(); }
    AIsFinished(done);
    ServerGoes(States[6], S.Tick(Quiet), H5);
  }

  lemma {:induction false} BIsTold()
    ensures Goes(States[7], Deliver("b", 2, true), States[8])
  {
    hide S.Step, C.Step, Goes, C.Done;
    BDeploys();
    NotDone();
    DeliverGoes(States[7], "b", 2, Broadcast2, ClientB1);
    OneClient(H5, ClientA2, ClientB0, ClientB1);
  }

  /** The deployment's run: everyone waits, a deploys and reports, its timer starts, it is
      done and reports, the list shrinks, and b, which depends on a, deploys. */
  lemma {:induction false} TheOrderInARun()
    ensures Start(States[0]) && Leads(States[0], Moves, States[8], true)
    ensures ClientB1.domain.state == WrDeploy && Names(PackageB.depends, "a") && C.Done(ClientA2)
  {
    hide Goes, Start, Leads, Names;
    Starts(ClientB0);
    Begins();
    AIsTold();
    AIsSeen();
    AIsTimed();
    AGetsDone();
    AIsSeenDone();
    Ends();
    BIsTold();
    AIsDone();
    WhoDepends('a', []);
    assert Path(States, Moves);
    PathLeads(States, Moves);
  }
}
