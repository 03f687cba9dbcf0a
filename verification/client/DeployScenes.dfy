/** Runs of the deployment put together step by step, for the examples. */
module DeployScenes {
  import opened Domain
  import opened DeployOrder
  import S = Server
  import R = ServerRuns
  import C = Client

  /** One allowed move. */
  predicate Goes(s: System, m: Move, t: System) { Fits(s, m) && Allowed(s, m, true) && t == Next(s, m) }

  predicate Path(states: seq<System>, moves: seq<Move>)
  {
    |states| == |moves| + 1 && forall k :: 0 <= k < |moves| ==> Goes(states[k], moves[k], states[k + 1])
  }

  lemma {:induction false} PathLeads(states: seq<System>, moves: seq<Move>)
    requires Path(states, moves)
    ensures Leads(states[0], moves, states[|moves|], true)
    decreases |moves|
  {
    hide Allowed, Next;
    if moves != [] {
      PathLeads(states[..|moves|], moves[..|moves| - 1]);
    }
  }

  lemma {:induction false} ServerGoes(s: System, e: S.Event, g: S.Helper)
    requires !e.ResDomain? && DuringDeployment(s.server, e) && S.Step(s.server, e) == g
    requires e.Tick? ==> Guarded(s.server, e.clock, DoneNames(s.clients, true))
    ensures Goes(s, ServerMove(e), s.(server := g))
  {
    hide S.Step, Guarded, DoneNames;
  }

  lemma {:induction false} ReportGoes(s: System, n: string, j: nat, d: Domain, discovery: bool, g: S.Helper)
    requires n in s.clients && j < |s.clients[n].out| && s.clients[n].out[j] == C.SendDomain(d, discovery)
    requires S.Step(s.server, S.ResDomain(d, discovery)) == g
    ensures Goes(s, Report(n, j), s.(server := g))
  {
    hide S.Step;
  }

  lemma {:induction false} ClientGoes(s: System, n: string, e: C.Event, c: C.Helper)
    requires n in s.clients && !e.ReqControl? && !(C.Done(s.clients[n]) && C.Disturbs(s.clients[n], e))
    requires C.Step(s.clients[n], e, true) == c
    ensures Goes(s, ClientMove(n, e, true), s.(clients := s.clients[n := c]))
  {
    hide C.Step, C.Done;
  }

  lemma {:induction false} DeliverGoes(s: System, n: string, j: nat, o: S.Output, c: C.Helper)
    requires n in s.clients && s.from <= j < |s.server.out| && s.server.out[j] == o && o.Broadcast?
    requires !(C.Done(s.clients[n]) && C.Disturbs(s.clients[n], ControlEvent(o)))
    requires C.Step(s.clients[n], ControlEvent(o), true) == c
    ensures Goes(s, Deliver(n, j, true), s.(clients := s.clients[n := c]))
  {
    hide C.Step, C.Done;
  }

  /** No timer runs: a tick recomputes nothing. */
  lemma {:induction false} NoTimerNoGuard(c: S.Scan, i: nat, n: nat, clock: S.Clock, done: set<string>)
    requires i <= n == |c.h.details| && forall k :: i <= k < n ==> !c.h.details[k].deployActive
    ensures GuardedFrom(c, i, n, clock, done)
    decreases n - i
  {
    hide S.ScanOne, Accounted;
    if i < n {
      R.ScanOneDetails(c, i, clock);
      NoTimerNoGuard(S.ScanOne(c, i, clock), i + 1, n, clock, done);
    }
  }

  const Quiet := S.Clock(false, {}, {}, {})
  const Tick := ServerMove(S.Tick(Quiet))

  lemma {:induction false} QuietTick(s: System, g: S.Helper)
    requires (forall k :: 0 <= k < |s.server.details| ==> !s.server.details[k].deployActive)
    requires S.Step(s.server, S.Tick(Quiet)) == g
    ensures Goes(s, Tick, s.(server := g))
  {
    hide S.Step, GuardedFrom, DoneNames;
    NoTimerNoGuard(S.Scan(s.server, 0, 0, 0, 0, 0, 0), 0, |s.server.details|, Quiet, DoneNames(s.clients, true));
    ServerGoes(s, S.Tick(Quiet), g);
  }

  function Seen(name: string, state: ClientState, last: ClientState, version: string): Domain
  {
    Domain(name, state, last, false, 0, version, AnsUnknown, "")
  }

  function Serving(state: ServerState, last: ServerState, control: Control, upgrade: Upgrade, details: seq<Detail>,
                   depends: seq<string>, out: seq<S.Output>): S.Helper
  {
    S.Helper(true, false, false, false, false, true, false, state, last, MrUnknown, MrUnknown, [], control, 0, 0, "", "u",
             "", S.TpDeploy, upgrade, details, depends, out, map[])
  }

  function Client(d: Domain, control: Control, p: Package, out: seq<C.Output>): C.Helper
  {
    C.Helper(d.name, d.version, "", d.watcher, true, false, false, control, MrOffline, false, d, p, out)
  }

  /** What a client that begins to deploy has sent, for versions "1" and "2". */
  function Begun(d: Domain): seq<C.Output>
  {
    [C.StopThread, if VersionValid("1", "2") then C.StartDeploy else C.PostError(2900), C.SendDomain(d, false)]
  }

  /** A free client goes from waiting to deploying, whatever its name. */
  lemma {:induction false} WaiterDeploys(n: string, p: Package, upgrade: Upgrade, depends: seq<string>)
    requires p.domain == n && p.version == "2" && p.hasFiles && !HasDepends(p.depends, depends)
    requires C.Chosen(upgrade.packages, n, p) == p
    ensures var d := Seen(n, WrDeploy, WrWait, "1");
            C.Step(Client(Seen(n, WrWait, WrVerify, "1"), CtlReset, p, []), C.ReqControl(CtlDeploy, upgrade, depends), true)
            == Client(d, CtlDeploy, p, Begun(d))
  {
    hide VersionValid, HasDepends, C.Chosen;
    var c := Client(Seen(n, WrWait, WrVerify, "1"), CtlReset, p, []);
    assert C.Took(c, CtlDeploy, upgrade) == c.(control := CtlDeploy);
  }

  /** In the deployment a turn leaves a waiting domain alone. */
  lemma {:induction false} WaiterStays(c: S.Scan, i: nat)
    requires i < |c.h.details| && c.h.state == MrDeploy && c.stop == 0 && c.h.details[i].package.domain != ""
    requires var d := c.h.details[i];
             d.domain.state == WrWait && d.domain.version == "1" && d.package.version == "2" && !d.deployActive
             && d.domain.error == 0
    ensures S.ScanOne(c, i, Quiet) == c
  {
    hide VersionValid, HasDepends;
  }

  /** And it starts the timer of one that has begun to deploy and depends on nobody listed. */
  lemma {:induction false} BeginnerIsTimed(c: S.Scan, i: nat)
    requires i < |c.h.details| && c.h.state == MrDeploy && c.stop == 0 && c.h.details[i].package.domain != ""
    requires var d := c.h.details[i];
             d.domain.state == WrDeploy && d.domain.version == "1" && d.package.version == "2" && !d.deployActive
             && d.domain.error == 0 && !HasDepends(d.package.depends, c.h.depends)
    ensures S.ScanOne(c, i, Quiet) == c.(h := S.WithDetail(c.h, i, c.h.details[i].(deployActive := true)))
  {
    hide VersionValid, HasDepends, S.WithDetail;
  }
}
