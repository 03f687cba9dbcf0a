/** The checksum job: a task for every file, all at once, on a shared status and a shared
    list of outstanding urls. Each read, each locked section and each call is one step, and
    the steps of the tasks and of the main thread interleave in any order. */
module Verify {
  import opened StatusHelper

  datatype Digest = Sha256 | Sha1 | Md5

  /** A file as the package lists it, and the disk: whether the file is there and the
      digests its content gives, empty where it cannot be read. */
  datatype File = File(url: string, sha256: string, sha1: string, md5: string,
                       present: bool, disk: map<Digest, string>)

  /** The first of the three digests that the package gives. */
  predicate HasDigest(f: File) { f.sha256 != "" || f.sha1 != "" || f.md5 != "" }

  function Kind(f: File): Digest { if f.sha256 != "" then Sha256 else if f.sha1 != "" then Sha1 else Md5 }

  function Wanted(f: File): string { if f.sha256 != "" then f.sha256 else if f.sha1 != "" then f.sha1 else f.md5 }

  function OnDisk(f: File): string { if Kind(f) in f.disk then f.disk[Kind(f)] else "" }

  predicate Matches(f: File, d: Digest, wanted: string) { wanted != "" && d in f.disk && f.disk[d] == wanted }

  /** What the job is to find out: the file is there and has the first digest that the
      package gives for it. */
  predicate Verified(f: File)
  {
    f.present &&
    if f.sha256 != "" then Matches(f, Sha256, f.sha256)
    else if f.sha1 != "" then Matches(f, Sha1, f.sha1)
    else Matches(f, Md5, f.md5)
  }

  function ReadError(d: Digest): int
  {
    match d
    case Sha256 => 207
    case Sha1 => 205
    case Md5 => 203
  }

  /** checkDone, cut where other threads may come between. */
  datatype Checking = Reading | Asking | Latching

  /** Where in its work a task calls checkDone. */
  datatype Place = Start | Block | Hashed(got: string)

  datatype Task =
    | Waiting
    | Checks(place: Place, at: Checking)
    | Looking
    | Hashing
    | Comparing(got: string)
    | Throwing(error: int)
    | Removing
    | Over

  datatype Main =
    | Begin
    | First(at: Checking)
    | Early(at: Checking)
    | Joining
    | Late(at: Checking)
    | Judging
    | Returned(status: Status)

  datatype Job = Job(files: seq<File>, tasks: seq<Task>, main: Main, status: Status, urls: seq<string>)

  /** `breaks` is the break function's answer if the step asks for it; `more` whether a
      hashing step finds another block to read. */
  datatype Move = Work(i: nat, breaks: bool, more: bool) | Manage(breaks: bool)

  function Urls(files: seq<File>): seq<string>
  {
    seq(|files|, i requires 0 <= i < |files| => files[i].url)
  }

  function Initial(files: seq<File>): Job
  {
    Job(files, seq(|files|, i => Waiting), Begin, Fine, Urls(files))
  }

  /** std::list::remove. */
  function Without(urls: seq<string>, url: string): seq<string>
  {
    if urls == [] then [] else (if urls[0] == url then [] else [urls[0]]) + Without(urls[1..], url)
  }

  function Yes(place: Place): Task
  {
    match place
    case Start => Over
    case Block => Checks(Hashed(""), Reading)
    case Hashed(_) => Over
  }

  function No(place: Place): Task
  {
    match place
    case Start => Looking
    case Block => Hashing
    case Hashed(got) => Comparing(got)
  }

  /** A task's next step, as far as the task itself goes. */
  function NextTask(f: File, t: Task, status: Status, breaks: bool, more: bool): Task
  {
    match t
    case Waiting => Checks(Start, Reading)
    case Checks(place, Reading) => if status.state == Failed then Yes(place) else Checks(place, Asking)
    case Checks(place, Asking) => if breaks then Checks(place, Latching) else No(place)
    case Checks(place, Latching) => Yes(place)
    case Looking => if !f.present then Throwing(202) else if !HasDigest(f) then Throwing(209) else Hashing
    case Hashing => if more then Checks(Block, Reading) else Checks(Hashed(OnDisk(f)), Reading)
    case Comparing(got) =>
      if got == "" then Throwing(ReadError(Kind(f)))
      else if got != Wanted(f) then Throwing(ReadError(Kind(f)) + 1)
      else Removing
    case Throwing(_) => Over
    case Removing => Over
    case Over => Over
  }

  function StatusAfter(t: Task, status: Status): Status
  {
    if t.Checks? && t.at == Latching then Latched(status)
    else if t.Throwing? then Thrown(status, t.error, true)
    else status
  }

  predicate AllOver(ts: seq<Task>) { forall i :: 0 <= i < |ts| ==> ts[i] == Over }

  /** The pool has been filled: tasks may run. */
  predicate Pooled(m: Main) { !m.Begin? && !m.First? }

  function WorkStep(j: Job, i: nat, breaks: bool, more: bool): Job
    requires i < |j.tasks| == |j.files|
  {
    var t := j.tasks[i];
    j.(tasks := j.tasks[i := NextTask(j.files[i], t, j.status, breaks, more)],
       status := StatusAfter(t, j.status),
       urls := if t.Removing? then Without(j.urls, j.files[i].url) else j.urls)
  }

  /** checkDone on the main thread: it returns on yes, and goes on to `next` on no. */
  function MainCheck(j: Job, at: Checking, again: Main, next: Main, breaks: bool): Job
  {
    match at
    case Reading => j.(main := if j.status.state == Failed then Returned(j.status) else again)
    case Asking => j.(main := if breaks then again else next)
    case Latching => j.(status := Latched(j.status), main := Returned(Latched(j.status)))
  }

  function Onward(at: Checking): Checking { if at == Reading then Asking else Latching }

  function MainStep(j: Job, breaks: bool): Job
  {
    match j.main
    case Begin =>
      if j.files == [] then
        var s := Thrown(j.status, 201, true);
        j.(status := s, main := Returned(s))
      else j.(main := First(Reading))
    case First(at) => MainCheck(j, at, First(Onward(at)), Early(Reading), breaks)
    case Early(at) => MainCheck(j, at, Early(Onward(at)), Joining, breaks)
    case Joining => if AllOver(j.tasks) then j.(main := Late(Reading)) else j
    case Late(at) => MainCheck(j, at, Late(Onward(at)), Judging, breaks)
    case Judging =>
      var s := if j.urls != [] then Thrown(j.status, 210, true) else j.status;
      j.(status := s, main := Returned(s))
    case Returned(_) => j
  }

  function Next(j: Job, m: Move): Job
  {
    match m
    case Manage(breaks) => MainStep(j, breaks)
    case Work(i, breaks, more) =>
      if i < |j.tasks| == |j.files| && Pooled(j.main) then WorkStep(j, i, breaks, more) else j
  }

  function After(files: seq<File>, moves: seq<Move>): Job
  {
    if moves == [] then Initial(files) else Next(After(files, moves[..|moves| - 1]), moves[|moves| - 1])
  }

  // ----- soundness of the verdict

  /** What a task's place in its work tells: `broken` is that the status is not Succeed. */
  predicate TaskFine(f: File, t: Task, broken: bool, outstanding: bool)
  {
    match t
    case Checks(Hashed(got), at) => HasDigest(f) && f.present && (got == OnDisk(f) || (got == "" && broken))
    case Checks(Block, _) => HasDigest(f) && f.present
    case Hashing => HasDigest(f) && f.present
    case Comparing(got) => HasDigest(f) && f.present && (got == OnDisk(f) || (got == "" && broken))
    case Removing => Verified(f)
    case Over => broken || (Verified(f) && !outstanding)
    case _ => true
  }

  predicate Inv(j: Job)
  {
    && |j.tasks| == |j.files|
    && (forall i :: 0 <= i < |j.tasks| ==>
          TaskFine(j.files[i], j.tasks[i], j.status.state != Succeed, j.files[i].url in j.urls))
    && (j.main.Late? || j.main.Judging? ==> AllOver(j.tasks))
    && (!j.main.Begin? && !j.main.Returned? ==> j.files != [])
    && (j.main.Returned? && j.main.status.state == Succeed ==>
          j.files != [] && forall i :: 0 <= i < |j.files| ==> Verified(j.files[i]))
  }

  lemma {:induction false} WithoutMeaning(urls: seq<string>, url: string, u: string)
    ensures u in Without(urls, url) <==> u in urls && u != url
  {
    if urls != [] {
      assert urls == [urls[0]] + urls[1..];
      WithoutMeaning(urls[1..], url, u);
    }
  }

  /** A task that stays where it is does not mind the others' progress. */
  lemma {:induction false} OthersFine(f: File, t: Task, broken: bool, outstanding: bool,
                                       broken': bool, outstanding': bool)
    requires TaskFine(f, t, broken, outstanding) && (broken ==> broken') && (outstanding' ==> outstanding)
    ensures TaskFine(f, t, broken', outstanding')
  {
  }

  lemma {:induction false} TaskMoves(f: File, t: Task, status: Status, breaks: bool, more: bool, outstanding: bool)
    requires TaskFine(f, t, status.state != Succeed, outstanding)
    ensures var s := StatusAfter(t, status);
            TaskFine(f, NextTask(f, t, status, breaks, more), s.state != Succeed, outstanding && !t.Removing?)
  {
  }

  lemma {:induction false} StatusWorsens(t: Task, status: Status)
    ensures Rank(status.state) <= Rank(StatusAfter(t, status).state)
  {
  }

  lemma {:induction false} WorkKeeps(j: Job, i: nat, breaks: bool, more: bool)
    requires Inv(j) && i < |j.tasks| && Pooled(j.main)
    ensures Inv(WorkStep(j, i, breaks, more))
  {
    hide TaskFine, Verified, NextTask, StatusAfter, Without;
    var k := WorkStep(j, i, breaks, more);
    StatusWorsens(j.tasks[i], j.status);
    TaskMoves(j.files[i], j.tasks[i], j.status, breaks, more, j.files[i].url in j.urls);
    OverStays(j.files[i], j.status, breaks, more);
    forall n | 0 <= n < |k.tasks|
      ensures TaskFine(k.files[n], k.tasks[n], k.status.state != Succeed, k.files[n].url in k.urls)
    {
      WithoutMeaning(j.urls, j.files[i].url, j.files[n].url);
      if n != i {
        OthersFine(j.files[n], j.tasks[n], j.status.state != Succeed, j.files[n].url in j.urls,
                   k.status.state != Succeed, k.files[n].url in k.urls);
      }
    }
  }

  lemma {:induction false} OverStays(f: File, status: Status, breaks: bool, more: bool)
    ensures NextTask(f, Over, status, breaks, more) == Over
  {
  }

  lemma {:induction false} MainKeeps(j: Job, breaks: bool)
    requires Inv(j)
    ensures Inv(MainStep(j, breaks))
  {
    hide TaskFine, Verified;
    var k := MainStep(j, breaks);
    forall n | 0 <= n < |k.tasks|
      ensures TaskFine(k.files[n], k.tasks[n], k.status.state != Succeed, k.files[n].url in k.urls)
    {
      OthersFine(j.files[n], j.tasks[n], j.status.state != Succeed, j.files[n].url in j.urls,
                 k.status.state != Succeed, k.files[n].url in k.urls);
    }
    if j.main.Judging? { AllVerified(j); }
  }

  lemma {:induction false} AllVerified(j: Job)
    requires Inv(j) && j.main.Judging?
    ensures j.status.state == Succeed ==> forall n :: 0 <= n < |j.files| ==> Verified(j.files[n])
  {
    hide Verified;
    forall n | 0 <= n < |j.files| && j.status.state == Succeed ensures Verified(j.files[n]) {
      assert j.tasks[n] == Over;
    }
  }

  lemma {:induction false} RunKeeps(files: seq<File>, moves: seq<Move>)
    ensures Inv(After(files, moves)) && After(files, moves).files == files
  {
    hide Inv, WorkStep, MainStep;
    if moves == [] {
      InitialFine(files);
    } else {
      var init, m := moves[..|moves| - 1], moves[|moves| - 1];
      RunKeeps(files, init);
      StepKeeps(After(files, init), m);
    }
  }

  lemma {:induction false} InitialFine(files: seq<File>)
    ensures Inv(Initial(files))
  {
  }

  lemma {:induction false} StepKeeps(j: Job, m: Move)
    requires Inv(j)
    ensures Inv(Next(j, m)) && Next(j, m).files == j.files
  {
    hide Inv;
    match m {
      case Manage(breaks) => MainKeeps(j, breaks);
      case Work(i, breaks, more) =>
        if i < |j.tasks| == |j.files| && Pooled(j.main) { WorkKeeps(j, i, breaks, more); }
    }
  }

  /** Under every interleaving, with breaks at any check and urls that several files share:
      success means that there are files, and that every one exists and matches the first
      digest the package gives for it. */
  lemma {:induction false} SuccessMeansVerified(files: seq<File>, moves: seq<Move>)
    requires After(files, moves).main.Returned? && After(files, moves).main.status.state == Succeed
    ensures files != [] && forall i :: 0 <= i < |files| ==> Verified(files[i])
  {
    hide Verified;
    RunKeeps(files, moves);
  }

  /** The shared status only goes from Succeed to Canceled to Failed. */
  lemma {:induction false} StatusOnlyWorsens(j: Job, m: Move)
    ensures Rank(j.status.state) <= Rank(Next(j, m).status.state)
  {
  }

  // ----- without breaks

  predicate Unbroken(m: Move) { !m.breaks }

  /** The error a bad file ends its task with; 0 for a good one. */
  function Fault(f: File): int
  {
    if !f.present then 202
    else if !HasDigest(f) then 209
    else if OnDisk(f) == "" then ReadError(Kind(f))
    else if OnDisk(f) != Wanted(f) then ReadError(Kind(f)) + 1
    else 0
  }

  lemma {:induction false} FaultMeaning(f: File)
    ensures Fault(f) == 0 <==> Verified(f)
  {
  }

  predicate AFault(files: seq<File>, error: int)
  {
    error != 0 && exists i :: 0 <= i < |files| && Fault(files[i]) == error
  }

  predicate TaskPlain(files: seq<File>, f: File, t: Task, failed: bool)
  {
    match t
    case Checks(Hashed(got), at) =>
      at != Latching && HasDigest(f) && f.present && (got == OnDisk(f) || (at == Reading && failed))
    case Checks(_, at) => at != Latching
    case Comparing(got) => HasDigest(f) && f.present && got == OnDisk(f)
    case Throwing(error) => AFault(files, error)
    case _ => true
  }

  /** Without breaks the status is fine or tells the fault of a file. */
  predicate PlainStatus(files: seq<File>, s: Status)
  {
    s == Fine || (s.state == Failed && AFault(files, s.error)) || (files == [] && s == Status(Failed, 201))
  }

  predicate PlainMain(m: Main, s: Status, files: seq<File>)
  {
    && ((m.First? || m.Early? || m.Late?) ==> m.at != Latching)
    && (m.Judging? || (m.Late? && m.at == Asking) ==> s.state == Succeed)
    && (m.Returned? ==> PlainStatus(files, m.status))
  }

  predicate Plain(j: Job)
  {
    && Inv(j) && PlainStatus(j.files, j.status) && PlainMain(j.main, j.status, j.files)
    && (forall i :: 0 <= i < |j.tasks| ==> TaskPlain(j.files, j.files[i], j.tasks[i], j.status.state == Failed))
    && (forall u :: u in j.urls ==> u in Urls(j.files))
  }

  lemma {:induction false} TaskMovesPlain(files: seq<File>, i: nat, t: Task, status: Status, more: bool,
                                           outstanding: bool)
    requires i < |files| && TaskPlain(files, files[i], t, status.state == Failed) && PlainStatus(files, status)
    requires TaskFine(files[i], t, status.state != Succeed, outstanding)
    ensures var s := StatusAfter(t, status);
            && TaskPlain(files, files[i], NextTask(files[i], t, status, false, more), s.state == Failed)
            && PlainStatus(files, s) && (status.state == Failed ==> s.state == Failed)
            && (t.Over? ==> s == status)
  {
    hide Fault, Verified;
    FaultMeaning(files[i]);
    FaultOf(files[i]);
    assert Fault(files[i]) != 0 ==> AFault(files, Fault(files[i]));
  }

  /** The error thrown for each defect is the file's fault. */
  lemma {:induction false} FaultOf(f: File)
    ensures !f.present ==> Fault(f) == 202
    ensures f.present && !HasDigest(f) ==> Fault(f) == 209
    ensures f.present && HasDigest(f) && OnDisk(f) != Wanted(f) ==>
              Fault(f) == ReadError(Kind(f)) + if OnDisk(f) == "" then 0 else 1
  {
  }

  lemma {:induction false} WorkPlain(j: Job, i: nat, more: bool)
    requires Plain(j) && i < |j.tasks| && Pooled(j.main)
    ensures Plain(WorkStep(j, i, false, more))
  {
    hide TaskFine, TaskPlain, PlainStatus, NextTask, StatusAfter, Without, Inv, Verified;
    InvTask(j, i);
    var k := WorkStep(j, i, false, more);
    WorkKeeps(j, i, false, more);
    TaskMovesPlain(j.files, i, j.tasks[i], j.status, more, j.files[i].url in j.urls);
    forall n | 0 <= n < |k.tasks|
      ensures TaskPlain(k.files, k.files[n], k.tasks[n], k.status.state == Failed)
    {
      if n != i { OthersPlain(j.files, j.files[n], j.tasks[n], j.status.state == Failed, k.status.state == Failed); }
    }
    forall u | u in k.urls ensures u in Urls(k.files) {
      WithoutMeaning(j.urls, j.files[i].url, u);
    }
  }

  lemma {:induction false} InvTask(j: Job, i: nat)
    requires Inv(j) && i < |j.tasks|
    ensures |j.tasks| == |j.files|
    ensures TaskFine(j.files[i], j.tasks[i], j.status.state != Succeed, j.files[i].url in j.urls)
    ensures j.main.Judging? || j.main.Late? ==> j.tasks[i].Over?
  {
  }

  lemma {:induction false} OthersPlain(files: seq<File>, f: File, t: Task, failed: bool, failed': bool)
    requires TaskPlain(files, f, t, failed) && (failed ==> failed')
    ensures TaskPlain(files, f, t, failed')
  {
  }

  lemma {:induction false} MainPlain(j: Job)
    requires Plain(j)
    ensures Plain(MainStep(j, false))
  {
    hide TaskFine, TaskPlain, Inv, Verified, AFault, AllOver;
    var k := MainStep(j, false);
    MainKeeps(j, false);
    if j.main.Begin? && j.files == [] { NoTasks(j); }
    if j.main.Judging? { NothingOutstanding(j); }
  }

  lemma {:induction false} NoTasks(j: Job)
    requires Inv(j) && j.files == []
    ensures j.tasks == []
  {
  }

  lemma {:induction false} NothingOutstanding(j: Job)
    requires Plain(j) && j.main.Judging?
    ensures j.urls == []
  {
    hide AFault, Verified;
    assert j.urls != [] ==> j.urls[0] in Urls(j.files);
  }

  lemma {:induction false} RunPlain(files: seq<File>, moves: seq<Move>)
    requires forall k :: 0 <= k < |moves| ==> Unbroken(moves[k])
    ensures Plain(After(files, moves)) && After(files, moves).files == files
  {
    hide Plain, WorkStep, MainStep;
    if moves == [] {
      InitialPlain(files);
    } else {
      var init, m := moves[..|moves| - 1], moves[|moves| - 1];
      RunPlain(files, init);
      RunKeeps(files, moves);
      match m {
        case Manage(_) => MainPlain(After(files, init));
        case Work(i, _, more) =>
          var j := After(files, init);
          if i < |j.tasks| == |j.files| && Pooled(j.main) { WorkPlain(j, i, more); }
      }
    }
  }

  lemma {:induction false} InitialPlain(files: seq<File>)
    ensures Plain(Initial(files))
  {
    InitialFine(files);
  }

  /** Without breaks the verdict is exact: success for at least one file and all of them
      good, and otherwise failure with the error of one of the bad ones, or 201 for none. */
  lemma {:induction false} UnbrokenVerdict(files: seq<File>, moves: seq<Move>)
    requires forall k :: 0 <= k < |moves| ==> Unbroken(moves[k])
    requires After(files, moves).main.Returned?
    ensures var s := After(files, moves).main.status;
            && (s == Fine <==> files != [] && forall i :: 0 <= i < |files| ==> Verified(files[i]))
            && (s != Fine ==> s.state == Failed && if files == [] then s.error == 201 else AFault(files, s.error))
  {
    hide Verified, Fault, Inv, TaskPlain;
    RunPlain(files, moves);
    RunKeeps(files, moves);
    forall i | 0 <= i < |files| ensures Fault(files[i]) == 0 <==> Verified(files[i]) {
      FaultMeaning(files[i]);
    }
    if After(files, moves).main.status == Fine { SuccessMeansVerified(files, moves); }
  }

  /** The errors: no file, no digest given, and for the digest that decides an unreadable or a
      different one. */
  lemma {:induction false} FaultCodes(f: File)
    ensures !f.present ==> Fault(f) == 202
    ensures f.present && f.sha256 == "" && f.sha1 == "" && f.md5 == "" ==> Fault(f) == 209
    ensures f.present && f.sha256 != "" ==> Fault(f) == Judged(f, Sha256, f.sha256, 207, 208)
    ensures f.present && f.sha256 == "" && f.sha1 != "" ==> Fault(f) == Judged(f, Sha1, f.sha1, 205, 206)
    ensures f.present && f.sha256 == "" && f.sha1 == "" && f.md5 != "" ==> Fault(f) == Judged(f, Md5, f.md5, 203, 204)
  {
  }

  function Judged(f: File, d: Digest, wanted: string, unreadable: int, different: int): int
  {
    if d !in f.disk || f.disk[d] == "" then unreadable else if f.disk[d] != wanted then different else 0
  }

  // ----- breaks that stay

  /** Once asked to break off, the job is asked so ever after. */
  predicate Steady(moves: seq<Move>)
  {
    forall i, j :: 0 <= i < j < |moves| && moves[i].breaks ==> moves[j].breaks
  }

  predicate Broke(moves: seq<Move>) { moves != [] && moves[|moves| - 1].breaks }

  const Canceled0 := Status(Canceled, 0)

  predicate CalmStatus(s: Status, broke: bool) { s == Fine || (broke && s == Canceled0) }

  predicate CalmTask(f: File, t: Task, broke: bool)
  {
    match t
    case Checks(place, at) =>
      && (at == Latching ==> broke)
      && (place.Hashed? ==> place.got == OnDisk(f) || (place.got == "" && broke))
    case Comparing(got) => got == OnDisk(f)
    case Throwing(_) => false
    case _ => true
  }

  predicate CalmMain(m: Main, s: Status, broke: bool)
  {
    && ((m.First? || m.Early? || m.Late?) && m.at == Latching ==> broke)
    && (m.Judging? ==> s == Fine)
    && (m.Returned? ==> CalmStatus(m.status, broke))
  }

  predicate Calm(j: Job, broke: bool)
  {
    && Inv(j) && CalmStatus(j.status, broke) && CalmMain(j.main, j.status, broke)
    && j.files != [] && (forall i :: 0 <= i < |j.files| ==> Verified(j.files[i]))
    && (forall i :: 0 <= i < |j.tasks| ==> CalmTask(j.files[i], j.tasks[i], broke))
    && (forall u :: u in j.urls ==> u in Urls(j.files))
  }

  lemma {:induction false} CalmTaskMoves(f: File, t: Task, status: Status, broke: bool, breaks: bool, more: bool)
    requires Verified(f) && CalmTask(f, t, broke) && CalmStatus(status, broke) && (broke ==> breaks)
    ensures CalmTask(f, NextTask(f, t, status, breaks, more), breaks) && CalmStatus(StatusAfter(t, status), breaks)
    ensures t.Over? ==> StatusAfter(t, status) == status
  {
  }

  lemma {:induction false} CalmWork(j: Job, i: nat, broke: bool, breaks: bool, more: bool)
    requires Calm(j, broke) && i < |j.tasks| && Pooled(j.main) && (broke ==> breaks)
    ensures Calm(WorkStep(j, i, breaks, more), breaks)
  {
    hide TaskFine, CalmTask, NextTask, StatusAfter, Without, Inv, Verified;
    InvTask(j, i);
    var k := WorkStep(j, i, breaks, more);
    WorkKeeps(j, i, breaks, more);
    CalmTaskMoves(j.files[i], j.tasks[i], j.status, broke, breaks, more);
    forall n | 0 <= n < |k.tasks| ensures CalmTask(k.files[n], k.tasks[n], breaks) {
      if n != i { CalmStays(j.files[n], j.tasks[n], broke, breaks); }
    }
    forall u | u in k.urls ensures u in Urls(k.files) {
      WithoutMeaning(j.urls, j.files[i].url, u);
    }
  }

  lemma {:induction false} CalmStays(f: File, t: Task, broke: bool, breaks: bool)
    requires CalmTask(f, t, broke) && (broke ==> breaks)
    ensures CalmTask(f, t, breaks)
  {
  }

  lemma {:induction false} CalmManage(j: Job, broke: bool, breaks: bool)
    requires Calm(j, broke) && (broke ==> breaks)
    ensures Calm(MainStep(j, breaks), breaks)
  {
    hide TaskFine, CalmTask, Inv, Verified, AllOver;
    SameLengths(j);
    var k := MainStep(j, breaks);
    MainKeeps(j, breaks);
    forall n | 0 <= n < |k.tasks| ensures CalmTask(k.files[n], k.tasks[n], breaks) {
      CalmStays(j.files[n], j.tasks[n], broke, breaks);
    }
    if j.main.Judging? { CalmEnd(j, broke); }
  }

  lemma {:induction false} SameLengths(j: Job)
    requires Inv(j)
    ensures |j.tasks| == |j.files|
  {
  }

  lemma {:induction false} CalmEnd(j: Job, broke: bool)
    requires Calm(j, broke) && j.main.Judging?
    ensures j.urls == []
  {
    hide Verified, CalmTask;
    assert j.urls != [] ==> j.urls[0] in Urls(j.files);
  }

  lemma {:induction false} RunCalm(files: seq<File>, moves: seq<Move>)
    requires files != [] && (forall i :: 0 <= i < |files| ==> Verified(files[i])) && Steady(moves)
    ensures Calm(After(files, moves), Broke(moves)) && After(files, moves).files == files
  {
    hide Calm, WorkStep, MainStep, Verified;
    if moves == [] {
      InitialCalm(files);
    } else {
      var init, m := moves[..|moves| - 1], moves[|moves| - 1];
      RunCalm(files, init);
      RunKeeps(files, moves);
      var j := After(files, init);
      assert Broke(init) ==> m.breaks;
      match m {
        case Manage(breaks) => CalmManage(j, Broke(init), breaks);
        case Work(i, breaks, more) =>
          if i < |j.tasks| == |j.files| && Pooled(j.main) {
            CalmWork(j, i, Broke(init), breaks, more);
          } else {
            CalmIdle(j, Broke(init), breaks);
          }
      }
    }
  }

  lemma {:induction false} CalmIdle(j: Job, broke: bool, breaks: bool)
    requires Calm(j, broke) && (broke ==> breaks)
    ensures Calm(j, breaks)
  {
    hide Verified, Inv, CalmTask;
    SameLengths(j);
    forall n | 0 <= n < |j.tasks| ensures CalmTask(j.files[n], j.tasks[n], breaks) {
      CalmStays(j.files[n], j.tasks[n], broke, breaks);
    }
  }

  lemma {:induction false} InitialCalm(files: seq<File>)
    requires files != [] && forall i :: 0 <= i < |files| ==> Verified(files[i])
    ensures Calm(Initial(files), false)
  {
    hide Verified;
    InitialFine(files);
  }

  /** With good files and a break that stays once it is asked for, the verdict is success or a
      clean cancellation, and the latter only if a break was asked for. */
  lemma {:induction false} SteadyVerdict(files: seq<File>, moves: seq<Move>)
    requires files != [] && (forall i :: 0 <= i < |files| ==> Verified(files[i])) && Steady(moves)
    requires After(files, moves).main.Returned?
    ensures var s := After(files, moves).main.status;
      s == Status(Succeed, 0) || (s == Status(Canceled, 0) && exists k :: 0 <= k < |moves| && moves[k].breaks)
  {
    hide Verified, Inv, CalmTask;
    RunCalm(files, moves);
  }

  /** A job that is asked to break off from the beginning is canceled before it looks at a file. */
  lemma {:induction false} BrokenFromTheStart(files: seq<File>, moves: seq<Move>)
    requires files != [] && forall k :: 0 <= k < |moves| ==> moves[k].breaks
    ensures var j := After(files, moves);
      && (j.main.Returned? ==> j.main.status == Status(Canceled, 0))
      && (!Pooled(j.main) || j.main.Returned?)
    ensures |moves| >= 4 && (forall k :: 0 <= k < |moves| ==> moves[k].Manage?) ==> After(files, moves).main.Returned?
  {
    hide WorkStep;
    BrokenPhase(files, moves);
  }

  /** Where the main thread is while every answer is to break off. */
  predicate BreaksOff(j: Job)
  {
    match j.main
    case Begin => j.status == Fine
    case First(_) => j.status == Fine
    case Returned(s) => s == Canceled0
    case _ => false
  }

  function Phase(m: Main): nat
  {
    match m
    case Begin => 0
    case First(at) => (if at == Reading then 1 else if at == Asking then 2 else 3)
    case _ => 4
  }

  lemma {:induction false} BrokenPhase(files: seq<File>, moves: seq<Move>)
    requires files != [] && forall k :: 0 <= k < |moves| ==> moves[k].breaks
    ensures After(files, moves).files == files && BreaksOff(After(files, moves))
    ensures (forall k :: 0 <= k < |moves| ==> moves[k].Manage?) ==>
              Phase(After(files, moves).main) >= if |moves| < 4 then |moves| else 4
  {
    hide WorkStep, StatusAfter, NextTask;
    if moves != [] {
      var init, m := moves[..|moves| - 1], moves[|moves| - 1];
      BrokenPhase(files, init);
      var j := After(files, init);
      match m {
        case Manage(breaks) =>
        case Work(i, breaks, more) =>
          if i < |j.tasks| == |j.files| && Pooled(j.main) { WorkLeavesMain(j, i, breaks, more); }
      }
    }
  }

  lemma {:induction false} WorkLeavesMain(j: Job, i: nat, breaks: bool, more: bool)
    requires i < |j.tasks| == |j.files|
    ensures WorkStep(j, i, breaks, more).main == j.main && WorkStep(j, i, breaks, more).files == j.files
  {
  }

  // ----- breaks that are withdrawn

  function Four(j: Job, a: Move, b: Move, c: Move, d: Move): Job { Next(Next(Next(Next(j, a), b), c), d) }

  lemma {:induction false} OneMore(files: seq<File>, moves: seq<Move>, m: Move)
    ensures After(files, moves + [m]) == Next(After(files, moves), m)
  {
    hide Next;
    assert (moves + [m])[..|moves|] == moves;
  }

  lemma {:induction false} FourMore(files: seq<File>, moves: seq<Move>, a: Move, b: Move, c: Move, d: Move)
    returns (more: seq<Move>)
    ensures After(files, more) == Four(After(files, moves), a, b, c, d)
  {
    hide Next, After;
    OneMore(files, moves, a);
    OneMore(files, moves + [a], b);
    OneMore(files, moves + [a] + [b], c);
    OneMore(files, moves + [a] + [b] + [c], d);
    more := moves + [a] + [b] + [c] + [d];
  }

  const Stay := Manage(false)
  const Do := Work(0, false, false)
  const Break := Work(0, true, false)

  /** The job of one file `f` whose url is still on the list. */
  function Alone(f: File, t: Task, m: Main, s: Status): Job { Job([f], [t], m, s, [f.url]) }

  /** The pool about to be filled. */
  lemma {:induction false} Opened(f: File) returns (moves: seq<Move>)
    ensures After([f], moves) == Alone(f, Waiting, Early(Asking), Fine)
  {
    moves := FourMore([f], [], Stay, Stay, Stay, Stay);
    assert Urls([f]) == [f.url] && Initial([f]).tasks == [Waiting];
  }

  lemma {:induction false} AsksFirst(f: File, last: Move)
    requires last == Break || last == Do
    ensures Four(Alone(f, Waiting, Early(Asking), Fine), Stay, Do, Do, last) ==
            Alone(f, if last == Break then Checks(Start, Latching) else Looking, Joining, Fine)
  {
  }

  lemma {:induction false} GivesUp(f: File)
    ensures Four(Alone(f, Checks(Start, Latching), Joining, Fine), Do, Stay, Stay, Stay) ==
            Alone(f, Over, Judging, Canceled0)
  {
  }

  lemma {:induction false} Reads(f: File)
    requires f.present && HasDigest(f)
    ensures Four(Alone(f, Looking, Joining, Fine), Do, Work(0, false, true), Do, Break) ==
            Alone(f, Checks(Block, Latching), Joining, Fine)
  {
  }

  lemma {:induction false} ReadsNothing(f: File)
    ensures Four(Alone(f, Checks(Block, Latching), Joining, Fine), Do, Do, Do, Do) ==
            Alone(f, Throwing(ReadError(Kind(f))), Joining, Canceled0)
  {
  }

  lemma {:induction false} Closes(f: File, error: int)
    ensures Four(Alone(f, Over, Judging, Canceled0), Stay, Stay, Stay, Stay).main == Returned(Status(Failed, 210))
    ensures Four(Alone(f, Throwing(error), Joining, Canceled0), Do, Stay, Stay, Stay).main
            == Returned(Status(Failed, error))
  {
  }

  /** A break that only a task sees, before its file: the task is over, its url stays, and at
      the end the job fails with 210, however good the file is. */
  lemma {:induction false} LeftoverUrl(f: File) returns (moves: seq<Move>)
    ensures After([f], moves).main == Returned(Status(Failed, 210))
  {
    hide Four, After, Alone;
    moves := Opened(f);
    moves := FourMore([f], moves, Stay, Do, Do, Break);
    AsksFirst(f, Break);
    moves := FourMore([f], moves, Do, Stay, Stay, Stay);
    GivesUp(f);
    moves := FourMore([f], moves, Stay, Stay, Stay, Stay);
    Closes(f, 0);
  }

  /** A break that is withdrawn while a file is read: the reading yields no digest, and the
      job fails as if the file could not be read. */
  lemma {:induction false} BreakWhileReading(f: File) returns (moves: seq<Move>)
    requires f.present && (f.sha256 != "" || f.sha1 != "" || f.md5 != "")
    ensures After([f], moves).main ==
            Returned(Status(Failed, if f.sha256 != "" then 207 else if f.sha1 != "" then 205 else 203))
  {
    hide Four, After, Alone;
    moves := Opened(f);
    moves := FourMore([f], moves, Stay, Do, Do, Do);
    AsksFirst(f, Do);
    moves := FourMore([f], moves, Do, Work(0, false, true), Do, Break);
    Reads(f);
    moves := FourMore([f], moves, Do, Do, Do, Do);
    ReadsNothing(f);
    moves := FourMore([f], moves, Do, Stay, Stay, Stay);
    Closes(f, ReadError(Kind(f)));
  }
}
