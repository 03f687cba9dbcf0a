/** Domains, packages and details, the state names of server and clients, and the version
    and dependency tests both sides decide by. */
module Domain {
  import opened Text
  import opened Options
  import opened Strings

  datatype ServerState =
    | MrUnknown | MrOffline | MrIdle | MrPending | MrReady | MrDownload | MrVerify | MrDistribute | MrWait
    | MrDeploy | MrCancel | MrDownloadAsk | MrDeployAsk | MrCancelAsk | MrResumeAsk | MrDoneAsk | MrErrorAsk

  datatype ClientState =
    | WrUnknown | WrOffline | WrError | WrIdle | WrDownload | WrVerify | WrPatch | WrWait | WrDeploy | WrCancel

  datatype Control = CtlUnknown | CtlReset | CtlDownload | CtlDeploy | CtlCancel | CtlClear

  datatype Answer = AnsUnknown | AnsAccept | AnsRefuse | AnsOther

  datatype Method = Skip | Attempt | Forced

  /** `info` stands for attribute, meta, progress and message, which are only compared. */
  datatype Domain = Domain(name: string, state: ClientState, last: ClientState, watcher: bool, error: int,
                           version: string, answer: Answer, info: string)

  /** `depends` is the text under "depends" in the package's meta; of the files only whether
      there are any, and whether one has the suffix "patch". */
  datatype Package = Package(domain: string, version: string, depends: string, hasFiles: bool, hasPatch: bool)

  datatype Upgrade = Upgrade(id: string, download: Method, deploy: Method, packages: seq<Package>)

  /** The two Elapsed members as whether they run. */
  datatype Detail = Detail(domain: Domain, package: Package, deployActive: bool, heartbeatActive: bool)

  const EmptyUpgrade := Upgrade("", Skip, Skip, [])

  predicate MrStateIsBusy(state: ServerState)
  {
    state == MrPending || state == MrReady || state == MrDownload || state == MrVerify
    || state == MrDistribute || state == MrWait || state == MrDeploy || state == MrCancel
  }

  predicate MrStateIsAsk(state: ServerState)
  {
    state == MrDownloadAsk || state == MrDeployAsk || state == MrCancelAsk || state == MrResumeAsk
    || state == MrDoneAsk || state == MrErrorAsk
  }

  /** Domain::update: only for the same name, and then everything. */
  function Update(d: Domain, other: Domain): Domain
  {
    if d.name != other.name then d else other
  }

  predicate DetectVersionEqual(version: string, target: string)
  {
    version != "" && version == target
  }

  /** The component loop of detectVersionVaild. */
  predicate Exceeds(current: seq<string>, target: seq<string>)
    requires |current| == |target|
  {
    if current == [] then false
    else
      match (Stoi(current[0]), Stoi(target[0]))
      case (Some(self), Some(goal)) =>
        if goal < -1 then false else if goal > self then true else Exceeds(current[1..], target[1..])
      case _ => false
  }

  predicate VersionValid(version: string, target: string)
  {
    version != "" && target != "" &&
    var a, b := Split(version, "."), Split(target, ".");
    |a| == |b| && Exceeds(a, b)
  }

  method DetectVersionValid(version: string, target: string) returns (valid: bool)
    ensures valid == VersionValid(version, target)
  {
    if version == "" || target == "" {
      return false;
    }
    var current := StringSplit(version, ".");
    var goals := StringSplit(target, ".");
    if |current| != |goals| {
      return false;
    }
    assert current[0..] == current && goals[0..] == goals;
    for i := 0 to |current|
      invariant Exceeds(current, goals) == Exceeds(current[i..], goals[i..])
    {
      assert current[i..][1..] == current[i + 1..] && goals[i..][1..] == goals[i + 1..];
      var selfNum := Stoi(current[i]);
      if selfNum == None {
        return false;
      }
      var targetNum := Stoi(goals[i]);
      if targetNum == None {
        return false;
      }
      if targetNum.value < -1 {
        return false;
      }
      if targetNum.value > selfNum.value {
        return true;
      }
    }
    return false;
  }

  /** Whatever std::stoi does, a domain is never both at its target version and below it. */
  lemma {:induction false} ValidExcludesEqual(version: string, target: string)
    ensures !(VersionValid(version, target) && DetectVersionEqual(version, target))
  {
    if version == target { SameNeverExceeds(Split(version, ".")); }
  }

  lemma {:induction false} SameNeverExceeds(parts: seq<string>)
    ensures !Exceeds(parts, parts)
  {
    if parts != [] { SameNeverExceeds(parts[1..]); }
  }

  // ----- dependencies

  function DependsNames(text: string): seq<string>
  {
    if text == "" then [] else Split(Replaced(text, "\n", " "), " ")
  }

  predicate HasDepends(text: string, depends: seq<string>)
  {
    exists k :: 0 <= k < |DependsNames(text)| && DependsNames(text)[k] != "" && DependsNames(text)[k] in depends
  }

  method GetDependsNames(text: string) returns (names: seq<string>)
    ensures names == DependsNames(text)
  {
    if text == "" {
      return [];
    }
    var dependsStr := StringReplace(text, "\n", " ");
    names := StringSplit(dependsStr, " ");
  }

  method ComputeHasDepends(text: string, depends: seq<string>) returns (found: bool)
    ensures found == HasDepends(text, depends)
  {
    var requireNames := GetDependsNames(text);
    for i := 0 to |requireNames|
      invariant forall k :: 0 <= k < i ==> requireNames[k] == "" || requireNames[k] !in depends
    {
      if requireNames[i] != "" {
        for j := 0 to |depends|
          invariant forall k :: 0 <= k < j ==> depends[k] != requireNames[i]
        {
          if depends[j] == requireNames[i] {
            return true;
          }
        }
      }
    }
    return false;
  }

  predicate IsSeparator(c: char) { c == ' ' || c == '\n' }

  /** s[i..j] is a name: a maximal non-empty run of characters other than space and newline. */
  predicate IsName(s: string, i: nat, j: nat)
  {
    && i < j <= |s|
    && (forall k :: i <= k < j ==> !IsSeparator(s[k]))
    && (i > 0 ==> IsSeparator(s[i - 1]))
    && (j < |s| ==> IsSeparator(s[j]))
  }

  /** The depends text names `w`. */
  ghost predicate Names(text: string, w: string)
  {
    exists i: nat, j: nat :: IsName(text, i, j) && text[i..j] == w
  }

  lemma {:induction false} PieceIsName(s: string, pos: nat, n: nat) returns (i: nat, j: nat)
    requires pos == 0 || (pos <= |s| && s[pos - 1] == ' ')
    requires forall k :: 0 <= k < |s| ==> s[k] != '\n'
    requires n < |SplitFrom(s, " ", pos)| && SplitFrom(s, " ", pos)[n] != ""
    ensures IsName(s, i, j) && s[i..j] == SplitFrom(s, " ", pos)[n]
    decreases |s| - pos
  {
    hide At, Find, IsName, IsSeparator, SplitFrom;
    var k := SpaceFound(s, pos);
    SplitPieces(s, pos, k, n);
    if n == 0 {
      i, j := pos, if k < 0 then |s| else k;
      SpacesBound(s, i, j);
    } else {
      i, j := PieceIsName(s, k + 1, n - 1);
    }
  }

  /** The first piece, and where the others come from. */
  lemma {:induction false} SplitPieces(s: string, pos: nat, k: int, n: nat)
    requires k == Find(s, " ", pos) && n < |SplitFrom(s, " ", pos)|
    ensures pos < |s|
    ensures k < 0 ==> n == 0 && SplitFrom(s, " ", pos)[0] == s[pos..]
    ensures k >= 0 ==> k < |s| && SplitFrom(s, " ", pos)[0] == s[pos..k]
    ensures k >= 0 && n > 0 ==> n - 1 < |SplitFrom(s, " ", k + 1)| &&
                                SplitFrom(s, " ", k + 1)[n - 1] == SplitFrom(s, " ", pos)[n]
  {
    hide Find;
  }

  /** Where the split looks for the next space. */
  lemma {:induction false} SpaceFound(s: string, pos: nat) returns (k: int)
    ensures k == Find(s, " ", pos)
    ensures k >= 0 ==> pos <= k < |s| && s[k] == ' ' && forall m :: pos <= m < k ==> s[m] != ' '
    ensures k < 0 ==> forall m :: pos <= m < |s| ==> s[m] != ' '
  {
    hide Find;
    k := Find(s, " ", pos);
    if k >= 0 { AtChar(s, k, ' '); }
    forall m: nat | pos <= m < |s| && (k >= 0 ==> m < k) ensures s[m] != ' ' {
      assert !At(s, m, " ");
      AtChar(s, m, ' ');
    }
  }

  lemma {:induction false} SpacesBound(s: string, i: nat, j: nat)
    requires i < j <= |s| && forall m :: i <= m < j ==> s[m] != ' ' && s[m] != '\n'
    requires i == 0 || s[i - 1] == ' '
    requires j == |s| || s[j] == ' '
    ensures IsName(s, i, j)
  {
  }

  lemma {:induction false} NameIsPiece(s: string, pos: nat, i: nat, j: nat) returns (n: nat)
    requires pos <= i && IsName(s, i, j) && (pos == 0 || s[pos - 1] == ' ')
    requires forall k :: 0 <= k < |s| ==> s[k] != '\n'
    ensures n < |SplitFrom(s, " ", pos)| && SplitFrom(s, " ", pos)[n] == s[i..j]
    decreases |s| - pos
  {
    hide At, Find;
    var k := SpaceFound(s, pos);
    if 0 <= k < i {
      n := NameIsPiece(s, k + 1, i, j);
      n := n + 1;
    } else {
      n := 0;
      assert pos == i;
      assert k == if j < |s| then j else -1;
    }
  }

  /** Turning newlines into spaces keeps the names and where they are. */
  lemma {:induction false} SameNames(text: string, i: nat, j: nat)
    requires j <= |text| && i <= j
    ensures var r := Replaced(text, "\n", " ");
            && |r| == |text| && (forall k :: 0 <= k < |r| ==> r[k] != '\n')
            && (IsName(text, i, j) <==> IsName(r, i, j))
            && (IsName(text, i, j) ==> r[i..j] == text[i..j])
  {
    var r := Replaced(text, "\n", " ");
    if text == "" {
      assert Find(text, "\n", 0) < 0 by { AtChar(text, 0, '\n'); }
    } else {
      ReplacedChar(text, '\n', ' ', 0);
      forall k | 0 <= k < |text|
        ensures r[k] == if text[k] == '\n' then ' ' else text[k]
      {
        ReplacedChar(text, '\n', ' ', k);
      }
    }
  }

  /** hasDepends holds exactly when the text names a member of the list. */
  lemma {:induction false} HasDependsMeaning(text: string, depends: seq<string>)
    ensures HasDepends(text, depends) <==> exists w :: w in depends && Names(text, w)
  {
    hide Replaced;
    var r := Replaced(text, "\n", " ");
    SameNames(text, 0, 0);
    var ps := DependsNames(text);
    if HasDepends(text, depends) {
      var n :| 0 <= n < |ps| && ps[n] != "" && ps[n] in depends;
      var i, j := PieceIsName(r, 0, n);
      SameNames(text, i, j);
      assert Names(text, ps[n]);
    }
    if w :| w in depends && Names(text, w) {
      var i: nat, j: nat :| IsName(text, i, j) && text[i..j] == w;
      SameNames(text, i, j);
      var n := NameIsPiece(r, 0, i, j);
      assert ps[n] == w;
    }
  }
}
