/** What the version test, the number reader it rests on and the groups of states amount to. */
module Versions {
  import opened Text
  import opened Options
  import opened Strings
  import opened Domain

  // ----- numbers

  /** Some blanks, a sign or none, digits, and whatever follows. */
  predicate Reads(s: string, blanks: string, sign: string, digits: string, rest: string)
  {
    && s == blanks + (sign + (digits + rest))
    && (forall k :: 0 <= k < |blanks| ==> blanks[k] as int == 0x20 || 0x09 <= blanks[k] as int <= 0x0D)
    && sign in ["", "-", "+"] && AllDigits(digits) && (rest != "" ==> !IsDigit(rest[0]))
  }

  lemma {:induction false} BlanksSkipped(blanks: string, t: string)
    requires forall k :: 0 <= k < |blanks| ==> IsSpace(blanks[k])
    requires t != "" ==> !IsSpace(t[0])
    ensures SkipSpaces(blanks + t) == t
  {
    if blanks == "" {
      assert blanks + t == t;
    } else {
      assert (blanks + t)[1..] == blanks[1..] + t;
      BlanksSkipped(blanks[1..], t);
    }
  }

  /** std::stoi reads the signed number, and throws without digits and outside 32 bits. */
  lemma {:induction false} StoiMeaning(s: string, blanks: string, sign: string, digits: string, rest: string)
    requires Reads(s, blanks, sign, digits, rest)
    requires digits == "" ==> (sign == "" ==> rest == "" || (!IsSpace(rest[0]) && rest[0] != '-' && rest[0] != '+'))
    ensures Stoi(s) ==
            if digits == "" then None
            else
              var v := if sign == "-" then 0 - NatOf(digits) else NatOf(digits);
              if -2147483648 <= v <= 2147483647 then Some(v) else None
  {
    var t := sign + (digits + rest);
    if t != "" && sign == "" && digits != "" { assert t[0] == digits[0]; }
    if t != "" && sign == "" && digits == "" { assert t == rest; }
    BlanksSkipped(blanks, t);
    var u := digits + rest;
    if sign != "" {
      assert t[0] == sign[0] && t[1..] == u;
    } else {
      assert t == u;
    }
    DigitsRead(digits, rest);
  }

  lemma {:induction false} DigitsRead(digits: string, rest: string)
    requires AllDigits(digits) && (rest != "" ==> !IsDigit(rest[0]))
    ensures SkipDigits(digits + rest, 0) == |digits| && (digits + rest)[..|digits|] == digits
  {
    var u := digits + rest;
    assert u[0..0 + |digits|] == digits;
    if rest != "" { assert u[|digits|] == rest[0]; }
    SkipDigitsOver(u, 0, digits);
  }

  // ----- versions

  /** At `i` both components are numbers and the target's is at least -1 and greater; before
      it both are numbers and the target's lies between -1 and the current one. */
  predicate GrowsAt(current: seq<string>, target: seq<string>, i: nat)
    requires |current| == |target|
  {
    && i < |current| && Stoi(current[i]).Some? && Stoi(target[i]).Some?
    && Stoi(target[i]).value >= -1 && Stoi(target[i]).value > Stoi(current[i]).value
    && forall j :: 0 <= j < i ==>
         Stoi(current[j]).Some? && Stoi(target[j]).Some? && -1 <= Stoi(target[j]).value <= Stoi(current[j]).value
  }

  lemma {:induction false} ExceedsMeaning(a: seq<string>, b: seq<string>)
    requires |a| == |b|
    ensures Exceeds(a, b) <==> exists i: nat :: GrowsAt(a, b, i)
  {
    hide Stoi;
    if Exceeds(a, b) {
      var i := GrowsSomewhere(a, b);
    }
    if i: nat :| GrowsAt(a, b, i) { GrowthExceeds(a, b, i); }
  }

  lemma {:induction false} GrowsSomewhere(a: seq<string>, b: seq<string>) returns (i: nat)
    requires |a| == |b| && Exceeds(a, b)
    ensures GrowsAt(a, b, i)
  {
    hide Stoi;
    if Stoi(b[0]).value > Stoi(a[0]).value {
      i := 0;
    } else {
      i := GrowsSomewhere(a[1..], b[1..]);
      i := i + 1;
      forall j | 1 <= j <= i ensures a[j] == a[1..][j - 1] && b[j] == b[1..][j - 1] {
      }
    }
  }

  lemma {:induction false} GrowthExceeds(a: seq<string>, b: seq<string>, i: nat)
    requires |a| == |b| && GrowsAt(a, b, i)
    ensures Exceeds(a, b)
  {
    hide Stoi;
    if i > 0 {
      forall j | 0 <= j < |a| - 1 ensures a[1..][j] == a[j + 1] && b[1..][j] == b[j + 1] {
      }
      GrowthExceeds(a[1..], b[1..], i - 1);
    }
  }

  /** There is a version to upgrade from exactly when both are given, have as many components,
      and the target grows at the first component at which it is not at most the current one. */
  lemma {:induction false} ValidMeaning(version: string, target: string)
    ensures VersionValid(version, target) <==>
            && version != "" && target != "" && |Split(version, ".")| == |Split(target, ".")|
            && exists i: nat :: GrowsAt(Split(version, "."), Split(target, "."), i)
  {
    hide Stoi, Split, Exceeds;
    if |Split(version, ".")| == |Split(target, ".")| { ExceedsMeaning(Split(version, "."), Split(target, ".")); }
  }

  /** A domain is at its target exactly when it reports a version and that is the package's. */
  lemma {:induction false} EqualMeaning(version: string, target: string)
    ensures DetectVersionEqual(version, target) <==> version == target && target != ""
  {
  }

  // ----- states

  /** Every state of the server is busy, asks, or is one of three that do neither. */
  lemma {:induction false} StateGroups(state: ServerState)
    ensures MrStateIsAsk(state) <==>
            state in {MrDownloadAsk, MrDeployAsk, MrCancelAsk, MrResumeAsk, MrDoneAsk, MrErrorAsk}
    ensures MrStateIsBusy(state) <==>
            !MrStateIsAsk(state) && state != MrIdle && state != MrOffline && state != MrUnknown
  {
  }

  /** A report replaces everything known about the domain of its name. */
  lemma {:induction false} UpdateMeaning(d: Domain, other: Domain)
    ensures Update(d, other) == if d.name == other.name then other else d
  {
  }

  /** Replacing a text by itself changes nothing, and a text without it stays. */
  lemma {:induction false} ReplacedBySelf(s: string, src: string)
    requires src != ""
    ensures Replaced(s, src, src) == s
    decreases |s|
  {
    var k := Find(s, src, 0);
    if k >= 0 {
      ReplacedBySelf(s[k + |src|..], src);
      assert s == s[..k] + src + s[k + |src|..];
    }
  }
}
