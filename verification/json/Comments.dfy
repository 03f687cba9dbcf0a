/** Comment mode only adds: what standard mode accepts it accepts too, as the same value. */
module Comments {
  import opened Text
  import opened Value
  import opened Options
  import opened ParserSpec

  lemma {:induction false} SameGap(s: string, i: nat)
    requires i <= |s| && Peek(s, SkipWs(s, i)) != '/'
    ensures Gap(s, i, true) == Gap(s, i, false)
  {
  }

  lemma {:induction false} SameToken(s: string, i: nat)
    requires i <= |s| && Token(s, i, false).Ok? && Token(s, i, false).value != '/'
    ensures Token(s, i, true) == Token(s, i, false)
  {
    SameGap(s, i);
  }

  lemma {:induction false} SameValue(s: string, i: nat, depth: nat)
    requires i <= |s| && ValueAt(s, i, depth, false).Ok?
    ensures ValueAt(s, i, depth, true) == ValueAt(s, i, depth, false)
    decreases |s| - i, 0
  {
    hide Token, NumberFrom, StringFrom, ExpectAt, ElementsAt, MembersAt;
    var k := Token(s, i, false).next;
    var ch := Token(s, i, false).value;
    SameToken(s, i);
    if ch == '{' || ch == '[' {
      var c, z := Token(s, k, false).value, Token(s, k, false).next;
      if ch == '{' && c != '}' {
        MemberFirst(s, z - 1, depth);
        SameMembers(s, z - 1, depth);
      }
      if ch == '[' && c != ']' {
        ValueFirst(s, z - 1, depth);
        SameElements(s, z - 1, depth);
      }
      SameToken(s, k);
    }
  }

  lemma {:induction false} MemberFirst(s: string, p: nat, depth: nat)
    requires p < |s| && MembersAt(s, p, depth, false).Ok?
    ensures s[p] == '"'
  {
  }

  /** No value starts with a slash. */
  lemma {:induction false} ValueFirst(s: string, p: nat, depth: nat)
    requires p < |s| && ElementsAt(s, p, depth, false).Ok?
    ensures s[p] != '/'
  {
    hide NumberFrom, StringFrom, ExpectAt;
  }

  lemma {:induction false} SameElements(s: string, i: nat, depth: nat)
    requires i <= |s| && ElementsAt(s, i, depth, false).Ok?
    ensures ElementsAt(s, i, depth, true) == ElementsAt(s, i, depth, false)
    decreases |s| - i, 1
  {
    hide Token, ValueAt, Prepend;
    var k := ValueAt(s, i, depth + 1, false).next;
    var c, k1 := Token(s, k, false).value, Token(s, k, false).next;
    SameValue(s, i, depth + 1);
    SameToken(s, k);
    if c != ']' {
      var k2 := Token(s, k1, false).next;
      ValueFirst(s, k2 - 1, depth);
      SameToken(s, k1);
      SameElements(s, k2 - 1, depth);
    }
  }

  lemma {:induction false} SameMember(s: string, i: nat, depth: nat)
    requires i < |s| && MemberAt(s, i, depth, false).Ok?
    ensures MemberAt(s, i, depth, true) == MemberAt(s, i, depth, false)
    decreases |s| - i, 1
  {
    hide Token, ValueAt, StringFrom;
    var k := StringFrom(s, i + 1, -1).next;
    SameToken(s, k);
    SameValue(s, Token(s, k, false).next, depth + 1);
  }

  lemma {:induction false} SameMembers(s: string, i: nat, depth: nat)
    requires i < |s| && MembersAt(s, i, depth, false).Ok?
    ensures MembersAt(s, i, depth, true) == MembersAt(s, i, depth, false)
    decreases |s| - i, 2
  {
    hide Token, MemberAt, Prepend;
    var k := MemberAt(s, i, depth, false).next;
    var c, k1 := Token(s, k, false).value, Token(s, k, false).next;
    SameMember(s, i, depth);
    SameToken(s, k);
    if c != '}' {
      var k2 := Token(s, k1, false).next;
      MemberFirst(s, k2 - 1, depth);
      SameToken(s, k1);
      SameMembers(s, k2 - 1, depth);
    }
  }

  lemma {:induction false} CommentModeExtends(s: string)
    requires FromJson(s, false).Ok?
    ensures FromJson(s, true) == FromJson(s, false)
  {
    hide ValueAt;
    if s != "" {
      SameValue(s, 0, 0);
      SameGap(s, ValueAt(s, 0, 0, false).next);
    }
  }
}
