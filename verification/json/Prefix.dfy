/** Whatever the parser reads successfully it reads the same, in standard and in comment mode,
    when the input is cut anywhere behind it. */
module Prefix {
  import opened Text
  import opened Value
  import opened Utf8
  import opened Options
  import opened ParserSpec

  lemma {:induction false} SkipWsInPrefix(s: string, k: nat, p: nat)
    requires k <= |s| && SkipWs(s, k) <= p <= |s|
    ensures SkipWs(s[..p], k) == SkipWs(s, k)
    decreases |s| - k
  {
    if SkipWs(s, k) > k { SkipWsInPrefix(s, k + 1, p); }
  }

  lemma {:induction false} SkipDigitsInPrefix(s: string, k: nat, p: nat)
    requires k <= |s| && SkipDigits(s, k) <= p <= |s|
    ensures SkipDigits(s[..p], k) == SkipDigits(s, k)
    decreases |s| - k
  {
    if SkipDigits(s, k) > k { SkipDigitsInPrefix(s, k + 1, p); }
  }

  lemma {:induction false} SkipLineInPrefix(s: string, k: nat, p: nat)
    requires k <= |s| && SkipLine(s, k) <= p <= |s|
    ensures SkipLine(s[..p], k) == SkipLine(s, k)
    decreases |s| - k
  {
    if SkipLine(s, k) > k { SkipLineInPrefix(s, k + 1, p); }
  }

  lemma {:induction false} CommentEndInPrefix(s: string, k: nat, p: nat)
    requires k <= |s| && CommentEnd(s, k).Ok? && CommentEnd(s, k).next <= p <= |s|
    ensures CommentEnd(s[..p], k) == CommentEnd(s, k)
    decreases |s| - k
  {
    if !(s[k] == '*' && s[k + 1] == '/') { CommentEndInPrefix(s, k + 1, p); }
  }

  lemma {:induction false} CommentInPrefix(s: string, i: nat, p: nat)
    requires i < |s| && Comment(s, i).Ok? && Comment(s, i).next <= p <= |s|
    ensures i < p && Comment(s[..p], i) == Comment(s, i)
  {
    if s[i + 1] == '/' { SkipLineInPrefix(s, i + 2, p); } else { CommentEndInPrefix(s, i + 2, p); }
  }

  lemma {:induction false} GapInPrefix(s: string, i: nat, comments: bool, p: nat)
    requires i <= |s| && Gap(s, i, comments).Ok? && Gap(s, i, comments).next <= p <= |s|
    ensures Gap(s[..p], i, comments) == Gap(s, i, comments)
    decreases |s| - i
  {
    hide Comment;
    var j := SkipWs(s, i);
    if comments && Peek(s, j) == '/' {
      var k := Comment(s, j).next;
      GapInPrefix(s, k, comments, p);
      CommentInPrefix(s, j, p);
    }
    SkipWsInPrefix(s, i, p);
  }

  lemma {:induction false} TokenInPrefix(s: string, i: nat, comments: bool, p: nat)
    requires i <= |s| && Token(s, i, comments).Ok? && Token(s, i, comments).next <= p <= |s|
    ensures Token(s[..p], i, comments) == Token(s, i, comments)
  {
    hide Gap;
    GapInPrefix(s, i, comments, p);
  }

  lemma {:induction false} StringInPrefix(s: string, i: nat, pending: int, p: nat)
    requires i <= |s| && IsPending(pending) && StringFrom(s, i, pending).Ok?
    requires StringFrom(s, i, pending).next <= p <= |s|
    ensures StringFrom(s[..p], i, pending) == StringFrom(s, i, pending)
    decreases |s| - i
  {
    hide Encode, CodeUnit, Unescape;
    if s[i] == '"' {
    } else if s[i] != '\\' {
      StringInPrefix(s, i + 1, -1, p);
    } else if s[i + 1] == 'u' {
      var u := CodeUnit(s[i + 2..i + 6]);
      if IsHigh(pending) && IsLow(u) {
        StringInPrefix(s, i + 6, -1, p);
      } else {
        StringInPrefix(s, i + 6, u, p);
      }
      assert s[..p][i + 2..i + 6] == s[i + 2..i + 6];
    } else {
      StringInPrefix(s, i + 2, -1, p);
    }
  }

  lemma {:induction false} WholeInPrefix(s: string, i: nat, p: nat)
    requires i <= |s| && WholePart(s, i).Ok? && WholePart(s, i).next <= p <= |s|
    ensures WholePart(s[..p], i) == WholePart(s, i)
  {
    if Peek(s, i) != '0' { SkipDigitsInPrefix(s, i + 1, p); }
  }

  lemma {:induction false} FractionInPrefix(s: string, i: nat, p: nat)
    requires i <= |s| && FractionPart(s, i).Ok? && FractionPart(s, i).next <= p <= |s|
    ensures FractionPart(s[..p], i) == FractionPart(s, i)
  {
    if Peek(s, i) == '.' { SkipDigitsInPrefix(s, i + 1, p); SomeDigit(s, i + 1); }
  }

  lemma {:induction false} SomeDigit(s: string, k: nat)
    requires k <= |s| && IsDigit(Peek(s, k))
    ensures SkipDigits(s, k) > k
  {
  }

  lemma {:induction false} ExponentInPrefix(s: string, i: nat, p: nat)
    requires i <= |s| && ExponentPart(s, i).Ok? && ExponentPart(s, i).next <= p <= |s|
    ensures ExponentPart(s[..p], i) == ExponentPart(s, i)
  {
    if IsExpMark(Peek(s, i)) {
      var j := if Peek(s, i + 1) == '+' || Peek(s, i + 1) == '-' then i + 2 else i + 1;
      SkipDigitsInPrefix(s, j, p);
      SomeDigit(s, j);
    }
  }

  lemma {:induction false} SliceInPrefix(s: string, i: nat, j: nat, p: nat)
    requires i <= j <= p <= |s|
    ensures s[..p][i..j] == s[i..j]
  {
  }

  lemma {:induction false} NumberInPrefix(s: string, i: nat, p: nat)
    requires i <= |s| && NumberFrom(s, i).Ok? && NumberFrom(s, i).next <= p <= |s|
    ensures NumberFrom(s[..p], i) == NumberFrom(s, i)
  {
    hide WholePart, FractionPart, ExponentPart, Atoi;
    var a := if Peek(s, i) == '-' then i + 1 else i;
    var b := WholePart(s, a).next;
    WholeInPrefix(s, a, p);
    SliceInPrefix(s, i, b, p);
    if Peek(s, b) != '.' && !IsExpMark(Peek(s, b)) && b - i <= INT_DIGITS {
    } else {
      var c := FractionPart(s, b).next;
      FractionInPrefix(s, b, p);
      ExponentInPrefix(s, c, p);
      var d := ExponentPart(s, c).next;
      SliceInPrefix(s, i, d, p);
      PartsMove(s, b, p);
    }
  }

  /** A point or an exponent mark at the end of the whole part is itself read. */
  lemma {:induction false} PartsMove(s: string, b: nat, p: nat)
    requires b <= |s| && FractionPart(s, b).Ok? && ExponentPart(s, FractionPart(s, b).next).Ok?
    requires ExponentPart(s, FractionPart(s, b).next).next <= p <= |s|
    ensures Peek(s[..p], b) == '.' <==> Peek(s, b) == '.'
    ensures IsExpMark(Peek(s[..p], b)) <==> IsExpMark(Peek(s, b))
  {
    if Peek(s, b) == '.' { SomeDigit(s, b + 1); }
    if IsExpMark(Peek(s, b)) {
      SomeDigit(s, if Peek(s, b + 1) == '+' || Peek(s, b + 1) == '-' then b + 2 else b + 1);
    }
  }

  lemma {:induction false} ExpectInPrefix(s: string, i: nat, word: string, value: Value, p: nat)
    requires i <= |s| && ExpectAt(s, i, word, value).Ok? && i + |word| <= p <= |s|
    ensures ExpectAt(s[..p], i, word, value) == ExpectAt(s, i, word, value)
  {
    assert s[..p][i..i + |word|] == s[i..i + |word|];
  }

  lemma {:induction false} ValueInPrefix(s: string, i: nat, depth: nat, comments: bool, p: nat)
    requires i <= |s| && ValueAt(s, i, depth, comments).Ok? && ValueAt(s, i, depth, comments).next <= p <= |s|
    ensures ValueAt(s[..p], i, depth, comments) == ValueAt(s, i, depth, comments)
    decreases |s| - i, 0
  {
    hide Token, NumberFrom, StringFrom, ExpectAt, ListAt, MapAt;
    var k := Token(s, i, comments).next;
    var ch := Token(s, i, comments).value;
    TokenInPrefix(s, i, comments, p);
    if ch == '-' || IsDigit(ch) {
      NumberInPrefix(s, k - 1, p);
    } else if ch == 't' {
      ExpectInPrefix(s, k - 1, "true", Bool(true), p);
    } else if ch == 'f' {
      ExpectInPrefix(s, k - 1, "false", Bool(false), p);
    } else if ch == 'n' {
      ExpectInPrefix(s, k - 1, "null", Null, p);
    } else if ch == '"' {
      StringInPrefix(s, k, -1, p);
    } else if ch == '{' {
      MapInPrefix(s, k, depth, comments, p);
    } else {
      ListInPrefix(s, k, depth, comments, p);
    }
  }

  lemma {:induction false} MapInPrefix(s: string, i: nat, depth: nat, comments: bool, p: nat)
    requires i <= |s| && MapAt(s, i, depth, comments).Ok? && MapAt(s, i, depth, comments).next <= p <= |s|
    ensures MapAt(s[..p], i, depth, comments) == MapAt(s, i, depth, comments)
    decreases |s| - i, 3
  {
    hide Token, MembersAt;
    var c, k := Token(s, i, comments).value, Token(s, i, comments).next;
    if c != '}' { MembersInPrefix(s, k - 1, depth, comments, p); }
    TokenInPrefix(s, i, comments, p);
  }

  lemma {:induction false} ListInPrefix(s: string, i: nat, depth: nat, comments: bool, p: nat)
    requires i <= |s| && ListAt(s, i, depth, comments).Ok? && ListAt(s, i, depth, comments).next <= p <= |s|
    ensures ListAt(s[..p], i, depth, comments) == ListAt(s, i, depth, comments)
    decreases |s| - i, 3
  {
    hide Token, ElementsAt;
    var c, k := Token(s, i, comments).value, Token(s, i, comments).next;
    if c != ']' { ElementsInPrefix(s, k - 1, depth, comments, p); }
    TokenInPrefix(s, i, comments, p);
  }

  lemma {:induction false} ElementsInPrefix(s: string, i: nat, depth: nat, comments: bool, p: nat)
    requires i <= |s| && ElementsAt(s, i, depth, comments).Ok? && ElementsAt(s, i, depth, comments).next <= p <= |s|
    ensures ElementsAt(s[..p], i, depth, comments) == ElementsAt(s, i, depth, comments)
    decreases |s| - i, 1
  {
    hide Token, ValueAt, Prepend;
    var u := s[..p];
    var k := ValueAt(s, i, depth + 1, comments).next;
    var c, k1 := Token(s, k, comments).value, Token(s, k, comments).next;
    ValueInPrefix(s, i, depth + 1, comments, p);
    if c == ']' {
      TokenInPrefix(s, k, comments, p);
    } else {
      var k2 := Token(s, k1, comments).next;
      ElementsInPrefix(s, k2 - 1, depth, comments, p);
      TokenInPrefix(s, k1, comments, p);
      TokenInPrefix(s, k, comments, p);
      assert ElementsAt(u, i, depth, comments) ==
             Prepend([ValueAt(s, i, depth + 1, comments).value], ElementsAt(u, k2 - 1, depth, comments));
    }
  }

  lemma {:induction false} MemberInPrefix(s: string, i: nat, depth: nat, comments: bool, p: nat)
    requires i < |s| && MemberAt(s, i, depth, comments).Ok? && MemberAt(s, i, depth, comments).next <= p <= |s|
    ensures i < p && MemberAt(s[..p], i, depth, comments) == MemberAt(s, i, depth, comments)
    decreases |s| - i, 1
  {
    hide Token, ValueAt, StringFrom;
    var k := StringFrom(s, i + 1, -1).next;
    var k1 := Token(s, k, comments).next;
    ValueInPrefix(s, k1, depth + 1, comments, p);
    TokenInPrefix(s, k, comments, p);
    StringInPrefix(s, i + 1, -1, p);
  }

  lemma {:induction false} MembersInPrefix(s: string, i: nat, depth: nat, comments: bool, p: nat)
    requires i < |s| && MembersAt(s, i, depth, comments).Ok? && MembersAt(s, i, depth, comments).next <= p <= |s|
    ensures i < p && MembersAt(s[..p], i, depth, comments) == MembersAt(s, i, depth, comments)
    decreases |s| - i, 2
  {
    hide Token, MemberAt;
    var k := MemberAt(s, i, depth, comments).next;
    var c, k1 := Token(s, k, comments).value, Token(s, k, comments).next;
    if c != '}' {
      var k2 := Token(s, k1, comments).next;
      MembersInPrefix(s, k2 - 1, depth, comments, p);
      TokenInPrefix(s, k1, comments, p);
    }
    TokenInPrefix(s, k, comments, p);
    MemberInPrefix(s, i, depth, comments, p);
  }

  /** Wherever reading several documents ends, the input up to the stop position reads
      without error, as exactly the values completed before it. */
  lemma {:induction false} PrefixReadsTheSame(s: string, i: nat, comments: bool)
    requires i <= |s|
    ensures var d := DocumentsAt(s, i, comments);
            DocumentsAt(s[..d.stop], i, comments) == Documents(d.values, d.stop, [], None)
    decreases |s| - i
  {
    hide ValueAt, Gap;
    var d := DocumentsAt(s, i, comments);
    if i < |s| && ValueAt(s, i, 0, comments).Ok? {
      var k := ValueAt(s, i, 0, comments).next;
      if Gap(s, k, comments).Ok? {
        var n := Gap(s, k, comments).next;
        PrefixReadsTheSame(s, n, comments);
        ValueInPrefix(s, i, 0, comments, d.stop);
        GapInPrefix(s, k, comments, d.stop);
      }
    }
  }
}
