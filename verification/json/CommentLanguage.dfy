/** The language of comment mode: a text is accepted exactly when, with its comments turned
    into spaces, it is a JSON text. */
module CommentLanguage {
  import opened Text
  import opened Value
  import opened Utf8
  import opened Options
  import opened ParserSpec
  import opened Grammar
  import opened Language

  // ----- comments

  /** s[i..k] is a comment: two slashes up to the end of the line, or slash-star up to the
      first star-slash. */
  predicate IsComment(s: string, i: nat, k: nat)
  {
    i + 2 <= k <= |s| && s[i] == '/' &&
    if s[i + 1] == '/' then
      (forall m :: i + 2 <= m < k ==> s[m] != '\n') && (k < |s| ==> s[k] == '\n')
    else
      && s[i + 1] == '*' && i + 4 <= k && Closes(s, k - 2)
      && forall m :: i + 2 <= m < k - 2 ==> !Closes(s, m)
  }

  predicate Closes(s: string, m: nat) { m + 1 < |s| && s[m] == '*' && s[m + 1] == '/' }

  lemma {:induction false} LineEnd(s: string, i: nat)
    requires i <= |s|
    ensures var k := SkipLine(s, i);
            (forall m :: i <= m < k ==> s[m] != '\n') && (k < |s| ==> s[k] == '\n')
    decreases |s| - i
  {
    if i < |s| && s[i] != '\n' { LineEnd(s, i + 1); }
  }

  lemma {:induction false} BlockEnd(s: string, i: nat)
    requires i <= |s|
    ensures match CommentEnd(s, i)
            case Ok(_, k) => i + 2 <= k <= |s| && Closes(s, k - 2) && forall m :: i <= m < k - 2 ==> !Closes(s, m)
            case Err(_) => forall m :: i <= m ==> !Closes(s, m)
    decreases |s| - i
  {
    if i + 2 <= |s| && !Closes(s, i) { BlockEnd(s, i + 1); }
  }

  /** The parser's reading of a comment is that definition. */
  lemma {:induction false} CommentMeaning(s: string, i: nat, k: nat)
    requires i < |s| && s[i] == '/'
    ensures Comment(s, i) == Ok((), k) <==> IsComment(s, i, k)
  {
    hide SkipLine, CommentEnd;
    if i + 1 < |s| && s[i + 1] == '/' {
      LineEnd(s, i + 2);
      var e := SkipLine(s, i + 2);
      assert e < k <= |s| ==> s[e] == '\n';
      assert i + 2 <= k < e ==> s[k] != '\n';
    }
    if i + 1 < |s| && s[i + 1] == '*' {
      BlockEnd(s, i + 2);
      if CommentEnd(s, i + 2).Ok? {
        var e := CommentEnd(s, i + 2).next;
        assert CommentEnd(s, i + 2).value == ();
        assert i + 4 <= e < k <= |s| ==> Closes(s, e - 2);
        assert i + 4 <= k < e ==> !Closes(s, k - 2);
      } else if i + 4 <= k <= |s| {
        assert !Closes(s, k - 2);
      }
    }
  }

  // ----- comments turned into spaces

  function Spaces(n: nat): (r: string)
    ensures |r| == n && forall k :: 0 <= k < n ==> r[k] == ' '
  {
    seq(n, _ => ' ')
  }

  /** The text from `i` on, outside of strings. A slash that starts no comment stays. */
  function BlankFrom(s: string, i: nat): (r: string)
    requires i <= |s|
    ensures |r| == |s| - i
    decreases |s| - i
  {
    if i == |s| then ""
    else if s[i] == '"' then [s[i]] + CopyFrom(s, i + 1)
    else if s[i] == '/' && Comment(s, i).Ok? then Spaces(Comment(s, i).next - i) + BlankFrom(s, Comment(s, i).next)
    else [s[i]] + BlankFrom(s, i + 1)
  }

  /** The text from `i` on, inside of a string. */
  function CopyFrom(s: string, i: nat): (r: string)
    requires i <= |s|
    ensures |r| == |s| - i
    decreases |s| - i
  {
    if i == |s| then ""
    else if s[i] == '"' then [s[i]] + BlankFrom(s, i + 1)
    else if s[i] == '\\' && i + 1 < |s| then [s[i], s[i + 1]] + CopyFrom(s, i + 2)
    else [s[i]] + CopyFrom(s, i + 1)
  }

  function Blanked(s: string): string { BlankFrom(s, 0) }

  /** `b` goes on as the blanked text does, outside and inside of strings. */
  predicate Outside(s: string, b: string, i: nat) { i <= |s| == |b| && b[i..] == BlankFrom(s, i) }

  predicate Inside(s: string, b: string, i: nat) { i <= |s| == |b| && b[i..] == CopyFrom(s, i) }

  lemma {:induction false} Tail(b: string, i: nat, a: string, rest: string)
    requires i <= |b| && b[i..] == a + rest
    ensures i + |a| <= |b| && b[i + |a|..] == rest && b[i..i + |a|] == a
    ensures forall k :: 0 <= k < |a| ==> b[i + k] == a[k]
  {
    assert |b[i..]| == |b| - i;
    assert b[i..][|a|..] == b[i + |a|..];
    assert b[i..][..|a|] == b[i..i + |a|];
    forall k | 0 <= k < |a| ensures b[i + k] == a[k] {
      assert b[i..][k] == b[i + k];
    }
  }

  lemma {:induction false} OutsideStep(s: string, b: string, i: nat)
    requires Outside(s, b, i) && i < |s|
    ensures s[i] == '/' && Comment(s, i).Ok? ==>
              var k := Comment(s, i).next;
              Outside(s, b, k) && forall m :: i <= m < k ==> b[m] == ' '
    ensures !(s[i] == '/' && Comment(s, i).Ok?) ==>
              b[i] == s[i] && (if s[i] == '"' then Inside(s, b, i + 1) else Outside(s, b, i + 1))
  {
    hide Comment;
    if s[i] == '"' {
      Tail(b, i, [s[i]], CopyFrom(s, i + 1));
    } else if s[i] == '/' && Comment(s, i).Ok? {
      var k := Comment(s, i).next;
      Tail(b, i, Spaces(k - i), BlankFrom(s, k));
      forall m | i <= m < k ensures b[m] == ' ' {
        assert b[i + (m - i)] == Spaces(k - i)[m - i];
      }
    } else {
      Tail(b, i, [s[i]], BlankFrom(s, i + 1));
    }
  }

  lemma {:induction false} InsideStep(s: string, b: string, i: nat)
    requires Inside(s, b, i) && i < |s|
    ensures b[i] == s[i]
    ensures s[i] == '"' ==> Outside(s, b, i + 1)
    ensures s[i] == '\\' && i + 1 < |s| ==> b[i + 1] == s[i + 1] && Inside(s, b, i + 2)
    ensures s[i] != '"' && s[i] != '\\' ==> Inside(s, b, i + 1)
  {
    if s[i] == '"' {
      Tail(b, i, [s[i]], BlankFrom(s, i + 1));
    } else if s[i] == '\\' && i + 1 < |s| {
      Tail(b, i, [s[i], s[i + 1]], CopyFrom(s, i + 2));
      assert b[i + 1] == [s[i], s[i + 1]][1];
    } else {
      Tail(b, i, [s[i]], CopyFrom(s, i + 1));
    }
  }

  // ----- the two readings agree

  /** The same success, or both fail. */
  predicate Agree<T(==)>(r: Result<T>, q: Result<T>) { if r.Ok? then q == r else q.Err? }

  lemma {:induction false} SkipWsThrough(b: string, i: nat, j: nat)
    requires i <= j <= |b| && forall m :: i <= m < j ==> IsWs(b[m])
    ensures SkipWs(b, i) == SkipWs(b, j)
    decreases j - i
  {
    if i < j { SkipWsThrough(b, i + 1, j); }
  }

  lemma {:induction false} WsOutside(s: string, b: string, i: nat)
    requires Outside(s, b, i)
    ensures var j := SkipWs(s, i); Outside(s, b, j) && forall m :: i <= m < j ==> IsWs(b[m])
    decreases |s| - i
  {
    hide Comment, BlankFrom, CopyFrom;
    if i < |s| && IsWs(s[i]) {
      OutsideStep(s, b, i);
      WsOutside(s, b, i + 1);
    }
  }

  /** Whitespace and comments become whitespace; a bad comment's slash stays. */
  lemma {:induction false} GapAgrees(s: string, b: string, i: nat)
    requires Outside(s, b, i)
    ensures match Gap(s, i, true)
            case Ok(_, n) => SkipWs(b, i) == n && Outside(s, b, n) && Peek(s, n) != '/'
            case Err(_) => Peek(b, SkipWs(b, i)) == '/'
    decreases |s| - i
  {
    hide Comment, Outside;
    OutsideLengths(s, b, i);
    var j := SkipWs(s, i);
    WsOutside(s, b, i);
    SkipWsThrough(b, i, j);
    if Peek(s, j) == '/' {
      OutsideStep(s, b, j);
      if Comment(s, j).Ok? {
        var k := Comment(s, j).next;
        SkipWsThrough(b, j, k);
        GapAgrees(s, b, k);
      }
    } else if j < |s| {
      OutsideStep(s, b, j);
    }
  }

  lemma {:induction false} OutsideLengths(s: string, b: string, i: nat)
    requires Outside(s, b, i)
    ensures i <= |s| == |b|
  {
  }

  /** The next character is the same, or the blanked text has a slash there. */
  lemma {:induction false} TokenAgrees(s: string, b: string, i: nat)
    requires Outside(s, b, i)
    ensures match Token(s, i, true)
            case Ok(c, k) =>
              && Token(b, i, false) == Ok(c, k) && c != '/' && Outside(s, b, k - 1)
              && (if c == '"' then Inside(s, b, k) else Outside(s, b, k))
            case Err(_) => Token(b, i, false).Err? || Token(b, i, false).value == '/'
  {
    hide Comment, Outside, Inside;
    OutsideLengths(s, b, i);
    GapAgrees(s, b, i);
    var r := Gap(s, i, true);
    if r.Ok? && r.next < |s| { OutsideStep(s, b, r.next); }
  }

  lemma {:induction false} HexAgrees(s: string, b: string, i: nat, n: nat)
    requires Inside(s, b, i) && i + n <= |s|
    ensures AllHex(s[i..i + n]) <==> AllHex(b[i..i + n])
    ensures AllHex(s[i..i + n]) ==> b[i..i + n] == s[i..i + n] && Inside(s, b, i + n)
    decreases n
  {
    if n > 0 {
      InsideStep(s, b, i);
      assert s[i..i + n] == [s[i]] + s[i + 1..i + n];
      assert b[i..i + n] == [b[i]] + b[i + 1..i + n];
      HexCons(s[i], s[i + 1..i + n]);
      HexCons(b[i], b[i + 1..i + n]);
      if IsHex(s[i]) { HexAgrees(s, b, i + 1, n - 1); }
    }
  }

  lemma {:induction false} HexCons(c: char, h: string)
    ensures AllHex([c] + h) <==> IsHex(c) && AllHex(h)
  {
    if AllHex([c] + h) {
      assert ([c] + h)[0] == c;
      forall k | 0 <= k < |h| ensures IsHex(h[k]) {
        assert ([c] + h)[k + 1] == h[k];
      }
    }
  }

  lemma {:induction false} StringAgrees(s: string, b: string, i: nat, p: int)
    requires Inside(s, b, i) && IsPending(p)
    ensures Agree(StringFrom(s, i, p), StringFrom(b, i, p))
    ensures StringFrom(s, i, p).Ok? ==> Outside(s, b, StringFrom(s, i, p).next)
    decreases |s| - i
  {
    hide Encode, CodeUnit, Pair, AllHex, Unescape, IsSimpleEscape, Outside, CopyFrom;
    if i < |s| {
      InsideStep(s, b, i);
      if s[i] == '"' || s[i] < ' ' {
      } else if s[i] != '\\' {
        StringAgrees(s, b, i + 1, -1);
      } else if i + 1 < |s| {
        EscapeAgrees(s, b, i, p);
      }
    }
  }

  lemma {:induction false} EscapeAgrees(s: string, b: string, i: nat, p: int)
    requires Inside(s, b, i) && IsPending(p) && i + 1 < |s| && s[i] == '\\'
    ensures Agree(StringFrom(s, i, p), StringFrom(b, i, p))
    ensures StringFrom(s, i, p).Ok? ==> Outside(s, b, StringFrom(s, i, p).next)
    decreases |s| - i, 0
  {
    hide Encode, CodeUnit, Pair, Unescape, IsSimpleEscape, Outside, CopyFrom;
    InsideStep(s, b, i);
    if s[i + 1] == 'u' {
      if i + 6 <= |s| {
        HexAgrees(s, b, i + 2, 4);
        if AllHex(s[i + 2..i + 6]) {
          var u := CodeUnit(s[i + 2..i + 6]);
          StringAgrees(s, b, i + 6, if IsHigh(p) && IsLow(u) then -1 else u);
        }
      }
    } else if IsSimpleEscape(s[i + 1]) {
      StringAgrees(s, b, i + 2, -1);
    }
  }

  // ----- numbers and words

  /** Outside of strings a slash of the text may be a space of the blanked text; every other
      character is the same. */
  lemma {:induction false} PeekAgrees(s: string, b: string, i: nat)
    requires Outside(s, b, i)
    ensures Peek(b, i) == Peek(s, i) || (Peek(s, i) == '/' && Peek(b, i) == ' ')
    ensures i < |s| && s[i] != '/' && s[i] != '"' ==> Outside(s, b, i + 1) && b[i..i + 1] == s[i..i + 1]
  {
    hide Comment, BlankFrom, CopyFrom;
    if i < |s| {
      OutsideStep(s, b, i);
      if s[i] == '/' && Comment(s, i).Ok? { assert b[i] == ' '; }
    }
  }

  lemma {:induction false} SliceJoins(s: string, b: string, i: nat, j: nat, k: nat)
    requires i <= j <= k <= |s| == |b| && b[i..j] == s[i..j] && b[j..k] == s[j..k]
    ensures b[i..k] == s[i..k]
  {
    assert s[i..k] == s[i..j] + s[j..k];
    assert b[i..k] == b[i..j] + b[j..k];
  }

  lemma {:induction false} DigitsAgree(s: string, b: string, i: nat)
    requires Outside(s, b, i)
    ensures var j := SkipDigits(s, i); SkipDigits(b, i) == j && Outside(s, b, j) && b[i..j] == s[i..j]
    decreases |s| - i
  {
    hide Outside;
    OutsideLengths(s, b, i);
    PeekAgrees(s, b, i);
    if IsDigit(Peek(s, i)) {
      DigitsAgree(s, b, i + 1);
      SliceJoins(s, b, i, i + 1, SkipDigits(s, i));
    }
  }

  /** A part of a number: read the same, with the same text. */
  predicate SamePart(s: string, b: string, i: nat, r: Result<()>, q: Result<()>)
    requires r.Ok? ==> i <= r.next <= |s|
  {
    Agree(r, q) && (r.Ok? ==> Outside(s, b, r.next) && b[i..r.next] == s[i..r.next])
  }

  lemma {:induction false} WholeAgrees(s: string, b: string, i: nat)
    requires Outside(s, b, i)
    ensures SamePart(s, b, i, WholePart(s, i), WholePart(b, i))
  {
    hide Outside, SkipDigits;
    OutsideLengths(s, b, i);
    PeekAgrees(s, b, i);
    if IsDigit(Peek(s, i)) {
      PeekAgrees(s, b, i + 1);
      DigitsAgree(s, b, i + 1);
      SliceJoins(s, b, i, i + 1, SkipDigits(s, i + 1));
    }
  }

  lemma {:induction false} FractionAgrees(s: string, b: string, i: nat)
    requires Outside(s, b, i)
    ensures SamePart(s, b, i, FractionPart(s, i), FractionPart(b, i))
  {
    hide Outside, SkipDigits;
    OutsideLengths(s, b, i);
    PeekAgrees(s, b, i);
    if Peek(s, i) == '.' {
      PeekAgrees(s, b, i + 1);
      DigitsAgree(s, b, i + 1);
      SliceJoins(s, b, i, i + 1, SkipDigits(s, i + 1));
    }
  }

  lemma {:induction false} ExponentAgrees(s: string, b: string, i: nat)
    requires Outside(s, b, i)
    ensures SamePart(s, b, i, ExponentPart(s, i), ExponentPart(b, i))
  {
    hide Outside, SkipDigits;
    OutsideLengths(s, b, i);
    PeekAgrees(s, b, i);
    if IsExpMark(Peek(s, i)) {
      PeekAgrees(s, b, i + 1);
      var j := if Peek(s, i + 1) == '+' || Peek(s, i + 1) == '-' then i + 2 else i + 1;
      if j == i + 2 { SliceJoins(s, b, i, i + 1, j); }
      PeekAgrees(s, b, j);
      DigitsAgree(s, b, j);
      SliceJoins(s, b, i, j, SkipDigits(s, j));
    }
  }

  lemma {:induction false} NumberAgrees(s: string, b: string, i: nat)
    requires Outside(s, b, i)
    ensures Agree(NumberFrom(s, i), NumberFrom(b, i))
    ensures NumberFrom(s, i).Ok? ==> Outside(s, b, NumberFrom(s, i).next)
  {
    hide Outside, WholePart, FractionPart, ExponentPart, Atoi;
    OutsideLengths(s, b, i);
    PeekAgrees(s, b, i);
    var a := if Peek(s, i) == '-' then i + 1 else i;
    WholeAgrees(s, b, a);
    if WholePart(s, a).Ok? {
      var w := WholePart(s, a).next;
      SliceJoins(s, b, i, a, w);
      PeekAgrees(s, b, w);
      FractionAgrees(s, b, w);
      if FractionPart(s, w).Ok? {
        var f := FractionPart(s, w).next;
        SliceJoins(s, b, i, w, f);
        ExponentAgrees(s, b, f);
        if ExponentPart(s, f).Ok? { SliceJoins(s, b, i, f, ExponentPart(s, f).next); }
      }
    }
  }

  predicate IsLetter(c: char) { 'a' <= c <= 'z' }

  lemma {:induction false} WordAgrees(s: string, b: string, i: nat, word: string)
    requires Outside(s, b, i) && forall k :: 0 <= k < |word| ==> IsLetter(word[k])
    ensures At(s, i, word) <==> At(b, i, word)
    ensures At(s, i, word) ==> Outside(s, b, i + |word|)
    decreases |word|
  {
    hide Outside, At;
    OutsideLengths(s, b, i);
    if word == "" {
      EmptyAt(s, i);
      EmptyAt(b, i);
    } else {
      PeekAgrees(s, b, i);
      assert word == [word[0]] + word[1..];
      AtSplit(s, i, [word[0]], word[1..]);
      AtSplit(b, i, [word[0]], word[1..]);
      AtChar(s, i, word[0]);
      AtChar(b, i, word[0]);
      if Peek(s, i) == word[0] && i < |s| { WordAgrees(s, b, i + 1, word[1..]); }
    }
  }

  lemma {:induction false} EmptyAt(s: string, i: nat)
    requires i <= |s|
    ensures At(s, i, "")
  {
  }

  // ----- values

  /** A slash starts no value and no member. */
  lemma {:induction false} SlashFails(b: string, i: nat, depth: nat)
    requires i < |b| && b[i] == '/'
    ensures ValueAt(b, i, depth, false).Err? && ElementsAt(b, i, depth, false).Err? && MembersAt(b, i, depth, false).Err?
  {
    hide NumberFrom, StringFrom, ExpectAt;
    assert Token(b, i, false) == Ok('/', i + 1);
    assert ValueAt(b, i, depth + 1, false).Err?;
  }

  lemma {:induction false} ValueAgrees(s: string, b: string, i: nat, depth: nat)
    requires Outside(s, b, i)
    ensures Agree(ValueAt(s, i, depth, true), ValueAt(b, i, depth, false))
    ensures ValueAt(s, i, depth, true).Ok? ==> Outside(s, b, ValueAt(s, i, depth, true).next)
    decreases |s| - i, 0
  {
    hide Token, NumberFrom, StringFrom, ExpectAt, ListAt, MapAt, Outside, Inside, Gap;
    OutsideLengths(s, b, i);
    TokenAgrees(s, b, i);
    if depth <= MAX_DEPTH && Token(s, i, true).Ok? {
      var ch, k := Token(s, i, true).value, Token(s, i, true).next;
      if ch == '-' || IsDigit(ch) {
        NumberAgrees(s, b, k - 1);
      } else if ch == 't' || ch == 'f' || ch == 'n' {
        WordsAgree(s, b, k - 1);
      } else if ch == '"' {
        StringAgrees(s, b, k, -1);
      } else if ch == '{' {
        MapAgrees(s, b, k, depth);
      } else if ch == '[' {
        ListAgrees(s, b, k, depth);
      }
    }
  }

  lemma {:induction false} WordsAgree(s: string, b: string, i: nat)
    requires Outside(s, b, i) && i <= |b|
    ensures OneWordAgrees(s, b, i, "true", Bool(true)) && OneWordAgrees(s, b, i, "false", Bool(false))
    ensures OneWordAgrees(s, b, i, "null", Null)
  {
    hide Outside, At;
    WordAgrees(s, b, i, "true");
    WordAgrees(s, b, i, "false");
    WordAgrees(s, b, i, "null");
  }

  predicate OneWordAgrees(s: string, b: string, i: nat, word: string, value: Value)
    requires i <= |s| && i <= |b|
  {
    && Agree(ExpectAt(s, i, word, value), ExpectAt(b, i, word, value))
    && (ExpectAt(s, i, word, value).Ok? ==> Outside(s, b, i + |word|))
  }

  lemma {:induction false} ListAgrees(s: string, b: string, i: nat, depth: nat)
    requires Outside(s, b, i) && i <= |b|
    ensures Agree(ListAt(s, i, depth, true), ListAt(b, i, depth, false))
    ensures ListAt(s, i, depth, true).Ok? ==> Outside(s, b, ListAt(s, i, depth, true).next)
    decreases |s| - i, 3
  {
    hide Token, ElementsAt, Outside, Inside;
    OutsideLengths(s, b, i);
    TokenAgrees(s, b, i);
    var t := Token(s, i, true);
    if t.Err? {
      if Token(b, i, false).Ok? { SlashFails(b, Token(b, i, false).next - 1, depth); }
    } else if t.value != ']' {
      ElementsAgree(s, b, t.next - 1, depth);
    }
  }

  lemma {:induction false} MapAgrees(s: string, b: string, i: nat, depth: nat)
    requires Outside(s, b, i) && i <= |b|
    ensures Agree(MapAt(s, i, depth, true), MapAt(b, i, depth, false))
    ensures MapAt(s, i, depth, true).Ok? ==> Outside(s, b, MapAt(s, i, depth, true).next)
    decreases |s| - i, 3
  {
    hide Token, MembersAt, Outside, Inside;
    OutsideLengths(s, b, i);
    TokenAgrees(s, b, i);
    var t := Token(s, i, true);
    if t.Err? {
      if Token(b, i, false).Ok? { SlashFails(b, Token(b, i, false).next - 1, depth); }
    } else if t.value != '}' {
      MembersAgree(s, b, t.next - 1, depth);
    }
  }

  lemma {:induction false} ElementsAgree(s: string, b: string, i: nat, depth: nat)
    requires Outside(s, b, i) && i <= |b|
    ensures Agree(ElementsAt(s, i, depth, true), ElementsAt(b, i, depth, false))
    ensures ElementsAt(s, i, depth, true).Ok? ==> Outside(s, b, ElementsAt(s, i, depth, true).next)
    decreases |s| - i, 1
  {
    hide Token, ValueAt, Prepend, Outside, Inside;
    OutsideLengths(s, b, i);
    ValueAgrees(s, b, i, depth + 1);
    var v := ValueAt(s, i, depth + 1, true);
    if v.Ok? {
      TokenAgrees(s, b, v.next);
      var c := Token(s, v.next, true);
      if c.Ok? && c.value == ',' {
        TokenAgrees(s, b, c.next);
        var k := Token(s, c.next, true);
        if k.Ok? {
          ElementsAgree(s, b, k.next - 1, depth);
        } else if Token(b, c.next, false).Ok? {
          SlashFails(b, Token(b, c.next, false).next - 1, depth);
        }
      }
    }
  }

  lemma {:induction false} MemberAgrees(s: string, b: string, i: nat, depth: nat)
    requires Outside(s, b, i) && i < |s| && i < |b|
    ensures Agree(MemberAt(s, i, depth, true), MemberAt(b, i, depth, false))
    ensures MemberAt(s, i, depth, true).Ok? ==> Outside(s, b, MemberAt(s, i, depth, true).next)
    decreases |s| - i, 1
  {
    hide Token, ValueAt, StringFrom, Outside, Inside;
    OutsideLengths(s, b, i);
    QuoteAgrees(s, b, i);
    if s[i] == '"' {
      StringAgrees(s, b, i + 1, -1);
      var key := StringFrom(s, i + 1, -1);
      if key.Ok? {
        TokenAgrees(s, b, key.next);
        var c := Token(s, key.next, true);
        if c.Ok? && c.value == ':' { ValueAgrees(s, b, c.next, depth + 1); }
      }
    }
  }

  lemma {:induction false} QuoteAgrees(s: string, b: string, i: nat)
    requires Outside(s, b, i) && i < |s|
    ensures |b| == |s| && (b[i] == '"' <==> s[i] == '"') && (s[i] == '"' ==> Inside(s, b, i + 1))
  {
    hide Comment, BlankFrom, CopyFrom;
    OutsideStep(s, b, i);
    if s[i] == '/' && Comment(s, i).Ok? { assert b[i] == ' '; }
  }

  lemma {:induction false} MembersAgree(s: string, b: string, i: nat, depth: nat)
    requires Outside(s, b, i) && i < |s| && i < |b|
    ensures Agree(MembersAt(s, i, depth, true), MembersAt(b, i, depth, false))
    ensures MembersAt(s, i, depth, true).Ok? ==> Outside(s, b, MembersAt(s, i, depth, true).next)
    decreases |s| - i, 2
  {
    hide Token, MemberAt, Prepend, Outside, Inside;
    OutsideLengths(s, b, i);
    MemberAgrees(s, b, i, depth);
    var m := MemberAt(s, i, depth, true);
    if m.Ok? {
      TokenAgrees(s, b, m.next);
      var c := Token(s, m.next, true);
      if c.Ok? && c.value == ',' {
        TokenAgrees(s, b, c.next);
        var k := Token(s, c.next, true);
        if k.Ok? {
          MembersAgree(s, b, k.next - 1, depth);
        } else if Token(b, c.next, false).Ok? {
          SlashFails(b, Token(b, c.next, false).next - 1, depth);
        }
      }
    }
  }

  /** Comment mode reads a text as standard mode reads it with its comments blanked. */
  lemma {:induction false} ReadsBlanked(s: string)
    ensures Agree(FromJson(s, true), FromJson(Blanked(s), false))
  {
    hide ValueAt, Gap, BlankFrom;
    var b := Blanked(s);
    assert b[0..] == b;
    if s != "" {
      ValueAgrees(s, b, 0, 0);
      var v := ValueAt(s, 0, 0, true);
      if v.Ok? { GapAgrees(s, b, v.next); }
    }
  }

  /** Soundness and completeness in comment mode: a non-empty input is accepted exactly when
      it is a JSON text within the depth limit once its comments are spaces. */
  lemma {:induction false} AcceptsCommentedTexts(s: string)
    requires s != ""
    ensures FromJson(s, true).Ok? <==> InLanguage(Blanked(s))
  {
    hide FromJson, InLanguage;
    ReadsBlanked(s);
    AcceptsExactlyTheLanguage(Blanked(s));
  }
}
