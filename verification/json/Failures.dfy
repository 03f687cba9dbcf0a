/** Which error a text that is no JSON text gives: the first thing wrong in it, from the left. */
module Failures {
  import opened Text
  import opened Value
  import opened Options
  import opened ParserSpec
  import opened Grammar
  import opened LexemeProofs
  import opened GrammarProofs
  import CommentLanguage

  // ----- strings

  /** The error of what stands at `k` inside a string literal, if it can be no item and no
      closing quote. */
  predicate WrongItem(s: string, k: nat, e: Error)
    requires k <= |s|
  {
    if k == |s| then e == EndInString
    else if s[k] as int < 0x20 then e == Unescaped(s[k])
    else if s[k] != '\\' then false
    else if k + 1 == |s| then e == EndInString
    else if s[k + 1] != 'u' then s[k + 1] !in "\"\\/bfnrt" && e == InvalidEscape(s[k + 1])
    else if k + 6 > |s| then e == BadUnicodeEscape(s[k + 2..])
    else !AllHex(s[k + 2..k + 6]) && e == BadUnicodeEscape(s[k + 2..k + 6])
  }

  /** Behind any valid items, the first wrong one is the string's error. */
  lemma {:induction false} StringFails(s: string, i: nat, xs: seq<Item>, pending: int, e: Error)
    requires ValidItems(xs) && IsPending(pending) && At(s, i, ItemsText(xs))
    requires WrongItem(s, i + |ItemsText(xs)|, e)
    ensures StringFrom(s, i, pending) == Err(e)
    decreases |xs|
  {
    hide StringFrom, At, ItemText, Written, PendingAfter, ValidItem, WrongItem;
    if xs == [] {
      AtBound(s, i, ItemsText(xs));
      WrongAtOnce(s, i, pending, e);
    } else {
      var x, rest := xs[0], xs[1..];
      AtSplit(s, i, ItemText(x), ItemsText(rest));
      StringStep(s, i, x, pending);
      StringFails(s, i + |ItemText(x)|, rest, PendingAfter(pending, x), e);
    }
  }

  lemma {:induction false} WrongAtOnce(s: string, i: nat, pending: int, e: Error)
    requires i <= |s| && IsPending(pending) && WrongItem(s, i, e)
    ensures StringFrom(s, i, pending) == Err(e)
  {
    hide Prepend;
  }

  // ----- numbers

  /** A sign with no digit behind it, and a zero with one. */
  lemma {:induction false} WholeFails(s: string, i: nat)
    requires i <= |s|
    ensures var a := if Peek(s, i) == '-' then i + 1 else i;
      && (!IsDigit(Peek(s, a)) ==> NumberFrom(s, i) == Err(InvalidInNumber(Peek(s, a))))
      && (Peek(s, a) == '0' && IsDigit(Peek(s, a + 1)) ==> NumberFrom(s, i) == Err(LeadingZero))
  {
  }

  /** A point with no digit behind it. */
  lemma {:induction false} PointFails(s: string, i: nat, negative: bool, w: string)
    requires SomeDigits(w) && (w[0] == '0' ==> |w| == 1)
    requires At(s, i, SignText(negative)) && At(s, i + |SignText(negative)|, w)
    requires var b := i + |SignText(negative)| + |w|; Peek(s, b) == '.' && !IsDigit(Peek(s, b + 1))
    ensures NumberFrom(s, i) == Err(NoFractionDigit)
  {
    hide At, WholePart, AllDigits, NumberFrom;
    var a := i + |SignText(negative)|;
    SignRead(s, i, negative, w);
    WholeComplete(s, a, w);
    AfterWhole(s, i, a, a + |w|);
  }

  /** An exponent's mark and sign with no digit behind them. */
  lemma {:induction false} ExponentFails(s: string, i: nat, negative: bool, w: string, f: Fraction)
    requires SomeDigits(w) && (w[0] == '0' ==> |w| == 1) && (f.Fraction? ==> SomeDigits(f.digits))
    requires At(s, i, SignText(negative)) && At(s, i + |SignText(negative)|, w)
    requires At(s, i + |SignText(negative)| + |w|, FractionText(f))
    requires var c := i + |SignText(negative)| + |w| + |FractionText(f)|;
             && IsExpMark(Peek(s, c))
             && !IsDigit(Peek(s, if Peek(s, c + 1) == '+' || Peek(s, c + 1) == '-' then c + 2 else c + 1))
    ensures NumberFrom(s, i) == Err(NoExponentDigit)
  {
    hide At, WholePart, FractionPart, AllDigits, NumberFrom;
    var a := i + |SignText(negative)|;
    var b := a + |w|;
    SignRead(s, i, negative, w);
    FractionRead(s, b, f);
    WholeComplete(s, a, w);
    AtBound(s, b, FractionText(f));
    FractionComplete(s, b, f);
    AfterWhole(s, i, a, b);
  }

  lemma {:induction false} SignRead(s: string, i: nat, negative: bool, w: string)
    requires SomeDigits(w) && At(s, i, SignText(negative)) && At(s, i + |SignText(negative)|, w)
    ensures i + |SignText(negative)| == (if Peek(s, i) == '-' then i + 1 else i) <= |s|
    ensures i + |SignText(negative)| + |w| <= |s|
  {
    AtFirst(s, i + |SignText(negative)|, w);
    AtChar(s, i, '-');
  }

  lemma {:induction false} FractionRead(s: string, b: nat, f: Fraction)
    requires At(s, b, FractionText(f)) && IsExpMark(Peek(s, b + |FractionText(f)|))
    ensures !IsDigit(Peek(s, b)) && !IsDigit(Peek(s, b + |FractionText(f)|))
    ensures Peek(s, b) == '.' <==> f.Fraction?
  {
    if f.Fraction? { AtFirst(s, b, FractionText(f)); }
  }

  lemma {:induction false} AfterWhole(s: string, i: nat, a: nat, b: nat)
    requires i <= |s| && a == (if Peek(s, i) == '-' then i + 1 else i) <= |s| && b <= |s|
    requires WholePart(s, a) == Ok((), b) && (Peek(s, b) == '.' || IsExpMark(Peek(s, b)))
    ensures FractionPart(s, b).Err? ==> NumberFrom(s, i) == Err(FractionPart(s, b).error)
    ensures FractionPart(s, b).Ok? && ExponentPart(s, FractionPart(s, b).next).Err? ==>
              NumberFrom(s, i) == Err(ExponentPart(s, FractionPart(s, b).next).error)
  {
    hide WholePart, FractionPart, ExponentPart;
  }

  // ----- values

  /** Nothing but whitespace, a level too deep, and a character no value starts with. */
  lemma {:induction false} ValueFails(s: string, i: nat, g: string, d: nat)
    requires i <= |s| && At(s, i, g) && AllWs(g)
    ensures d > 500 ==> ValueAt(s, i, d, false) == Err(TooDeep)
    ensures d <= 500 && i + |g| == |s| ==> ValueAt(s, i, d, false) == Err(UnexpectedEnd)
    ensures d <= 500 && i + |g| < |s| && !IsWs(s[i + |g|]) && !StartsValue(s[i + |g|]) ==>
              ValueAt(s, i, d, false) == Err(ExpectedValue(s[i + |g|]))
  {
    hide NumberFrom, StringFrom, ListAt, MapAt, AllWs, At, Token;
    Blanks(s, i, g);
    if i + |g| < |s| && !IsWs(s[i + |g|]) { TokenAt(s, i, g); }
  }

  /** A word that is not the one its first letter announces. */
  lemma {:induction false} WordFails(s: string, i: nat, g: string, d: nat, word: string)
    requires At(s, i, g) && AllWs(g) && d <= 500 && word in {"true", "false", "null"}
    requires i + |g| < |s| && s[i + |g|] == word[0] && !At(s, i + |g|, word)
    ensures var k := i + |g|;
      ValueAt(s, i, d, false) == Err(Expected(word, if k + |word| <= |s| then s[k..k + |word|] else s[k..]))
  {
    hide NumberFrom, StringFrom, ListAt, MapAt, AllWs, At, Token;
    TokenAt(s, i, g);
    var k := i + |g|;
    assert word == if s[k] == 't' then "true" else if s[k] == 'f' then "false" else "null";
    if k + |word| > |s| { assert s[k..|s|] == s[k..]; }
  }

  lemma {:induction false} Blanks(s: string, i: nat, g: string)
    requires i <= |s| && At(s, i, g) && AllWs(g)
    ensures i + |g| <= |s| && (i + |g| == |s| ==> Token(s, i, false) == Err(UnexpectedEnd))
  {
    if i + |g| == |s| { SkipWsOver(s, i, g); }
  }

  /** Behind an element something else than a comma or the bracket, or the end. */
  lemma {:induction false} ListFails(s: string, p: nat, v: Value, k: nat, g: string, d: nat)
    requires p <= |s| && ValueAt(s, p, d + 1, false) == Ok(v, k) && At(s, k, g) && AllWs(g)
    ensures k + |g| == |s| ==> ElementsAt(s, p, d, false) == Err(UnexpectedEnd)
    ensures k + |g| < |s| && !IsWs(s[k + |g|]) && s[k + |g|] !in ",]" ==>
              ElementsAt(s, p, d, false) == Err(ExpectedCommaInList(s[k + |g|]))
  {
    hide ValueAt, AllWs, At;
    Blanks(s, k, g);
    if k + |g| < |s| && !IsWs(s[k + |g|]) { TokenAt(s, k, g); }
  }

  /** No key, behind a key no colon, behind a member no comma or brace. */
  lemma {:induction false} MapFails(s: string, p: nat, k: nat, key: string, g: string, d: nat)
    requires p < |s| && k <= |s| && At(s, k, g) && AllWs(g)
    ensures s[p] != '"' ==> MembersAt(s, p, d, false) == Err(ExpectedKey(s[p]))
    ensures s[p] == '"' && StringFrom(s, p + 1, -1) == Ok(key, k) ==>
              && (k + |g| == |s| ==> MembersAt(s, p, d, false) == Err(UnexpectedEnd))
              && (k + |g| < |s| && !IsWs(s[k + |g|]) && s[k + |g|] != ':' ==>
                    MembersAt(s, p, d, false) == Err(ExpectedColon(s[k + |g|])))
    ensures MemberAt(s, p, d, false).Ok? && MemberAt(s, p, d, false).next == k ==>
              && (k + |g| == |s| ==> MembersAt(s, p, d, false) == Err(UnexpectedEnd))
              && (k + |g| < |s| && !IsWs(s[k + |g|]) && s[k + |g|] !in ",}" ==>
                    MembersAt(s, p, d, false) == Err(ExpectedCommaInObject(s[k + |g|])))
  {
    hide ValueAt, StringFrom, AllWs, At;
    Blanks(s, k, g);
    if k + |g| < |s| && !IsWs(s[k + |g|]) { TokenAt(s, k, g); }
  }

  // ----- documents

  /** An empty input is null without an error; anything but whitespace behind the value is one. */
  lemma {:induction false} DocumentFails(d: Document, c: char, rest: string)
    requires ValidDocument(d) && Height(d.tree) <= 500 && !IsWs(c) && Stops(d.tree, Peek(d.after + [c], 0))
    ensures FromJson("", false) == Ok(Null, 0) && FromJson("", true) == Ok(Null, 0)
    ensures FromJson(DocumentText(d) + ([c] + rest), false) == Err(Trailing(c))
  {
    hide Valid, Render, Height, Stops, ValueAt, Gap, FromJson, Eval, AllWs, At, Peek;
    var s := DocumentText(d) + ([c] + rest);
    var b := |d.before| + |Render(d.tree)|;
    FirstChar(d.tree);
    Parts(s, d.before, Render(d.tree), d.after, c, rest);
    ValueAfterGap(s, 0, d.before, 0);
    ValueComplete(s, |d.before|, d.tree, 0);
    Landing(s, b, d.after);
    TrailingFound(s, b, Eval(d.tree));
    EmptyInput();
  }

  lemma {:induction false} EmptyInput()
    ensures FromJson("", false) == Ok(Null, 0) && FromJson("", true) == Ok(Null, 0)
  {
  }

  lemma {:induction false} Landing(s: string, b: nat, after: string)
    requires At(s, b, after) && AllWs(after) && b + |after| < |s| && !IsWs(s[b + |after|])
    ensures SkipWs(s, b) == b + |after|
  {
    SkipWsOver(s, b, after);
  }

  lemma {:induction false} Parts(s: string, before: string, value: string, after: string, c: char, rest: string)
    requires s == before + (value + after) + ([c] + rest) && value != ""
    ensures At(s, 0, before) && At(s, |before|, value) && At(s, |before| + |value|, after)
    ensures Peek(s, |before|) == value[0]
    ensures var b := |before| + |value|; b + |after| < |s| && s[b + |after|] == c && Peek(s, b) == Peek(after + [c], 0)
  {
    var b := |before| + |value|;
    assert s[..|before|] == before && s[|before|..b] == value && s[b..b + |after|] == after;
    if after != "" { assert s[b] == after[0]; }
  }

  lemma {:induction false} TrailingFound(s: string, k: nat, v: Value)
    requires s != "" && ValueAt(s, 0, 0, false) == Ok(v, k) && k <= |s| && SkipWs(s, k) < |s|
    ensures FromJson(s, false) == Err(Trailing(s[SkipWs(s, k)]))
  {
    hide ValueAt;
  }

  /** A document that fails leaves null behind, or an empty string if it is a string literal;
      one with a bad comment behind it leaves its value. */
  lemma {:induction false} BrokenEntry(s: string, i: nat, comments: bool)
    requires i < |s|
    ensures var v, d := ValueAt(s, i, 0, comments), DocumentsAt(s, i, comments);
      && (v.Err? ==>
            && d.values == [] && d.stop == i && d.error == Some(v.error)
            && var t := Token(s, i, comments);
               d.broken == if t.Ok? && t.value == '"' then [Str("")] else [Null])
      && (v.Ok? && Gap(s, v.next, comments).Err? ==>
            d.values == [] && d.stop == i && d.broken == [v.value] && d.error == Some(Gap(s, v.next, comments).error))
  {
    hide ValueAt, Token, Gap;
  }

  /** A slash at the end, one before anything but a slash or a star, and a comment that is
      not closed. */
  lemma {:induction false} CommentFails(s: string, i: nat)
    requires i < |s| && s[i] == '/'
    ensures i + 1 == |s| ==> Comment(s, i) == Err(EndAfterSlash)
    ensures i + 1 < |s| && s[i + 1] !in "/*" ==> Comment(s, i) == Err(MalformedComment)
    ensures i + 1 < |s| && s[i + 1] == '*' && (forall m :: i + 2 <= m ==> !CommentLanguage.Closes(s, m)) ==>
              Comment(s, i) == Err(EndInComment)
  {
    hide CommentEnd;
    if i + 1 < |s| && s[i + 1] == '*' && CommentEnd(s, i + 2).Err? { OnlyEnd(s, i + 2); }
    if i + 1 < |s| && s[i + 1] == '*' { CommentLanguage.BlockEnd(s, i + 2); }
  }

  lemma {:induction false} OnlyEnd(s: string, i: nat)
    requires i <= |s|
    ensures CommentEnd(s, i).Err? ==> CommentEnd(s, i).error == EndInComment
    decreases |s| - i
  {
    if i + 2 <= |s| && !(s[i] == '*' && s[i + 1] == '/') { OnlyEnd(s, i + 1); }
  }
}
