/** The parser and the grammar of RFC 8259 agree, in both directions, on every input. */
module GrammarProofs {
  import opened Text
  import opened Value
  import opened Utf8
  import opened ParserSpec
  import opened Grammar
  import opened LexemeProofs

  lemma {:induction false} TokenAt(s: string, i: nat, g: string)
    requires At(s, i, g) && AllWs(g) && i + |g| < |s| && !IsWs(s[i + |g|])
    ensures Token(s, i, false) == Ok(s[i + |g|], i + |g| + 1)
  {
    SkipWsOver(s, i, g);
  }

  lemma {:induction false} TokenChar(s: string, i: nat, g: string, c: char)
    requires AllWs(g) && !IsWs(c) && At(s, i, g) && At(s, i + |g|, [c])
    ensures Token(s, i, false) == Ok(c, i + |g| + 1)
  {
    AtChar(s, i + |g|, c);
    TokenAt(s, i, g);
  }

  predicate StartsValue(c: char) { c == '-' || IsDigit(c) || c in "tfn\"{[" }

  lemma {:induction false} NumberFirst(n: Number)
    requires ValidNumber(n)
    ensures NumberText(n) != "" && (NumberText(n)[0] == '-' || IsDigit(NumberText(n)[0]))
  {
    assert IsDigit(n.whole[0]);
    assert NumberText(n)[0] == (if n.negative then '-' else n.whole[0]);
  }

  lemma {:induction false} FirstChar(t: Tree)
    requires Valid(t)
    ensures Render(t) != "" && StartsValue(Render(t)[0])
  {
    if t.NumberTree? { NumberFirst(t.number); }
  }

  predicate Stops(t: Tree, next: char) { t.NumberTree? ==> NumberStops(t.number, next) }

  predicate IsDelimiter(c: char) { IsWs(c) || c == ',' || c == ']' || c == '}' || c == '\0' }

  // ----- completeness: a valid tree is read back, or refused for its depth alone

  function Outcome<T>(fits: bool, value: T, next: nat): Result<T>
  {
    if fits then Ok(value, next) else Err(TooDeep)
  }

  lemma {:induction false} ValueComplete(s: string, i: nat, t: Tree, d: nat)
    requires Valid(t) && At(s, i, Render(t)) && Stops(t, Peek(s, i + |Render(t)|))
    ensures ValueAt(s, i, d, false) == Outcome(d + Height(t) <= MAX_DEPTH, Eval(t), i + |Render(t)|)
    decreases t
  {
    hide ValueAt, Token, ElementsAt, MembersAt, NumberText, StringText, Denote, Pieces, AllWs, At, EvalElements,
         EvalMembers, FromPairs, ElementsHeight, MembersHeight, RenderElements, RenderMembers, ValidNumber, ValidItems;
    if d <= MAX_DEPTH {
      match t {
        case NumberTree(n) => NumberTreeComplete(s, i, n, d);
        case StringTree(xs) => StringTreeComplete(s, i, xs, d);
        case EmptyArray(g) => EmptyComplete(s, i, g, d);
        case EmptyObject(g) => EmptyComplete(s, i, g, d);
        case Array(es) =>
          AtSplit(s, i, ['['], RenderElements(es));
          ElementsStart(s, i + 1, es);
          ListStep(s, i, i + 1 + |es.before|, d);
          ElementsComplete(s, i + 1, es, d);
        case Object(ms) =>
          AtSplit(s, i, ['{'], RenderMembers(ms));
          MembersStart(s, i + 1, ms);
          MapStep(s, i, i + 1 + |ms.member.before|, d);
          MembersComplete(s, i + 1, ms, d);
        case _ => WordComplete(s, i, Render(t), d);
      }
    } else {
      TooDeepAt(s, i, Render(t), d);
    }
  }

  lemma {:induction false} TooDeepAt(s: string, i: nat, p: string, d: nat)
    requires At(s, i, p) && d > MAX_DEPTH
    ensures ValueAt(s, i, d, false) == Err(TooDeep)
  {
  }

  lemma {:induction false} NumberTreeComplete(s: string, i: nat, n: Number, d: nat)
    requires d <= MAX_DEPTH && ValidNumber(n)
    requires At(s, i, NumberText(n)) && NumberStops(n, Peek(s, i + |NumberText(n)|))
    ensures ValueAt(s, i, d, false) == Ok(NumberValue(n), i + |NumberText(n)|)
  {
    hide ElementsAt, MembersAt, NumberFrom, StringFrom, ExpectAt, NumberText, NumberValue;
    NumberComplete(s, i, n);
    NumberFirst(n);
    AtFirst(s, i, NumberText(n));
    TokenAt(s, i, "");
  }

  lemma {:induction false} StringTextComplete(s: string, i: nat, xs: seq<Item>)
    requires ValidItems(xs) && At(s, i, StringText(xs))
    ensures i < |s| && s[i] == '"'
    ensures StringFrom(s, i + 1, -1) == Ok(Denote(Pieces(xs)), i + |StringText(xs)|)
  {
    AtSplit(s, i, ['"'], ItemsText(xs) + ['"']);
    AtChar(s, i, '"');
    StringComplete(s, i + 1, xs, -1);
    assert Pending(-1) + Pieces(xs) == Pieces(xs);
  }

  lemma {:induction false} StringTreeComplete(s: string, i: nat, xs: seq<Item>, d: nat)
    requires d <= MAX_DEPTH && ValidItems(xs) && At(s, i, StringText(xs))
    ensures ValueAt(s, i, d, false) == Ok(Str(Denote(Pieces(xs))), i + |StringText(xs)|)
  {
    hide ElementsAt, MembersAt, NumberFrom, StringFrom, ExpectAt, StringText;
    StringTextComplete(s, i, xs);
    TokenAt(s, i, "");
  }

  lemma {:induction false} ClosedAt(s: string, i: nat, open: char, g: string, close: char)
    requires AllWs(g) && !IsWs(close) && !IsWs(open) && At(s, i, [open] + (g + [close]))
    ensures Token(s, i, false) == Ok(open, i + 1)
    ensures Token(s, i + 1, false) == Ok(close, i + |g| + 2)
  {
    AtSplit(s, i, [open], g + [close]);
    AtSplit(s, i + 1, g, [close]);
    TokenChar(s, i, "", open);
    TokenChar(s, i + 1, g, close);
  }

  lemma {:induction false} EmptyComplete(s: string, i: nat, g: string, d: nat)
    requires d <= MAX_DEPTH && AllWs(g)
    ensures At(s, i, ['['] + (g + [']'])) ==> ValueAt(s, i, d, false) == Ok(List([]), i + |g| + 2)
    ensures At(s, i, ['{'] + (g + ['}'])) ==> ValueAt(s, i, d, false) == Ok(Map([]), i + |g| + 2)
  {
    hide ElementsAt, MembersAt, NumberFrom, StringFrom;
    if At(s, i, ['['] + (g + [']'])) { ClosedAt(s, i, '[', g, ']'); }
    if At(s, i, ['{'] + (g + ['}'])) { ClosedAt(s, i, '{', g, '}'); }
  }

  lemma {:induction false} WordComplete(s: string, i: nat, word: string, d: nat)
    requires d <= MAX_DEPTH && word in ["null", "true", "false"] && At(s, i, word)
    ensures ValueAt(s, i, d, false) ==
            Ok(if word == "null" then Null else Bool(word == "true"), i + |word|)
  {
    hide ElementsAt, MembersAt, NumberFrom, StringFrom;
    AtFirst(s, i, word);
    TokenAt(s, i, "");
  }

  lemma {:induction false} ListStep(s: string, i: nat, q: nat, d: nat)
    requires d <= MAX_DEPTH && At(s, i, ['[']) && q < |s| && s[q] != ']' && Token(s, i + 1, false) == Ok(s[q], q + 1)
    ensures ValueAt(s, i, d, false) == AsList(ElementsAt(s, q, d, false))
  {
    hide ElementsAt, MembersAt, NumberFrom, StringFrom, ExpectAt, Gap;
    TokenChar(s, i, "", '[');
  }

  lemma {:induction false} MapStep(s: string, i: nat, q: nat, d: nat)
    requires d <= MAX_DEPTH && At(s, i, ['{']) && q < |s| && s[q] != '}' && Token(s, i + 1, false) == Ok(s[q], q + 1)
    ensures ValueAt(s, i, d, false) == AsMap(MembersAt(s, q, d, false))
  {
    hide ElementsAt, MembersAt, NumberFrom, StringFrom, ExpectAt, Gap;
    TokenChar(s, i, "", '{');
  }

  /** The pieces of a list's text, where they lie. */
  lemma {:induction false} ElementsParts(s: string, p: nat, es: Elements)
    requires At(s, p, RenderElements(es))
    ensures var q := p + |es.before|; var r := q + |Render(es.value)|; var z := r + |es.after|;
            && At(s, p, es.before) && At(s, q, Render(es.value)) && At(s, r, es.after)
            && At(s, z, [if es.LastElement? then ']' else ','])
            && (es.MoreElements? ==> At(s, z + 1, RenderElements(es.rest)))
            && p + |RenderElements(es)| == z + 1 + (if es.LastElement? then 0 else |RenderElements(es.rest)|)
  {
    hide At, Render;
    var tail := if es.LastElement? then [']'] else [','] + RenderElements(es.rest);
    AtSplit(s, p, es.before, Render(es.value) + (es.after + tail));
    AtSplit(s, p + |es.before|, Render(es.value), es.after + tail);
    AtSplit(s, p + |es.before| + |Render(es.value)|, es.after, tail);
    if es.MoreElements? {
      AtSplit(s, p + |es.before| + |Render(es.value)| + |es.after|, [','], RenderElements(es.rest));
    }
  }

  lemma {:induction false} ElementsStart(s: string, p: nat, es: Elements)
    requires ValidElements(es) && At(s, p, RenderElements(es))
    ensures var q := p + |es.before|;
            q < |s| && s[q] != ']' && !IsWs(s[q]) && Token(s, p, false) == Ok(s[q], q + 1)
  {
    hide At, Render, RenderElements, Token, AllWs, Valid;
    ElementsParts(s, p, es);
    ValueStart(s, p, es.before, es.value);
  }

  lemma {:induction false} ValueStart(s: string, p: nat, g: string, t: Tree)
    requires Valid(t) && AllWs(g) && At(s, p, g) && At(s, p + |g|, Render(t))
    ensures var q := p + |g|;
            q < |s| && s[q] != ']' && !IsWs(s[q]) && Token(s, p, false) == Ok(s[q], q + 1)
  {
    FirstChar(t);
    AtFirst(s, p + |g|, Render(t));
    assert StartsValue(s[p + |g|]);
    TokenAt(s, p, g);
  }

  /** After a value and the whitespace behind it comes a delimiter. */
  lemma {:induction false} AfterValue(s: string, r: nat, g: string, c: char)
    requires AllWs(g) && IsDelimiter(c) && !IsWs(c) && At(s, r, g) && At(s, r + |g|, [c])
    ensures IsDelimiter(Peek(s, r))
    ensures Token(s, r, false) == Ok(c, r + |g| + 1)
  {
    TokenChar(s, r, g, c);
    AtChar(s, r + |g|, c);
    if g != "" { AtFirst(s, r, g); }
  }

  lemma {:induction false} ElementsStep(s: string, q: nat, d: nat, r: Result<Value>)
    requires q <= |s| && ValueAt(s, q, d + 1, false) == r
    ensures r.Err? ==> ElementsAt(s, q, d, false) == Err(r.error)
    ensures r.Ok? && Token(s, r.next, false).Ok? ==>
              var c := Token(s, r.next, false);
              && (c.value == ']' ==> ElementsAt(s, q, d, false) == Ok([r.value], c.next))
              && (c.value == ',' && Token(s, c.next, false).Ok? ==>
                    ElementsAt(s, q, d, false) ==
                    Prepend([r.value], ElementsAt(s, Token(s, c.next, false).next - 1, d, false)))
  {
    hide ValueAt, Token;
  }

  lemma {:induction false} ElementsComplete(s: string, p: nat, es: Elements, d: nat)
    requires ValidElements(es) && At(s, p, RenderElements(es))
    ensures ElementsAt(s, p + |es.before|, d, false) ==
            Outcome(d + 1 + ElementsHeight(es) <= MAX_DEPTH, EvalElements(es), p + |RenderElements(es)|)
    decreases es
  {
    hide ValueAt, ElementsAt, Token, Render, RenderElements, Eval, Height, At, AllWs;
    ElementsParts(s, p, es);
    var q := p + |es.before|;
    var r := q + |Render(es.value)|;
    var z := r + |es.after| + 1;
    var c := if es.LastElement? then ']' else ',';
    AfterValue(s, r, es.after, c);
    ValueComplete(s, q, es.value, d + 1);
    ElementsStep(s, q, d, ValueAt(s, q, d + 1, false));
    if es.MoreElements? {
      ElementsStart(s, z, es.rest);
      ElementsComplete(s, z, es.rest, d);
    }
  }

  /** The pieces of one member's text, where they lie. */
  lemma {:induction false} MemberParts(s: string, p: nat, m: Member)
    requires At(s, p, RenderMember(m))
    ensures var q := p + |m.before|; var k := q + |StringText(m.key)|; var c := k + |m.colonBefore|;
            var v := c + 1 + |m.colonAfter|; var r := v + |Render(m.value)|;
            && At(s, p, m.before) && At(s, q, StringText(m.key))
            && At(s, k, m.colonBefore) && At(s, c, [':']) && At(s, c + 1, m.colonAfter)
            && At(s, v, Render(m.value)) && At(s, r, m.after)
            && p + |RenderMember(m)| == r + |m.after|
  {
    hide At, Render, StringText;
    var t2 := m.colonAfter + (Render(m.value) + m.after);
    var t1 := m.colonBefore + ([':'] + t2);
    var k := p + |m.before| + |StringText(m.key)|;
    AtSplit(s, p, m.before, StringText(m.key) + t1);
    AtSplit(s, p + |m.before|, StringText(m.key), t1);
    ColonParts(s, k, m.colonBefore, m.colonAfter, Render(m.value), m.after);
  }

  lemma {:induction false} ColonParts(s: string, k: nat, g: string, h: string, v: string, a: string)
    requires At(s, k, g + ([':'] + (h + (v + a))))
    ensures At(s, k, g) && At(s, k + |g|, [':']) && At(s, k + |g| + 1, h)
    ensures At(s, k + |g| + 1 + |h|, v) && At(s, k + |g| + 1 + |h| + |v|, a)
  {
    hide At;
    AtSplit(s, k, g, [':'] + (h + (v + a)));
    AtSplit(s, k + |g|, [':'], h + (v + a));
    AtSplit(s, k + |g| + 1, h, v + a);
    AtSplit(s, k + |g| + 1 + |h|, v, a);
  }

  lemma {:induction false} MembersParts(s: string, p: nat, ms: Members)
    requires At(s, p, RenderMembers(ms))
    ensures var z := p + |RenderMember(ms.member)|;
            && At(s, p, RenderMember(ms.member))
            && At(s, z, [if ms.LastMember? then '}' else ','])
            && (ms.MoreMembers? ==> At(s, z + 1, RenderMembers(ms.rest)))
            && p + |RenderMembers(ms)| == z + 1 + (if ms.LastMember? then 0 else |RenderMembers(ms.rest)|)
  {
    hide At, RenderMember;
    var tail := if ms.LastMember? then ['}'] else [','] + RenderMembers(ms.rest);
    AtSplit(s, p, RenderMember(ms.member), tail);
    if ms.MoreMembers? {
      AtSplit(s, p + |RenderMember(ms.member)|, [','], RenderMembers(ms.rest));
    }
  }

  lemma {:induction false} MembersStart(s: string, p: nat, ms: Members)
    requires ValidMembers(ms) && At(s, p, RenderMembers(ms))
    ensures var q := p + |ms.member.before|;
            q < |s| && s[q] == '"' && Token(s, p, false) == Ok('"', q + 1)
  {
    hide RenderMember, RenderMembers, StringFrom, Denote, StringText, Pieces;
    MembersParts(s, p, ms);
    var m := ms.member;
    assert ValidMember(m);
    MemberParts(s, p, m);
    StringTextComplete(s, p + |m.before|, m.key);
    TokenAt(s, p, m.before);
  }

  lemma {:induction false} MembersStep(s: string, q: nat, d: nat, r: Result<Entry>)
    requires q < |s| && MemberAt(s, q, d, false) == r
    ensures r.Err? ==> MembersAt(s, q, d, false) == Err(r.error)
    ensures r.Ok? && Token(s, r.next, false).Ok? ==>
              var c := Token(s, r.next, false);
              && (c.value == '}' ==> MembersAt(s, q, d, false) == Ok([r.value], c.next))
              && (c.value == ',' && Token(s, c.next, false).Ok? ==>
                    MembersAt(s, q, d, false) ==
                    Prepend([r.value], MembersAt(s, Token(s, c.next, false).next - 1, d, false)))
  {
    hide MemberAt, Token;
  }

  /** Leading whitespace does not change what a value is. */
  lemma {:induction false} ValueAfterGap(s: string, i: nat, g: string, d: nat)
    requires At(s, i, g) && AllWs(g) && !IsWs(Peek(s, i + |g|))
    ensures ValueAt(s, i, d, false) == ValueAt(s, i + |g|, d, false)
  {
    hide ElementsAt, MembersAt, NumberFrom, StringFrom, ExpectAt;
    SkipWsOver(s, i, g);
  }

  /** A member is read, or refused for its value's depth alone, and `c` follows it. */
  lemma {:induction false} MemberComplete(s: string, p: nat, m: Member, d: nat, c: char)
    requires ValidMember(m) && At(s, p, RenderMember(m)) && At(s, p + |RenderMember(m)|, [c])
    requires IsDelimiter(c) && !IsWs(c)
    ensures var q := p + |m.before|; var r := p + |RenderMember(m)| - |m.after|;
            && q < |s| && Token(s, r, false) == Ok(c, p + |RenderMember(m)| + 1)
            && MemberAt(s, q, d, false) ==
               Outcome(d + 1 + Height(m.value) <= MAX_DEPTH, Entry(Denote(Pieces(m.key)), Eval(m.value)), r)
    decreases m
  {
    hide ValueAt, Token, Render, StringFrom, RenderMember, StringText, Denote, Pieces, SkipWs, At, Eval, Height;
    MemberParts(s, p, m);
    var k := p + |m.before| + |StringText(m.key)|;
    var z := k + |m.colonBefore| + 1;
    var v := z + |m.colonAfter|;
    StringTextComplete(s, p + |m.before|, m.key);
    TokenChar(s, k, m.colonBefore, ':');
    AfterValue(s, v + |Render(m.value)|, m.after, c);
    ValueStart(s, z, m.colonAfter, m.value);
    ValueAfterGap(s, z, m.colonAfter, d + 1);
    ValueComplete(s, v, m.value, d + 1);
  }

  lemma {:induction false} MembersComplete(s: string, p: nat, ms: Members, d: nat)
    requires ValidMembers(ms) && At(s, p, RenderMembers(ms))
    requires p + |ms.member.before| < |s|
    ensures MembersAt(s, p + |ms.member.before|, d, false) ==
            Outcome(d + 1 + MembersHeight(ms) <= MAX_DEPTH, EvalMembers(ms), p + |RenderMembers(ms)|)
    decreases ms
  {
    hide MemberAt, MembersAt, Token, Render, RenderMember, RenderMembers, Eval, Height, Denote, Pieces, AllWs, At;
    MembersParts(s, p, ms);
    var m := ms.member;
    assert ValidMember(m);
    MemberComplete(s, p, m, d, if ms.LastMember? then '}' else ',');
    var q := p + |m.before|;
    MembersStep(s, q, d, MemberAt(s, q, d, false));
    if ms.MoreMembers? {
      var n := p + |RenderMember(m)| + 1;
      MembersStart(s, n, ms.rest);
      MembersComplete(s, n, ms.rest, d);
    }
  }

  // ----- soundness: whatever is read has a tree

  lemma {:induction false} TokenSound(s: string, i: nat) returns (g: string)
    requires i <= |s| && Token(s, i, false).Ok?
    ensures var k := Token(s, i, false).next;
            && i < k <= |s| && k == i + |g| + 1 && AllWs(g) && At(s, i, g) && At(s, i + |g|, [Token(s, i, false).value])
    ensures !IsWs(Token(s, i, false).value)
  {
    var k := Token(s, i, false).next;
    g := s[i..k - 1];
    AtRange(s, i, k - 1);
    AtChar(s, k - 1, s[k - 1]);
  }

  /** What ValueAt saw when it succeeded. */
  lemma {:induction false} ValueCases(s: string, i: nat, d: nat) returns (g: string, c: char)
    requires i <= |s| && ValueAt(s, i, d, false).Ok?
    ensures d <= MAX_DEPTH && AllWs(g) && At(s, i, g) && At(s, i + |g|, [c])
    ensures i + |g| < |s| && Token(s, i, false) == Ok(c, i + |g| + 1)
  {
    hide ElementsAt, MembersAt, NumberFrom, StringFrom, ExpectAt, Gap;
    g := TokenSound(s, i);
    c := Token(s, i, false).value;
  }

  predicate IsTreeAt(s: string, i: nat, t: Tree, next: nat)
  {
    Valid(t) && At(s, i, Render(t)) && next == i + |Render(t)| && Stops(t, Peek(s, next))
  }

  lemma {:induction false} ValueSound(s: string, i: nat, d: nat) returns (g: string, t: Tree)
    requires i <= |s| && ValueAt(s, i, d, false).Ok?
    ensures AllWs(g) && At(s, i, g)
    ensures IsTreeAt(s, i + |g|, t, ValueAt(s, i, d, false).next)
    ensures d + Height(t) <= MAX_DEPTH
    decreases |s| - i, 0
  {
    var c: char;
    g, c := ValueCases(s, i, d);
    if c == '[' && Token(s, i + |g| + 1, false).value != ']' {
      t := ListSound(s, i, g, d);
    } else if c == '{' && Token(s, i + |g| + 1, false).value != '}' {
      t := MapSound(s, i, g, d);
    } else {
      t := LeafSound(s, i, g, c, d);
    }
  }

  lemma {:induction false} LeafSound(s: string, i: nat, g: string, c: char, d: nat) returns (t: Tree)
    requires i <= |s| && ValueAt(s, i, d, false).Ok? && d <= MAX_DEPTH
    requires At(s, i + |g|, [c]) && i + |g| < |s| && Token(s, i, false) == Ok(c, i + |g| + 1)
    requires c == '[' ==> Token(s, i + |g| + 1, false).Ok? && Token(s, i + |g| + 1, false).value == ']'
    requires c == '{' ==> Token(s, i + |g| + 1, false).Ok? && Token(s, i + |g| + 1, false).value == '}'
    ensures IsTreeAt(s, i + |g|, t, ValueAt(s, i, d, false).next) && Height(t) == 0
  {
    hide ElementsAt, MembersAt, NumberFrom, StringFrom, Gap, Token, At, NumberText;
    var q := i + |g|;
    if c == '-' || IsDigit(c) {
      var n := NumberSound(s, q);
      t := NumberTree(n);
    } else if c == '"' {
      var xs := StringSound(s, q + 1, -1);
      AtSplit(s, q, ['"'], ItemsText(xs) + ['"']);
      t := StringTree(xs);
    } else if c == '[' || c == '{' {
      var h := TokenSound(s, q + 1);
      AtSplit(s, q + 1, h, [if c == '[' then ']' else '}']);
      AtSplit(s, q, [c], h + [if c == '[' then ']' else '}']);
      t := if c == '[' then EmptyArray(h) else EmptyObject(h);
    } else {
      t := if c == 'n' then NullTree else if c == 't' then TrueTree else FalseTree;
    }
  }

  lemma {:induction false} ListSound(s: string, i: nat, g: string, d: nat) returns (t: Tree)
    requires i <= |s| && ValueAt(s, i, d, false).Ok? && d <= MAX_DEPTH
    requires At(s, i + |g|, ['[']) && i + |g| < |s| && Token(s, i, false) == Ok('[', i + |g| + 1)
    requires Token(s, i + |g| + 1, false).Ok? ==> Token(s, i + |g| + 1, false).value != ']'
    ensures IsTreeAt(s, i + |g|, t, ValueAt(s, i, d, false).next) && d + Height(t) <= MAX_DEPTH
    decreases |s| - i - |g| - 1, 3
  {
    hide ElementsAt, ValueAt, Token, At, RenderElements;
    var q := i + |g|;
    ListCase(s, i, q, d);
    var h := TokenSound(s, q + 1);
    var es := ElementsSound(s, q + 1, h, d);
    AtSplit(s, q, ['['], RenderElements(es));
    t := Array(es);
  }

  lemma {:induction false} ListCase(s: string, i: nat, q: nat, d: nat)
    requires i <= |s| && ValueAt(s, i, d, false).Ok? && q < |s| && Token(s, i, false) == Ok('[', q + 1)
    requires Token(s, q + 1, false).Ok? ==> Token(s, q + 1, false).value != ']'
    ensures Token(s, q + 1, false).Ok? && ElementsAt(s, Token(s, q + 1, false).next - 1, d, false).Ok?
    ensures ValueAt(s, i, d, false).next == ElementsAt(s, Token(s, q + 1, false).next - 1, d, false).next
  {
    hide ElementsAt, MembersAt, NumberFrom, StringFrom, ExpectAt, Gap, Token;
  }

  /** What ElementsAt saw when it succeeded. */
  lemma {:induction false} ElementsCases(s: string, q: nat, d: nat) returns (r: nat, c: char, z: nat, n: nat)
    requires q <= |s| && ElementsAt(s, q, d, false).Ok?
    ensures ValueAt(s, q, d + 1, false).Ok? && r == ValueAt(s, q, d + 1, false).next <= |s|
    ensures Token(s, r, false) == Ok(c, z) && z <= |s| && (c == ',' || c == ']')
    ensures c != ',' ==> z == n
    ensures c == ',' ==> Token(s, z, false).Ok? && ElementsAt(s, Token(s, z, false).next - 1, d, false).Ok?
    ensures c == ',' ==> n == ElementsAt(s, Token(s, z, false).next - 1, d, false).next
    ensures ElementsAt(s, q, d, false).next == n
  {
    hide ValueAt, Token;
    n := ElementsAt(s, q, d, false).next;
    r := ValueAt(s, q, d + 1, false).next;
    c, z := Token(s, r, false).value, Token(s, r, false).next;
  }

  lemma {:induction false} ElementsSound(s: string, p: nat, h: string, d: nat) returns (es: Elements)
    requires At(s, p, h) && AllWs(h) && ElementsAt(s, p + |h|, d, false).Ok?
    ensures ValidElements(es) && At(s, p, RenderElements(es))
    ensures ElementsAt(s, p + |h|, d, false).next == p + |RenderElements(es)|
    ensures d + 1 + ElementsHeight(es) <= MAX_DEPTH
    decreases |s| - p - |h|, 2
  {
    hide ElementsAt, ValueAt, Token, At, Render, AllWs, RenderElements, Stops;
    AtBound(s, p, h);
    var q := p + |h|;
    var r, c, z, n := ElementsCases(s, q, d);
    var g, t := ValueSound(s, q, d + 1);
    var after := TokenSound(s, r);
    AtSplit(s, p, h, g);
    WsConcat(h, g);
    if c == ']' {
      es := LastElement(h + g, t, after);
      ElementsAssemble(s, p, es, "]");
    } else {
      var h2 := TokenSound(s, z);
      var rest := ElementsSound(s, z, h2, d);
      es := MoreElements(h + g, t, after, rest);
      AtSplit(s, z - 1, [','], RenderElements(rest));
      ElementsAssemble(s, p, es, [','] + RenderElements(rest));
    }
  }

  lemma {:induction false} AtBound(s: string, i: nat, p: string)
    requires At(s, i, p)
    ensures i + |p| <= |s|
  {
  }

  lemma {:induction false} WsConcat(g: string, h: string)
    requires AllWs(g) && AllWs(h)
    ensures AllWs(g + h)
  {
  }

  lemma {:induction false} ElementsAssemble(s: string, p: nat, es: Elements, tail: string)
    requires tail == if es.LastElement? then "]" else [','] + RenderElements(es.rest)
    requires At(s, p, es.before) && At(s, p + |es.before|, Render(es.value))
    requires At(s, p + |es.before| + |Render(es.value)|, es.after)
    requires At(s, p + |es.before| + |Render(es.value)| + |es.after|, tail)
    ensures At(s, p, RenderElements(es))
    ensures |RenderElements(es)| == |es.before| + |Render(es.value)| + |es.after| + |tail|
  {
    hide At, Render;
    AtSplit(s, p + |es.before| + |Render(es.value)|, es.after, tail);
    AtSplit(s, p + |es.before|, Render(es.value), es.after + tail);
    AtSplit(s, p, es.before, Render(es.value) + (es.after + tail));
  }

  lemma {:induction false} MapSound(s: string, i: nat, g: string, d: nat) returns (t: Tree)
    requires i <= |s| && ValueAt(s, i, d, false).Ok? && d <= MAX_DEPTH
    requires At(s, i + |g|, ['{']) && i + |g| < |s| && Token(s, i, false) == Ok('{', i + |g| + 1)
    requires Token(s, i + |g| + 1, false).Ok? ==> Token(s, i + |g| + 1, false).value != '}'
    ensures IsTreeAt(s, i + |g|, t, ValueAt(s, i, d, false).next) && d + Height(t) <= MAX_DEPTH
    decreases |s| - i - |g| - 1, 3
  {
    hide MembersAt, ValueAt, Token, At, RenderMembers;
    var q := i + |g|;
    MapCase(s, i, q, d);
    var h := TokenSound(s, q + 1);
    AtBound(s, q + 1, h);
    var ms := MembersSound(s, q + 1, h, d);
    AtSplit(s, q, ['{'], RenderMembers(ms));
    t := Object(ms);
  }

  lemma {:induction false} MapCase(s: string, i: nat, q: nat, d: nat)
    requires i <= |s| && ValueAt(s, i, d, false).Ok? && q < |s| && Token(s, i, false) == Ok('{', q + 1)
    requires Token(s, q + 1, false).Ok? ==> Token(s, q + 1, false).value != '}'
    ensures Token(s, q + 1, false).Ok? && MembersAt(s, Token(s, q + 1, false).next - 1, d, false).Ok?
    ensures ValueAt(s, i, d, false).next == MembersAt(s, Token(s, q + 1, false).next - 1, d, false).next
  {
    hide ElementsAt, MembersAt, NumberFrom, StringFrom, ExpectAt, Gap, Token;
  }

  /** What MembersAt saw when it succeeded. */
  lemma {:induction false} MembersCases(s: string, q: nat, d: nat) returns (r: nat, c: char, z: nat, n: nat)
    requires q < |s| && MembersAt(s, q, d, false).Ok?
    ensures MemberAt(s, q, d, false).Ok? && r == MemberAt(s, q, d, false).next <= |s|
    ensures Token(s, r, false) == Ok(c, z) && z <= |s| && (c == ',' || c == '}')
    ensures c != ',' ==> z == n
    ensures c == ',' ==> Token(s, z, false).Ok? && MembersAt(s, Token(s, z, false).next - 1, d, false).Ok?
    ensures c == ',' ==> n == MembersAt(s, Token(s, z, false).next - 1, d, false).next
    ensures MembersAt(s, q, d, false).next == n
  {
    hide MemberAt, Token;
    n := MembersAt(s, q, d, false).next;
    r := MemberAt(s, q, d, false).next;
    c, z := Token(s, r, false).value, Token(s, r, false).next;
  }

  /** What MemberAt saw when it succeeded. */
  lemma {:induction false} MemberCases(s: string, q: nat, d: nat) returns (k: nat, z: nat)
    requires q < |s| && MemberAt(s, q, d, false).Ok?
    ensures s[q] == '"' && StringFrom(s, q + 1, -1).Ok? && k == StringFrom(s, q + 1, -1).next <= |s|
    ensures Token(s, k, false) == Ok(':', z) && z <= |s|
    ensures ValueAt(s, z, d + 1, false).Ok? && MemberAt(s, q, d, false).next == ValueAt(s, z, d + 1, false).next
  {
    hide ValueAt, Token, StringFrom;
    k := StringFrom(s, q + 1, -1).next;
    z := Token(s, k, false).next;
  }

  /** A member that was read, behind whitespace `h`, followed by whitespace `after`. */
  lemma {:induction false} MemberSound(s: string, p: nat, h: string, d: nat, after: string) returns (m: Member)
    requires At(s, p, h) && AllWs(h) && p + |h| < |s| && MemberAt(s, p + |h|, d, false).Ok?
    requires AllWs(after) && At(s, MemberAt(s, p + |h|, d, false).next, after)
    ensures ValidMember(m) && At(s, p, RenderMember(m))
    ensures MemberAt(s, p + |h|, d, false).next + |after| == p + |RenderMember(m)|
    ensures d + 1 + Height(m.value) <= MAX_DEPTH
    decreases |s| - p - |h|, 1
  {
    hide MemberAt, ValueAt, Token, At, Render, AllWs, RenderMember, StringText, StringFrom, Stops;
    var q := p + |h|;
    var k, z := MemberCases(s, q, d);
    var colonAfter, t := ValueSound(s, z, d + 1);
    var key := KeySound(s, q, k);
    var colonBefore := TokenSound(s, k);
    m := Member(h, key, colonBefore, colonAfter, t, after);
    MemberAssemble(s, p, m);
  }

  lemma {:induction false} MembersSound(s: string, p: nat, h: string, d: nat) returns (ms: Members)
    requires At(s, p, h) && AllWs(h) && p + |h| < |s| && MembersAt(s, p + |h|, d, false).Ok?
    ensures ValidMembers(ms) && At(s, p, RenderMembers(ms))
    ensures MembersAt(s, p + |h|, d, false).next == p + |RenderMembers(ms)|
    ensures d + 1 + MembersHeight(ms) <= MAX_DEPTH
    decreases |s| - p - |h|, 2
  {
    hide MembersAt, MemberAt, Token, At, AllWs, RenderMember, RenderMembers;
    var q := p + |h|;
    var r, c, z, n := MembersCases(s, q, d);
    var after := TokenSound(s, r);
    var m := MemberSound(s, p, h, d, after);
    if c == '}' {
      ms := LastMember(m);
      MembersAssemble(s, p, ms, "}");
    } else {
      var h2 := TokenSound(s, z);
      var rest := MembersSound(s, z, h2, d);
      ms := MoreMembers(m, rest);
      AtSplit(s, z - 1, [','], RenderMembers(rest));
      MembersAssemble(s, p, ms, [','] + RenderMembers(rest));
    }
  }

  lemma {:induction false} KeySound(s: string, q: nat, k: nat) returns (key: seq<Item>)
    requires q < |s| && s[q] == '"' && StringFrom(s, q + 1, -1).Ok? && k == StringFrom(s, q + 1, -1).next
    ensures ValidItems(key) && At(s, q, StringText(key)) && k == q + |StringText(key)|
  {
    key := StringSound(s, q + 1, -1);
    AtChar(s, q, '"');
    AtSplit(s, q, ['"'], ItemsText(key) + ['"']);
  }

  lemma {:induction false} MemberAssemble(s: string, p: nat, m: Member)
    requires var q := p + |m.before|; var k := q + |StringText(m.key)|; var c := k + |m.colonBefore|;
             var v := c + 1 + |m.colonAfter|; var r := v + |Render(m.value)|;
             && At(s, p, m.before) && At(s, q, StringText(m.key))
             && At(s, k, m.colonBefore) && At(s, c, [':']) && At(s, c + 1, m.colonAfter)
             && At(s, v, Render(m.value)) && At(s, r, m.after)
    ensures At(s, p, RenderMember(m))
    ensures |RenderMember(m)| == |m.before| + |StringText(m.key)| + |m.colonBefore| + 1 + |m.colonAfter|
                                 + |Render(m.value)| + |m.after|
  {
    hide At, Render, StringText;
    var k := p + |m.before| + |StringText(m.key)|;
    var v := k + |m.colonBefore| + 1 + |m.colonAfter|;
    var t3 := Render(m.value) + m.after;
    var t2 := m.colonAfter + t3;
    var t1 := m.colonBefore + ([':'] + t2);
    AtSplit(s, v, Render(m.value), m.after);
    AtSplit(s, k + |m.colonBefore| + 1, m.colonAfter, t3);
    AtSplit(s, k + |m.colonBefore|, [':'], t2);
    AtSplit(s, k, m.colonBefore, [':'] + t2);
    AtSplit(s, p + |m.before|, StringText(m.key), t1);
    AtSplit(s, p, m.before, StringText(m.key) + t1);
  }

  lemma {:induction false} MembersAssemble(s: string, p: nat, ms: Members, tail: string)
    requires tail == if ms.LastMember? then "}" else [','] + RenderMembers(ms.rest)
    requires At(s, p, RenderMember(ms.member)) && At(s, p + |RenderMember(ms.member)|, tail)
    ensures At(s, p, RenderMembers(ms)) && |RenderMembers(ms)| == |RenderMember(ms.member)| + |tail|
  {
    hide At, RenderMember;
    AtSplit(s, p, RenderMember(ms.member), tail);
  }
}
