/** VariantParser as the program runs it: one position, one sticky failure flag, loops that
    append to their results, and the two places that step back to read a token again. Every
    member is proved against the functions of ParserSpec. */
module VariantParser {
  import opened Text
  import opened Value
  import opened Utf8
  import opened Options
  import opened ParserSpec

  lemma {:induction false} PrependNothing<T>(r: Result<seq<T>>)
    ensures Prepend([], r) == r
  {
    if r.Ok? { assert [] + r.value == r.value; }
  }

  lemma {:induction false} PrependTwice<T>(a: seq<T>, b: seq<T>, r: Result<seq<T>>)
    ensures Prepend(a, Prepend(b, r)) == Prepend(a + b, r)
  {
    if r.Ok? { assert a + (b + r.value) == (a + b) + r.value; }
  }

  /** One turn of the loop over a list's elements. */
  lemma {:induction false} ElementsTurn(s: string, p: nat, depth: nat, comments: bool)
    requires p <= |s|
    ensures var r, v := ElementsAt(s, p, depth, comments), ValueAt(s, p, depth + 1, comments);
      if v.Err? then r == Err(v.error)
      else
        var c := Token(s, v.next, comments);
        if c.Err? then r == Err(c.error)
        else if c.value == ']' then r == Ok([v.value], c.next)
        else if c.value != ',' then r == Err(ExpectedCommaInList(c.value))
        else
          var k := Token(s, c.next, comments);
          if k.Err? then r == Err(k.error)
          else r == Prepend([v.value], ElementsAt(s, k.next - 1, depth, comments))
  {
    hide Token, ValueAt;
  }

  /** One turn of the loop over a map's members. */
  lemma {:induction false} MembersTurn(s: string, p: nat, depth: nat, comments: bool)
    requires p < |s|
    ensures var r, m := MembersAt(s, p, depth, comments), MemberAt(s, p, depth, comments);
      if m.Err? then r == Err(m.error)
      else
        var c := Token(s, m.next, comments);
        if c.Err? then r == Err(c.error)
        else if c.value == '}' then r == Ok([m.value], c.next)
        else if c.value != ',' then r == Err(ExpectedCommaInObject(c.value))
        else
          var k := Token(s, c.next, comments);
          if k.Err? then r == Err(k.error)
          else r == Prepend([m.value], MembersAt(s, k.next - 1, depth, comments))
  {
    hide Token, MemberAt;
  }

  /** One turn of the loop over a string literal's characters. */
  lemma {:induction false} StringTurn(s: string, i: nat, p: int)
    requires i <= |s| && IsPending(p)
    ensures var r := StringFrom(s, i, p);
      if i == |s| then r == Err(EndInString)
      else if s[i] == '"' then r == Ok(Encode(p), i + 1)
      else if s[i] < ' ' then r == Err(Unescaped(s[i]))
      else if s[i] != '\\' then r == Prepend(Encode(p) + [s[i]], StringFrom(s, i + 1, -1))
      else if i + 1 == |s| then r == Err(EndInString)
      else if s[i + 1] == 'u' then
        if |s| < i + 6 then r == Err(BadUnicodeEscape(s[i + 2..]))
        else if !AllHex(s[i + 2..i + 6]) then r == Err(BadUnicodeEscape(s[i + 2..i + 6]))
        else
          var u := CodeUnit(s[i + 2..i + 6]);
          if IsHigh(p) && IsLow(u) then r == Prepend(Encode(Pair(p, u)), StringFrom(s, i + 6, -1))
          else r == Prepend(Encode(p), StringFrom(s, i + 6, u))
      else if IsSimpleEscape(s[i + 1]) then
        r == Prepend(Encode(p) + [Unescape(s[i + 1])], StringFrom(s, i + 2, -1))
      else r == Err(InvalidEscape(s[i + 1]))
  {
    hide Encode, CodeUnit, Pair, AllHex, Unescape, IsSimpleEscape;
  }

  lemma {:induction false} MapStarts(s: string, i: nat, depth: nat, comments: bool)
    requires i <= |s|
    ensures var r, t := MapAt(s, i, depth, comments), Token(s, i, comments);
            if t.Err? then r == Err(t.error)
            else if t.value == '}' then r == Ok(Map([]), t.next)
            else r == AsMap(MembersAt(s, t.next - 1, depth, comments))
  {
    hide Token, MembersAt;
  }

  lemma {:induction false} ListStarts(s: string, i: nat, depth: nat, comments: bool)
    requires i <= |s|
    ensures var r, t := ListAt(s, i, depth, comments), Token(s, i, comments);
            if t.Err? then r == Err(t.error)
            else if t.value == ']' then r == Ok(List([]), t.next)
            else r == AsList(ElementsAt(s, t.next - 1, depth, comments))
  {
    hide Token, ElementsAt;
  }

  lemma {:induction false} FromNoPairs()
    ensures FromPairs([]) == []
  {
  }

  lemma {:induction false} FromPairsStep(ps: seq<Entry>, key: string, value: Value)
    ensures FromPairs(ps + [Entry(key, value)]) == Put(FromPairs(ps), key, value)
  {
    assert (ps + [Entry(key, value)])[..|ps|] == ps;
  }

  /** An int literal is digits behind an optional sign. */
  lemma {:induction false} IntLiteral(s: string, i: nat, a: nat, b: nat)
    requires i <= a <= i + 1 && a < b <= |s| && AllDigits(s[a..b])
    requires a == if Peek(s, i) == '-' then i + 1 else i
    ensures var t := s[i..b]; AllDigits(if t[0] == '-' then t[1..] else t)
  {
    assert s[i..b][a - i..] == s[a..b];
  }

  function ValueOr<T>(r: Result<T>, failed: T): T
  {
    match r
    case Ok(v, _) => v
    case Err(_) => failed
  }

  class VariantParser {
    const inString: string
    const comments: bool
    var index: nat
    var isFailed: bool
    var errorString: Option<Error>

    constructor (json: string, comments: bool)
      ensures Valid() && inString == json && this.comments == comments
      ensures index == 0 && !isFailed
    {
      inString := json;
      this.comments := comments;
      index := 0;
      isFailed := false;
      errorString := None;
    }

    ghost predicate Valid()
      reads this
    {
      index <= |inString| && (isFailed <==> errorString.Some?)
    }

    /** The state is what a result of the specification says it is. */
    ghost predicate Reached<T>(r: Result<T>)
      reads this
    {
      match r
      case Ok(_, n) => !isFailed && index == n
      case Err(e) => isFailed && errorString == Some(e)
    }

    /** Only the first failure leaves its message. */
    method Fail(error: Error)
      requires Valid()
      modifies this`isFailed, this`errorString
      ensures Valid() && isFailed
      ensures errorString == if old(isFailed) then old(errorString) else Some(error)
    {
      if !isFailed {
        errorString := Some(error);
      }
      isFailed := true;
    }

    method ConsumeWhitespace()
      requires Valid()
      modifies this`index
      ensures Valid() && index == SkipWs(inString, old(index))
    {
      while IsWs(Peek(inString, index))
        invariant index <= |inString| && SkipWs(inString, index) == SkipWs(inString, old(index))
        decreases |inString| - index
      {
        index := index + 1;
      }
    }

    method ConsumeComment() returns (commentFound: bool)
      requires Valid()
      modifies this
      ensures Valid() && index >= old(index)
      ensures old(isFailed) ==> isFailed && errorString == old(errorString)
      ensures !old(isFailed) && Peek(inString, old(index)) == '/' ==> Reached(Comment(inString, old(index)))
      ensures !old(isFailed) && Peek(inString, old(index)) != '/' ==> !isFailed && index == old(index)
      ensures !isFailed ==> (commentFound <==> Peek(inString, old(index)) == '/')
      ensures isFailed && !old(isFailed) ==> !commentFound
    {
      commentFound := false;
      if Peek(inString, index) == '/' {
        index := index + 1;
        if index == |inString| {
          Fail(EndAfterSlash);
          return false;
        }
        if inString[index] == '/' {
          index := index + 1;
          while index < |inString| && inString[index] != '\n'
            invariant index <= |inString| && index >= old(index) + 2
            invariant isFailed == old(isFailed) && errorString == old(errorString)
            invariant SkipLine(inString, index) == SkipLine(inString, old(index) + 2)
          {
            index := index + 1;
          }
          commentFound := true;
        } else if inString[index] == '*' {
          index := index + 1;
          if index + 2 > |inString| {
            Fail(EndInComment);
            return false;
          }
          while !(inString[index] == '*' && inString[index + 1] == '/')
            invariant index + 2 <= |inString| && index >= old(index) + 2
            invariant isFailed == old(isFailed) && errorString == old(errorString)
            invariant CommentEnd(inString, index) == CommentEnd(inString, old(index) + 2)
            decreases |inString| - index
          {
            index := index + 1;
            if index + 2 > |inString| {
              Fail(EndInComment);
              return false;
            }
          }
          index := index + 2;
          commentFound := true;
        } else {
          Fail(MalformedComment);
          return false;
        }
      }
    }

    method ConsumeGarbage()
      requires Valid()
      modifies this
      ensures Valid() && index >= old(index)
      ensures old(isFailed) ==> isFailed && errorString == old(errorString)
      ensures !old(isFailed) ==> Reached(Gap(inString, old(index), comments))
    {
      ConsumeWhitespace();
      if comments {
        var commentFound := true;
        while commentFound
          invariant Valid() && index >= old(index)
          invariant isFailed == old(isFailed) && errorString == old(errorString)
          invariant !IsWs(Peek(inString, index))
          invariant !isFailed ==> Gap(inString, index, comments) == Gap(inString, old(index), comments)
          invariant !commentFound && !isFailed ==> Peek(inString, index) != '/'
          decreases |inString| - index, commentFound
        {
          ghost var before := index;
          assert SkipWs(inString, index) == index;
          commentFound := ConsumeComment();
          if isFailed {
            return;
          }
          ConsumeWhitespace();
        }
        assert SkipWs(inString, index) == index;
      }
    }

    method GetNextToken() returns (ch: char)
      requires Valid()
      modifies this
      ensures Valid() && index >= old(index)
      ensures old(isFailed) ==> isFailed && errorString == old(errorString)
      ensures !old(isFailed) ==> Reached(Token(inString, old(index), comments))
      ensures isFailed ==> ch == '\0'
      ensures !isFailed ==> index > old(index) && ch == inString[index - 1]
    {
      ConsumeGarbage();
      if isFailed {
        return '\0';
      }
      if index == |inString| {
        Fail(UnexpectedEnd);
        return '\0';
      }
      ch := inString[index];
      index := index + 1;
    }

    method ParseString() returns (out: string)
      requires Valid() && !isFailed
      modifies this
      ensures Valid() && index >= old(index)
      ensures Reached(StringFrom(inString, old(index), -1))
      ensures out == match StringFrom(inString, old(index), -1) case Ok(t, _) => t case Err(_) => ""
    {
      hide Encode, CodeUnit, Pair, IsHex, Unescape, IsSimpleEscape, Prepend, StringFrom;
      out := "";
      var lastEscapedCodepoint: int := -1;
      PrependNothing(StringFrom(inString, index, -1));
      while true
        invariant Valid() && !isFailed && index >= old(index) && IsPending(lastEscapedCodepoint)
        invariant StringFrom(inString, old(index), -1) ==
                  Prepend(out, StringFrom(inString, index, lastEscapedCodepoint))
        decreases |inString| - index
      {
        ghost var written, pending := out, lastEscapedCodepoint;
        StringTurn(inString, index, pending);
        if index == |inString| {
          Fail(EndInString);
          return "";
        }
        var ch := inString[index];
        index := index + 1;
        if ch == '"' {
          out := out + Encode(lastEscapedCodepoint);
          return;
        }
        if ch < ' ' {
          Fail(Unescaped(ch));
          return "";
        }
        if ch != '\\' {
          out := out + Encode(lastEscapedCodepoint);
          lastEscapedCodepoint := -1;
          out := out + [ch];
          PrependTwice(written, Encode(pending) + [ch], StringFrom(inString, index, -1));
          assert out == written + (Encode(pending) + [ch]);
          continue;
        }
        if index == |inString| {
          Fail(EndInString);
          return "";
        }
        ch := inString[index];
        index := index + 1;
        if ch == 'u' {
          var esc := inString[index..Min(|inString|, index + 4)];
          if |esc| < 4 {
            assert esc == inString[index..];
            Fail(BadUnicodeEscape(esc));
            return "";
          }
          if !AllHex(esc) {
            Fail(BadUnicodeEscape(esc));
            return "";
          }
          var codepoint := CodeUnit(esc);
          if IsHigh(lastEscapedCodepoint) && IsLow(codepoint) {
            out := out + Encode(Pair(lastEscapedCodepoint, codepoint));
            lastEscapedCodepoint := -1;
            PrependTwice(written, Encode(Pair(pending, codepoint)), StringFrom(inString, index + 4, -1));
          } else {
            out := out + Encode(lastEscapedCodepoint);
            lastEscapedCodepoint := codepoint;
            PrependTwice(written, Encode(pending), StringFrom(inString, index + 4, codepoint));
          }
          index := index + 4;
          continue;
        }
        out := out + Encode(lastEscapedCodepoint);
        lastEscapedCodepoint := -1;
        var plain := PlainEscape(ch);
        if plain == "" {
          Fail(InvalidEscape(ch));
          return "";
        }
        out := out + plain;
        PrependTwice(written, Encode(pending) + [Unescape(ch)], StringFrom(inString, index, -1));
        assert out == written + (Encode(pending) + [Unescape(ch)]);
      }
    }

    /** The character behind a backslash, translated; empty if no escape has it. */
    method PlainEscape(ch: char) returns (plain: string)
      ensures plain == if IsSimpleEscape(ch) then [Unescape(ch)] else ""
    {
      if ch == 'b' {
        plain := ['\U{8}'];
      } else if ch == 'f' {
        plain := ['\U{C}'];
      } else if ch == 'n' {
        plain := ['\n'];
      } else if ch == 'r' {
        plain := ['\r'];
      } else if ch == 't' {
        plain := ['\t'];
      } else if ch == '"' || ch == '\\' || ch == '/' {
        plain := [ch];
      } else {
        plain := "";
      }
    }

    method ConsumeDigits()
      requires Valid()
      modifies this`index
      ensures Valid() && index == SkipDigits(inString, old(index))
    {
      while IsDigit(Peek(inString, index))
        invariant index <= |inString| && SkipDigits(inString, index) == SkipDigits(inString, old(index))
        decreases |inString| - index
      {
        index := index + 1;
      }
    }

    /** The integer part of parseInNumber. */
    method ParseWhole()
      requires Valid() && !isFailed
      modifies this
      ensures Valid() && index >= old(index) && Reached(WholePart(inString, old(index)))
    {
      if Peek(inString, index) == '0' {
        index := index + 1;
        if IsDigit(Peek(inString, index)) {
          Fail(LeadingZero);
        }
      } else if IsDigit(Peek(inString, index)) {
        index := index + 1;
        ConsumeDigits();
      } else {
        Fail(InvalidInNumber(Peek(inString, index)));
      }
    }

    /** The fraction of parseInNumber. */
    method ParseFraction()
      requires Valid() && !isFailed
      modifies this
      ensures Valid() && index >= old(index) && Reached(FractionPart(inString, old(index)))
    {
      if Peek(inString, index) == '.' {
        index := index + 1;
        if !IsDigit(Peek(inString, index)) {
          Fail(NoFractionDigit);
          return;
        }
        ConsumeDigits();
      }
    }

    /** The exponent of parseInNumber. */
    method ParseExponent()
      requires Valid() && !isFailed
      modifies this
      ensures Valid() && index >= old(index) && Reached(ExponentPart(inString, old(index)))
    {
      if IsExpMark(Peek(inString, index)) {
        index := index + 1;
        if Peek(inString, index) == '+' || Peek(inString, index) == '-' {
          index := index + 1;
        }
        if !IsDigit(Peek(inString, index)) {
          Fail(NoExponentDigit);
          return;
        }
        ConsumeDigits();
      }
    }

    method ParseNumber() returns (v: Value)
      requires Valid() && !isFailed
      modifies this
      ensures Valid() && index >= old(index)
      ensures Reached(NumberFrom(inString, old(index)))
      ensures v == ValueOr(NumberFrom(inString, old(index)), Null)
    {
      hide Atoi, AllDigits, WholePart, FractionPart, ExponentPart;
      var startPos := index;
      if Peek(inString, index) == '-' {
        index := index + 1;
      }
      ghost var whole := index;
      ParseWhole();
      if isFailed {
        return Null;
      }
      if Peek(inString, index) != '.' && !IsExpMark(Peek(inString, index)) && index - startPos <= INT_DIGITS {
        IntLiteral(inString, startPos, whole, index);
        return Int(Atoi(inString[startPos..index]));
      }
      ParseFraction();
      if isFailed {
        return Null;
      }
      ParseExponent();
      if isFailed {
        return Null;
      }
      return Double(inString[startPos..index]);
    }

    method ParseExpect(expected: string, res: Value) returns (v: Value)
      requires Valid() && !isFailed
      modifies this
      ensures Valid() && index + 1 >= old(index)
      ensures old(index) == 0 ==> isFailed && errorString == Some(NothingBefore(expected)) && v == Null
      ensures old(index) > 0 ==>
                Reached(ExpectAt(inString, old(index) - 1, expected, res))
                && v == ValueOr(ExpectAt(inString, old(index) - 1, expected, res), Null)
    {
      if index == 0 {
        Fail(NothingBefore(expected));
        return Null;
      }
      index := index - 1;
      if At(inString, index, expected) {
        index := index + |expected|;
        return res;
      } else {
        Fail(Expected(expected, inString[index..Min(|inString|, index + |expected|)]));
        return Null;
      }
    }

    /** One value. After a failure it reads nothing more and keeps the first message. */
    method ParseIn(depth: nat) returns (v: Value)
      requires Valid()
      modifies this
      ensures Valid() && index >= old(index)
      ensures old(isFailed) ==> isFailed && errorString == old(errorString)
      ensures !old(isFailed) ==> Reached(ValueAt(inString, old(index), depth, comments))
      ensures !old(isFailed) ==> v == Returned(inString, old(index), depth, comments)
      ensures !isFailed ==> v == ValueAt(inString, old(index), depth, comments).value
      decreases if isFailed then 0 else |inString| - index + 1, 0
    {
      hide ElementsAt, MembersAt, ListAt, MapAt, StringFrom, NumberFrom, ExpectAt, Gap, Token;
      if depth > MAX_DEPTH {
        Fail(TooDeep);
        return Null;
      }
      var ch := GetNextToken();
      if isFailed {
        return Null;
      }
      if ch == '-' || IsDigit(ch) {
        index := index - 1;
        v := ParseNumber();
      } else if ch == 't' {
        v := ParseExpect("true", Bool(true));
      } else if ch == 'f' {
        v := ParseExpect("false", Bool(false));
      } else if ch == 'n' {
        v := ParseExpect("null", Null);
      } else if ch == '"' {
        var text := ParseString();
        v := Str(text);
      } else if ch == '{' {
        v := ParseMap(depth);
      } else if ch == '[' {
        v := ParseList(depth);
      } else {
        Fail(ExpectedValue(ch));
        v := Null;
      }
    }

    /** One turn of parseIn's loop over members, up to and including the value. */
    method ParseMember(ch: char, depth: nat) returns (key: string, value: Value)
      requires Valid() && index > 0
      requires if isFailed then ch == '\0' else ch == inString[index - 1]
      modifies this
      ensures Valid() && index >= old(index)
      ensures old(isFailed) ==> isFailed && errorString == old(errorString)
      ensures !old(isFailed) ==> Reached(MemberAt(inString, old(index) - 1, depth, comments))
      ensures !isFailed ==> Entry(key, value) == MemberAt(inString, old(index) - 1, depth, comments).value
      decreases if isFailed then 0 else |inString| - index + 1, 1
    {
      hide ValueAt, StringFrom, Gap, Token;
      if ch != '"' {
        Fail(ExpectedKey(ch));
        return "", Null;
      }
      key := ParseString();
      if isFailed {
        return "", Null;
      }
      var colon := GetNextToken();
      if colon != ':' {
        Fail(ExpectedColon(colon));
        return "", Null;
      }
      value := ParseIn(depth + 1);
    }

    /** parseIn behind an opening brace. */
    method ParseMap(depth: nat) returns (v: Value)
      requires Valid() && !isFailed && index > 0
      modifies this
      ensures Valid() && index >= old(index)
      ensures Reached(MapAt(inString, old(index), depth, comments))
      ensures v == ValueOr(MapAt(inString, old(index), depth, comments), Null)
      decreases |inString| - index + 1, 2
    {
      hide MapAt, MemberAt, MembersAt, ValueAt, ListAt, ElementsAt, StringFrom, Gap, Token, Put, FromPairs, Prepend;
      FromNoPairs();
      MapStarts(inString, index, depth, comments);
      ghost var whole := MapAt(inString, index, depth, comments);
      var data: seq<Entry> := [];
      ghost var pairs: seq<Entry> := [];
      var ch := GetNextToken();
      if ch == '}' {
        return Map(data);
      }
      if !isFailed {
        PrependNothing(MembersAt(inString, index - 1, depth, comments));
      }
      while true
        invariant Valid() && index >= old(index) && (isFailed ==> whole == Err(errorString.value))
        invariant if isFailed then ch == '\0' else index > old(index) && ch == inString[index - 1]
        invariant !isFailed ==>
                    whole == AsMap(Prepend(pairs, MembersAt(inString, index - 1, depth, comments)))
        invariant data == FromPairs(pairs)
        decreases if isFailed then 0 else |inString| - index + 1
      {
        ghost var rest := if isFailed then Err(UnexpectedEnd) else MembersAt(inString, index - 1, depth, comments);
        assert !isFailed ==> whole == AsMap(Prepend(pairs, rest));
        if !isFailed { MembersTurn(inString, index - 1, depth, comments); }
        var key, value := ParseMember(ch, depth);
        if isFailed {
          return Null;
        }
        data := Put(data, key, value);
        FromPairsStep(pairs, key, value);
        ghost var e := Entry(key, value);
        ch := GetNextToken();
        if ch == '}' {
          return Map(data);
        }
        if ch != ',' {
          Fail(ExpectedCommaInObject(ch));
          return Null;
        }
        ch := GetNextToken();
        if !isFailed {
          PrependTwice(pairs, [e], MembersAt(inString, index - 1, depth, comments));
        }
        pairs := pairs + [e];
      }
    }

    /** parseIn behind an opening bracket. The first character of each element is read as a
        token, then handed back. */
    method ParseList(depth: nat) returns (v: Value)
      requires Valid() && !isFailed && index > 0
      modifies this
      ensures Valid() && index + 1 >= old(index)
      ensures Reached(ListAt(inString, old(index), depth, comments))
      ensures v == ValueOr(ListAt(inString, old(index), depth, comments), Null)
      decreases |inString| - index + 1, 2
    {
      hide ListAt, ValueAt, MapAt, MemberAt, MembersAt, StringFrom, NumberFrom, Gap, Token, Returned, Prepend, ElementsAt;
      ListStarts(inString, index, depth, comments);
      ghost var whole := ListAt(inString, index, depth, comments);
      var data: seq<Value> := [];
      var ch := GetNextToken();
      if ch == ']' {
        return List(data);
      }
      if !isFailed {
        PrependNothing(ElementsAt(inString, index - 1, depth, comments));
      }
      while true
        invariant Valid() && index >= old(index) && (isFailed ==> whole == Err(errorString.value))
        invariant !isFailed ==> index > old(index)
        invariant !isFailed ==>
                    whole == AsList(Prepend(data, ElementsAt(inString, index - 1, depth, comments)))
        decreases if isFailed then 0 else |inString| - index + 1
      {
        ghost var read := data;
        index := index - 1;
        ghost var rest := ElementsAt(inString, index, depth, comments);
        assert !isFailed ==> whole == AsList(Prepend(read, rest));
        ElementsTurn(inString, index, depth, comments);
        var value := ParseIn(depth + 1);
        if isFailed {
          return Null;
        }
        data := data + [value];
        ch := GetNextToken();
        if ch == ']' {
          return List(data);
        }
        if ch != ',' {
          Fail(ExpectedCommaInList(ch));
          return Null;
        }
        ch := GetNextToken();
        if !isFailed {
          PrependTwice(read, [value], ElementsAt(inString, index - 1, depth, comments));
        }
      }
    }
  }

  /** Variant::fromJson. */
  method FromJson(json: string, comments: bool) returns (result: Value, error: Option<Error>)
    ensures match ParserSpec.FromJson(json, comments)
            case Ok(v, _) => result == v && error == None
            case Err(e) => result == Null && error == Some(e)
  {
    hide ValueAt, Gap, Returned;
    if json == "" {
      return Null, None;
    }
    var parser := new VariantParser(json, comments);
    result := parser.ParseIn(0);
    parser.ConsumeGarbage();
    if parser.isFailed {
      return Null, parser.errorString;
    }
    if parser.index != |json| {
      parser.Fail(Trailing(json[parser.index]));
      return Null, parser.errorString;
    }
    return result, None;
  }

  /** One turn of the loop over documents. */
  lemma {:induction false} DocumentsTurn(s: string, i: nat, comments: bool)
    requires i <= |s|
    ensures var d := DocumentsAt(s, i, comments);
      if i == |s| then d == Documents([], i, [], None)
      else
        var v := ValueAt(s, i, 0, comments);
        if v.Err? then d == Documents([], i, [Returned(s, i, 0, comments)], Some(v.error))
        else
          var g := Gap(s, v.next, comments);
          if g.Err? then d == Documents([], i, [v.value], Some(g.error))
          else
            var rest := DocumentsAt(s, g.next, comments);
            d == rest.(values := [v.value] + rest.values)
  {
    hide ValueAt, Gap, Returned;
  }

  lemma {:induction false} NoMoreDocuments(s: string, comments: bool)
    ensures DocumentsAt(s, |s|, comments) == Documents([], |s|, [], None)
  {
  }

  /** Variant::fromJsonMulti. A document is appended before its failure is looked at, so a
      failing one leaves an entry too; the stop position stays behind the last good one, and
      for an empty input it is what the caller's variable held before. */
  method FromJsonMulti(json: string, comments: bool, stopPos0: nat)
      returns (variants: seq<Value>, error: Option<Error>, stopPos: nat)
    ensures var d := DocumentsAt(json, 0, comments);
            variants == d.values + d.broken && error == d.error && stopPos == if json == "" then stopPos0 else d.stop
  {
    hide ValueAt, Gap, Returned, DocumentsAt;
    NoMoreDocuments(json, comments);
    variants, stopPos := [], stopPos0;
    if json == "" {
      return variants, None, stopPos;
    }
    stopPos := 0;
    var parser := new VariantParser(json, comments);
    while parser.index != |json| && !parser.isFailed
      invariant parser.Valid() && parser.inString == json && parser.comments == comments
      invariant !parser.isFailed && stopPos == parser.index
      invariant var d := DocumentsAt(json, 0, comments); var rest := DocumentsAt(json, parser.index, comments);
                d == rest.(values := variants + rest.values)
      decreases |json| - parser.index
    {
      ghost var read := variants;
      ghost var rest := DocumentsAt(json, parser.index, comments);
      DocumentsTurn(json, parser.index, comments);
      var value := parser.ParseIn(0);
      variants := variants + [value];
      if parser.isFailed {
        break;
      }
      parser.ConsumeGarbage();
      if parser.isFailed {
        break;
      }
      stopPos := parser.index;
      assert read + ([value] + DocumentsAt(json, stopPos, comments).values)
          == variants + DocumentsAt(json, stopPos, comments).values;
    }
    error := parser.errorString;
  }
}
