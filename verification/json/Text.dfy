/** Positions and character classes shared by the JSON printer and parser. A std::string is
    a `string`; reading one past its end yields the NUL character, as operator[] does. */
module Text {
  const MAX_DEPTH := 500
  const INT_DIGITS := 9

  function Peek(s: string, i: nat): char
  {
    if i < |s| then s[i] else '\0'
  }

  predicate IsWs(c: char) { c == ' ' || c == '\r' || c == '\n' || c == '\t' }

  predicate IsDigit(c: char) { '0' <= c <= '9' }

  predicate IsHex(c: char) { IsDigit(c) || 'a' <= c <= 'f' || 'A' <= c <= 'F' }

  predicate IsExpMark(c: char) { c == 'e' || c == 'E' }

  predicate IsSimpleEscape(c: char)
  {
    c == 'b' || c == 'f' || c == 'n' || c == 'r' || c == 't' || c == '"' || c == '\\' || c == '/'
  }

  function Unescape(c: char): char
  {
    match c
    case 'b' => '\U{8}'
    case 'f' => '\U{C}'
    case 'n' => '\n'
    case 'r' => '\r'
    case 't' => '\t'
    case _ => c
  }

  predicate AllHex(h: string) { forall k :: 0 <= k < |h| ==> IsHex(h[k]) }

  predicate AllWs(s: string) { forall k :: 0 <= k < |s| ==> IsWs(s[k]) }

  predicate AllDigits(s: string) { forall k :: 0 <= k < |s| ==> IsDigit(s[k]) }

  /** `p` occurs in `s` at position `i`. */
  predicate At(s: string, i: nat, p: string)
  {
    i + |p| <= |s| && s[i..i + |p|] == p
  }

  lemma {:induction false} AtSplit(s: string, i: nat, a: string, b: string)
    ensures At(s, i, a + b) <==> At(s, i, a) && At(s, i + |a|, b)
  {
    if At(s, i, a + b) {
      assert s[i..i + |a|] == (a + b)[..|a|] == a;
      assert s[i + |a|..i + |a| + |b|] == (a + b)[|a|..] == b;
    }
  }

  lemma {:induction false} AtChar(s: string, i: nat, c: char)
    ensures At(s, i, [c]) <==> i < |s| && s[i] == c
  {
    if i < |s| {
      assert s[i..i + 1] == [s[i]];
    }
  }

  lemma {:induction false} AtRange(s: string, i: nat, j: nat)
    requires i <= j <= |s|
    ensures At(s, i, s[i..j])
  {
  }

  function SkipWs(s: string, i: nat): (j: nat)
    requires i <= |s|
    ensures i <= j <= |s|
    ensures AllWs(s[i..j])
    ensures j < |s| ==> !IsWs(s[j])
    decreases |s| - i
  {
    if i < |s| && IsWs(s[i]) then
      var j := SkipWs(s, i + 1);
      assert s[i..j] == [s[i]] + s[i + 1..j];
      j
    else i
  }

  function SkipDigits(s: string, i: nat): (j: nat)
    requires i <= |s|
    ensures i <= j <= |s|
    ensures AllDigits(s[i..j])
    ensures !IsDigit(Peek(s, j))
    decreases |s| - i
  {
    if IsDigit(Peek(s, i)) then
      var j := SkipDigits(s, i + 1);
      assert s[i..j] == [s[i]] + s[i + 1..j];
      j
    else i
  }

  lemma {:induction false} SkipWsOver(s: string, i: nat, g: string)
    requires At(s, i, g) && AllWs(g) && !IsWs(Peek(s, i + |g|))
    ensures SkipWs(s, i) == i + |g|
    decreases |g|
  {
    if g != "" {
      assert s[i] == s[i..i + |g|][0] == g[0];
      assert s[i + 1..i + |g|] == g[1..];
      SkipWsOver(s, i + 1, g[1..]);
    }
  }

  lemma {:induction false} SkipDigitsOver(s: string, i: nat, g: string)
    requires At(s, i, g) && AllDigits(g) && !IsDigit(Peek(s, i + |g|))
    ensures SkipDigits(s, i) == i + |g|
    decreases |g|
  {
    if g != "" {
      assert s[i] == s[i..i + |g|][0] == g[0];
      assert s[i + 1..i + |g|] == g[1..];
      SkipDigitsOver(s, i + 1, g[1..]);
    }
  }

  function DigitValue(c: char): nat
    requires IsDigit(c)
  {
    c as int - '0' as int
  }

  /** The number a run of decimal digits denotes. */
  function NatOf(ds: string): nat
    requires AllDigits(ds)
  {
    if ds == "" then 0 else 10 * NatOf(ds[..|ds| - 1]) + DigitValue(ds[|ds| - 1])
  }

  function HexValue(c: char): (v: nat)
    requires IsHex(c)
    ensures v < 16
  {
    if IsDigit(c) then c as int - '0' as int
    else if 'a' <= c <= 'f' then c as int - 'a' as int + 10
    else c as int - 'A' as int + 10
  }

  /** The code unit four hexadecimal digits denote. */
  function CodeUnit(h: string): (u: nat)
    requires |h| == 4 && forall k :: 0 <= k < 4 ==> IsHex(h[k])
    ensures u < 0x10000
  {
    4096 * HexValue(h[0]) + 256 * HexValue(h[1]) + 16 * HexValue(h[2]) + HexValue(h[3])
  }
}
