/** The code points behind \u escapes: the parser's UTF-8 encoder, the decoder of section 4
    of RFC 3629 as its partner, and the surrogate pairing rule. */
module Utf8 {
  import opened Options

  /** The encoder's shifts and masks work on disjoint bits, so they are sums and remainders.
      A negative argument is the parser's mark for "nothing pending". */
  function Encode(pt: int): (r: string)
    requires pt < 0x110000
  {
    if pt < 0 then ""
    else if pt < 0x80 then [pt as char]
    else if pt < 0x800 then [(pt / 64 + 0xC0) as char, (pt % 64 + 0x80) as char]
    else if pt < 0x10000 then
      [(pt / 4096 + 0xE0) as char, (pt / 64 % 64 + 0x80) as char, (pt % 64 + 0x80) as char]
    else
      [(pt / 262144 + 0xF0) as char, (pt / 4096 % 64 + 0x80) as char,
       (pt / 64 % 64 + 0x80) as char, (pt % 64 + 0x80) as char]
  }

  predicate IsHigh(u: int) { 0xD800 <= u <= 0xDBFF }

  predicate IsLow(u: int) { 0xDC00 <= u <= 0xDFFF }

  predicate IsScalar(pt: int) { 0 <= pt < 0x110000 && !IsHigh(pt) && !IsLow(pt) }

  /** The code point of a surrogate pair, section 2.2 of RFC 2781. */
  function Pair(high: int, low: int): (pt: int)
    requires IsHigh(high) && IsLow(low)
    ensures 0x10000 <= pt < 0x110000
  {
    (high - 0xD800) * 1024 + (low - 0xDC00) + 0x10000
  }

  predicate IsTail(c: char) { 0x80 <= c as int <= 0xBF }

  /** One character by the syntax of section 4 of RFC 3629: shortest forms only, no
      surrogates, nothing past U+10FFFF. */
  function DecodeOne(s: string): Option<(int, nat)>
  {
    if s == "" then None
    else
      var b0 := s[0] as int;
      if b0 <= 0x7F then Some((b0, 1))
      else if 0xC2 <= b0 <= 0xDF && |s| >= 2 && IsTail(s[1]) then
        Some(((b0 - 0xC0) * 64 + (s[1] as int - 0x80), 2))
      else if 0xE0 <= b0 <= 0xEF && |s| >= 3 && IsTail(s[1]) && IsTail(s[2])
              && (b0 == 0xE0 ==> s[1] as int >= 0xA0) && (b0 == 0xED ==> s[1] as int <= 0x9F) then
        Some(((b0 - 0xE0) * 4096 + (s[1] as int - 0x80) * 64 + (s[2] as int - 0x80), 3))
      else if 0xF0 <= b0 <= 0xF4 && |s| >= 4 && IsTail(s[1]) && IsTail(s[2]) && IsTail(s[3])
              && (b0 == 0xF0 ==> s[1] as int >= 0x90) && (b0 == 0xF4 ==> s[1] as int <= 0x8F) then
        Some(((b0 - 0xF0) * 262144 + (s[1] as int - 0x80) * 4096 + (s[2] as int - 0x80) * 64
              + (s[3] as int - 0x80), 4))
      else None
  }

  lemma {:induction false} TwoBytes(pt: int)
    requires 0x80 <= pt < 0x800
    ensures 0xC2 <= pt / 64 + 0xC0 <= 0xDF && pt / 64 * 64 + pt % 64 == pt
  {
  }

  lemma {:induction false} ThreeBytes(pt: int)
    requires 0x800 <= pt < 0x10000
    ensures 0xE0 <= pt / 4096 + 0xE0 <= 0xEF
    ensures pt / 4096 * 4096 + pt / 64 % 64 * 64 + pt % 64 == pt
  {
    assert pt / 64 / 64 == pt / 4096;
  }

  lemma {:induction false} FourBytes(pt: int)
    requires 0x10000 <= pt < 0x110000
    ensures 0xF0 <= pt / 262144 + 0xF0 <= 0xF4
    ensures pt / 262144 * 262144 + pt / 4096 % 64 * 4096 + pt / 64 % 64 * 64 + pt % 64 == pt
  {
    assert pt / 64 / 64 == pt / 4096;
    assert pt / 4096 / 64 == pt / 262144;
  }

  /** What the encoder writes for a scalar value is that scalar's one RFC 3629 form. */
  lemma {:induction false} EncodeDecodes(pt: int, rest: string)
    requires IsScalar(pt)
    ensures DecodeOne(Encode(pt) + rest) == Some((pt, |Encode(pt)|))
  {
    var s := Encode(pt) + rest;
    if 0x80 <= pt < 0x800 {
      TwoBytes(pt);
      var a, z := pt / 64, pt % 64;
      assert Encode(pt) == [(a + 0xC0) as char, (z + 0x80) as char];
      assert s[0] as int == a + 0xC0 && s[1] as int == z + 0x80;
    } else if 0x800 <= pt < 0x10000 {
      ThreeBytes(pt);
      var a, b, z := pt / 4096, pt / 64 % 64, pt % 64;
      assert Encode(pt) == [(a + 0xE0) as char, (b + 0x80) as char, (z + 0x80) as char];
      assert s[0] as int == a + 0xE0 && s[1] as int == b + 0x80 && s[2] as int == z + 0x80;
    } else if pt >= 0x10000 {
      FourBytes(pt);
      var a, b, c, z := pt / 262144, pt / 4096 % 64, pt / 64 % 64, pt % 64;
      assert Encode(pt) == [(a + 0xF0) as char, (b + 0x80) as char, (c + 0x80) as char, (z + 0x80) as char];
      assert s[0] as int == a + 0xF0 && s[1] as int == b + 0x80;
      assert s[2] as int == c + 0x80 && s[3] as int == z + 0x80;
    }
  }

  /** A string body as the decoder sees it: plain characters and escaped code units. */
  datatype Piece = Plain(c: char) | Unit(u: int)

  predicate ValidPieces(ps: seq<Piece>)
  {
    forall k :: 0 <= k < |ps| && ps[k].Unit? ==> 0 <= ps[k].u < 0x10000
  }

  predicate StartsWithPair(ps: seq<Piece>)
  {
    |ps| >= 2 && ps[0].Unit? && IsHigh(ps[0].u) && ps[1].Unit? && IsLow(ps[1].u)
  }

  /** The pairing rule: from the left, a high surrogate directly followed by a low one is one
      code point; every other code unit stands for itself. */
  function Denote(ps: seq<Piece>): string
    requires ValidPieces(ps)
  {
    if ps == [] then ""
    else if StartsWithPair(ps) then Encode(Pair(ps[0].u, ps[1].u)) + Denote(ps[2..])
    else if ps[0].Unit? then Encode(ps[0].u) + Denote(ps[1..])
    else [ps[0].c] + Denote(ps[1..])
  }

  /** A text to be written partly escaped: plain characters and scalar values. */
  datatype Symbol = Literal(c: char) | Scalar(pt: int)

  predicate ValidSymbols(xs: seq<Symbol>)
  {
    forall k :: 0 <= k < |xs| && xs[k].Scalar? ==> IsScalar(xs[k].pt)
  }

  /** Section 2.1 of RFC 2781: one code unit, or a surrogate pair from U+10000 on. */
  function Utf16(pt: int): seq<Piece>
  {
    if pt < 0x10000 then [Unit(pt)]
    else [Unit(0xD800 + (pt - 0x10000) / 1024), Unit(0xDC00 + (pt - 0x10000) % 1024)]
  }

  function ToPieces(xs: seq<Symbol>): (ps: seq<Piece>)
    requires ValidSymbols(xs)
    ensures ValidPieces(ps)
  {
    if xs == [] then []
    else (match xs[0] case Literal(c) => [Plain(c)] case Scalar(pt) => Utf16(pt)) + ToPieces(xs[1..])
  }

  function ToUtf8(xs: seq<Symbol>): string
    requires ValidSymbols(xs)
  {
    if xs == [] then ""
    else (match xs[0] case Literal(c) => [c] case Scalar(pt) => Encode(pt)) + ToUtf8(xs[1..])
  }

  /** Well-formed UTF-16 escapes, mixed with plain characters in any way, denote the UTF-8
      of the scalar values they encode. */
  lemma {:induction false} WellFormedEscapes(xs: seq<Symbol>)
    requires ValidSymbols(xs)
    ensures Denote(ToPieces(xs)) == ToUtf8(xs)
  {
    if xs != [] {
      WellFormedEscapes(xs[1..]);
      var ps, tail := ToPieces(xs), ToPieces(xs[1..]);
      if xs[0].Literal? {
        assert ps == [Plain(xs[0].c)] + tail && ps[1..] == tail;
      } else if xs[0].pt < 0x10000 {
        assert ps == [Unit(xs[0].pt)] + tail && ps[1..] == tail;
      } else {
        var v := xs[0].pt - 0x10000;
        assert ps == Utf16(xs[0].pt) + tail && ps[2..] == tail;
        assert ps[0].u == 0xD800 + v / 1024 && ps[1].u == 0xDC00 + v % 1024;
        assert Pair(ps[0].u, ps[1].u) == xs[0].pt;
      }
    }
  }

  function DecodeAll(s: string): Option<seq<int>>
    decreases |s|
  {
    if s == "" then Some([])
    else
      match DecodeOne(s)
      case None => None
      case Some((pt, n)) =>
        if n == 0 || n > |s| then None
        else
          match DecodeAll(s[n..])
          case None => None
          case Some(rest) => Some([pt] + rest)
  }

  function Scalars(pts: seq<int>): (xs: seq<Symbol>)
    requires forall k :: 0 <= k < |pts| ==> IsScalar(pts[k])
    ensures ValidSymbols(xs)
  {
    if pts == [] then [] else [Scalar(pts[0])] + Scalars(pts[1..])
  }

  lemma {:induction false} ScalarsDecode(pts: seq<int>)
    requires forall k :: 0 <= k < |pts| ==> IsScalar(pts[k])
    ensures DecodeAll(ToUtf8(Scalars(pts))) == Some(pts)
  {
    if pts != [] {
      ScalarsDecode(pts[1..]);
      var xs := Scalars(pts);
      assert xs[0] == Scalar(pts[0]) && xs[1..] == Scalars(pts[1..]);
      DecodeAllStep(pts[0], ToUtf8(xs[1..]), pts[1..]);
      assert pts == [pts[0]] + pts[1..];
    }
  }

  lemma {:induction false} DecodeAllStep(pt: int, rest: string, pts: seq<int>)
    requires IsScalar(pt) && DecodeAll(rest) == Some(pts)
    ensures DecodeAll(Encode(pt) + rest) == Some([pt] + pts)
  {
    var s, n := Encode(pt) + rest, |Encode(pt)|;
    EncodeDecodes(pt, rest);
    assert s[n..] == rest;
    assert 0 < n <= |s|;
  }

  /** Escaping a sequence of scalar values as UTF-16 code units and reading it back yields
      bytes whose RFC 3629 decoding is that sequence. */
  lemma {:induction false} EscapedScalarsDecode(pts: seq<int>)
    requires forall k :: 0 <= k < |pts| ==> IsScalar(pts[k])
    ensures DecodeAll(Denote(ToPieces(Scalars(pts)))) == Some(pts)
  {
    WellFormedEscapes(Scalars(pts));
    ScalarsDecode(pts);
  }
}
