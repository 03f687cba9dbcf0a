/** What the escapes of a string literal stand for, from the hexadecimal digits to the text
    that fromJson returns, and the character classes by their code points. */
module Escapes {
  import opened Text
  import opened Value
  import opened Utf8
  import opened Options
  import opened ParserSpec
  import opened Grammar
  import opened Language

  // ----- four hexadecimal digits

  /** A digit by its place in the sixteen. */
  function Spelled(n: nat, upper: bool): char
    requires n < 16
  {
    if upper then "0123456789ABCDEF"[n] else "0123456789abcdef"[n]
  }

  /** The four digits of a code unit, each in lower or in upper case. */
  function Spelling(u: nat, uppers: seq<bool>): (h: string)
    requires u < 0x10000 && |uppers| == 4
    ensures |h| == 4
  {
    [Spelled(u / 4096, uppers[0]), Spelled(u / 256 % 16, uppers[1]), Spelled(u / 16 % 16, uppers[2]),
     Spelled(u % 16, uppers[3])]
  }

  lemma {:induction false} DigitMeaning(n: nat, upper: bool)
    requires n < 16
    ensures IsHex(Spelled(n, upper)) && HexValue(Spelled(n, upper)) == n
  {
  }

  lemma {:induction false} Digits(u: nat)
    ensures u == 4096 * (u / 4096) + 256 * (u / 256 % 16) + 16 * (u / 16 % 16) + u % 16
  {
    assert u / 16 == 16 * (u / 256) + u / 16 % 16;
    assert u / 256 == 16 * (u / 4096) + u / 256 % 16;
  }

  /** The spelling of a code unit, in either case, reads back as that unit. */
  lemma {:induction false} SpellingMeaning(u: nat, uppers: seq<bool>)
    requires u < 0x10000 && |uppers| == 4
    ensures AllHex(Spelling(u, uppers)) && CodeUnit(Spelling(u, uppers)) == u
  {
    hide Spelled, IsHex, HexValue;
    DigitMeaning(u / 4096, uppers[0]);
    DigitMeaning(u / 256 % 16, uppers[1]);
    DigitMeaning(u / 16 % 16, uppers[2]);
    DigitMeaning(u % 16, uppers[3]);
    Digits(u);
  }

  // ----- one-letter escapes

  /** The two-character escapes of section 7 of RFC 8259, and no others, with what they stand for. */
  lemma {:induction false} LetterMeaning(c: char)
    ensures IsSimpleEscape(c) <==> c in "\"\\/bfnrt"
    ensures Unescape('"') as int == 0x22 && Unescape('\\') as int == 0x5C && Unescape('/') as int == 0x2F
    ensures Unescape('b') as int == 0x08 && Unescape('f') as int == 0x0C && Unescape('n') as int == 0x0A
    ensures Unescape('r') as int == 0x0D && Unescape('t') as int == 0x09
  {
  }

  /** The character classes of the grammar, by code points. */
  lemma {:induction false} CharacterClasses(c: char)
    ensures IsWs(c) <==> c as int in {0x20, 0x09, 0x0A, 0x0D}
    ensures IsDigit(c) <==> 0x30 <= c as int <= 0x39
    ensures IsHex(c) <==> 0x30 <= c as int <= 0x39 || 0x41 <= c as int <= 0x46 || 0x61 <= c as int <= 0x66
    ensures IsExpMark(c) <==> c as int == 0x65 || c as int == 0x45
    ensures IsDigit(c) ==> DigitValue(c) == c as int - 0x30
    ensures MAX_DEPTH == 500 && INT_DIGITS == 9
  {
  }

  // ----- surrogates that stand alone

  /** A code unit that pairs with nothing is written in three bytes like any other of its
      size, although RFC 3629 has no such form for surrogates. */
  lemma {:induction false} ThreeByteForm(u: int)
    requires 0x800 <= u < 0x10000
    ensures var r := Encode(u);
            && |r| == 3 && 0xE0 <= r[0] as int < 0xF0 && IsTail(r[1]) && IsTail(r[2])
            && (r[0] as int - 0xE0) * 4096 + (r[1] as int - 0x80) * 64 + (r[2] as int - 0x80) == u
  {
    var a, b, c := u / 4096, u / 64 % 64, u % 64;
    assert u / 64 == a * 64 + b;
  }

  // ----- whole texts

  /** The code units of a scalar value, section 2.1 of RFC 2781. */
  function UnitsOf(pt: int): (us: seq<nat>)
    requires IsScalar(pt)
    ensures forall k :: 0 <= k < |us| ==> us[k] < 0x10000
  {
    if pt < 0x10000 then [pt] else [0xD800 + (pt - 0x10000) / 1024, 0xDC00 + (pt - 0x10000) % 1024]
  }

  function Units(pts: seq<int>): (us: seq<nat>)
    requires forall k :: 0 <= k < |pts| ==> IsScalar(pts[k])
    ensures forall k :: 0 <= k < |us| ==> us[k] < 0x10000
  {
    if pts == [] then [] else UnitsOf(pts[0]) + Units(pts[1..])
  }

  function AsPieces(us: seq<nat>): seq<Piece>
  {
    if us == [] then [] else [Unit(us[0])] + AsPieces(us[1..])
  }

  /** Every unit as a backslash, a u and four digits, each digit in the case asked for. */
  function Escaped(us: seq<nat>, uppers: seq<seq<bool>>): string
    requires |uppers| == |us| && forall k :: 0 <= k < |us| ==> us[k] < 0x10000 && |uppers[k]| == 4
  {
    if us == [] then "" else ("\\u" + Spelling(us[0], uppers[0])) + Escaped(us[1..], uppers[1..])
  }

  function HexItems(us: seq<nat>, uppers: seq<seq<bool>>): (xs: seq<Item>)
    requires |uppers| == |us| && forall k :: 0 <= k < |us| ==> us[k] < 0x10000 && |uppers[k]| == 4
    ensures |xs| == |us|
  {
    if us == [] then [] else [Hex(Spelling(us[0], uppers[0]))] + HexItems(us[1..], uppers[1..])
  }

  lemma {:induction false} ItemsSpelled(us: seq<nat>, uppers: seq<seq<bool>>)
    requires |uppers| == |us| && forall k :: 0 <= k < |us| ==> us[k] < 0x10000 && |uppers[k]| == 4
    ensures ValidItems(HexItems(us, uppers)) && ItemsText(HexItems(us, uppers)) == Escaped(us, uppers)
    ensures Pieces(HexItems(us, uppers)) == AsPieces(us)
  {
    hide Spelling, CodeUnit, AllHex;
    if us != [] {
      var xs, rest := HexItems(us, uppers), HexItems(us[1..], uppers[1..]);
      ItemsSpelled(us[1..], uppers[1..]);
      SpellingMeaning(us[0], uppers[0]);
      assert xs[1..] == rest;
      assert ItemText(xs[0]) == "\\u" + Spelling(us[0], uppers[0]);
      assert Pieces(xs) == [Unit(us[0])] + Pieces(rest);
    }
  }

  lemma {:induction false} PiecesJoin(us: seq<nat>, vs: seq<nat>)
    ensures AsPieces(us + vs) == AsPieces(us) + AsPieces(vs)
  {
    if us == [] {
      assert us + vs == vs;
    } else {
      assert (us + vs)[1..] == us[1..] + vs;
      PiecesJoin(us[1..], vs);
    }
  }

  lemma {:induction false} PiecesOf(pt: int)
    requires IsScalar(pt)
    ensures AsPieces(UnitsOf(pt)) == Utf16(pt)
  {
    var us := UnitsOf(pt);
    if |us| == 2 {
      assert us[1..] == [us[1]] && us[1..][1..] == [];
      assert AsPieces(us[1..]) == [Unit(us[1])];
    } else {
      assert us[1..] == [];
      assert AsPieces(us) == [Unit(us[0])];
    }
  }

  lemma {:induction false} UnitPieces(pts: seq<int>)
    requires forall k :: 0 <= k < |pts| ==> IsScalar(pts[k])
    ensures ToPieces(Scalars(pts)) == AsPieces(Units(pts))
  {
    hide UnitsOf, Utf16;
    if pts != [] {
      UnitPieces(pts[1..]);
      PiecesOf(pts[0]);
      PiecesJoin(UnitsOf(pts[0]), Units(pts[1..]));
      assert Scalars(pts)[1..] == Scalars(pts[1..]);
    }
  }

  /** The quoted escapes of any scalar values, in any mix of cases, are read as a string whose
      RFC 3629 decoding is those values. */
  lemma {:induction false} EscapedTextReads(pts: seq<int>, uppers: seq<seq<bool>>)
    requires forall k :: 0 <= k < |pts| ==> IsScalar(pts[k])
    requires |uppers| == |Units(pts)| && forall k :: 0 <= k < |uppers| ==> |uppers[k]| == 4
    ensures var s := ['"'] + (Escaped(Units(pts), uppers) + ['"']);
            exists t :: FromJson(s, false) == Ok(Str(t), |s|) && DecodeAll(t) == Some(pts)
  {
    hide FromJson, Denote, DecodeAll, Units, Escaped, ToPieces, AsPieces, HexItems, Spelling, Pieces, ItemsText,
      ValidItems;
    var us := Units(pts);
    var xs := HexItems(us, uppers);
    ItemsSpelled(us, uppers);
    UnitPieces(pts);
    EscapedScalarsDecode(pts);
    StringDocument(xs);
  }

  /** A text that is one string. */
  lemma {:induction false} StringDocument(xs: seq<Item>)
    requires ValidItems(xs)
    ensures FromJson(StringText(xs), false) == Ok(Str(Denote(Pieces(xs))), |StringText(xs)|)
  {
    hide FromJson, Denote, StringText, ValidItems;
    var d := Document("", StringTree(xs), "");
    assert DocumentText(d) == StringText(xs);
    DocumentMeaning(d);
  }
}
