/** Strings and numbers: the parser reads exactly the lexemes of the grammar. */
module LexemeProofs {
  import opened Text
  import opened Value
  import opened Utf8
  import opened ParserSpec
  import opened Grammar

  // ----- strings

  function Pending(p: int): (ps: seq<Piece>)
    requires IsPending(p)
    ensures ValidPieces(ps)
  {
    if p < 0 then [] else [Unit(p)]
  }

  lemma {:induction false} DenotePlain(p: int, c: char, ps: seq<Piece>)
    requires IsPending(p) && ValidPieces(ps)
    ensures Denote(Pending(p) + ([Plain(c)] + ps)) == Encode(p) + [c] + Denote(ps)
  {
    var qs := [Plain(c)] + ps;
    assert qs[1..] == ps;
    if p < 0 {
      assert Pending(p) + qs == qs;
    } else {
      assert (Pending(p) + qs)[1..] == qs;
    }
  }

  lemma {:induction false} DenoteUnit(p: int, u: int, ps: seq<Piece>)
    requires IsPending(p) && 0 <= u < 0x10000 && ValidPieces(ps)
    ensures Denote(Pending(p) + ([Unit(u)] + ps)) ==
            if IsHigh(p) && IsLow(u) then Encode(Pair(p, u)) + Denote(ps)
            else Encode(p) + Denote([Unit(u)] + ps)
  {
    var qs := [Unit(u)] + ps;
    if p < 0 {
      assert Pending(p) + qs == qs;
      assert Encode(p) + Denote(qs) == Denote(qs);
    } else {
      var rs := Pending(p) + qs;
      assert rs[1..] == qs && rs[2..] == ps;
    }
  }

  lemma {:induction false} DenotePending(p: int)
    requires IsPending(p)
    ensures Denote(Pending(p)) == Encode(p)
  {
    if p >= 0 { assert Pending(p)[1..] == []; }
  }

  /** What one item writes, given what is pending, and what it leaves pending. */
  function Written(p: int, x: Item): string
    requires IsPending(p) && ValidItem(x)
  {
    match x
    case Raw(c) => Encode(p) + [c]
    case Esc(c) => Encode(p) + [Unescape(c)]
    case Hex(h) => if IsHigh(p) && IsLow(CodeUnit(h)) then Encode(Pair(p, CodeUnit(h))) else Encode(p)
  }

  function PendingAfter(p: int, x: Item): (q: int)
    requires IsPending(p) && ValidItem(x)
    ensures IsPending(q)
  {
    if x.Hex? && !(IsHigh(p) && IsLow(CodeUnit(x.h))) then CodeUnit(x.h) else -1
  }

  lemma {:induction false} DenoteItem(p: int, x: Item, ps: seq<Piece>)
    requires IsPending(p) && ValidItem(x) && ValidPieces(ps)
    ensures Denote(Pending(p) + ([ItemPiece(x)] + ps)) == Written(p, x) + Denote(Pending(PendingAfter(p, x)) + ps)
  {
    if x.Hex? { DenoteUnit(p, CodeUnit(x.h), ps); }
    else { DenotePlain(p, ItemPiece(x).c, ps); }
    if PendingAfter(p, x) < 0 { assert Pending(PendingAfter(p, x)) + ps == ps; }
  }

  lemma {:induction false} ItemAt(s: string, i: nat, x: Item)
    requires ValidItem(x) && At(s, i, ItemText(x))
    ensures i < |s| && s[i] == ItemText(x)[0]
    ensures !x.Raw? ==> i + 1 < |s| && s[i + 1] == ItemText(x)[1]
    ensures x.Hex? ==> i + 6 <= |s| && s[i + 2..i + 6] == x.h
  {
    var t := ItemText(x);
    assert s[i] == s[i..i + |t|][0];
    if !x.Raw? {
      assert s[i + 1] == s[i..i + |t|][1];
      if x.Hex? {
        assert s[i + 2..i + 6] == s[i..i + 6][2..] == t[2..] == x.h;
      }
    }
  }

  lemma {:induction false} StringStep(s: string, i: nat, x: Item, p: int)
    requires IsPending(p) && ValidItem(x) && At(s, i, ItemText(x))
    ensures StringFrom(s, i, p) == Prepend(Written(p, x), StringFrom(s, i + |ItemText(x)|, PendingAfter(p, x)))
  {
    ItemAt(s, i, x);
  }

  lemma {:induction false} StringEnds(s: string, i: nat, pending: int)
    requires IsPending(pending) && At(s, i, ItemsText([]) + ['"'])
    ensures StringFrom(s, i, pending) == Ok(Denote(Pending(pending) + Pieces([])), i + |ItemsText([])| + 1)
  {
    hide Denote, Encode;
    assert ItemsText([]) + ['"'] == ['"'];
    AtChar(s, i, '"');
    assert Pending(pending) + Pieces([]) == Pending(pending);
    DenotePending(pending);
  }

  /** The one-pending-code-unit decoder follows the pairing rule. */
  lemma {:induction false} StringComplete(s: string, i: nat, xs: seq<Item>, pending: int)
    requires ValidItems(xs) && IsPending(pending) && At(s, i, ItemsText(xs) + ['"'])
    ensures StringFrom(s, i, pending) ==
            Ok(Denote(Pending(pending) + Pieces(xs)), i + |ItemsText(xs)| + 1)
    decreases |xs|
  {
    hide StringFrom, Denote, At, ItemText, Encode, Written, PendingAfter, ItemPiece, Pending, ValidItem;
    if xs == [] {
      StringEnds(s, i, pending);
    } else {
      var x, rest := xs[0], xs[1..];
      assert ItemsText(xs) + ['"'] == ItemText(x) + (ItemsText(rest) + ['"']);
      AtSplit(s, i, ItemText(x), ItemsText(rest) + ['"']);
      StringStep(s, i, x, pending);
      StringComplete(s, i + |ItemText(x)|, rest, PendingAfter(pending, x));
      DenoteItem(pending, x, Pieces(rest));
    }
  }

  lemma {:induction false} FirstItem(s: string, i: nat, pending: int) returns (x: Item)
    requires i <= |s| && IsPending(pending) && StringFrom(s, i, pending).Ok? && s[i] != '"'
    ensures ValidItem(x) && At(s, i, ItemText(x))
  {
    hide Encode, CodeUnit, Pair, AllHex, Unescape, IsSimpleEscape, Prepend, At;
    if s[i] != '\\' {
      x := Raw(s[i]);
      AtChar(s, i, s[i]);
    } else if s[i + 1] == 'u' {
      x := Hex(s[i + 2..i + 6]);
      HexText(s, i);
    } else {
      x := Esc(s[i + 1]);
      AtRange(s, i, i + 2);
      assert s[i..i + 2] == ItemText(x);
    }
  }

  lemma {:induction false} HexText(s: string, i: nat)
    requires i + 6 <= |s| && s[i] == '\\' && s[i + 1] == 'u'
    ensures At(s, i, ItemText(Hex(s[i + 2..i + 6])))
  {
    assert s[i..i + 6] == ['\\', 'u'] + s[i + 2..i + 6];
  }

  /** Whatever the parser reads as a string is one. */
  lemma {:induction false} StringSound(s: string, i: nat, pending: int) returns (xs: seq<Item>)
    requires i <= |s| && IsPending(pending) && StringFrom(s, i, pending).Ok?
    ensures ValidItems(xs) && At(s, i, ItemsText(xs) + ['"'])
    ensures StringFrom(s, i, pending).next == i + |ItemsText(xs)| + 1
    decreases |s| - i
  {
    hide At, Encode, Written, PendingAfter, CodeUnit, Pair, AllHex, Unescape, IsSimpleEscape, ValidItem;
    if s[i] == '"' {
      xs := [];
      assert ItemsText(xs) + ['"'] == ['"'];
      AtChar(s, i, '"');
    } else {
      var x := FirstItem(s, i, pending);
      StringStep(s, i, x, pending);
      var rest := StringSound(s, i + |ItemText(x)|, PendingAfter(pending, x));
      xs := [x] + rest;
      assert xs[1..] == rest;
      assert ItemsText(xs) + ['"'] == ItemText(x) + (ItemsText(rest) + ['"']);
      AtSplit(s, i, ItemText(x), ItemsText(rest) + ['"']);
    }
  }

  // ----- numbers

  /** What may follow a number so that its longest match ends here. */
  predicate NumberStops(n: Number, next: char)
  {
    && !IsDigit(next)
    && (n.exponent.NoExponent? ==> !IsExpMark(next))
    && (n.exponent.NoExponent? && n.fraction.NoFraction? ==> next != '.')
  }

  lemma {:induction false} AtFirst(s: string, i: nat, p: string)
    requires At(s, i, p) && p != ""
    ensures Peek(s, i) == p[0] && At(s, i + 1, p[1..])
  {
    assert p == [p[0]] + p[1..];
    AtSplit(s, i, [p[0]], p[1..]);
    AtChar(s, i, p[0]);
  }

  lemma {:induction false} WholeComplete(s: string, i: nat, w: string)
    requires At(s, i, w) && SomeDigits(w) && (w[0] == '0' ==> |w| == 1) && !IsDigit(Peek(s, i + |w|))
    ensures WholePart(s, i) == Ok((), i + |w|)
  {
    AtFirst(s, i, w);
    if w[0] != '0' { SkipDigitsOver(s, i + 1, w[1..]); }
  }

  lemma {:induction false} FractionComplete(s: string, i: nat, f: Fraction)
    requires i <= |s| && At(s, i, FractionText(f)) && (f.Fraction? ==> SomeDigits(f.digits))
    requires !IsDigit(Peek(s, i + |FractionText(f)|))
    requires f.NoFraction? ==> Peek(s, i) != '.'
    ensures FractionPart(s, i) == Ok((), i + |FractionText(f)|)
  {
    if f.Fraction? {
      AtFirst(s, i, FractionText(f));
      AtFirst(s, i + 1, f.digits);
      SkipDigitsOver(s, i + 1, f.digits);
    }
  }

  lemma {:induction false} ExponentComplete(s: string, i: nat, e: Exponent)
    requires i <= |s| && At(s, i, ExponentText(e))
    requires e.Exponent? ==> IsExpMark(e.mark) && e.sign in ["", "+", "-"] && SomeDigits(e.digits)
    requires !IsDigit(Peek(s, i + |ExponentText(e)|))
    requires e.NoExponent? ==> !IsExpMark(Peek(s, i))
    ensures ExponentPart(s, i) == Ok((), i + |ExponentText(e)|)
  {
    if e.Exponent? {
      AtFirst(s, i, ExponentText(e));
      assert ExponentText(e)[1..] == e.sign + e.digits;
      AtSplit(s, i + 1, e.sign, e.digits);
      AtFirst(s, i + 1 + |e.sign|, e.digits);
      if e.sign != "" { AtFirst(s, i + 1, e.sign); }
      SkipDigitsOver(s, i + 1 + |e.sign|, e.digits);
    }
  }

  lemma {:induction false} AtNumber(s: string, i: nat, n: Number)
    requires At(s, i, NumberText(n))
    ensures var a := i + |SignText(n.negative)|; var b := a + |n.whole|; var c := b + |FractionText(n.fraction)|;
            && At(s, i, SignText(n.negative)) && At(s, a, n.whole)
            && At(s, b, FractionText(n.fraction)) && At(s, c, ExponentText(n.exponent))
            && i + |NumberText(n)| == c + |ExponentText(n.exponent)|
  {
    hide At;
    var w, f, e := n.whole, FractionText(n.fraction), ExponentText(n.exponent);
    AtSplit(s, i, SignText(n.negative), w + (f + e));
    AtSplit(s, i + |SignText(n.negative)|, w, f + e);
    AtSplit(s, i + |SignText(n.negative)| + |w|, f, e);
  }

  lemma {:induction false} NumberComplete(s: string, i: nat, n: Number)
    requires ValidNumber(n) && At(s, i, NumberText(n)) && NumberStops(n, Peek(s, i + |NumberText(n)|))
    ensures NumberFrom(s, i) == Ok(NumberValue(n), i + |NumberText(n)|)
  {
    hide At, WholePart, FractionPart, ExponentPart, NumberFrom, AllDigits, NumberText, NumberValue, FractionText,
         ExponentText, Peek, IsDigit, IsExpMark;
    AtNumber(s, i, n);
    var a := i + |SignText(n.negative)|;
    var b := a + |n.whole|;
    var c := b + |FractionText(n.fraction)|;
    AfterWhole(s, b, n);
    SignComplete(s, i, n);
    WholeComplete(s, a, n.whole);
    FractionComplete(s, b, n.fraction);
    ExponentComplete(s, c, n.exponent);
    NumberFromParts(s, i, n, a, b, c);
  }

  lemma {:induction false} SignComplete(s: string, i: nat, n: Number)
    requires At(s, i, SignText(n.negative)) && At(s, i + |SignText(n.negative)|, n.whole) && SomeDigits(n.whole)
    ensures Peek(s, i) == '-' <==> n.negative
  {
    AtFirst(s, i + |SignText(n.negative)|, n.whole);
    AtChar(s, i, '-');
  }

  lemma {:induction false} NumberFromParts(s: string, i: nat, n: Number, a: nat, b: nat, c: nat)
    requires ValidNumber(n) && At(s, i, NumberText(n))
    requires (Peek(s, i) == '-' <==> n.negative) && a == (if n.negative then i + 1 else i)
    requires a <= |s| && WholePart(s, a) == Ok((), b) && b == a + |n.whole|
    requires FractionPart(s, b) == Ok((), c) && ExponentPart(s, c) == Ok((), i + |NumberText(n)|)
    requires (Peek(s, b) == '.' <==> n.fraction.Fraction?)
    requires IsExpMark(Peek(s, c)) <==> n.exponent.Exponent?
    ensures NumberFrom(s, i) == Ok(NumberValue(n), i + |NumberText(n)|)
  {
    if n.fraction.NoFraction? && n.exponent.NoExponent? {
      ShortText(n);
      assert s[i..b] == NumberText(n);
    }
  }

  lemma {:induction false} ShortText(n: Number)
    requires ValidNumber(n) && n.fraction.NoFraction? && n.exponent.NoExponent?
    ensures NumberText(n) == SignText(n.negative) + n.whole
    ensures Atoi(NumberText(n)) == if n.negative then 0 - NatOf(n.whole) else NatOf(n.whole)
  {
    var t := NumberText(n);
    assert t == SignText(n.negative) + n.whole;
    if n.negative { assert t[1..] == n.whole; }
    else { assert t == n.whole; }
  }

  lemma {:induction false} AfterWhole(s: string, b: nat, n: Number)
    requires ValidNumber(n) && At(s, b, FractionText(n.fraction))
    requires At(s, b + |FractionText(n.fraction)|, ExponentText(n.exponent))
    requires NumberStops(n, Peek(s, b + |FractionText(n.fraction)| + |ExponentText(n.exponent)|))
    ensures !IsDigit(Peek(s, b)) && !IsDigit(Peek(s, b + |FractionText(n.fraction)|))
    ensures Peek(s, b) == '.' <==> n.fraction.Fraction?
    ensures IsExpMark(Peek(s, b + |FractionText(n.fraction)|)) <==> n.exponent.Exponent?
  {
    if n.fraction.Fraction? { AtFirst(s, b, FractionText(n.fraction)); }
    if n.exponent.Exponent? { AtFirst(s, b + |FractionText(n.fraction)|, ExponentText(n.exponent)); }
  }

  predicate DigitsOnly(t: string) { t != "" && AllDigits(if t[0] == '-' then t[1..] else t) }

  /** What a number is read as: an int for a sign and digits of at most nine characters, and
      otherwise a double with exactly the text that was read. */
  lemma {:induction false} NumberMeaning(s: string, i: nat)
    requires i <= |s| && NumberFrom(s, i).Ok?
    ensures var n := NumberFrom(s, i).next; var t := s[i..n];
      NumberFrom(s, i).value ==
        if DigitsOnly(t) && |t| <= 9 then Int(if t[0] == '-' then 0 - NatOf(t[1..]) else NatOf(t)) else Double(t)
  {
    var a, b := NumberParts(s, i);
    var t := s[i..NumberFrom(s, i).next];
    if !Short(s, i, b) && (Peek(s, b) == '.' || IsExpMark(Peek(s, b))) {
      assert t[b - i] == s[b];
    }
  }

  predicate Short(s: string, i: nat, b: nat)
  {
    Peek(s, b) != '.' && !IsExpMark(Peek(s, b)) && b - i <= INT_DIGITS
  }

  lemma {:induction false} NumberParts(s: string, i: nat) returns (a: nat, b: nat)
    requires i <= |s| && NumberFrom(s, i).Ok?
    ensures a == (if Peek(s, i) == '-' then i + 1 else i) <= |s|
    ensures WholePart(s, a).Ok? && b == WholePart(s, a).next <= |s|
    ensures Short(s, i, b) ==> NumberFrom(s, i).next == b
    ensures !Short(s, i, b) ==> FractionPart(s, b).Ok?
    ensures !Short(s, i, b) ==> ExponentPart(s, FractionPart(s, b).next).Ok?
    ensures !Short(s, i, b) ==> NumberFrom(s, i).next == ExponentPart(s, FractionPart(s, b).next).next
  {
    a := if Peek(s, i) == '-' then i + 1 else i;
    b := WholePart(s, a).next;
  }

  lemma {:induction false} NumberSound(s: string, i: nat) returns (n: Number)
    requires i <= |s| && NumberFrom(s, i).Ok?
    ensures ValidNumber(n) && At(s, i, NumberText(n))
    ensures NumberFrom(s, i).next == i + |NumberText(n)|
    ensures NumberStops(n, Peek(s, i + |NumberText(n)|))
  {
    hide NumberFrom, NumberText, At, WholePart, FractionPart, ExponentPart;
    var a, b := NumberParts(s, i);
    var w := WholeSound(s, a);
    if Short(s, i, b) {
      n := Assemble(s, i, a, w, NoFraction, NoExponent);
    } else {
      var f, e := TailSound(s, b);
      n := Assemble(s, i, a, w, f, e);
    }
  }

  lemma {:induction false} Assemble(s: string, i: nat, a: nat, w: string, f: Fraction, e: Exponent) returns (n: Number)
    requires i <= |s| && a == (if Peek(s, i) == '-' then i + 1 else i) && At(s, a, w)
    requires SomeDigits(w) && (w[0] == '0' ==> |w| == 1)
    requires f != NoFraction || e != NoExponent ==> ValidNumber(Number(false, "0", f, e))
    requires At(s, a + |w|, FractionText(f)) && At(s, a + |w| + |FractionText(f)|, ExponentText(e))
    ensures ValidNumber(n) && At(s, i, NumberText(n))
    ensures n.fraction == f && n.exponent == e
    ensures i + |NumberText(n)| == a + |w| + |FractionText(f)| + |ExponentText(e)|
  {
    n := Number(Peek(s, i) == '-', w, f, e);
    NumberAt(s, i, n);
  }

  lemma {:induction false} TailSound(s: string, b: nat) returns (f: Fraction, e: Exponent)
    requires b <= |s| && !IsDigit(Peek(s, b)) && FractionPart(s, b).Ok? && ExponentPart(s, FractionPart(s, b).next).Ok?
    ensures var c := FractionPart(s, b).next; var d := ExponentPart(s, c).next;
            && At(s, b, FractionText(f)) && c == b + |FractionText(f)|
            && At(s, c, ExponentText(e)) && d == c + |ExponentText(e)|
            && ValidNumber(Number(false, "0", f, e)) && NumberStops(Number(false, "0", f, e), Peek(s, d))
  {
    f := FractionSound(s, b);
    e := ExponentSound(s, FractionPart(s, b).next);
    assert SomeDigits("0");
  }

  lemma {:induction false} NumberAt(s: string, i: nat, n: Number)
    requires i <= |s| && (n.negative ==> Peek(s, i) == '-')
    requires var a := i + |SignText(n.negative)|; var b := a + |n.whole|;
             At(s, a, n.whole) && At(s, b, FractionText(n.fraction)) &&
             At(s, b + |FractionText(n.fraction)|, ExponentText(n.exponent))
    ensures At(s, i, NumberText(n))
  {
    hide At;
    var w, f, e := n.whole, FractionText(n.fraction), ExponentText(n.exponent);
    var a := i + |SignText(n.negative)|;
    AtSplit(s, a + |w|, f, e);
    AtSplit(s, a, w, f + e);
    SignAt(s, i, n.negative);
    AtSplit(s, i, SignText(n.negative), w + (f + e));
  }

  lemma {:induction false} SignAt(s: string, i: nat, negative: bool)
    requires i <= |s| && (negative ==> Peek(s, i) == '-')
    ensures At(s, i, SignText(negative))
  {
    AtChar(s, i, '-');
  }

  lemma {:induction false} WholeSound(s: string, i: nat) returns (w: string)
    requires i <= |s| && WholePart(s, i).Ok?
    ensures SomeDigits(w) && (w[0] == '0' ==> |w| == 1) && At(s, i, w)
    ensures WholePart(s, i).next == i + |w| && !IsDigit(Peek(s, i + |w|))
  {
    w := s[i..WholePart(s, i).next];
    AtRange(s, i, WholePart(s, i).next);
  }

  lemma {:induction false} FractionSound(s: string, i: nat) returns (f: Fraction)
    requires i <= |s| && FractionPart(s, i).Ok?
    ensures f.Fraction? ==> SomeDigits(f.digits) && !IsDigit(Peek(s, FractionPart(s, i).next))
    ensures f.NoFraction? <==> Peek(s, i) != '.'
    ensures At(s, i, FractionText(f)) && FractionPart(s, i).next == i + |FractionText(f)|
  {
    if Peek(s, i) != '.' {
      f := NoFraction;
    } else {
      var j := SkipDigits(s, i + 1);
      f := Fraction(s[i + 1..j]);
      AtChar(s, i, '.');
      AtRange(s, i + 1, j);
      AtSplit(s, i, ['.'], s[i + 1..j]);
      assert j > i + 1;
    }
  }

  lemma {:induction false} ExponentSound(s: string, i: nat) returns (e: Exponent)
    requires i <= |s| && ExponentPart(s, i).Ok?
    ensures e.Exponent? ==> IsExpMark(e.mark) && e.sign in ["", "+", "-"] && SomeDigits(e.digits)
    ensures e.Exponent? ==> !IsDigit(Peek(s, ExponentPart(s, i).next))
    ensures e.NoExponent? <==> !IsExpMark(Peek(s, i))
    ensures At(s, i, ExponentText(e)) && ExponentPart(s, i).next == i + |ExponentText(e)|
  {
    if !IsExpMark(Peek(s, i)) {
      e := NoExponent;
    } else {
      var signed := Peek(s, i + 1) == '+' || Peek(s, i + 1) == '-';
      var j := if signed then i + 2 else i + 1;
      var k := SkipDigits(s, j);
      assert k > j;
      var sign := if signed then [s[i + 1]] else "";
      e := Exponent(s[i], sign, s[j..k]);
      AtChar(s, i, s[i]);
      if signed { AtChar(s, i + 1, s[i + 1]); }
      AtRange(s, j, k);
      AtSplit(s, i + 1, sign, s[j..k]);
      AtSplit(s, i, [s[i]], sign + s[j..k]);
    }
  }
}
