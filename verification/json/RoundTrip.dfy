/** Printing and parsing back: the identity exactly on the values whose ints are short and
    whose nesting is at most 500 levels, compact or indented. */
module RoundTrip {
  import opened Text
  import opened Value
  import opened Utf8
  import opened ParserSpec
  import opened Grammar
  import opened GrammarProofs
  import opened Language
  import opened PrinterSpec

  // ----- ints

  function Pow10(k: nat): (p: nat)
    ensures p > 0
  {
    if k == 0 then 1 else 10 * Pow10(k - 1)
  }

  lemma {:induction false} DecimalMeaning(n: nat)
    ensures SomeDigits(Decimal(n)) && NatOf(Decimal(n)) == n
    ensures Decimal(n)[0] == '0' ==> |Decimal(n)| == 1
    ensures n > 0 ==> Decimal(n)[0] != '0'
  {
    if n >= 10 {
      DecimalMeaning(n / 10);
      var d := Decimal(n);
      assert d[..|d| - 1] == Decimal(n / 10);
    }
  }

  lemma {:induction false} DecimalLength(n: nat, k: nat)
    requires k >= 1
    ensures |Decimal(n)| <= k <==> n < Pow10(k)
  {
    if n >= 10 && k >= 2 {
      DecimalLength(n / 10, k - 1);
    } else if n >= 10 {
      DecimalMeaning(n / 10);
      assert Pow10(1) == 10 * Pow10(0);
    } else {
      Pow10AtLeastTen(k);
    }
  }

  lemma {:induction false} Pow10AtLeastTen(k: nat)
    requires k >= 1
    ensures Pow10(k) >= 10
  {
    if k > 1 { Pow10AtLeastTen(k - 1); }
  }

  predicate IntFits(n: int) { -99999999 <= n <= 999999999 }

  function IntNumber(n: int): Number { Number(n < 0, Decimal(Abs(n)), NoFraction, NoExponent) }

  lemma {:induction false} NineDigits()
    ensures Pow10(8) == 100000000 && Pow10(9) == 1000000000
  {
    assert Pow10(2) == 100;
    assert Pow10(4) == 10000;
    assert Pow10(6) == 1000000;
    assert Pow10(8) == 100000000;
  }

  lemma {:induction false} IntMeaning(n: int)
    ensures ValidNumber(IntNumber(n)) && NumberText(IntNumber(n)) == IntText(n)
    ensures NumberValue(IntNumber(n)) == Int(n) <==> IntFits(n)
  {
    hide Decimal, NatOf, Pow10;
    DecimalMeaning(Abs(n));
    assert NumberText(IntNumber(n)) == IntText(n);
    NineDigits();
    DecimalLength(Abs(n), if n < 0 then 8 else 9);
  }

  // ----- strings

  lemma {:induction false} ItemMeaning(t: string, rest: seq<Piece>)
    requires t != "" && ValidPieces(rest)
    ensures Denote([ItemPiece(ItemOf(t))] + rest) == t[..ItemWidth(t)] + Denote(rest)
  {
    hide Encode, Denote, ItemPiece;
    PieceOf(t);
    OnePiece(ItemPiece(ItemOf(t)), rest, t[..ItemWidth(t)]);
  }

  lemma {:induction false} OnePiece(p: Piece, rest: seq<Piece>, text: string)
    requires (p.Unit? ==> 0 <= p.u < 0x10000) && ValidPieces(rest)
    requires p.Plain? ==> text == [p.c]
    requires p.Unit? ==> !IsHigh(p.u) && text == Encode(p.u)
    ensures Denote([p] + rest) == text + Denote(rest)
  {
    hide Encode;
    assert ([p] + rest)[1..] == rest;
  }

  /** What the item for the front of a text stands for. */
  lemma {:induction false} PieceOf(t: string)
    requires t != ""
    ensures var p := ItemPiece(ItemOf(t));
            && (p.Plain? ==> t[..ItemWidth(t)] == [p.c])
            && (p.Unit? ==> 0 <= p.u < 0x10000 && !IsHigh(p.u) && t[..ItemWidth(t)] == Encode(p.u))
  {
    var x := ItemOf(t);
    if StartsSeparator(t) {
      SeparatorUnits();
      assert t[..3] == Encode(ItemPiece(x).u);
    } else {
      assert t[..1] == [t[0]];
      if x.Hex? { ControlUnit(t[0]); }
    }
  }

  lemma {:induction false} SeparatorUnits()
    ensures CodeUnit("2028") == 0x2028 && CodeUnit("2029") == 0x2029
    ensures Encode(0x2028) == ['\U{E2}', '\U{80}', '\U{A8}']
    ensures Encode(0x2029) == ['\U{E2}', '\U{80}', '\U{A9}']
  {
  }

  lemma {:induction false} ControlUnit(c: char)
    requires c <= '\U{1F}'
    ensures CodeUnit(['0', '0', HexDigit(c as int / 16), HexDigit(c as int % 16)]) == c as int
    ensures Encode(c as int) == [c]
  {
  }

  /** Escaping then decoding gives the string back, whatever its bytes. */
  lemma {:induction false} StringMeaning(t: string)
    ensures Denote(Pieces(ItemsOf(t))) == t
    decreases |t|
  {
    hide Denote, Pieces, ItemsOf, ItemOf, ItemPiece;
    if t == "" {
      NothingDenoted();
    } else {
      var rest := t[ItemWidth(t)..];
      StringMeaning(rest);
      ItemMeaning(t, Pieces(ItemsOf(rest)));
      PiecesStep(t);
      assert t == t[..ItemWidth(t)] + rest;
    }
  }

  lemma {:induction false} PiecesStep(t: string)
    requires t != ""
    ensures Pieces(ItemsOf(t)) == [ItemPiece(ItemOf(t))] + Pieces(ItemsOf(t[ItemWidth(t)..]))
  {
    hide ItemOf, ItemPiece, ItemWidth;
    assert ItemsOf(t)[1..] == ItemsOf(t[ItemWidth(t)..]);
  }

  lemma {:induction false} NothingDenoted()
    ensures Denote(Pieces(ItemsOf(""))) == ""
  {
  }

  // ----- the tree a printed value has

  function TreeOf(v: Value, depth: int): Tree
    requires NoDoubles(v)
    decreases v, 1
  {
    match v
    case Null => NullTree
    case Bool(b) => if b then TrueTree else FalseTree
    case Int(n) => NumberTree(IntNumber(n))
    case Str(t) => StringTree(ItemsOf(t))
    case List(items) =>
      if items == [] then EmptyArray("") else Array(ElementsOf(items, Indent(Deeper(depth)), Deeper(depth)))
    case Map(entries) =>
      if entries == [] then EmptyObject("") else Object(MembersOf(entries, Indent(Deeper(depth)), Deeper(depth)))
  }

  function ElementsOf(items: seq<Value>, lead: string, depth: int): Elements
    requires items != [] && forall k :: 0 <= k < |items| ==> NoDoubles(items[k])
    decreases items, 0
  {
    var t := TreeOf(items[0], depth);
    if |items| == 1 then LastElement(lead, t, Indent(depth - 1))
    else MoreElements(lead, t, "", ElementsOf(items[1..], [' '] + Indent(depth), depth))
  }

  function MembersOf(es: seq<Entry>, lead: string, depth: int): Members
    requires es != [] && forall k :: 0 <= k < |es| ==> NoDoubles(es[k].value)
    decreases es, 0
  {
    var m := Member(lead, ItemsOf(es[0].key), "", " ", TreeOf(es[0].value, depth),
                    if |es| == 1 then Indent(depth - 1) else "");
    if |es| == 1 then LastMember(m)
    else MoreMembers(m, MembersOf(es[1..], [' '] + Indent(depth), depth))
  }

  predicate IntsFit(v: Value)
  {
    match v
    case Int(n) => IntFits(n)
    case List(items) => forall k :: 0 <= k < |items| ==> IntsFit(items[k])
    case Map(entries) => forall k :: 0 <= k < |entries| ==> IntsFit(entries[k].value)
    case _ => true
  }

  /** How many levels below `v` its deepest value lies. */
  function Depth(v: Value): nat
  {
    match v
    case List(items) => if items == [] then 0 else 1 + ItemsDepth(items)
    case Map(entries) => if entries == [] then 0 else 1 + EntriesDepth(entries)
    case _ => 0
  }

  function ItemsDepth(items: seq<Value>): nat
  {
    if items == [] then 0 else Max(Depth(items[0]), ItemsDepth(items[1..]))
  }

  function EntriesDepth(es: seq<Entry>): nat
  {
    if es == [] then 0 else Max(Depth(es[0].value), EntriesDepth(es[1..]))
  }

  lemma {:induction false} IndentIsWs(depth: int)
    ensures AllWs(Indent(depth)) && AllWs([' '] + Indent(depth))
  {
  }

  lemma {:induction false} TreeMeaning(v: Value, depth: int)
    requires NoDoubles(v) && WellFormed(v)
    ensures Valid(TreeOf(v, depth)) && Height(TreeOf(v, depth)) == Depth(v)
    ensures Eval(TreeOf(v, depth)) == v <==> IntsFit(v)
    decreases v, 1
  {
    match v {
      case Int(n) => IntMeaning(n);
      case Str(t) => StringMeaning(t);
      case List(items) =>
        if items != [] {
          IndentIsWs(Deeper(depth));
          ElementsMeaning(items, Indent(Deeper(depth)), Deeper(depth));
        }
      case Map(entries) =>
        if entries != [] {
          IndentIsWs(Deeper(depth));
          MembersMeaning(entries, Indent(Deeper(depth)), Deeper(depth));
          var r := EvalMembers(MembersOf(entries, Indent(Deeper(depth)), Deeper(depth)));
          SameKeysSorted(r, entries);
          FromPairsOfSorted(r);
        }
      case _ =>
    }
  }

  lemma {:induction false} ElementsMeaning(items: seq<Value>, lead: string, depth: int)
    requires items != [] && AllWs(lead)
    requires forall k :: 0 <= k < |items| ==> NoDoubles(items[k]) && WellFormed(items[k])
    ensures ValidElements(ElementsOf(items, lead, depth))
    ensures ElementsHeight(ElementsOf(items, lead, depth)) == ItemsDepth(items)
    ensures EvalElements(ElementsOf(items, lead, depth)) == items <==>
            forall k :: 0 <= k < |items| ==> IntsFit(items[k])
    decreases items, 0
  {
    hide WellFormed, NoDoubles, IntsFit, Depth, TreeOf, Height, Eval;
    TreeMeaning(items[0], depth);
    IndentIsWs(depth);
    IndentIsWs(depth - 1);
    var es := ElementsOf(items, lead, depth);
    assert items == [items[0]] + items[1..];
    if |items| > 1 {
      ElementsMeaning(items[1..], [' '] + Indent(depth), depth);
      ConsEqual(Eval(es.value), EvalElements(es.rest), items[0], items[1..]);
    } else {
      assert items[1..] == [];
      ConsEqual(Eval(es.value), [], items[0], []);
    }
  }

  lemma {:induction false} ConsEqual<T>(a: T, s: seq<T>, b: T, t: seq<T>)
    ensures [a] + s == [b] + t <==> a == b && s == t
  {
    if [a] + s == [b] + t {
      assert ([a] + s)[0] == ([b] + t)[0];
      assert ([a] + s)[1..] == ([b] + t)[1..];
      assert ([a] + s)[1..] == s && ([b] + t)[1..] == t;
    }
  }

  predicate SameKeys(r: seq<Entry>, es: seq<Entry>)
  {
    |r| == |es| && forall k :: 0 <= k < |es| ==> r[k].key == es[k].key
  }

  lemma {:induction false} ConsSameKeys(e: Entry, r: seq<Entry>, f: Entry, es: seq<Entry>)
    requires e.key == f.key && SameKeys(r, es)
    ensures SameKeys([e] + r, [f] + es)
  {
  }

  lemma {:induction false} SameKeysSorted(r: seq<Entry>, es: seq<Entry>)
    requires SameKeys(r, es) && Sorted(es)
    ensures Sorted(r)
  {
  }

  /** The keys come back whatever the values do. */
  lemma {:induction false} MembersMeaning(es: seq<Entry>, lead: string, depth: int)
    requires es != [] && AllWs(lead)
    requires forall k :: 0 <= k < |es| ==> NoDoubles(es[k].value) && WellFormed(es[k].value)
    ensures ValidMembers(MembersOf(es, lead, depth))
    ensures MembersHeight(MembersOf(es, lead, depth)) == EntriesDepth(es)
    ensures SameKeys(EvalMembers(MembersOf(es, lead, depth)), es)
    ensures EvalMembers(MembersOf(es, lead, depth)) == es <==>
            forall k :: 0 <= k < |es| ==> IntsFit(es[k].value)
    decreases es, 0
  {
    hide WellFormed, NoDoubles, IntsFit, Depth, TreeOf, Height, Eval, Denote, Pieces, SameKeys;
    TreeMeaning(es[0].value, depth);
    StringMeaning(es[0].key);
    IndentIsWs(depth);
    IndentIsWs(depth - 1);
    var ms := MembersOf(es, lead, depth);
    var e := Entry(es[0].key, Eval(ms.member.value));
    assert es == [es[0]] + es[1..];
    assert ValidMember(ms.member);
    if |es| > 1 {
      MembersMeaning(es[1..], [' '] + Indent(depth), depth);
      ConsEqual(e, EvalMembers(ms.rest), es[0], es[1..]);
      ConsSameKeys(e, EvalMembers(ms.rest), es[0], es[1..]);
    } else {
      assert es[1..] == [];
      ConsEqual(e, [], es[0], []);
      NoKeys();
      ConsSameKeys(e, [], es[0], []);
      assert [e] + [] == [e] && [es[0]] + [] == es;
    }
  }

  lemma {:induction false} NoKeys()
    ensures SameKeys([], [])
  {
  }

  // ----- what is printed

  /** Some container lies below level 500, so that printing it resets the output. */
  predicate Resets(v: Value, depth: int)
  {
    match v
    case List(items) => depth > MAX_DEPTH || exists k :: 0 <= k < |items| && Resets(items[k], Deeper(depth))
    case Map(entries) =>
      depth > MAX_DEPTH || exists k :: 0 <= k < |entries| && Resets(entries[k].value, Deeper(depth))
    case _ => false
  }

  /** Without a reset, printing appends the text of the value's tree. */
  lemma {:induction false} PrintAppends(v: Value, out: string, depth: int)
    requires NoDoubles(v) && !Resets(v, depth)
    ensures PrintInto(v, out, depth) == out + Render(TreeOf(v, depth))
    decreases v, 1
  {
    hide StringText, Decimal, Indent, ItemsOf, ElementsOf, MembersOf, RenderElements, RenderMembers;
    match v {
      case Int(n) => assert NumberText(IntNumber(n)) == IntText(n);
      case List(items) =>
        if items != [] {
          ItemsAppend(items, true, out + "[", Deeper(depth));
          Reassociate(out, "[", RenderElements(ElementsOf(items, Indent(Deeper(depth)), Deeper(depth))));
        }
      case Map(entries) =>
        if entries != [] {
          EntriesAppend(entries, true, out + "{", Deeper(depth));
          Reassociate(out, "{", RenderMembers(MembersOf(entries, Indent(Deeper(depth)), Deeper(depth))));
        }
      case _ =>
    }
  }

  lemma {:induction false} Reassociate(a: string, b: string, c: string)
    ensures a + b + ("" + c) == a + (b + c)
  {
  }

  function Lead(first: bool, depth: int): string
  {
    if first then Indent(depth) else [' '] + Indent(depth)
  }

  lemma {:induction false} ItemsAppend(items: seq<Value>, first: bool, out: string, depth: int)
    requires items != []
    requires forall k :: 0 <= k < |items| ==> NoDoubles(items[k]) && !Resets(items[k], depth)
    ensures PrintItems(items, first, out, depth) + (Indent(depth - 1) + "]") ==
            out + ((if first then "" else ",") + RenderElements(ElementsOf(items, Lead(first, depth), depth)))
    decreases items, 0
  {
    hide Render, TreeOf, NoDoubles, Resets, PrintInto, Indent, Lead;
    var c := if first then "" else ",";
    var o := out + ((if first then "" else ", ") + Indent(depth));
    var r := Render(TreeOf(items[0], depth));
    PrintAppends(items[0], o, depth);
    LeadText(first, depth);
    if |items| == 1 {
      Associate(out, c, Lead(first, depth), r, Indent(depth - 1) + "]");
    } else {
      ItemsAppend(items[1..], false, o + r, depth);
      LeadText(false, depth);
      var rest := [','] + RenderElements(ElementsOf(items[1..], Lead(false, depth), depth));
      Associate(out, c, Lead(first, depth), r, rest);
      assert "" + rest == rest;
    }
  }

  lemma {:induction false} LeadText(first: bool, depth: int)
    ensures (if first then "" else ", ") + Indent(depth) == (if first then "" else ",") + Lead(first, depth)
    ensures Lead(false, depth) == [' '] + Indent(depth)
  {
  }

  lemma {:induction false} Associate(a: string, b: string, c: string, d: string, e: string)
    ensures a + (b + c) + d + e == a + (b + (c + (d + e)))
  {
  }

  lemma {:induction false} EntriesAppend(es: seq<Entry>, first: bool, out: string, depth: int)
    requires es != []
    requires forall k :: 0 <= k < |es| ==> NoDoubles(es[k].value) && !Resets(es[k].value, depth)
    ensures PrintEntries(es, first, out, depth) + (Indent(depth - 1) + "}") ==
            out + ((if first then "" else ",") + RenderMembers(MembersOf(es, Lead(first, depth), depth)))
    decreases es, 0
  {
    hide Render, TreeOf, NoDoubles, Resets, PrintInto, Indent, StringText, ItemsOf, RenderMember, Lead;
    var key := StringText(ItemsOf(es[0].key));
    var o := out + ((if first then "" else ", ") + Indent(depth)) + (key + ": ");
    PrintAppends(es[0].value, o, depth);
    var p := PrintInto(es[0].value, o, depth);
    var m := MembersOf(es, Lead(first, depth), depth).member;
    EntryAppend(out, first, m, depth);
    var c := if first then "" else ",";
    if |es| == 1 {
      assert p + (m.after + "}") == p + m.after + "}";
      assert out + (c + RenderMember(m)) + "}" == out + (c + (RenderMember(m) + "}"));
    } else {
      EntriesAppend(es[1..], false, p, depth);
      LeadText(false, depth);
      var rest := [','] + RenderMembers(MembersOf(es[1..], Lead(false, depth), depth));
      assert p + m.after == p;
      assert out + (c + RenderMember(m)) + rest == out + (c + (RenderMember(m) + rest));
    }
  }

  lemma {:induction false} EntryAppend(out: string, first: bool, m: Member, depth: int)
    requires m.before == Lead(first, depth) && m.colonBefore == "" && m.colonAfter == " "
    ensures out + ((if first then "" else ", ") + Indent(depth)) + (StringText(m.key) + ": ")
            + Render(m.value) + m.after == out + ((if first then "" else ",") + RenderMember(m))
  {
    hide StringText, Indent, Render;
    assert ": " == [':'] + " ";
    LeadText(first, depth);
  }

  /** Nothing but whitespace, or a character that starts no value behind it. */
  predicate BadStart(r: string)
  {
    SkipWs(r, 0) < |r| ==> r[SkipWs(r, 0)] in ",]}"
  }

  predicate Broken(r: string) { BadStart(r) && SkipWs(r, 0) < |r| }

  lemma {:induction false} BrokenAppend(r: string, t: string)
    requires Broken(r)
    ensures Broken(r + t)
  {
    var k := SkipWs(r, 0);
    assert (r + t)[0..k] == r[0..k];
    SkipWsOver(r + t, 0, r[0..k]);
  }

  lemma {:induction false} BadThenClosed(r: string, g: string, c: char, t: string)
    requires BadStart(r) && AllWs(g) && c in ",]}"
    ensures Broken(r + (g + ([c] + t)))
  {
    if Broken(r) {
      BrokenAppend(r, g + ([c] + t));
    } else {
      var w := r + g;
      var u := r + (g + ([c] + t));
      assert AllWs(r) by { assert r[0..|r|] == r; }
      WsConcat(r, g);
      assert u[0..|w|] == w && u[|w|] == c;
      SkipWsOver(u, 0, w);
    }
  }

  lemma {:induction false} CommaBreaks(out: string, indent: string, key: string)
    requires BadStart(out)
    ensures Broken(out + (", " + indent) + key)
  {
    BadThenClosed(out, "", ',', [' '] + indent + key);
    assert out + (", " + indent) + key == out + ("" + ([','] + ([' '] + indent + key)));
  }

  lemma {:induction false} PrintResets(v: Value, out: string, depth: int)
    requires NoDoubles(v) && depth >= 0 && Resets(v, depth)
    ensures BadStart(PrintInto(v, out, depth))
    ensures depth <= MAX_DEPTH ==> Broken(PrintInto(v, out, depth))
    decreases v, 1
  {
    if depth <= MAX_DEPTH {
      IndentIsWs(depth);
      if v.List? {
        var r := PrintItems(v.items, true, out + "[", depth + 1);
        ItemsReset(v.items, true, out + "[", depth + 1);
        BadThenClosed(r, Indent(depth), ']', "");
        assert ["]"[0]] + "" == "]";
      } else {
        var r := PrintEntries(v.entries, true, out + "{", depth + 1);
        EntriesReset(v.entries, true, out + "{", depth + 1);
        BadThenClosed(r, Indent(depth), '}', "");
        assert ["}"[0]] + "" == "}";
      }
    }
  }

  lemma {:induction false} PrintKeepsBroken(v: Value, out: string, depth: int)
    requires NoDoubles(v) && depth >= 0 && Broken(out)
    ensures BadStart(PrintInto(v, out, depth))
    decreases v, 2
  {
    if Resets(v, depth) {
      PrintResets(v, out, depth);
    } else {
      PrintAppends(v, out, depth);
      BrokenAppend(out, Render(TreeOf(v, depth)));
    }
  }

  lemma {:induction false} ItemsReset(items: seq<Value>, first: bool, out: string, depth: int)
    requires depth >= 0 && forall k :: 0 <= k < |items| ==> NoDoubles(items[k])
    requires (!first && BadStart(out)) || exists k :: 0 <= k < |items| && Resets(items[k], depth)
    ensures BadStart(PrintItems(items, first, out, depth))
    decreases items, 0
  {
    if items != [] {
      hide NoDoubles, Resets, PrintInto, Indent, BadStart;
      var o := out + ((if first then "" else ", ") + Indent(depth));
      if Resets(items[0], depth) {
        PrintResets(items[0], o, depth);
        ItemsReset(items[1..], false, PrintInto(items[0], o, depth), depth);
      } else if !first && BadStart(out) {
        CommaBreaks(out, Indent(depth), "");
        assert o + "" == o;
        PrintKeepsBroken(items[0], o, depth);
        ItemsReset(items[1..], false, PrintInto(items[0], o, depth), depth);
      } else {
        var k :| 0 <= k < |items| && Resets(items[k], depth);
        assert items[1..][k - 1] == items[k];
        ItemsReset(items[1..], false, PrintInto(items[0], o, depth), depth);
      }
    }
  }

  lemma {:induction false} EntriesReset(es: seq<Entry>, first: bool, out: string, depth: int)
    requires depth >= 0 && forall k :: 0 <= k < |es| ==> NoDoubles(es[k].value)
    requires (!first && BadStart(out)) || exists k :: 0 <= k < |es| && Resets(es[k].value, depth)
    ensures BadStart(PrintEntries(es, first, out, depth))
    decreases es, 0
  {
    if es != [] {
      hide NoDoubles, Resets, PrintInto, Indent, BadStart, StringText, ItemsOf;
      var key := StringText(ItemsOf(es[0].key)) + ": ";
      var o := out + ((if first then "" else ", ") + Indent(depth)) + key;
      if Resets(es[0].value, depth) {
        PrintResets(es[0].value, o, depth);
        EntriesReset(es[1..], false, PrintInto(es[0].value, o, depth), depth);
      } else if !first && BadStart(out) {
        CommaBreaks(out, Indent(depth), key);
        PrintKeepsBroken(es[0].value, o, depth);
        EntriesReset(es[1..], false, PrintInto(es[0].value, o, depth), depth);
      } else {
        var k :| 0 <= k < |es| && Resets(es[k].value, depth);
        assert es[1..][k - 1] == es[k];
        EntriesReset(es[1..], false, PrintInto(es[0].value, o, depth), depth);
      }
    }
  }

  lemma {:induction false} ResetIsTooDeep(v: Value, depth: nat)
    requires Resets(v, depth)
    ensures depth + Depth(v) > MAX_DEPTH
  {
    if depth <= MAX_DEPTH {
      if v.List? {
        var k :| 0 <= k < |v.items| && Resets(v.items[k], depth + 1);
        ResetIsTooDeep(v.items[k], depth + 1);
        ItemDepth(v.items, k);
      } else {
        var k :| 0 <= k < |v.entries| && Resets(v.entries[k].value, depth + 1);
        ResetIsTooDeep(v.entries[k].value, depth + 1);
        EntryDepth(v.entries, k);
      }
    }
  }

  lemma {:induction false} ItemDepth(items: seq<Value>, k: nat)
    requires k < |items|
    ensures Depth(items[k]) <= ItemsDepth(items)
  {
    if k > 0 { ItemDepth(items[1..], k - 1); }
  }

  lemma {:induction false} EntryDepth(es: seq<Entry>, k: nat)
    requires k < |es|
    ensures Depth(es[k].value) <= EntriesDepth(es)
  {
    if k > 0 { EntryDepth(es[1..], k - 1); }
  }

  lemma {:induction false} CompactNeverResets(v: Value)
    ensures !Resets(v, -1)
  {
    match v {
      case List(items) => forall k | 0 <= k < |items| { CompactNeverResets(items[k]); }
      case Map(entries) => forall k | 0 <= k < |entries| { CompactNeverResets(entries[k].value); }
      case _ =>
    }
  }

  lemma {:induction false} BrokenIsRefused(s: string)
    requires Broken(s)
    ensures FromJson(s, false).Err?
  {
    hide NumberFrom, StringFrom, ElementsAt, MembersAt, ExpectAt;
  }

  /** Parsing what was printed gives the value back exactly when its ints have at most nine
      characters and no value lies below level 500, in compact and in indented form alike. */
  lemma {:induction false} PrintedValueReturns(v: Value, pretty: bool)
    requires WellFormed(v) && NoDoubles(v)
    ensures FromJson(ToJson(v, pretty), false) == Ok(v, |ToJson(v, pretty)|) <==>
            IntsFit(v) && Depth(v) <= MAX_DEPTH
  {
    hide FromJson, PrintInto, TreeOf, Eval, Height, Render, Resets, Depth, IntsFit, BadStart;
    var depth := if pretty then 0 else -1;
    CompactNeverResets(v);
    if Resets(v, depth) {
      PrintResets(v, "", depth);
      BrokenIsRefused(ToJson(v, pretty));
      ResetIsTooDeep(v, 0);
    } else {
      PrintAppends(v, "", depth);
      TreeMeaning(v, depth);
      var d := Document("", TreeOf(v, depth), "");
      assert DocumentText(d) == ToJson(v, pretty);
      DocumentMeaning(d);
    }
  }
}
