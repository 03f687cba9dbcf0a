/** The exact text of a print, written down without an accumulator. */
module Layout {
  import opened Text
  import opened Value
  import opened ParserSpec
  import opened Grammar
  import opened PrinterSpec
  import opened RoundTrip
  import E = Escapes

  // ----- characters

  /** One character of a string as it is printed: the seven short escapes, \u00 and two
      lower-case digits for the other controls, itself for everything else. */
  function PrintedChar(c: char): string
  {
    if c == '"' then "\\\"" else if c == '\\' then "\\\\"
    else if c as int == 0x08 then "\\b" else if c as int == 0x0C then "\\f"
    else if c as int == 0x0A then "\\n" else if c as int == 0x0D then "\\r" else if c as int == 0x09 then "\\t"
    else if c as int < 0x20 then "\\u" + E.Spelling(c as int, [false, false, false, false])
    else [c]
  }

  /** U+2028 or U+2029 in UTF-8 is printed as its escape. */
  function PrintedText(t: string): string
    decreases |t|
  {
    if t == "" then ""
    else if |t| >= 3 && t[..3] == ['\U{E2}', '\U{80}', '\U{A8}'] then "\\u2028" + PrintedText(t[3..])
    else if |t| >= 3 && t[..3] == ['\U{E2}', '\U{80}', '\U{A9}'] then "\\u2029" + PrintedText(t[3..])
    else PrintedChar(t[0]) + PrintedText(t[1..])
  }

  lemma {:induction false} Front(t: string)
    requires t != ""
    ensures ItemText(ItemOf(t)) ==
            if StartsSeparator(t) then (if t[2] == '\U{A8}' then "\\u2028" else "\\u2029") else PrintedChar(t[0])
    ensures StartsSeparator(t) <==>
            |t| >= 3 && (t[..3] == ['\U{E2}', '\U{80}', '\U{A8}'] || t[..3] == ['\U{E2}', '\U{80}', '\U{A9}'])
  {
    if |t| >= 3 {
      assert t[..3] == [t[0], t[1], t[2]];
    }
    if t[0] as int < 0x20 { Control(t[0]); }
  }

  lemma {:induction false} Control(c: char)
    requires c as int < 0x20
    ensures ['0', '0', HexDigit(c as int / 16), HexDigit(c as int % 16)] ==
            E.Spelling(c as int, [false, false, false, false])
  {
  }

  lemma {:induction false} TextPrinted(t: string)
    ensures ItemsText(ItemsOf(t)) == PrintedText(t)
    decreases |t|
  {
    hide ItemOf, PrintedChar, ItemText;
    if t != "" {
      Front(t);
      var rest := t[ItemWidth(t)..];
      TextPrinted(rest);
      assert ItemsOf(t)[1..] == ItemsOf(rest);
    }
  }

  // ----- values

  function Blanks(n: nat): string { if n == 0 then "" else Blanks(n - 1) + " " }

  /** A new line at a level, four blanks for each; nothing in compact form. */
  function Break(level: int): string { if level < 0 then "" else "\n" + Blanks(4 * level) }

  function Inner(level: int): int { if level < 0 then level else level + 1 }

  function IntPrint(n: int): string { if n < 0 then "-" + Decimal(-n) else Decimal(n) }

  function Quoted(t: string): string { "\"" + PrintedText(t) + "\"" }

  /** The print of a value that starts at a level, -1 in compact form. */
  function Print(v: Value, level: int): string
    requires NoDoubles(v)
    decreases v, 1
  {
    match v
    case Null => "null"
    case Bool(b) => if b then "true" else "false"
    case Int(n) => IntPrint(n)
    case Str(t) => Quoted(t)
    case List(items) =>
      if items == [] then "[]"
      else "[" + (Break(Inner(level)) + (Items(items, Inner(level)) + (Break(Inner(level) - 1) + "]")))
    case Map(entries) =>
      if entries == [] then "{}"
      else "{" + (Break(Inner(level)) + (Entries(entries, Inner(level)) + (Break(Inner(level) - 1) + "}")))
  }

  /** Elements with a comma, a blank and a line break between. */
  function Items(items: seq<Value>, level: int): string
    requires items != [] && forall k :: 0 <= k < |items| ==> NoDoubles(items[k])
    decreases items, 0
  {
    Print(items[0], level) + if |items| == 1 then "" else ", " + (Break(level) + Items(items[1..], level))
  }

  /** Members likewise, each with a colon and a blank behind its key. */
  function Entries(es: seq<Entry>, level: int): string
    requires es != [] && forall k :: 0 <= k < |es| ==> NoDoubles(es[k].value)
    decreases es, 0
  {
    (Quoted(es[0].key) + (": " + Print(es[0].value, level)))
    + if |es| == 1 then "" else ", " + (Break(level) + Entries(es[1..], level))
  }

  lemma {:induction false} IndentIsBreak(level: int)
    ensures Indent(level) == Break(level)
  {
    if level >= 0 {
      BlanksAreSpaces(4 * level);
      assert ['\n'] + Spaces(4 * level) == "\n" + Blanks(4 * level);
    }
  }

  lemma {:induction false} BlanksAreSpaces(n: nat)
    ensures Spaces(n) == Blanks(n)
  {
    if n > 0 {
      BlanksAreSpaces(n - 1);
      assert Spaces(n) == Spaces(n - 1) + " ";
    }
  }

  lemma {:induction false} QuotedText(t: string)
    ensures StringText(ItemsOf(t)) == Quoted(t)
  {
    TextPrinted(t);
    assert ['"'] + (PrintedText(t) + ['"']) == "\"" + PrintedText(t) + "\"";
  }

  lemma {:induction false} TreePrint(v: Value, level: int)
    requires NoDoubles(v)
    ensures Render(TreeOf(v, level)) == Print(v, level)
    decreases v, 1
  {
    hide Indent, Break, StringText, Quoted, ItemsOf, RenderElements, RenderMembers, ElementsOf, MembersOf, Items, Entries,
         NumberText, IntPrint, IntNumber;
    match v {
      case Int(n) => IntIsPrinted(n);
      case Str(t) => QuotedText(t);
      case List(items) =>
        if items != [] {
          ItemsPrint(items, Indent(Inner(level)), Inner(level));
          IndentIsBreak(Inner(level));
        }
      case Map(entries) =>
        if entries != [] {
          EntriesPrint(entries, Indent(Inner(level)), Inner(level));
          IndentIsBreak(Inner(level));
        }
      case _ =>
    }
  }

  lemma {:induction false} IntIsPrinted(n: int)
    ensures NumberText(IntNumber(n)) == IntPrint(n)
  {
  }

  lemma {:induction false} ItemsPrint(items: seq<Value>, lead: string, level: int)
    requires items != [] && forall k :: 0 <= k < |items| ==> NoDoubles(items[k])
    ensures RenderElements(ElementsOf(items, lead, level)) == lead + (Items(items, level) + (Break(level - 1) + "]"))
    decreases items, 0
  {
    hide Indent, Break, TreeOf, Render, Print;
    TreePrint(items[0], level);
    IndentIsBreak(level - 1);
    IndentIsBreak(level);
    if |items| > 1 {
      ItemsPrint(items[1..], [' '] + Indent(level), level);
      Spread(Print(items[0], level), Break(level), Items(items[1..], level), Break(level - 1) + "]");
    } else {
      assert Print(items[0], level) + "" == Print(items[0], level);
    }
  }

  lemma {:induction false} Spread(a: string, b: string, c: string, d: string)
    ensures a + ("" + ([','] + (([' '] + b) + (c + d)))) == a + (", " + (b + c)) + d
  {
  }

  lemma {:induction false} EntriesPrint(es: seq<Entry>, lead: string, level: int)
    requires es != [] && forall k :: 0 <= k < |es| ==> NoDoubles(es[k].value)
    ensures RenderMembers(MembersOf(es, lead, level)) == lead + (Entries(es, level) + (Break(level - 1) + "}"))
    decreases es, 0
  {
    hide Indent, Break, TreeOf, Render, Print, StringText, Quoted, ItemsOf;
    TreePrint(es[0].value, level);
    QuotedText(es[0].key);
    IndentIsBreak(level - 1);
    IndentIsBreak(level);
    if |es| > 1 {
      EntriesPrint(es[1..], [' '] + Indent(level), level);
      SpreadMember(lead, Quoted(es[0].key), Print(es[0].value, level), Break(level), Entries(es[1..], level),
                   Break(level - 1) + "}");
    } else {
      LastMemberText(lead, Quoted(es[0].key), Print(es[0].value, level), Break(level - 1));
    }
  }

  lemma {:induction false} SpreadMember(l: string, k: string, v: string, b: string, c: string, d: string)
    ensures l + (k + ("" + ([':'] + (" " + (v + ""))))) + ([','] + (([' '] + b) + (c + d)))
            == l + ((k + (": " + v)) + (", " + (b + c)) + d)
  {
    assert [':'] + (" " + (v + "")) == ": " + v;
    Spread(k + (": " + v), b, c, d);
  }

  lemma {:induction false} LastMemberText(l: string, k: string, v: string, b: string)
    ensures l + (k + ("" + ([':'] + (" " + (v + b))))) + ['}'] == l + ((k + (": " + v)) + "" + (b + "}"))
  {
    assert [':'] + (" " + (v + b)) == ": " + v + b;
  }

  /** The print, to the character: every value without doubles whose containers stay within
      the limit is printed so, in compact and in indented form. */
  lemma {:induction false} ExactPrint(v: Value, pretty: bool)
    requires NoDoubles(v) && !Resets(v, if pretty then 0 else -1)
    ensures ToJson(v, pretty) == Print(v, if pretty then 0 else -1)
  {
    hide PrintInto, TreeOf, Render, Print, Resets;
    var level := if pretty then 0 else -1;
    PrintAppends(v, "", level);
    TreePrint(v, level);
  }

  /** A container below the limit leaves nothing of the output. */
  lemma {:induction false} TooDeepEmpties(v: Value, out: string, level: int)
    requires NoDoubles(v) && (v.List? || v.Map?) && level > 500
    ensures PrintInto(v, out, level) == ""
  {
  }
}
