/** The text toJson builds: what each parseOut appends, including the reset of the whole
    output that a container below level 500 causes in indented mode. Doubles are not
    printed here: their text is snprintf's. */
module PrinterSpec {
  import opened Text
  import opened Value
  import opened ParserSpec
  import opened Grammar

  predicate NoDoubles(v: Value)
  {
    match v
    case Double(_) => false
    case List(items) => forall k :: 0 <= k < |items| ==> NoDoubles(items[k])
    case Map(entries) => forall k :: 0 <= k < |entries| ==> NoDoubles(entries[k].value)
    case _ => true
  }

  function Decimal(n: nat): string
  {
    if n < 10 then [('0' as int + n) as char]
    else Decimal(n / 10) + [('0' as int + n % 10) as char]
  }

  function Abs(n: int): nat { if n < 0 then -n else n }

  /** snprintf's %d. */
  function IntText(n: int): string { SignText(n < 0) + Decimal(Abs(n)) }

  function HexDigit(n: nat): char
    requires n < 16
  {
    if n < 10 then ('0' as int + n) as char else ('a' as int + (n - 10)) as char
  }

  /** U+2028 or U+2029 in UTF-8, at the front of `t`. */
  predicate StartsSeparator(t: string)
  {
    |t| >= 3 && t[0] == '\U{E2}' && t[1] == '\U{80}' && (t[2] == '\U{A8}' || t[2] == '\U{A9}')
  }

  /** How one character, or one separator, is written. */
  function ItemOf(t: string): (x: Item)
    requires t != ""
    ensures ValidItem(x)
  {
    if t[0] == '\\' || t[0] == '"' then Esc(t[0])
    else if t[0] == '\U{8}' then Esc('b')
    else if t[0] == '\U{C}' then Esc('f')
    else if t[0] == '\n' then Esc('n')
    else if t[0] == '\r' then Esc('r')
    else if t[0] == '\t' then Esc('t')
    else if t[0] <= '\U{1F}' then Hex(['0', '0', HexDigit(t[0] as int / 16), HexDigit(t[0] as int % 16)])
    else if StartsSeparator(t) then Hex(if t[2] == '\U{A8}' then "2028" else "2029")
    else Raw(t[0])
  }

  function ItemWidth(t: string): (n: nat)
    requires t != ""
    ensures 0 < n <= |t|
  {
    if StartsSeparator(t) then 3 else 1
  }

  function ItemsOf(t: string): (xs: seq<Item>)
    ensures ValidItems(xs)
    decreases |t|
  {
    if t == "" then [] else [ItemOf(t)] + ItemsOf(t[ItemWidth(t)..])
  }

  /** parseOutBeautify: a line break and the indentation, unless in compact mode. */
  function Indent(depth: int): string
  {
    if depth < 0 then "" else ['\n'] + Spaces(4 * depth)
  }

  function Spaces(n: nat): (r: string)
    ensures |r| == n && forall k :: 0 <= k < n ==> r[k] == ' '
  {
    seq(n, _ => ' ')
  }

  function Deeper(depth: int): int { if depth >= 0 then depth + 1 else depth }

  function PrintInto(v: Value, out: string, depth: int): string
    requires NoDoubles(v)
    decreases v, 1
  {
    match v
    case Null => out + "null"
    case Bool(b) => out + (if b then "true" else "false")
    case Int(n) => out + IntText(n)
    case Str(t) => out + StringText(ItemsOf(t))
    case List(items) =>
      if depth > MAX_DEPTH then ""
      else
        PrintItems(items, true, out + "[", Deeper(depth)) +
        ((if items == [] then "" else Indent(Deeper(depth) - 1)) + "]")
    case Map(entries) =>
      if depth > MAX_DEPTH then ""
      else
        PrintEntries(entries, true, out + "{", Deeper(depth)) +
        ((if entries == [] then "" else Indent(Deeper(depth) - 1)) + "}")
  }

  function PrintItems(items: seq<Value>, first: bool, out: string, depth: int): string
    requires forall k :: 0 <= k < |items| ==> NoDoubles(items[k])
    decreases items, 0
  {
    if items == [] then out
    else
      PrintItems(items[1..], false,
                 PrintInto(items[0], out + ((if first then "" else ", ") + Indent(depth)), depth), depth)
  }

  function PrintEntries(es: seq<Entry>, first: bool, out: string, depth: int): string
    requires forall k :: 0 <= k < |es| ==> NoDoubles(es[k].value)
    decreases es, 0
  {
    if es == [] then out
    else
      PrintEntries(es[1..], false,
                   PrintInto(es[0].value,
                             out + ((if first then "" else ", ") + Indent(depth))
                             + (StringText(ItemsOf(es[0].key)) + ": "), depth), depth)
  }

  function ToJson(v: Value, pretty: bool): string
    requires NoDoubles(v)
  {
    PrintInto(v, "", if pretty then 0 else -1)
  }
}
