/** The grammar of RFC 8259, sections 2 to 7, as derivation trees read over characters. A
    text is in the language when some valid tree renders to it; Eval is what it means. */
module Grammar {
  import opened Text
  import opened Value
  import opened Utf8

  // ----- strings, section 7

  datatype Item = Raw(c: char) | Esc(c: char) | Hex(h: string)

  predicate ValidItem(x: Item)
  {
    match x
    case Raw(c) => c >= ' ' && c != '"' && c != '\\'
    case Esc(c) => IsSimpleEscape(c)
    case Hex(h) => |h| == 4 && AllHex(h)
  }

  predicate ValidItems(xs: seq<Item>) { forall k :: 0 <= k < |xs| ==> ValidItem(xs[k]) }

  function ItemText(x: Item): string
  {
    match x
    case Raw(c) => [c]
    case Esc(c) => ['\\', c]
    case Hex(h) => ['\\', 'u'] + h
  }

  function ItemsText(xs: seq<Item>): string
  {
    if xs == [] then "" else ItemText(xs[0]) + ItemsText(xs[1..])
  }

  function StringText(xs: seq<Item>): string { ['"'] + (ItemsText(xs) + ['"']) }

  function ItemPiece(x: Item): Piece
    requires ValidItem(x)
  {
    match x
    case Raw(c) => Plain(c)
    case Esc(c) => Plain(Unescape(c))
    case Hex(h) => Unit(CodeUnit(h))
  }

  function Pieces(xs: seq<Item>): (ps: seq<Piece>)
    requires ValidItems(xs)
    ensures ValidPieces(ps) && |ps| == |xs|
  {
    if xs == [] then [] else [ItemPiece(xs[0])] + Pieces(xs[1..])
  }

  // ----- numbers, section 6

  datatype Fraction = NoFraction | Fraction(digits: string)
  datatype Exponent = NoExponent | Exponent(mark: char, sign: string, digits: string)
  datatype Number = Number(negative: bool, whole: string, fraction: Fraction, exponent: Exponent)

  predicate SomeDigits(ds: string) { ds != "" && AllDigits(ds) }

  predicate ValidNumber(n: Number)
  {
    && SomeDigits(n.whole) && (n.whole[0] == '0' ==> |n.whole| == 1)
    && (n.fraction.Fraction? ==> SomeDigits(n.fraction.digits))
    && (n.exponent.Exponent? ==>
          IsExpMark(n.exponent.mark) && n.exponent.sign in ["", "+", "-"] && SomeDigits(n.exponent.digits))
  }

  function SignText(negative: bool): string { if negative then "-" else "" }

  function FractionText(f: Fraction): string
  {
    if f.NoFraction? then "" else ['.'] + f.digits
  }

  function ExponentText(e: Exponent): string
  {
    if e.NoExponent? then "" else [e.mark] + (e.sign + e.digits)
  }

  function NumberText(n: Number): string
  {
    SignText(n.negative) + (n.whole + (FractionText(n.fraction) + ExponentText(n.exponent)))
  }

  /** An int when neither fraction nor exponent is there and the literal is short enough for
      every int to hold it; a double otherwise. */
  function NumberValue(n: Number): Value
    requires ValidNumber(n)
  {
    if n.fraction.NoFraction? && n.exponent.NoExponent? && |NumberText(n)| <= INT_DIGITS then
      Int(if n.negative then 0 - NatOf(n.whole) else NatOf(n.whole))
    else Double(NumberText(n))
  }

  // ----- values, sections 2 to 5

  datatype Tree =
    | NullTree
    | TrueTree
    | FalseTree
    | NumberTree(number: Number)
    | StringTree(items: seq<Item>)
    | EmptyArray(gap: string)
    | Array(elements: Elements)
    | EmptyObject(gap: string)
    | Object(members: Members)

  datatype Elements =
    | LastElement(before: string, value: Tree, after: string)
    | MoreElements(before: string, value: Tree, after: string, rest: Elements)

  datatype Members =
    | LastMember(member: Member)
    | MoreMembers(member: Member, rest: Members)

  datatype Member =
    Member(before: string, key: seq<Item>, colonBefore: string, colonAfter: string, value: Tree, after: string)

  predicate Valid(t: Tree)
  {
    match t
    case NumberTree(n) => ValidNumber(n)
    case StringTree(xs) => ValidItems(xs)
    case EmptyArray(g) => AllWs(g)
    case EmptyObject(g) => AllWs(g)
    case Array(es) => ValidElements(es)
    case Object(ms) => ValidMembers(ms)
    case _ => true
  }

  predicate ValidElements(es: Elements)
  {
    AllWs(es.before) && Valid(es.value) && AllWs(es.after) && (es.MoreElements? ==> ValidElements(es.rest))
  }

  predicate ValidMember(m: Member)
  {
    && AllWs(m.before) && ValidItems(m.key) && AllWs(m.colonBefore)
    && AllWs(m.colonAfter) && Valid(m.value) && AllWs(m.after)
  }

  predicate ValidMembers(ms: Members)
  {
    ValidMember(ms.member) && (ms.MoreMembers? ==> ValidMembers(ms.rest))
  }

  function Render(t: Tree): string
  {
    match t
    case NullTree => "null"
    case TrueTree => "true"
    case FalseTree => "false"
    case NumberTree(n) => NumberText(n)
    case StringTree(xs) => StringText(xs)
    case EmptyArray(g) => ['['] + (g + [']'])
    case Array(es) => ['['] + RenderElements(es)
    case EmptyObject(g) => ['{'] + (g + ['}'])
    case Object(ms) => ['{'] + RenderMembers(ms)
  }

  function RenderElements(es: Elements): string
  {
    es.before + (Render(es.value) + (es.after +
    (if es.LastElement? then [']'] else [','] + RenderElements(es.rest))))
  }

  function RenderMember(m: Member): string
  {
    m.before + (StringText(m.key) + (m.colonBefore + ([':'] + (m.colonAfter + (Render(m.value) + m.after)))))
  }

  function RenderMembers(ms: Members): string
  {
    RenderMember(ms.member) + (if ms.LastMember? then ['}'] else [','] + RenderMembers(ms.rest))
  }

  function Eval(t: Tree): Value
    requires Valid(t)
  {
    match t
    case NullTree => Null
    case TrueTree => Bool(true)
    case FalseTree => Bool(false)
    case NumberTree(n) => NumberValue(n)
    case StringTree(xs) => Str(Denote(Pieces(xs)))
    case EmptyArray(_) => List([])
    case Array(es) => List(EvalElements(es))
    case EmptyObject(_) => Map([])
    case Object(ms) => Map(FromPairs(EvalMembers(ms)))
  }

  function EvalElements(es: Elements): seq<Value>
    requires ValidElements(es)
  {
    if es.LastElement? then [Eval(es.value)] else [Eval(es.value)] + EvalElements(es.rest)
  }

  function EvalMembers(ms: Members): seq<Entry>
    requires ValidMembers(ms)
  {
    assert ValidMember(ms.member);
    var e := Entry(Denote(Pieces(ms.member.key)), Eval(ms.member.value));
    if ms.LastMember? then [e] else [e] + EvalMembers(ms.rest)
  }

  function Max(a: nat, b: nat): nat { if a < b then b else a }

  /** How many levels below `t` its deepest value lies. */
  function Height(t: Tree): nat
  {
    match t
    case Array(es) => 1 + ElementsHeight(es)
    case Object(ms) => 1 + MembersHeight(ms)
    case _ => 0
  }

  function ElementsHeight(es: Elements): nat
  {
    Max(Height(es.value), if es.LastElement? then 0 else ElementsHeight(es.rest))
  }

  function MembersHeight(ms: Members): nat
  {
    Max(Height(ms.member.value), if ms.LastMember? then 0 else MembersHeight(ms.rest))
  }

  /** A JSON text: whitespace, a value, whitespace. */
  datatype Document = Document(before: string, tree: Tree, after: string)

  predicate ValidDocument(d: Document) { AllWs(d.before) && Valid(d.tree) && AllWs(d.after) }

  function DocumentText(d: Document): string { d.before + (Render(d.tree) + d.after) }

  /** `s` is a JSON text with no value below level 500. */
  ghost predicate InLanguage(s: string)
  {
    exists d: Document :: ValidDocument(d) && DocumentText(d) == s && Height(d.tree) <= MAX_DEPTH
  }
}
