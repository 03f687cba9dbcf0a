/** The parser as functions of the input and a position: what each parseIn* member yields
    when no failure has happened yet. Every success moves strictly forward, and never past
    the end, in standard and in comment mode. */
module ParserSpec {
  import opened Text
  import opened Value
  import opened Utf8
  import opened Options

  datatype Error =
    | UnexpectedEnd
    | EndAfterSlash
    | EndInComment
    | MalformedComment
    | EndInString
    | Unescaped(c: char)
    | BadUnicodeEscape(esc: string)
    | InvalidEscape(c: char)
    | LeadingZero
    | InvalidInNumber(c: char)
    | NoFractionDigit
    | NoExponentDigit
    | Expected(word: string, got: string)
    | NothingBefore(word: string)
    | TooDeep
    | ExpectedKey(c: char)
    | ExpectedColon(c: char)
    | ExpectedCommaInObject(c: char)
    | ExpectedCommaInList(c: char)
    | ExpectedValue(c: char)
    | Trailing(c: char)

  datatype Result<+T> = Ok(value: T, next: nat) | Err(error: Error)

  function SkipLine(s: string, i: nat): (j: nat)
    requires i <= |s|
    ensures i <= j <= |s|
    decreases |s| - i
  {
    if i < |s| && s[i] != '\n' then SkipLine(s, i + 1) else i
  }

  /** The position after the first closing star-slash at or after `i`. */
  function CommentEnd(s: string, i: nat): (r: Result<()>)
    requires i <= |s|
    ensures r.Ok? ==> i < r.next <= |s|
    decreases |s| - i
  {
    if i + 2 > |s| then Err(EndInComment)
    else if s[i] == '*' && s[i + 1] == '/' then Ok((), i + 2)
    else CommentEnd(s, i + 1)
  }

  /** A comment that starts at the slash at `i`. */
  function Comment(s: string, i: nat): (r: Result<()>)
    requires i < |s|
    ensures r.Ok? ==> i < r.next <= |s|
  {
    if i + 1 == |s| then Err(EndAfterSlash)
    else if s[i + 1] == '/' then Ok((), SkipLine(s, i + 2))
    else if s[i + 1] == '*' then CommentEnd(s, i + 2)
    else Err(MalformedComment)
  }

  /** Whitespace and, in comment mode, comments. */
  function Gap(s: string, i: nat, comments: bool): (r: Result<()>)
    requires i <= |s|
    ensures r.Ok? ==> i <= r.next <= |s|
    ensures !comments ==> r == Ok((), SkipWs(s, i))
    decreases |s| - i
  {
    var j := SkipWs(s, i);
    if comments && Peek(s, j) == '/' then
      match Comment(s, j)
      case Err(e) => Err(e)
      case Ok(_, k) => Gap(s, k, comments)
    else Ok((), j)
  }

  function Token(s: string, i: nat, comments: bool): (r: Result<char>)
    requires i <= |s|
    ensures r.Ok? ==> i < r.next <= |s| && r.value == s[r.next - 1]
  {
    match Gap(s, i, comments)
    case Err(e) => Err(e)
    case Ok(_, j) => if j == |s| then Err(UnexpectedEnd) else Ok(s[j], j + 1)
  }

  function Prepend<T>(p: seq<T>, r: Result<seq<T>>): (q: Result<seq<T>>)
    ensures q.Ok? <==> r.Ok?
    ensures q.Ok? ==> q.value == p + r.value && q.next == r.next
    ensures q.Err? ==> q.error == r.error
  {
    match r
    case Ok(t, n) => Ok(p + t, n)
    case Err(e) => Err(e)
  }

  function AsStr(r: Result<string>): Result<Value>
  {
    match r
    case Ok(t, n) => Ok(Str(t), n)
    case Err(e) => Err(e)
  }

  function AsList(r: Result<seq<Value>>): Result<Value>
  {
    match r
    case Ok(vs, n) => Ok(List(vs), n)
    case Err(e) => Err(e)
  }

  function AsMap(r: Result<seq<Entry>>): Result<Value>
  {
    match r
    case Ok(ps, n) => Ok(Map(FromPairs(ps)), n)
    case Err(e) => Err(e)
  }

  predicate IsPending(p: int) { -1 <= p < 0x10000 }

  /** The rest of a string literal from `i`, with `pending` an escaped code unit that is not
      written yet, or -1. */
  function StringFrom(s: string, i: nat, pending: int): (r: Result<string>)
    requires i <= |s| && IsPending(pending)
    ensures r.Ok? ==> i < r.next <= |s|
    decreases |s| - i
  {
    if i == |s| then Err(EndInString)
    else if s[i] == '"' then Ok(Encode(pending), i + 1)
    else if s[i] < ' ' then Err(Unescaped(s[i]))
    else if s[i] != '\\' then Prepend(Encode(pending) + [s[i]], StringFrom(s, i + 1, -1))
    else if i + 1 == |s| then Err(EndInString)
    else if s[i + 1] == 'u' then
      if |s| < i + 6 then Err(BadUnicodeEscape(s[i + 2..]))
      else if !AllHex(s[i + 2..i + 6]) then Err(BadUnicodeEscape(s[i + 2..i + 6]))
      else
        var u := CodeUnit(s[i + 2..i + 6]);
        if IsHigh(pending) && IsLow(u) then Prepend(Encode(Pair(pending, u)), StringFrom(s, i + 6, -1))
        else Prepend(Encode(pending), StringFrom(s, i + 6, u))
    else if IsSimpleEscape(s[i + 1]) then
      Prepend(Encode(pending) + [Unescape(s[i + 1])], StringFrom(s, i + 2, -1))
    else Err(InvalidEscape(s[i + 1]))
  }

  /** atoi on a literal of an optional minus sign and digits. */
  function Atoi(t: string): int
    requires t != "" && AllDigits(if t[0] == '-' then t[1..] else t)
  {
    if t[0] == '-' then 0 - NatOf(t[1..]) else NatOf(t)
  }

  function WholePart(s: string, i: nat): (r: Result<()>)
    requires i <= |s|
    ensures r.Ok? ==> i < r.next <= |s| && AllDigits(s[i..r.next])
  {
    if Peek(s, i) == '0' then
      if IsDigit(Peek(s, i + 1)) then Err(LeadingZero) else Ok((), i + 1)
    else if IsDigit(Peek(s, i)) then
      var j := SkipDigits(s, i + 1);
      assert s[i..j] == [s[i]] + s[i + 1..j];
      Ok((), j)
    else Err(InvalidInNumber(Peek(s, i)))
  }

  function FractionPart(s: string, i: nat): (r: Result<()>)
    requires i <= |s|
    ensures r.Ok? ==> i <= r.next <= |s|
  {
    if Peek(s, i) != '.' then Ok((), i)
    else if !IsDigit(Peek(s, i + 1)) then Err(NoFractionDigit)
    else Ok((), SkipDigits(s, i + 1))
  }

  function ExponentPart(s: string, i: nat): (r: Result<()>)
    requires i <= |s|
    ensures r.Ok? ==> i <= r.next <= |s|
  {
    if !IsExpMark(Peek(s, i)) then Ok((), i)
    else
      var j := if Peek(s, i + 1) == '+' || Peek(s, i + 1) == '-' then i + 2 else i + 1;
      if !IsDigit(Peek(s, j)) then Err(NoExponentDigit)
      else Ok((), SkipDigits(s, j))
  }

  function NumberFrom(s: string, i: nat): (r: Result<Value>)
    requires i <= |s|
    ensures r.Ok? ==> i < r.next <= |s|
  {
    var a := if Peek(s, i) == '-' then i + 1 else i;
    match WholePart(s, a)
    case Err(e) => Err(e)
    case Ok(_, b) =>
      if Peek(s, b) != '.' && !IsExpMark(Peek(s, b)) && b - i <= INT_DIGITS then
        assert s[i..b][a - i..] == s[a..b];
        Ok(Int(Atoi(s[i..b])), b)
      else
        match FractionPart(s, b)
        case Err(e) => Err(e)
        case Ok(_, c) =>
          match ExponentPart(s, c)
          case Err(e) => Err(e)
          case Ok(_, d) => Ok(Double(s[i..d]), d)
  }

  function Min(a: nat, b: nat): nat { if a < b then a else b }

  function ExpectAt(s: string, i: nat, word: string, value: Value): (r: Result<Value>)
    requires i <= |s|
    ensures r.Ok? ==> r.next == i + |word| <= |s|
  {
    if At(s, i, word) then Ok(value, i + |word|)
    else Err(Expected(word, s[i..Min(|s|, i + |word|)]))
  }

  /** parseIn: the value at `i`, `depth` levels down. */
  function ValueAt(s: string, i: nat, depth: nat, comments: bool): (r: Result<Value>)
    requires i <= |s|
    ensures r.Ok? ==> i < r.next <= |s|
    decreases |s| - i, 0
  {
    if depth > MAX_DEPTH then Err(TooDeep)
    else
      match Token(s, i, comments)
      case Err(e) => Err(e)
      case Ok(ch, k) =>
        if ch == '-' || IsDigit(ch) then NumberFrom(s, k - 1)
        else if ch == 't' then ExpectAt(s, k - 1, "true", Bool(true))
        else if ch == 'f' then ExpectAt(s, k - 1, "false", Bool(false))
        else if ch == 'n' then ExpectAt(s, k - 1, "null", Null)
        else if ch == '"' then AsStr(StringFrom(s, k, -1))
        else if ch == '{' then MapAt(s, k, depth, comments)
        else if ch == '[' then ListAt(s, k, depth, comments)
        else Err(ExpectedValue(ch))
  }

  /** A list, from behind its opening bracket. */
  function ListAt(s: string, i: nat, depth: nat, comments: bool): (r: Result<Value>)
    requires i <= |s|
    ensures r.Ok? ==> i < r.next <= |s|
    decreases |s| - i, 3
  {
    match Token(s, i, comments)
    case Err(e) => Err(e)
    case Ok(c, k) => if c == ']' then Ok(List([]), k) else AsList(ElementsAt(s, k - 1, depth, comments))
  }

  /** A map, from behind its opening brace. */
  function MapAt(s: string, i: nat, depth: nat, comments: bool): (r: Result<Value>)
    requires i <= |s|
    ensures r.Ok? ==> i < r.next <= |s|
    decreases |s| - i, 3
  {
    match Token(s, i, comments)
    case Err(e) => Err(e)
    case Ok(c, k) => if c == '}' then Ok(Map([]), k) else AsMap(MembersAt(s, k - 1, depth, comments))
  }

  /** The elements of a list, the first one at `p`, up to its closing bracket. */
  function ElementsAt(s: string, p: nat, depth: nat, comments: bool): (r: Result<seq<Value>>)
    requires p <= |s|
    ensures r.Ok? ==> p < r.next <= |s|
    decreases |s| - p, 1
  {
    match ValueAt(s, p, depth + 1, comments)
    case Err(e) => Err(e)
    case Ok(v, k) =>
      match Token(s, k, comments)
      case Err(e) => Err(e)
      case Ok(c, k1) =>
        if c == ']' then Ok([v], k1)
        else if c != ',' then Err(ExpectedCommaInList(c))
        else
          match Token(s, k1, comments)
          case Err(e) => Err(e)
          case Ok(_, k2) => Prepend([v], ElementsAt(s, k2 - 1, depth, comments))
  }

  /** One member of a map, its key's opening quote at `p`. */
  function MemberAt(s: string, p: nat, depth: nat, comments: bool): (r: Result<Entry>)
    requires p < |s|
    ensures r.Ok? ==> p < r.next <= |s|
    decreases |s| - p, 1
  {
    if s[p] != '"' then Err(ExpectedKey(s[p]))
    else
      match StringFrom(s, p + 1, -1)
      case Err(e) => Err(e)
      case Ok(key, k) =>
        match Token(s, k, comments)
        case Err(e) => Err(e)
        case Ok(c, k1) =>
          if c != ':' then Err(ExpectedColon(c))
          else
            match ValueAt(s, k1, depth + 1, comments)
            case Err(e) => Err(e)
            case Ok(v, n) => Ok(Entry(key, v), n)
  }

  /** The members of a map in their order in the text, the first key's quote at `p`, up to
      the closing brace. */
  function MembersAt(s: string, p: nat, depth: nat, comments: bool): (r: Result<seq<Entry>>)
    requires p < |s|
    ensures r.Ok? ==> p < r.next <= |s|
    decreases |s| - p, 2
  {
    match MemberAt(s, p, depth, comments)
    case Err(e) => Err(e)
    case Ok(m, k) =>
      match Token(s, k, comments)
      case Err(e) => Err(e)
      case Ok(c, k1) =>
        if c == '}' then Ok([m], k1)
        else if c != ',' then Err(ExpectedCommaInObject(c))
        else
          match Token(s, k1, comments)
          case Err(e) => Err(e)
          case Ok(_, k2) => Prepend([m], MembersAt(s, k2 - 1, depth, comments))
  }

  /** What parseIn returns: the value, or what it leaves behind when it fails, which is an
      empty string for a string literal and null for everything else. */
  function Returned(s: string, i: nat, depth: nat, comments: bool): Value
    requires i <= |s|
  {
    match ValueAt(s, i, depth, comments)
    case Ok(v, _) => v
    case Err(_) =>
      if depth <= MAX_DEPTH && Token(s, i, comments).Ok? && Token(s, i, comments).value == '"' then Str("")
      else Null
  }

  /** Variant::fromJson. An empty input is the null value, without an error. */
  function FromJson(s: string, comments: bool): Result<Value>
  {
    if s == "" then Ok(Null, 0)
    else
      match ValueAt(s, 0, 0, comments)
      case Err(e) => Err(e)
      case Ok(v, k) =>
        match Gap(s, k, comments)
        case Err(e) => Err(e)
        case Ok(_, n) => if n == |s| then Ok(v, n) else Err(Trailing(s[n]))
  }

  /** The documents of fromJsonMulti from `i` on. `values` are those read completely, `stop`
      is the position after the last of them and its whitespace. A document that fails, or
      is followed by a bad comment, still leaves one entry, `broken`, and an error. */
  datatype Documents = Documents(values: seq<Value>, stop: nat, broken: seq<Value>, error: Option<Error>)

  function DocumentsAt(s: string, i: nat, comments: bool): (d: Documents)
    requires i <= |s|
    ensures i <= d.stop <= |s|
    ensures d.error.None? <==> d.broken == []
    ensures d.error.None? ==> d.stop == |s|
    decreases |s| - i
  {
    if i == |s| then Documents([], i, [], None)
    else
      match ValueAt(s, i, 0, comments)
      case Err(e) => Documents([], i, [Returned(s, i, 0, comments)], Some(e))
      case Ok(v, k) =>
        match Gap(s, k, comments)
        case Err(e) => Documents([], i, [v], Some(e))
        case Ok(_, n) =>
          var rest := DocumentsAt(s, n, comments);
          rest.(values := [v] + rest.values)
  }
}
