/** VariantParser's parseOut members as the program runs them: loops that append to the
    output they were given. */
module Printer {
  import opened Text
  import opened Value
  import opened ParserSpec
  import opened Grammar
  import opened PrinterSpec

  method ParseOutBeautify(out: string, depth: int) returns (r: string)
    ensures r == out + Indent(depth)
  {
    r := out;
    if depth < 0 {
      return;
    }
    r := r + "\n";
    for i := 0 to depth
      invariant r == out + (['\n'] + Spaces(4 * i))
    {
      assert Spaces(4 * i) + "    " == Spaces(4 * (i + 1));
      r := r + "    ";
    }
  }

  lemma {:induction false} ItemsTextStep(done: string, t: string)
    requires t != ""
    ensures done + ItemsText(ItemsOf(t)) == done + ItemText(ItemOf(t)) + ItemsText(ItemsOf(t[ItemWidth(t)..]))
  {
    hide ItemOf, ItemWidth;
    assert ItemsOf(t)[1..] == ItemsOf(t[ItemWidth(t)..]);
  }

  method ParseOutString(value: string, out: string) returns (r: string)
    ensures r == out + StringText(ItemsOf(value))
  {
    hide ItemsOf, ItemsText, ItemOf, ItemWidth, ItemText;
    r := out + ['"'];
    var i := 0;
    assert value[0..] == value;
    while i < |value|
      invariant 0 <= i <= |value|
      invariant out + ['"'] + ItemsText(ItemsOf(value)) == r + ItemsText(ItemsOf(value[i..]))
    {
      ghost var rest := value[i..];
      ItemsTextStep(r, rest);
      var text, width := ParseOutChar(value, i);
      assert value[i + ItemWidth(rest)..] == rest[ItemWidth(rest)..];
      r := r + text;
      i := i + width;
    }
    EmptyText(value[i..]);
    assert r + "" == r;
    r := r + ['"'];
    assert r == out + (['"'] + (ItemsText(ItemsOf(value)) + ['"']));
  }

  /** What the loop prints for the character at `i`, or for the separator that starts there. */
  method ParseOutChar(value: string, i: nat) returns (text: string, width: nat)
    requires i < |value|
    ensures text == ItemText(ItemOf(value[i..])) && width == ItemWidth(value[i..])
  {
    var ch := value[i];
    assert value[i..][0] == ch;
    width := 1;
    if ch == '\\' {
      text := "\\\\";
    } else if ch == '"' {
      text := "\\\"";
    } else if ch == '\U{8}' {
      text := "\\b";
    } else if ch == '\U{C}' {
      text := "\\f";
    } else if ch == '\n' {
      text := "\\n";
    } else if ch == '\r' {
      text := "\\r";
    } else if ch == '\t' {
      text := "\\t";
    } else if ch <= '\U{1F}' {
      text := "\\u" + ['0', '0', HexDigit(ch as int / 16), HexDigit(ch as int % 16)];
    } else if ch == '\U{E2}' && Peek(value, i + 1) == '\U{80}' && Peek(value, i + 2) == '\U{A8}' {
      text := "\\u2028";
      width := 3;
    } else if ch == '\U{E2}' && Peek(value, i + 1) == '\U{80}' && Peek(value, i + 2) == '\U{A9}' {
      text := "\\u2029";
      width := 3;
    } else {
      text := [ch];
    }
  }

  lemma {:induction false} EmptyText(t: string)
    requires t == ""
    ensures ItemsText(ItemsOf(t)) == ""
  {
  }

  method ParseOut(v: Value, out: string, depth: int) returns (r: string)
    requires NoDoubles(v)
    ensures r == PrintInto(v, out, depth)
    decreases v, 1
  {
    match v {
      case Null => r := out + "null";
      case Bool(b) => r := out + (if b then "true" else "false");
      case Int(n) => r := out + IntText(n);
      case Str(t) => r := ParseOutString(t, out);
      case List(items) => r := ParseOutList(items, out, depth);
      case Map(entries) => r := ParseOutMap(entries, out, depth);
    }
  }

  method ParseOutList(values: seq<Value>, out: string, depth0: int) returns (r: string)
    requires forall k :: 0 <= k < |values| ==> NoDoubles(values[k])
    ensures r == PrintInto(List(values), out, depth0)
    decreases values, 0
  {
    hide NoDoubles, Indent;
    var depth := depth0;
    if depth >= 0 {
      if depth > MAX_DEPTH {
        return "";
      }
      depth := depth + 1;
    }
    var first := true;
    r := out + "[";
    if values != [] {
      assert values[0..] == values;
      for i := 0 to |values|
        invariant first == (i == 0)
        invariant PrintItems(values, true, out + "[", depth) == PrintItems(values[i..], first, r, depth)
      {
        ghost var before := r;
        if !first {
          r := r + ", ";
        }
        r := ParseOutBeautify(r, depth);
        assert r == before + ((if first then "" else ", ") + Indent(depth));
        r := ParseOut(values[i], r, depth);
        assert values[i..][1..] == values[i + 1..];
        first := false;
      }
      r := ParseOutBeautify(r, depth - 1);
    }
    r := r + "]";
    assert r == PrintItems(values, true, out + "[", depth) + ((if values == [] then "" else Indent(depth - 1)) + "]");
  }

  method ParseOutMap(values: seq<Entry>, out: string, depth0: int) returns (r: string)
    requires forall k :: 0 <= k < |values| ==> NoDoubles(values[k].value)
    ensures r == PrintInto(Map(values), out, depth0)
    decreases values, 0
  {
    hide NoDoubles, Indent, StringText, ItemsOf;
    var depth := depth0;
    if depth >= 0 {
      if depth > MAX_DEPTH {
        return "";
      }
      depth := depth + 1;
    }
    var first := true;
    r := out + "{";
    if values != [] {
      assert values[0..] == values;
      for i := 0 to |values|
        invariant first == (i == 0)
        invariant PrintEntries(values, true, out + "{", depth) == PrintEntries(values[i..], first, r, depth)
      {
        ghost var before := r;
        if !first {
          r := r + ", ";
        }
        r := ParseOutBeautify(r, depth);
        assert r == before + ((if first then "" else ", ") + Indent(depth));
        ghost var led := r;
        r := ParseOutString(values[i].key, r);
        r := r + ": ";
        assert r == led + (StringText(ItemsOf(values[i].key)) + ": ");
        r := ParseOut(values[i].value, r, depth);
        assert values[i..][1..] == values[i + 1..];
        first := false;
      }
      r := ParseOutBeautify(r, depth - 1);
    }
    r := r + "}";
    assert r == PrintEntries(values, true, out + "{", depth) + ((if values == [] then "" else Indent(depth - 1)) + "}");
  }

  /** Variant::toJson. */
  method ToJson(v: Value, pretty: bool) returns (json: string)
    requires NoDoubles(v)
    ensures json == PrinterSpec.ToJson(v, pretty)
  {
    json := ParseOut(v, "", if pretty then 0 else -1);
  }
}
