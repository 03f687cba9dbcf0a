/** Several documents in one input: what fromJsonMulti reads, and where it stops. */
module Multi {
  import opened Text
  import opened Value
  import opened Utf8
  import opened Options
  import opened ParserSpec
  import opened Grammar
  import opened LexemeProofs
  import opened GrammarProofs
  import opened Language
  import opened PrinterSpec
  import opened RoundTrip

  /** One printed value and the whitespace after it. */
  datatype Printed = Printed(value: Value, pretty: bool, gap: string)

  predicate Returns(v: Value)
  {
    WellFormed(v) && NoDoubles(v) && IntsFit(v) && Depth(v) <= MAX_DEPTH
  }

  predicate ValidStream(ps: seq<Printed>)
  {
    forall k :: 0 <= k < |ps| ==>
                  Returns(ps[k].value) && AllWs(ps[k].gap) && (k < |ps| - 1 ==> ps[k].gap != "")
  }

  function StreamText(ps: seq<Printed>): string
    requires ValidStream(ps)
  {
    if ps == [] then "" else ToJson(ps[0].value, ps[0].pretty) + (ps[0].gap + StreamText(ps[1..]))
  }

  function StreamValues(ps: seq<Printed>): seq<Value>
  {
    if ps == [] then [] else [ps[0].value] + StreamValues(ps[1..])
  }

  lemma {:induction false} PrintedTree(v: Value, pretty: bool) returns (t: Tree)
    requires Returns(v)
    ensures Valid(t) && Render(t) == ToJson(v, pretty) && Eval(t) == v && Height(t) <= MAX_DEPTH
  {
    hide PrintInto, TreeOf, Eval, Height, Render, Resets, Depth, IntsFit;
    var depth := if pretty then 0 else -1;
    CompactNeverResets(v);
    if pretty && Resets(v, 0) { ResetIsTooDeep(v, 0); }
    PrintAppends(v, "", depth);
    TreeMeaning(v, depth);
    t := TreeOf(v, depth);
  }

  /** Printed values separated by whitespace come back, all of them, to the end. */
  lemma {:induction false} StreamReturns(s: string, i: nat, ps: seq<Printed>)
    requires ValidStream(ps) && i <= |s| && s[i..] == StreamText(ps)
    ensures DocumentsAt(s, i, false) == Documents(StreamValues(ps), |s|, [], None)
    decreases |ps|
  {
    hide ValueAt, Render, ToJson, Eval, Height, Returns, At, AllWs, SkipWs, Stops, Valid, DocumentsAt;
    if ps == [] {
      NoDocuments(s);
    } else {
      var t := StreamStep(s, i, ps);
      var n := i + |Render(t)| + |ps[0].gap|;
      ValueComplete(s, i, t, 0);
      DocumentsStep(s, i);
      StreamReturns(s, n, ps[1..]);
    }
  }

  lemma {:induction false} NoDocuments(s: string)
    ensures DocumentsAt(s, |s|, false) == Documents([], |s|, [], None)
  {
  }

  lemma {:induction false} DocumentsStep(s: string, i: nat)
    requires i < |s| && ValueAt(s, i, 0, false).Ok?
    ensures var r := ValueAt(s, i, 0, false); var rest := DocumentsAt(s, SkipWs(s, r.next), false);
            DocumentsAt(s, i, false) == rest.(values := [r.value] + rest.values)
  {
    hide ValueAt;
  }

  lemma {:induction false} StreamStep(s: string, i: nat, ps: seq<Printed>) returns (t: Tree)
    requires ValidStream(ps) && i < |s| + 1 && s[i..] == StreamText(ps) && ps != []
    ensures Valid(t) && Eval(t) == ps[0].value && Height(t) <= MAX_DEPTH && At(s, i, Render(t))
    ensures var k := i + |Render(t)|;
            && i < k && k + |ps[0].gap| <= |s| && s[k + |ps[0].gap|..] == StreamText(ps[1..])
            && Stops(t, Peek(s, k)) && SkipWs(s, k) == k + |ps[0].gap|
  {
    hide PrintInto, Eval, Height, Render, At, SkipWs, StreamText;
    var p := ps[0];
    t := PrintedTree(p.value, p.pretty);
    FirstChar(t);
    StreamParts(s, i, ps, Render(t));
    var k := i + |Render(t)|;
    StreamStart(ps[1..]);
    NextChar(s, k, p.gap, StreamText(ps[1..]));
    SkipWsOver(s, k, p.gap);
  }

  lemma {:induction false} StreamParts(s: string, i: nat, ps: seq<Printed>, text: string)
    requires ValidStream(ps) && ps != [] && i <= |s| && s[i..] == StreamText(ps)
    requires text == ToJson(ps[0].value, ps[0].pretty)
    ensures var k := i + |text|; var n := k + |ps[0].gap|;
            && At(s, i, text) && At(s, k, ps[0].gap) && At(s, n, StreamText(ps[1..]))
            && n + |StreamText(ps[1..])| == |s| && s[n..] == StreamText(ps[1..])
  {
    hide PrintInto;
    var rest := StreamText(ps[1..]);
    assert At(s, i, StreamText(ps));
    AtSplit(s, i, text, ps[0].gap + rest);
    AtSplit(s, i + |text|, ps[0].gap, rest);
  }

  /** What follows a value: whitespace, or the end. */
  lemma {:induction false} NextChar(s: string, k: nat, gap: string, rest: string)
    requires At(s, k, gap) && AllWs(gap) && At(s, k + |gap|, rest) && k + |gap| + |rest| == |s|
    requires (rest != "" ==> gap != "" && !IsWs(rest[0]))
    ensures IsDelimiter(Peek(s, k)) && !IsWs(Peek(s, k + |gap|))
  {
    if gap != "" { AtFirst(s, k, gap); }
    if rest != "" { AtFirst(s, k + |gap|, rest); }
  }

  lemma {:induction false} StreamStart(ps: seq<Printed>)
    requires ValidStream(ps)
    ensures ps == [] <==> StreamText(ps) == ""
    ensures ps != [] ==> !IsWs(StreamText(ps)[0])
  {
    if ps != [] {
      hide Render, Eval, Height, PrintInto;
      var t := PrintedTree(ps[0].value, ps[0].pretty);
      FirstChar(t);
      assert StreamText(ps)[0] == Render(t)[0];
    }
  }
}
