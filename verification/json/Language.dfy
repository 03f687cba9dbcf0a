/** The language fromJson accepts, and what it returns for it. */
module Language {
  import opened Text
  import opened Value
  import opened ParserSpec
  import opened Grammar
  import opened GrammarProofs

  lemma {:induction false} DocumentParts(d: Document)
    requires ValidDocument(d)
    ensures var s := DocumentText(d); var i := |d.before|; var j := i + |Render(d.tree)|;
            && At(s, 0, d.before) && At(s, i, Render(d.tree)) && j + |d.after| == |s|
            && At(s, j, d.after) && IsDelimiter(Peek(s, j)) && i < |s| && !IsWs(s[i])
  {
    var s := DocumentText(d);
    AtSplit(s, 0, d.before, Render(d.tree) + d.after);
    AtSplit(s, |d.before|, Render(d.tree), d.after);
    var j := |d.before| + |Render(d.tree)|;
    if d.after != "" { assert s[j] == s[j..j + |d.after|][0]; }
    ValueStart(s, 0, d.before, d.tree);
  }

  /** A JSON text parses to its meaning, or is refused because it nests too deeply. */
  lemma {:induction false} DocumentMeaning(d: Document)
    requires ValidDocument(d)
    ensures FromJson(DocumentText(d), false) ==
            Outcome(Height(d.tree) <= MAX_DEPTH, Eval(d.tree), |DocumentText(d)|)
  {
    hide ValueAt, Render, Eval, Height, DocumentText;
    var s := DocumentText(d);
    DocumentParts(d);
    ValueAfterGap(s, 0, d.before, 0);
    ValueComplete(s, |d.before|, d.tree, 0);
    SkipWsOver(s, |d.before| + |Render(d.tree)|, d.after);
  }

  lemma {:induction false} AcceptedHasTree(s: string) returns (d: Document)
    requires s != "" && FromJson(s, false).Ok?
    ensures ValidDocument(d) && DocumentText(d) == s && Height(d.tree) <= MAX_DEPTH
  {
    hide ValueAt, Render, Height;
    var g, t := ValueSound(s, 0, 0);
    var k := ValueAt(s, 0, 0, false).next;
    d := Document(g, t, s[k..]);
    AtRange(s, k, |s|);
    AtSplit(s, |g|, Render(t), s[k..]);
    AtSplit(s, 0, g, Render(t) + s[k..]);
  }

  /** Soundness and completeness: a non-empty input is accepted exactly when it is a JSON
      text with no value below level 500. */
  lemma {:induction false} AcceptsExactlyTheLanguage(s: string)
    requires s != ""
    ensures FromJson(s, false).Ok? <==> InLanguage(s)
  {
    hide FromJson, DocumentText;
    if FromJson(s, false).Ok? {
      var d := AcceptedHasTree(s);
    }
    if InLanguage(s) {
      var d: Document :| ValidDocument(d) && DocumentText(d) == s && Height(d.tree) <= MAX_DEPTH;
      DocumentMeaning(d);
    }
  }

  /** No text has two meanings. */
  lemma {:induction false} Unambiguous(d: Document, e: Document)
    requires ValidDocument(d) && ValidDocument(e) && DocumentText(d) == DocumentText(e)
    requires Height(d.tree) <= MAX_DEPTH && Height(e.tree) <= MAX_DEPTH
    ensures Eval(d.tree) == Eval(e.tree)
  {
    hide FromJson, DocumentText, Eval;
    DocumentMeaning(d);
    DocumentMeaning(e);
  }

  // ----- parsed values are well formed, comments or not

  lemma {:induction false} ValueAtWellFormed(s: string, i: nat, d: nat, comments: bool)
    requires i <= |s| && ValueAt(s, i, d, comments).Ok?
    ensures WellFormed(ValueAt(s, i, d, comments).value)
    decreases |s| - i, 0
  {
    hide NumberFrom, StringFrom, ElementsAt, MembersAt, Gap;
    var k := Token(s, i, comments);
    if k.value == '[' && Token(s, k.next, comments).value != ']' {
      ElementsAtWellFormed(s, Token(s, k.next, comments).next - 1, d, comments);
    } else if k.value == '{' && Token(s, k.next, comments).value != '}' {
      var r := MembersAt(s, Token(s, k.next, comments).next - 1, d, comments);
      MembersAtWellFormed(s, Token(s, k.next, comments).next - 1, d, comments);
      FromPairsWellFormed(r.value);
    } else {
      NumberIsScalar(s, k.next - 1);
    }
  }

  lemma {:induction false} NumberIsScalar(s: string, i: nat)
    requires i <= |s|
    ensures NumberFrom(s, i).Ok? ==> NumberFrom(s, i).value.Int? || NumberFrom(s, i).value.Double?
  {
    hide WholePart, FractionPart, ExponentPart;
  }

  lemma {:induction false} ElementsAtWellFormed(s: string, p: nat, d: nat, comments: bool)
    requires p <= |s| && ElementsAt(s, p, d, comments).Ok?
    ensures forall k :: 0 <= k < |ElementsAt(s, p, d, comments).value| ==>
                          WellFormed(ElementsAt(s, p, d, comments).value[k])
    decreases |s| - p, 1
  {
    hide ValueAt, Gap;
    ValueAtWellFormed(s, p, d + 1, comments);
    var c := Token(s, ValueAt(s, p, d + 1, comments).next, comments);
    if c.value == ',' {
      ElementsAtWellFormed(s, Token(s, c.next, comments).next - 1, d, comments);
    }
  }

  lemma {:induction false} MembersAtWellFormed(s: string, p: nat, d: nat, comments: bool)
    requires p < |s| && MembersAt(s, p, d, comments).Ok?
    ensures forall k :: 0 <= k < |MembersAt(s, p, d, comments).value| ==>
                          WellFormed(MembersAt(s, p, d, comments).value[k].value)
    decreases |s| - p, 2
  {
    hide MemberAt, Gap;
    MemberAtWellFormed(s, p, d, comments);
    var c := Token(s, MemberAt(s, p, d, comments).next, comments);
    if c.value == ',' {
      MembersAtWellFormed(s, Token(s, c.next, comments).next - 1, d, comments);
    }
  }

  lemma {:induction false} MemberAtWellFormed(s: string, p: nat, d: nat, comments: bool)
    requires p < |s| && MemberAt(s, p, d, comments).Ok?
    ensures WellFormed(MemberAt(s, p, d, comments).value.value)
    decreases |s| - p, 1
  {
    hide ValueAt, StringFrom, Gap;
    ValueAtWellFormed(s, Token(s, StringFrom(s, p + 1, -1).next, comments).next, d + 1, comments);
  }
}
