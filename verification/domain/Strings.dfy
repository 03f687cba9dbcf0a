/** stringReplace and stringSplit, and what their results are made of. */
module Strings {
  import opened Text
  import opened Options

  predicate IsSpace(c: char) { c == ' ' || '\t' <= c <= '\r' }

  function SkipSpaces(s: string): string
  {
    if s != "" && IsSpace(s[0]) then SkipSpaces(s[1..]) else s
  }

  /** std::stoi: blanks, a sign, at least one digit, and whatever follows; None where it
      throws, which it also does outside the 32-bit range. */
  function Stoi(s: string): Option<int>
  {
    var t := SkipSpaces(s);
    var signed := t != "" && (t[0] == '-' || t[0] == '+');
    var u := if signed then t[1..] else t;
    var n := SkipDigits(u, 0);
    if n == 0 then None
    else
      assert u[0..n] == u[..n];
      var v := if signed && t[0] == '-' then 0 - NatOf(u[..n]) else NatOf(u[..n]);
      if -0x8000_0000 <= v < 0x8000_0000 then Some(v) else None
  }

  /** std::string::find: the first occurrence at or after `pos`, or -1. */
  function Find(s: string, p: string, pos: nat): (k: int)
    ensures k >= 0 ==> pos <= k && At(s, k, p)
    ensures k >= 0 ==> forall j :: pos <= j < k ==> !At(s, j, p)
    ensures k < 0 ==> k == -1 && forall j :: pos <= j ==> !At(s, j, p)
    decreases |s| - pos
  {
    if pos > |s| then -1 else if At(s, pos, p) then pos else Find(s, p, pos + 1)
  }

  /** Every occurrence replaced, from the left, without overlap. */
  function Replaced(s: string, src: string, des: string): string
    requires src != ""
    decreases |s|
  {
    var k := Find(s, src, 0);
    if k < 0 then s else s[..k] + des + Replaced(s[k + |src|..], src, des)
  }

  lemma {:induction false} FindBehind(done: string, rest: string, p: string, pos: nat)
    requires pos <= |rest|
    ensures Find(done + rest, p, |done| + pos) ==
            if Find(rest, p, pos) < 0 then -1 else |done| + Find(rest, p, pos)
    decreases |rest| - pos
  {
    assert At(done + rest, |done| + pos, p) <==> At(rest, pos, p) by {
      if pos + |p| <= |rest| {
        assert (done + rest)[|done| + pos..|done| + pos + |p|] == rest[pos..pos + |p|];
      }
    }
    if pos < |rest| { FindBehind(done, rest, p, pos + 1); }
  }

  lemma {:induction false} ReplaceTurn(base: string, done: string, rest: string, k: nat, src: string, des: string)
    requires src != "" && k == Find(rest, src, 0) && Replaced(base, src, des) == done + Replaced(rest, src, des)
    ensures k + |src| <= |rest|
    ensures var r := done + rest; var pos := |done| + k; var tail := rest[k + |src|..];
            && r[..pos] + des + r[pos + |src|..] == done + (rest[..k] + des) + tail
            && Replaced(base, src, des) == done + (rest[..k] + des) + Replaced(tail, src, des)
  {
    var tail := rest[k + |src|..];
    var r := done + rest;
    assert r[..|done| + k] == done + rest[..k];
    assert r[|done| + k + |src|..] == tail;
    Associate(done, rest[..k], des);
    Associate(done, rest[..k] + des, Replaced(tail, src, des));
  }

  lemma {:induction false} Associate<T>(a: seq<T>, b: seq<T>, c: seq<T>)
    ensures a + b + c == a + (b + c)
  {
  }

  /** The in-place loop: what it has passed never changes again. */
  method StringReplace(strBase: string, strSrc: string, strDes: string) returns (r: string)
    requires strSrc != ""
    ensures r == Replaced(strBase, strSrc, strDes)
  {
    hide At, Replaced;
    r := strBase;
    ghost var done, rest := "", strBase;
    assert r == done + rest;
    FindBehind(done, rest, strSrc, 0);
    var pos := Find(r, strSrc, 0);
    while pos != -1
      invariant r == done + rest
      invariant pos == if Find(rest, strSrc, 0) < 0 then -1 else |done| + Find(rest, strSrc, 0)
      invariant Replaced(strBase, strSrc, strDes) == done + Replaced(rest, strSrc, strDes)
      decreases |rest|
    {
      ghost var k := Find(rest, strSrc, 0);
      ReplaceTurn(strBase, done, rest, k, strSrc, strDes);
      r := r[..pos] + strDes + r[pos + |strSrc|..];
      done, rest := done + (rest[..k] + strDes), rest[k + |strSrc|..];
      FindBehind(done, rest, strSrc, 0);
      pos := Find(r, strSrc, pos + |strDes|);
    }
    NothingToReplace(rest, strSrc, strDes);
  }

  lemma {:induction false} NothingToReplace(s: string, src: string, des: string)
    requires src != "" && Find(s, src, 0) < 0
    ensures Replaced(s, src, des) == s
  {
  }

  /** The loop's state, for the pattern it does not end on. */
  datatype Loop = Loop(base: string, pos: nat)

  predicate Running(l: Loop, src: string) { Find(l.base, src, l.pos) != -1 }

  function Turn(l: Loop, src: string, des: string): Loop
    requires Running(l, src)
  {
    var k := Find(l.base, src, l.pos);
    Loop(l.base[..k] + des + l.base[k + |src|..], k + |des|)
  }

  ghost predicate RunsFor(n: nat, l: Loop, src: string, des: string)
  {
    n == 0 || (Running(l, src) && RunsFor(n - 1, Turn(l, src, des), src, des))
  }

  /** An empty pattern is found again after every replacement: the loop never ends. */
  lemma {:induction false} EmptyPatternRunsForever(n: nat, l: Loop, des: string)
    requires l.pos <= |l.base|
    ensures RunsFor(n, l, "", des)
  {
    if n > 0 { EmptyPatternRunsForever(n - 1, Turn(l, "", des), des); }
  }

  /** With a pattern, only so many turns as the text has characters are possible. */
  lemma {:induction false} PatternEnds(n: nat, l: Loop, src: string, des: string)
    requires src != "" && l.pos <= |l.base| && RunsFor(n, l, src, des)
    ensures n <= |l.base| - l.pos
  {
    if n > 0 { PatternEnds(n - 1, Turn(l, src, des), src, des); }
  }

  lemma {:induction false} ReplacedChar(s: string, c: char, d: char, k: nat)
    requires k < |s|
    ensures |Replaced(s, [c], [d])| == |s|
    ensures Replaced(s, [c], [d])[k] == if s[k] == c then d else s[k]
    decreases |s|
  {
    var f := Find(s, [c], 0);
    if f < 0 {
      AtChar(s, k, c);
    } else {
      AtChar(s, f, c);
      AtChar(s, k, c);
      var rest := s[f + 1..];
      if rest != "" { ReplacedChar(rest, c, d, if k > f then k - f - 1 else 0); }
    }
  }

  function SplitFrom(s: string, delim: string, pos: nat): seq<string>
    requires delim != ""
    decreases |s| - pos
  {
    if pos >= |s| then []
    else
      var k := Find(s, delim, pos);
      if k < 0 then [s[pos..]] else [s[pos..k]] + SplitFrom(s, delim, k + |delim|)
  }

  function Split(s: string, delim: string): seq<string>
  {
    if delim == "" then [] else SplitFrom(s, delim, 0)
  }

  method StringSplit(s: string, delim: string) returns (elems: seq<string>)
    ensures elems == Split(s, delim)
  {
    hide At;
    elems := [];
    var pos := 0;
    if |delim| == 0 {
      return;
    }
    while pos < |s|
      invariant Split(s, delim) == elems + SplitFrom(s, delim, pos)
      decreases |s| - pos
    {
      var findPos := Find(s, delim, pos);
      if findPos >= 0 { CutAt(s, delim, pos, findPos); }
      if findPos < 0 {
        elems := elems + [s[pos..]];
        return;
      }
      Associate(elems, [s[pos..findPos]], SplitFrom(s, delim, findPos + |delim|));
      elems := elems + [s[pos..findPos]];
      pos := findPos + |delim|;
    }
  }

  /** No piece contains the delimiter. */
  lemma {:induction false} PiecesAreFree(s: string, delim: string, pos: nat, n: nat, o: nat)
    requires delim != "" && n < |SplitFrom(s, delim, pos)|
    ensures !At(SplitFrom(s, delim, pos)[n], o, delim)
    decreases |s| - pos
  {
    var k := Find(s, delim, pos);
    var piece := if k < 0 then s[pos..] else s[pos..k];
    if n == 0 {
      if At(piece, o, delim) {
        assert s[pos + o..pos + o + |delim|] == piece[o..o + |delim|];
        assert At(s, pos + o, delim);
      }
    } else {
      PiecesAreFree(s, delim, k + |delim|, n - 1, o);
    }
  }

  function Join(ps: seq<string>, delim: string): string
  {
    if ps == [] then "" else if |ps| == 1 then ps[0] else ps[0] + (delim + Join(ps[1..], delim))
  }

  /** The pieces re-join to the input, up to one delimiter at its end. */
  lemma {:induction false} PiecesRejoin(s: string, delim: string, pos: nat)
    requires delim != "" && pos < |s|
    ensures SplitFrom(s, delim, pos) != []
    ensures s[pos..] == Join(SplitFrom(s, delim, pos), delim) ||
            s[pos..] == Join(SplitFrom(s, delim, pos), delim) + delim
    decreases |s| - pos
  {
    hide At;
    var k := Find(s, delim, pos);
    if k >= 0 {
      CutAt(s, delim, pos, k);
      var n := k + |delim|;
      var ps := SplitFrom(s, delim, pos);
      if n < |s| {
        PiecesRejoin(s, delim, n);
        assert ps[1..] == SplitFrom(s, delim, n);
        Associate(delim, Join(ps[1..], delim), delim);
        Associate(s[pos..k], delim + Join(ps[1..], delim), delim);
      } else {
        assert s[n..] == "";
        assert delim + "" == delim;
        assert ps == [s[pos..k]];
      }
    }
  }

  /** A delimiter at the end opens no piece: where the last piece is empty, one more delimiter
      closed it. An empty input has no pieces. */
  lemma {:induction false} LastPiece(s: string, delim: string, pos: nat)
    requires delim != ""
    ensures pos >= |s| ==> SplitFrom(s, delim, pos) == []
    ensures var ps := SplitFrom(s, delim, pos);
            ps != [] && ps[|ps| - 1] == "" ==> s[pos..] == Join(ps, delim) + delim
    decreases |s| - pos
  {
    hide At;
    var k := Find(s, delim, pos);
    if pos < |s| && k >= 0 {
      CutAt(s, delim, pos, k);
      var ps, rest := SplitFrom(s, delim, pos), SplitFrom(s, delim, k + |delim|);
      LastPiece(s, delim, k + |delim|);
      if rest == [] {
        assert s[k + |delim|..] == "" by { NoPieces(s, delim, k + |delim|); }
        assert delim + "" == delim;
      } else if rest[|rest| - 1] == "" {
        assert ps[1..] == rest;
        Associate(delim, Join(rest, delim), delim);
        Associate(s[pos..k], delim + Join(rest, delim), delim);
      }
    }
  }

  lemma {:induction false} NoPieces(s: string, delim: string, pos: nat)
    requires delim != "" && SplitFrom(s, delim, pos) == []
    ensures pos >= |s|
  {
  }

  lemma {:induction false} CutAt(s: string, delim: string, pos: nat, k: nat)
    requires pos <= k && At(s, k, delim)
    ensures k + |delim| <= |s| && s[pos..] == s[pos..k] + (delim + s[k + |delim|..])
  {
    assert s[k..] == s[k..k + |delim|] + s[k + |delim|..];
    assert s[pos..] == s[pos..k] + s[k..];
  }
}
