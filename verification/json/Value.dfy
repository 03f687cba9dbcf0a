/** The value kinds of a Variant that JSON can carry. A number that the parser does not read
    as an int is kept as the literal handed to strtod. A std::map is its entries in key
    order. */
module Value {
  datatype Value =
    | Null
    | Bool(b: bool)
    | Int(n: int)
    | Double(literal: string)
    | Str(text: string)
    | List(items: seq<Value>)
    | Map(entries: seq<Entry>)

  datatype Entry = Entry(key: string, value: Value)

  /** std::string's operator<: lexicographic by character. */
  predicate StrLess(a: string, b: string)
  {
    if b == "" then false
    else if a == "" then true
    else if a[0] < b[0] then true
    else if b[0] < a[0] then false
    else StrLess(a[1..], b[1..])
  }

  lemma {:induction false} StrLessIrreflexive(a: string)
    ensures !StrLess(a, a)
  {
    if a != "" { StrLessIrreflexive(a[1..]); }
  }

  lemma {:induction false} StrLessTransitive(a: string, b: string, c: string)
    requires StrLess(a, b) && StrLess(b, c)
    ensures StrLess(a, c)
  {
    if a != "" && a[0] == b[0] == c[0] { StrLessTransitive(a[1..], b[1..], c[1..]); }
  }

  lemma {:induction false} StrLessTotal(a: string, b: string)
    ensures StrLess(a, b) || a == b || StrLess(b, a)
  {
    if a != "" && b != "" && a[0] == b[0] {
      StrLessTotal(a[1..], b[1..]);
      if a[1..] == b[1..] {
        assert a == [a[0]] + a[1..];
        assert b == [b[0]] + b[1..];
      }
    }
  }

  predicate Sorted(es: seq<Entry>)
  {
    forall i, j :: 0 <= i < j < |es| ==> StrLess(es[i].key, es[j].key)
  }

  /** Every map, at every level, holds strictly increasing keys. */
  predicate WellFormed(v: Value)
  {
    match v
    case List(items) => forall k :: 0 <= k < |items| ==> WellFormed(items[k])
    case Map(entries) =>
      Sorted(entries) && forall k :: 0 <= k < |entries| ==> WellFormed(entries[k].value)
    case _ => true
  }

  /** data[key] = value on a std::map. */
  function Put(es: seq<Entry>, key: string, value: Value): (r: seq<Entry>)
  {
    if es == [] then [Entry(key, value)]
    else if es[0].key == key then [Entry(key, value)] + es[1..]
    else if StrLess(key, es[0].key) then [Entry(key, value)] + es
    else [es[0]] + Put(es[1..], key, value)
  }

  /** Assigning the pairs one after another, a later pair replacing an earlier one. */
  function FromPairs(ps: seq<Entry>): seq<Entry>
  {
    if ps == [] then []
    else Put(FromPairs(ps[..|ps| - 1]), ps[|ps| - 1].key, ps[|ps| - 1].value)
  }

  predicate HasPair(es: seq<Entry>, key: string, value: Value)
  {
    exists k :: 0 <= k < |es| && es[k] == Entry(key, value)
  }

  /** Put keeps the order, binds the key, and leaves every other binding as it was. */
  lemma {:induction false} PutMeaning(es: seq<Entry>, key: string, value: Value)
    requires Sorted(es)
    ensures Sorted(Put(es, key, value))
    ensures forall k, v ::
              HasPair(Put(es, key, value), k, v) <==> (if k == key then v == value else HasPair(es, k, v))
  {
    hide StrLess;
    if es == [] {
      assert Put(es, key, value)[0] == Entry(key, value);
    } else if es[0].key == key || StrLess(key, es[0].key) {
      PutFirst(es, key, value);
    } else {
      StrLessTotal(es[0].key, key);
      PutMeaning(es[1..], key, value);
      PutTail(es, key, value);
    }
  }

  /** A key that comes first, or is the first. */
  lemma {:induction false} PutFirst(es: seq<Entry>, key: string, value: Value)
    requires Sorted(es) && es != [] && (es[0].key == key || StrLess(key, es[0].key))
    ensures Sorted(Put(es, key, value))
    ensures forall k, v ::
              HasPair(Put(es, key, value), k, v) <==> (if k == key then v == value else HasPair(es, k, v))
  {
    hide StrLess;
    var rest := if es[0].key == key then es[1..] else es;
    assert Put(es, key, value) == [Entry(key, value)] + rest;
    forall j | 0 <= j < |rest| ensures StrLess(key, rest[j].key) {
      if es[0].key != key && j > 0 { StrLessTransitive(key, es[0].key, es[j].key); }
    }
    StrLessIrreflexive(key);
    assert forall j :: 0 <= j < |rest| ==> rest[j].key != key;
    forall k, v
      ensures HasPair(Put(es, key, value), k, v) <==> (if k == key then v == value else HasPair(es, k, v))
    {
      HasPairCons(Entry(key, value), rest, k, v);
      HasPairCons(es[0], es[1..], k, v);
      assert es == [es[0]] + es[1..];
    }
  }

  lemma {:induction false} PutTail(es: seq<Entry>, key: string, value: Value)
    requires es != [] && Sorted(es) && StrLess(es[0].key, key)
    requires Sorted(Put(es[1..], key, value))
    requires forall k, v :: HasPair(Put(es[1..], key, value), k, v) <==>
                            (if k == key then v == value else HasPair(es[1..], k, v))
    ensures Sorted([es[0]] + Put(es[1..], key, value))
    ensures forall k, v :: HasPair([es[0]] + Put(es[1..], key, value), k, v) <==>
                           (if k == key then v == value else HasPair(es, k, v))
  {
    var t := Put(es[1..], key, value);
    var r := [es[0]] + t;
    forall j | 0 <= j < |t| ensures StrLess(es[0].key, t[j].key) {
      assert HasPair(t, t[j].key, t[j].value);
      if t[j].key != key {
        assert HasPair(es[1..], t[j].key, t[j].value);
      }
    }
    StrLessIrreflexive(key);
    forall k, v ensures HasPair(r, k, v) <==> (if k == key then v == value else HasPair(es, k, v)) {
      HasPairCons(es[0], t, k, v);
      HasPairCons(es[0], es[1..], k, v);
      assert es == [es[0]] + es[1..];
    }
  }

  lemma {:induction false} HasPairCons(e: Entry, es: seq<Entry>, key: string, value: Value)
    ensures HasPair([e] + es, key, value) <==> e == Entry(key, value) || HasPair(es, key, value)
  {
    var r := [e] + es;
    if e == Entry(key, value) { assert r[0] == e; }
    if HasPair(es, key, value) {
      var i :| 0 <= i < |es| && es[i] == Entry(key, value);
      assert r[i + 1] == es[i];
    }
    if HasPair(r, key, value) {
      var i :| 0 <= i < |r| && r[i] == Entry(key, value);
      if i > 0 { assert es[i - 1] == r[i]; }
    }
  }

  lemma {:induction false} FromPairsSorted(ps: seq<Entry>)
    ensures Sorted(FromPairs(ps))
  {
    if ps != [] {
      FromPairsSorted(ps[..|ps| - 1]);
      PutMeaning(FromPairs(ps[..|ps| - 1]), ps[|ps| - 1].key, ps[|ps| - 1].value);
    }
  }

  /** A repeated key keeps the value given last. */
  lemma {:induction false} FromPairsLastWins(ps: seq<Entry>, i: nat)
    requires i < |ps| && forall j :: i < j < |ps| ==> ps[j].key != ps[i].key
    ensures HasPair(FromPairs(ps), ps[i].key, ps[i].value)
  {
    var init := ps[..|ps| - 1];
    FromPairsSorted(init);
    PutMeaning(FromPairs(init), ps[|ps| - 1].key, ps[|ps| - 1].value);
    if i < |ps| - 1 { FromPairsLastWins(init, i); }
  }

  lemma {:induction false} PutAtEnd(es: seq<Entry>, key: string, value: Value)
    requires forall k :: 0 <= k < |es| ==> StrLess(es[k].key, key)
    ensures Put(es, key, value) == es + [Entry(key, value)]
  {
    if es != [] {
      StrLessIrreflexive(key);
      if StrLess(key, es[0].key) { StrLessTransitive(key, es[0].key, key); }
      PutAtEnd(es[1..], key, value);
      assert es == [es[0]] + es[1..];
    }
  }

  /** Entries already in key order are left as they are. */
  lemma {:induction false} FromPairsOfSorted(es: seq<Entry>)
    requires Sorted(es)
    ensures FromPairs(es) == es
  {
    if es != [] {
      var init := es[..|es| - 1];
      FromPairsOfSorted(init);
      PutAtEnd(init, es[|es| - 1].key, es[|es| - 1].value);
      assert es == init + [es[|es| - 1]];
    }
  }

  lemma {:induction false} FromPairsWellFormed(ps: seq<Entry>)
    requires forall k :: 0 <= k < |ps| ==> WellFormed(ps[k].value)
    ensures WellFormed(Map(FromPairs(ps)))
  {
    FromPairsSorted(ps);
    if ps != [] {
      var init := ps[..|ps| - 1];
      FromPairsWellFormed(init);
      var es := FromPairs(init);
      PutMeaning(es, ps[|ps| - 1].key, ps[|ps| - 1].value);
      var r := FromPairs(ps);
      forall k | 0 <= k < |r| ensures WellFormed(r[k].value) {
        assert HasPair(r, r[k].key, r[k].value);
        if r[k].key != ps[|ps| - 1].key {
          assert HasPair(es, r[k].key, r[k].value);
        }
      }
    }
  }
}
