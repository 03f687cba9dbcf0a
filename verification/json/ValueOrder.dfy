/** Variant's operator== and operator< on double-free values, as the type tests, the
    per-type overrides and the standard containers' comparisons compute them. */
module ValueOrder {
  import opened Value
  import opened PrinterSpec

  /** Variant::Type. */
  function TypeRank(v: Value): nat
  {
    match v
    case Null => 0
    case Bool(_) => 1
    case Int(_) => 2
    case Double(_) => 3
    case Str(_) => 4
    case List(_) => 5
    case Map(_) => 6
  }

  function Size(v: Value): nat
  {
    match v
    case List(items) => 1 + ItemsSize(items)
    case Map(entries) => 1 + EntriesSize(entries)
    case _ => 0
  }

  function ItemsSize(items: seq<Value>): nat
  {
    if items == [] then 0 else 1 + Size(items[0]) + ItemsSize(items[1..])
  }

  function EntriesSize(es: seq<Entry>): nat
  {
    if es == [] then 0 else 1 + Size(es[0].value) + EntriesSize(es[1..])
  }

  predicate AllNoDoubles(items: seq<Value>) { forall k :: 0 <= k < |items| ==> NoDoubles(items[k]) }

  predicate EntriesNoDoubles(es: seq<Entry>) { forall k :: 0 <= k < |es| ==> NoDoubles(es[k].value) }

  predicate Equal(a: Value, b: Value)
    requires NoDoubles(a) && NoDoubles(b)
  {
    if TypeRank(a) != TypeRank(b) then false
    else
      match a
      case Null => true
      case Bool(x) => x == b.b
      case Int(n) => n == b.n
      case Str(t) => t == b.text
      case List(items) =>
        |items| == |b.items| && forall k :: 0 <= k < |items| ==> Equal(items[k], b.items[k])
      case Map(entries) =>
        |entries| == |b.entries| &&
        forall k :: 0 <= k < |entries| ==>
                      entries[k].key == b.entries[k].key && Equal(entries[k].value, b.entries[k].value)
      case Double(_) => false
  }

  predicate Less(a: Value, b: Value)
    requires NoDoubles(a) && NoDoubles(b)
    decreases Size(a) + Size(b), 0
  {
    if TypeRank(a) != TypeRank(b) then TypeRank(a) < TypeRank(b)
    else
      match a
      case Null => false
      case Bool(x) => !x && b.b
      case Int(n) => n < b.n
      case Str(t) => StrLess(t, b.text)
      case List(items) => ItemsLess(items, b.items)
      case Map(entries) => EntriesLess(entries, b.entries)
      case Double(_) => false
  }

  /** std::lexicographical_compare with operator<. */
  predicate ItemsLess(a: seq<Value>, b: seq<Value>)
    requires AllNoDoubles(a) && AllNoDoubles(b)
    decreases ItemsSize(a) + ItemsSize(b)
  {
    if b == [] then false
    else if a == [] then true
    else if Less(a[0], b[0]) then true
    else if Less(b[0], a[0]) then false
    else ItemsLess(a[1..], b[1..])
  }

  /** std::pair's operator<: the keys first, the values between equal keys. */
  predicate EntryLess(a: Entry, b: Entry)
    requires NoDoubles(a.value) && NoDoubles(b.value)
    decreases Size(a.value) + Size(b.value), 1
  {
    StrLess(a.key, b.key) || (!StrLess(b.key, a.key) && Less(a.value, b.value))
  }

  predicate EntriesLess(a: seq<Entry>, b: seq<Entry>)
    requires EntriesNoDoubles(a) && EntriesNoDoubles(b)
    decreases EntriesSize(a) + EntriesSize(b)
  {
    if b == [] then false
    else if a == [] then true
    else if EntryLess(a[0], b[0]) then true
    else if EntryLess(b[0], a[0]) then false
    else EntriesLess(a[1..], b[1..])
  }

  /** operator== is equality of values. */
  lemma {:induction false} EqualIsEquality(a: Value, b: Value)
    requires NoDoubles(a) && NoDoubles(b)
    ensures Equal(a, b) <==> a == b
  {
    if TypeRank(a) == TypeRank(b) {
      match a {
        case List(items) =>
          if |items| == |b.items| {
            forall k | 0 <= k < |items| { EqualIsEquality(items[k], b.items[k]); }
          }
        case Map(entries) =>
          if |entries| == |b.entries| {
            forall k | 0 <= k < |entries| { EqualIsEquality(entries[k].value, b.entries[k].value); }
            if Equal(a, b) {
              forall k | 0 <= k < |entries| ensures entries[k] == b.entries[k] {}
              assert entries == b.entries;
            }
          }
        case _ =>
      }
    }
  }

  predicate ExactlyOne(p: bool, q: bool, r: bool) { (p && !q && !r) || (!p && q && !r) || (!p && !q && r) }

  /** Of two values one is less, or they are equal, and never two of these. */
  lemma {:induction false} Trichotomy(a: Value, b: Value)
    requires NoDoubles(a) && NoDoubles(b)
    ensures ExactlyOne(Less(a, b), a == b, Less(b, a))
    decreases Size(a) + Size(b), 0
  {
    if TypeRank(a) == TypeRank(b) {
      match a {
        case Str(t) => StrTrichotomy(t, b.text);
        case List(items) => ItemsTrichotomy(items, b.items);
        case Map(entries) => EntriesTrichotomy(entries, b.entries);
        case _ =>
      }
    }
  }

  lemma {:induction false} StrTrichotomy(a: string, b: string)
    ensures ExactlyOne(StrLess(a, b), a == b, StrLess(b, a))
  {
    StrLessTotal(a, b);
    StrLessIrreflexive(a);
    if StrLess(a, b) && StrLess(b, a) { StrLessTransitive(a, b, a); }
  }

  lemma {:induction false} ItemsTrichotomy(a: seq<Value>, b: seq<Value>)
    requires AllNoDoubles(a) && AllNoDoubles(b)
    ensures ExactlyOne(ItemsLess(a, b), a == b, ItemsLess(b, a))
    decreases ItemsSize(a) + ItemsSize(b)
  {
    hide Less;
    if a != [] && b != [] {
      Trichotomy(a[0], b[0]);
      ItemsTrichotomy(a[1..], b[1..]);
      assert a == [a[0]] + a[1..] && b == [b[0]] + b[1..];
    }
  }

  lemma {:induction false} EntryTrichotomy(a: Entry, b: Entry)
    requires NoDoubles(a.value) && NoDoubles(b.value)
    ensures ExactlyOne(EntryLess(a, b), a == b, EntryLess(b, a))
    decreases Size(a.value) + Size(b.value), 1
  {
    hide Less, StrLess;
    StrTrichotomy(a.key, b.key);
    Trichotomy(a.value, b.value);
  }

  lemma {:induction false} EntriesTrichotomy(a: seq<Entry>, b: seq<Entry>)
    requires EntriesNoDoubles(a) && EntriesNoDoubles(b)
    ensures ExactlyOne(EntriesLess(a, b), a == b, EntriesLess(b, a))
    decreases EntriesSize(a) + EntriesSize(b)
  {
    hide EntryLess;
    if a != [] && b != [] {
      EntryTrichotomy(a[0], b[0]);
      EntriesTrichotomy(a[1..], b[1..]);
      assert a == [a[0]] + a[1..] && b == [b[0]] + b[1..];
    }
  }

  /** operator< is transitive, across types and through lists and maps. */
  lemma {:induction false} Transitive(a: Value, b: Value, c: Value)
    requires NoDoubles(a) && NoDoubles(b) && NoDoubles(c) && Less(a, b) && Less(b, c)
    ensures Less(a, c)
    decreases Size(a) + Size(b) + Size(c), 0
  {
    if TypeRank(a) == TypeRank(b) == TypeRank(c) {
      match a {
        case Str(t) => StrLessTransitive(t, b.text, c.text);
        case List(items) => ItemsTransitive(items, b.items, c.items);
        case Map(entries) => EntriesTransitive(entries, b.entries, c.entries);
        case _ =>
      }
    }
  }

  lemma {:induction false} ItemsTransitive(a: seq<Value>, b: seq<Value>, c: seq<Value>)
    requires AllNoDoubles(a) && AllNoDoubles(b) && AllNoDoubles(c) && ItemsLess(a, b) && ItemsLess(b, c)
    ensures ItemsLess(a, c)
    decreases ItemsSize(a) + ItemsSize(b) + ItemsSize(c)
  {
    hide Less;
    if a != [] {
      Trichotomy(a[0], b[0]);
      Trichotomy(b[0], c[0]);
      Trichotomy(a[0], c[0]);
      if Less(a[0], b[0]) && Less(b[0], c[0]) { Transitive(a[0], b[0], c[0]); }
      if a[0] == b[0] == c[0] { ItemsTransitive(a[1..], b[1..], c[1..]); }
    }
  }

  lemma {:induction false} EntryTransitive(a: Entry, b: Entry, c: Entry)
    requires NoDoubles(a.value) && NoDoubles(b.value) && NoDoubles(c.value) && EntryLess(a, b) && EntryLess(b, c)
    ensures EntryLess(a, c)
    decreases Size(a.value) + Size(b.value) + Size(c.value), 1
  {
    hide Less, StrLess;
    StrTrichotomy(a.key, b.key);
    StrTrichotomy(b.key, c.key);
    if StrLess(a.key, b.key) && StrLess(b.key, c.key) { StrLessTransitive(a.key, b.key, c.key); }
    if a.key == b.key == c.key {
      StrTrichotomy(a.key, a.key);
      Transitive(a.value, b.value, c.value);
    }
  }

  lemma {:induction false} EntriesTransitive(a: seq<Entry>, b: seq<Entry>, c: seq<Entry>)
    requires EntriesNoDoubles(a) && EntriesNoDoubles(b) && EntriesNoDoubles(c)
    requires EntriesLess(a, b) && EntriesLess(b, c)
    ensures EntriesLess(a, c)
    decreases EntriesSize(a) + EntriesSize(b) + EntriesSize(c)
  {
    hide EntryLess;
    if a != [] {
      EntryTrichotomy(a[0], b[0]);
      EntryTrichotomy(b[0], c[0]);
      EntryTrichotomy(a[0], c[0]);
      if EntryLess(a[0], b[0]) && EntryLess(b[0], c[0]) { EntryTransitive(a[0], b[0], c[0]); }
      if a[0] == b[0] == c[0] { EntriesTransitive(a[1..], b[1..], c[1..]); }
    }
  }
}
