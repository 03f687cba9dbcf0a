/** What operator< decides by, in terms of first differences. */
module OrderMeaning {
  import opened Value
  import opened PrinterSpec
  import opened ValueOrder

  /** Values of different types compare by type, those of one scalar type by their content. */
  lemma {:induction false} ScalarOrder(a: Value, b: Value)
    requires NoDoubles(a) && NoDoubles(b)
    ensures a.Null? && !b.Null? ==> Less(a, b) && !Less(b, a)
    ensures a.Bool? && (b.Int? || b.Str? || b.List? || b.Map?) ==> Less(a, b) && !Less(b, a)
    ensures a.Int? && (b.Str? || b.List? || b.Map?) ==> Less(a, b) && !Less(b, a)
    ensures a.Str? && (b.List? || b.Map?) ==> Less(a, b) && !Less(b, a)
    ensures a.List? && b.Map? ==> Less(a, b) && !Less(b, a)
    ensures a.Bool? && b.Bool? ==> (Less(a, b) <==> a.b == false && b.b == true)
    ensures a.Int? && b.Int? ==> (Less(a, b) <==> a.n < b.n)
    ensures a.Str? && b.Str? ==> (Less(a, b) <==> StrLess(a.text, b.text))
    ensures a.List? && b.List? ==> (Less(a, b) <==> ItemsLess(a.items, b.items))
    ensures a.Map? && b.Map? ==> (Less(a, b) <==> EntriesLess(a.entries, b.entries))
  {
  }

  /** The texts agree before `k`, where the first ends or has the smaller character. */
  predicate TextDiffers(a: string, b: string, k: nat)
  {
    k <= |a| && k < |b| && a[..k] == b[..k] && (k == |a| || a[k] < b[k])
  }

  lemma {:induction false} TextOrder(a: string, b: string)
    ensures StrLess(a, b) <==> exists k: nat :: TextDiffers(a, b, k)
  {
    if StrLess(a, b) {
      var k := TextWitness(a, b);
    }
    if k: nat :| TextDiffers(a, b, k) { TextLess(a, b, k); }
  }

  lemma {:induction false} TextWitness(a: string, b: string) returns (k: nat)
    requires StrLess(a, b)
    ensures TextDiffers(a, b, k)
  {
    if a == [] || a[0] < b[0] {
      k := 0;
    } else {
      k := TextWitness(a[1..], b[1..]);
      k := k + 1;
      assert a[..k] == [a[0]] + a[1..][..k - 1] && b[..k] == [b[0]] + b[1..][..k - 1];
    }
  }

  lemma {:induction false} TextLess(a: string, b: string, k: nat)
    requires TextDiffers(a, b, k)
    ensures StrLess(a, b)
  {
    if k > 0 {
      assert a[0] == a[..k][0] == b[..k][0] == b[0];
      assert a[1..][..k - 1] == a[..k][1..] && b[1..][..k - 1] == b[..k][1..];
      TextLess(a[1..], b[1..], k - 1);
    }
  }

  predicate ItemsDiffer(a: seq<Value>, b: seq<Value>, k: nat)
    requires AllNoDoubles(a) && AllNoDoubles(b)
  {
    k <= |a| && k < |b| && a[..k] == b[..k] && (k == |a| || Less(a[k], b[k]))
  }

  /** Lists compare by their first difference, and a proper prefix is less. */
  lemma {:induction false} ListOrder(a: seq<Value>, b: seq<Value>)
    requires AllNoDoubles(a) && AllNoDoubles(b)
    ensures ItemsLess(a, b) <==> exists k: nat :: ItemsDiffer(a, b, k)
  {
    if ItemsLess(a, b) {
      var k := ItemsWitness(a, b);
    }
    if k: nat :| ItemsDiffer(a, b, k) { ItemsAreLess(a, b, k); }
  }

  lemma {:induction false} ItemsWitness(a: seq<Value>, b: seq<Value>) returns (k: nat)
    requires AllNoDoubles(a) && AllNoDoubles(b) && ItemsLess(a, b)
    ensures ItemsDiffer(a, b, k)
  {
    hide Less;
    if a == [] || Less(a[0], b[0]) {
      k := 0;
    } else {
      Trichotomy(a[0], b[0]);
      k := ItemsWitness(a[1..], b[1..]);
      k := k + 1;
      assert a[..k] == [a[0]] + a[1..][..k - 1] && b[..k] == [b[0]] + b[1..][..k - 1];
    }
  }

  lemma {:induction false} ItemsAreLess(a: seq<Value>, b: seq<Value>, k: nat)
    requires AllNoDoubles(a) && AllNoDoubles(b) && ItemsDiffer(a, b, k)
    ensures ItemsLess(a, b)
  {
    hide Less;
    if k > 0 {
      assert a[0] == a[..k][0] == b[..k][0] == b[0];
      Trichotomy(a[0], b[0]);
      assert a[1..][..k - 1] == a[..k][1..] && b[1..][..k - 1] == b[..k][1..];
      ItemsAreLess(a[1..], b[1..], k - 1);
    }
  }

  predicate EntriesDiffer(a: seq<Entry>, b: seq<Entry>, k: nat)
    requires EntriesNoDoubles(a) && EntriesNoDoubles(b)
  {
    && k <= |a| && k < |b| && a[..k] == b[..k]
    && (k == |a| || StrLess(a[k].key, b[k].key) || (a[k].key == b[k].key && Less(a[k].value, b[k].value)))
  }

  /** Maps compare by the first entry that differs, key before value. */
  lemma {:induction false} MapOrder(a: seq<Entry>, b: seq<Entry>)
    requires EntriesNoDoubles(a) && EntriesNoDoubles(b)
    ensures EntriesLess(a, b) <==> exists k: nat :: EntriesDiffer(a, b, k)
  {
    if EntriesLess(a, b) {
      var k := EntriesWitness(a, b);
    }
    if k: nat :| EntriesDiffer(a, b, k) { EntriesAreLess(a, b, k); }
  }

  lemma {:induction false} EntryOrder(a: Entry, b: Entry)
    requires NoDoubles(a.value) && NoDoubles(b.value)
    ensures EntryLess(a, b) <==> StrLess(a.key, b.key) || (a.key == b.key && Less(a.value, b.value))
  {
    hide Less, StrLess;
    StrTrichotomy(a.key, b.key);
    StrLessIrreflexive(a.key);
  }

  lemma {:induction false} EntriesWitness(a: seq<Entry>, b: seq<Entry>) returns (k: nat)
    requires EntriesNoDoubles(a) && EntriesNoDoubles(b) && EntriesLess(a, b)
    ensures EntriesDiffer(a, b, k)
  {
    hide Less, StrLess, EntryLess;
    if a == [] || EntryLess(a[0], b[0]) {
      k := 0;
      if a != [] { EntryOrder(a[0], b[0]); }
    } else {
      EntryTrichotomy(a[0], b[0]);
      k := EntriesWitness(a[1..], b[1..]);
      k := k + 1;
      assert a[..k] == [a[0]] + a[1..][..k - 1] && b[..k] == [b[0]] + b[1..][..k - 1];
    }
  }

  lemma {:induction false} EntriesAreLess(a: seq<Entry>, b: seq<Entry>, k: nat)
    requires EntriesNoDoubles(a) && EntriesNoDoubles(b) && EntriesDiffer(a, b, k)
    ensures EntriesLess(a, b)
  {
    hide Less, StrLess, EntryLess;
    if k > 0 {
      assert a[0] == a[..k][0] == b[..k][0] == b[0];
      EntryTrichotomy(a[0], b[0]);
      assert a[1..][..k - 1] == a[..k][1..] && b[1..][..k - 1] == b[..k][1..];
      EntriesAreLess(a[1..], b[1..], k - 1);
    } else if a != [] {
      EntryOrder(a[0], b[0]);
    }
  }
}
