/** Two values have the same canonical text exactly when they are equal up to key order and undefined fields. */
module CanonicalJsonTheorems {
  import opened Sorting
  import opened CanonicalJson
  import opened CanonicalJsonProofs

  // ------------------------------------------------------------ the text determines the value

  /** What follows the first element of a printed list. */
  function AfterItem(leq: Collation, items: seq<Value>, r: string): string
    requires items != [] && AllPrintable(leq, items)
  {
    if |items| == 1 then [']'] + r else [','] + (Items(leq, items[1..]) + [']'] + r)
  }

  function AfterField(leq: Collation, entries: seq<Entry>, r: string): string
    requires entries != [] && FieldsPrintable(leq, entries)
  {
    if |entries| == 1 then ['}'] + r else [','] + (Fields(leq, entries[1..]) + ['}'] + r)
  }

  lemma Regroup(first: string, more: string, close: string, r: string)
    ensures first + close + r == first + (close + r)
    ensures first + [','] + more + close + r == first + ([','] + (more + close + r))
  {
  }

  lemma SplitItems(leq: Collation, items: seq<Value>, r: string)
    requires items != [] && AllPrintable(leq, items)
    ensures Items(leq, items) + [']'] + r == Text(leq, items[0]) + AfterItem(leq, items, r)
    ensures |Text(leq, items[0])| > 0 && Text(leq, items[0])[0] != ']'
  {
    FirstCharacter(leq, items[0]);
    Regroup(Text(leq, items[0]), if |items| == 1 then [] else Items(leq, items[1..]), [']'], r);
  }

  lemma SplitFields(leq: Collation, entries: seq<Entry>, r: string)
    requires entries != [] && FieldsPrintable(leq, entries)
    ensures Fields(leq, entries) + ['}'] + r
      == Quote(entries[0].key) + ([':'] + (Text(leq, entries[0].value) + AfterField(leq, entries, r)))
    ensures Quote(entries[0].key)[0] == '"'
  {
    var e := entries[0];
    Regroup(Field(leq, e), if |entries| == 1 then [] else Fields(leq, entries[1..]), ['}'], r);
    assert Fields(leq, entries) + ['}'] + r == Field(leq, e) + AfterField(leq, entries, r);
    SplitField(Quote(e.key), Text(leq, e.value), AfterField(leq, entries, r));
  }

  lemma SplitField(key: string, text: string, r: string)
    ensures key + [':'] + text + r == key + ([':'] + (text + r))
  {
  }

  lemma AfterItemEndsNumber(leq: Collation, items: seq<Value>, r: string)
    requires items != [] && AllPrintable(leq, items)
    ensures EndsNumber(AfterItem(leq, items, r))
  {
  }

  lemma AfterFieldEndsNumber(leq: Collation, entries: seq<Entry>, r: string)
    requires entries != [] && FieldsPrintable(leq, entries)
    ensures EndsNumber(AfterField(leq, entries, r))
  {
  }

  ghost predicate ItemsWellFormed(items: seq<Value>) {
    forall i :: 0 <= i < |items| ==> WellFormed(items[i])
  }

  ghost predicate FieldsWellFormed(entries: seq<Entry>) {
    forall i :: 0 <= i < |entries| ==> WellFormed(entries[i].value)
  }

  /** No text is a proper prefix of another one, numbers apart, and the text determines the value. */
  lemma {:induction false} TextDetermines(leq: Collation, v: Value, w: Value, r: string, s: string)
    requires Printable(leq, v) && Printable(leq, w) && WellFormed(v) && WellFormed(w)
    requires Text(leq, v) + r == Text(leq, w) + s && EndsNumber(r) && EndsNumber(s)
    ensures Same(v, w) && r == s
    decreases Size(v), 0
  {
    FirstCharacter(leq, v);
    FirstCharacter(leq, w);
    assert (Text(leq, v) + r)[0] == Text(leq, v)[0] && (Text(leq, w) + s)[0] == Text(leq, w)[0];
    assert KindOf(leq, v) == KindOf(leq, w);
    match v
    case Null => Cancel(Text(leq, v), r, Text(leq, w), s);
    case Bool(_) => Cancel(Text(leq, v), r, Text(leq, w), s);
    case Num(n) => IntDetermines(n, w.n, r, s);
    case Str(a) => QuoteDetermines(a, w.s, r, s);
    case Arr(items) =>
      StripBrackets('[', Items(leq, items), [']'], r, Items(leq, w.items), s);
      ItemsDetermine(leq, items, w.items, r, s);
    case Obj(entries) =>
      PrintedIsWellFormed(leq, entries);
      PrintedIsWellFormed(leq, w.entries);
      StripBrackets('{', Fields(leq, Printed(leq, entries)), ['}'], r, Fields(leq, Printed(leq, w.entries)), s);
      FieldsDetermine(leq, Printed(leq, entries), Printed(leq, w.entries), r, s);
      MatchingIsSame(leq, entries, w.entries);
  }

  lemma StripBrackets(open: char, x: string, close: string, r: string, y: string, s: string)
    requires [open] + x + close + r == [open] + y + close + s
    ensures x + close + r == y + close + s
  {
    assert [open] + x + close + r == [open] + (x + close + r);
    assert [open] + y + close + s == [open] + (y + close + s);
    Cancel([open], x + close + r, [open], y + close + s);
  }

  lemma PrintedIsWellFormed(leq: Collation, entries: seq<Entry>)
    requires WellFormed(Obj(entries))
    ensures DistinctKeys(entries) && FieldsWellFormed(Printed(leq, entries)) && SizeEntries(Printed(leq, entries)) < Size(Obj(entries))
  {
    PrintedIsNoLarger(leq, entries);
    PrintedEntries(leq, entries);
    forall i | 0 <= i < |Printed(leq, entries)| ensures WellFormed(Printed(leq, entries)[i].value) {
      assert Printed(leq, entries)[i] in entries;
    }
  }

  /** A printed list starts with its closing bracket exactly when it is empty. */
  lemma ItemsStart(leq: Collation, items: seq<Value>, r: string)
    requires AllPrintable(leq, items)
    ensures (Items(leq, items) + [']'] + r)[0] == ']' <==> items == []
    ensures items == [] ==> Items(leq, items) + [']'] + r == [']'] + r
  {
    if items != [] {
      SplitItems(leq, items, r);
      assert (Text(leq, items[0]) + AfterItem(leq, items, r))[0] == Text(leq, items[0])[0];
    }
  }

  lemma FieldsStart(leq: Collation, entries: seq<Entry>, r: string)
    requires FieldsPrintable(leq, entries)
    ensures (Fields(leq, entries) + ['}'] + r)[0] == '}' <==> entries == []
    ensures entries == [] ==> Fields(leq, entries) + ['}'] + r == ['}'] + r
  {
    if entries != [] {
      SplitFields(leq, entries, r);
    }
  }

  lemma {:induction false} ItemsDetermine(leq: Collation, xs: seq<Value>, ys: seq<Value>, r: string, s: string)
    requires AllPrintable(leq, xs) && AllPrintable(leq, ys) && ItemsWellFormed(xs) && ItemsWellFormed(ys)
    requires Items(leq, xs) + [']'] + r == Items(leq, ys) + [']'] + s && EndsNumber(r) && EndsNumber(s)
    ensures |xs| == |ys| && (forall i :: 0 <= i < |xs| ==> Same(xs[i], ys[i])) && r == s
    decreases SizeItems(xs), 1
  {
    ItemsStart(leq, xs, r);
    ItemsStart(leq, ys, s);
    if xs == [] {
      Cancel([']'], r, [']'], s);
    } else {
      SplitItems(leq, xs, r);
      SplitItems(leq, ys, s);
      AfterItemEndsNumber(leq, xs, r);
      AfterItemEndsNumber(leq, ys, s);
      TextDetermines(leq, xs[0], ys[0], AfterItem(leq, xs, r), AfterItem(leq, ys, s));
      assert AfterItem(leq, xs, r)[0] == AfterItem(leq, ys, s)[0];
      if |xs| == 1 {
        Cancel([']'], r, [']'], s);
      } else {
        Cancel([','], Items(leq, xs[1..]) + [']'] + r, [','], Items(leq, ys[1..]) + [']'] + s);
        ItemsDetermine(leq, xs[1..], ys[1..], r, s);
        forall i | 0 <= i < |xs| ensures Same(xs[i], ys[i]) {
          if i > 0 { assert xs[i] == xs[1..][i - 1] && ys[i] == ys[1..][i - 1]; }
        }
      }
    }
  }

  lemma {:induction false} FieldsDetermine(leq: Collation, p: seq<Entry>, q: seq<Entry>, r: string, s: string)
    requires FieldsPrintable(leq, p) && FieldsPrintable(leq, q) && FieldsWellFormed(p) && FieldsWellFormed(q)
    requires Fields(leq, p) + ['}'] + r == Fields(leq, q) + ['}'] + s && EndsNumber(r) && EndsNumber(s)
    ensures Matching(p, q) && r == s
    decreases SizeEntries(p), 0
  {
    FieldsStart(leq, p, r);
    FieldsStart(leq, q, s);
    if p == [] {
      Cancel(['}'], r, ['}'], s);
    } else {
      SplitFields(leq, p, r);
      SplitFields(leq, q, s);
      var x, y := Text(leq, p[0].value) + AfterField(leq, p, r), Text(leq, q[0].value) + AfterField(leq, q, s);
      QuoteDetermines(p[0].key, q[0].key, [':'] + x, [':'] + y);
      Cancel([':'], x, [':'], y);
      AfterFieldEndsNumber(leq, p, r);
      AfterFieldEndsNumber(leq, q, s);
      TextDetermines(leq, p[0].value, q[0].value, AfterField(leq, p, r), AfterField(leq, q, s));
      assert AfterField(leq, p, r)[0] == AfterField(leq, q, s)[0];
      if |p| == 1 {
        Cancel(['}'], r, ['}'], s);
      } else {
        Cancel([','], Fields(leq, p[1..]) + ['}'] + r, [','], Fields(leq, q[1..]) + ['}'] + s);
        FieldsDetermine(leq, p[1..], q[1..], r, s);
        forall i | 0 <= i < |p| ensures p[i].key == q[i].key && Same(p[i].value, q[i].value) {
          if i > 0 { assert p[i] == p[1..][i - 1] && q[i] == q[1..][i - 1]; }
        }
      }
    }
  }

  // ------------------------------------------------------------ equal values have the same text

  ghost predicate HasKey(entries: seq<Entry>, k: string) {
    exists i :: 0 <= i < |entries| && entries[i].key == k
  }

  /** The sorted keys of equal objects are the same list. */
  lemma SameIsMatching(leq: Collation, es: seq<Entry>, fs: seq<Entry>)
    requires TotalPreorder(leq) && Strict(leq)
    requires DistinctKeys(es) && DistinctKeys(fs) && Same(Obj(es), Obj(fs))
    ensures Matching(Printed(leq, es), Printed(leq, fs))
  {
    var p, q := Printed(leq, es), Printed(leq, fs);
    PrintedEntries(leq, es);
    PrintedEntries(leq, fs);
    PrintedIsSorted(leq, es);
    PrintedIsSorted(leq, fs);
    forall k ensures HasKey(p, k) <==> HasKey(q, k) {
      KeysOfPrinted(leq, es, k);
      KeysOfPrinted(leq, fs, k);
    }
    SameKeyLists(leq, p, q);
    forall i | 0 <= i < |p| ensures Same(p[i].value, q[i].value) {
      assert p[i] in es && q[i] in fs;
    }
  }

  lemma {:induction false} SameKeyLists(leq: Collation, p: seq<Entry>, q: seq<Entry>)
    requires Strict(leq) && DistinctKeys(p) && DistinctKeys(q) && SortedBy(p, KeyLeq(leq)) && SortedBy(q, KeyLeq(leq))
    requires forall k :: HasKey(p, k) <==> HasKey(q, k)
    ensures |p| == |q| && forall i :: 0 <= i < |p| ==> p[i].key == q[i].key
  {
    if p == [] {
      if q != [] { assert HasKey(q, q[0].key); }
    } else {
      FirstKeys(leq, p, q);
      TailKeys(p, q);
      SameKeyLists(leq, p[1..], q[1..]);
    }
  }

  lemma FirstKeys(leq: Collation, p: seq<Entry>, q: seq<Entry>)
    requires Strict(leq) && p != [] && SortedBy(p, KeyLeq(leq)) && SortedBy(q, KeyLeq(leq))
    requires forall k :: HasKey(p, k) <==> HasKey(q, k)
    ensures q != [] && p[0].key == q[0].key
  {
    assert HasKey(p, p[0].key);
    var j :| 0 <= j < |q| && q[j].key == p[0].key;
    assert HasKey(q, q[0].key);
    var l :| 0 <= l < |p| && p[l].key == q[0].key;
    if j > 0 && l > 0 {
      assert KeyLeq(leq)(p[0], p[l]) && KeyLeq(leq)(q[0], q[j]);
    }
  }

  lemma TailKeys(p: seq<Entry>, q: seq<Entry>)
    requires p != [] && q != [] && p[0].key == q[0].key && DistinctKeys(p) && DistinctKeys(q)
    requires forall k :: HasKey(p, k) <==> HasKey(q, k)
    ensures forall k :: HasKey(p[1..], k) <==> HasKey(q[1..], k)
  {
    forall k ensures HasKey(p[1..], k) <==> HasKey(q[1..], k) {
      TailKey(p, k);
      TailKey(q, k);
    }
  }

  lemma TailKey(p: seq<Entry>, k: string)
    requires p != [] && DistinctKeys(p)
    ensures HasKey(p[1..], k) <==> k != p[0].key && HasKey(p, k)
  {
    if i :| 0 <= i < |p[1..]| && p[1..][i].key == k {
      assert p[i + 1].key == k;
    }
    if k != p[0].key {
      if i :| 0 <= i < |p| && p[i].key == k {
        assert p[1..][i - 1].key == k;
      }
    }
  }

  lemma {:induction false} SameHasSameText(leq: Collation, v: Value, w: Value)
    requires TotalPreorder(leq) && Strict(leq)
    requires Printable(leq, v) && WellFormed(v) && WellFormed(w) && Same(v, w)
    ensures Printable(leq, w) && Text(leq, v) == Text(leq, w)
    decreases Size(v), 0
  {
    match v
    case Arr(items) => ItemsHaveSameText(leq, items, w.items);
    case Obj(entries) =>
      SameIsMatching(leq, entries, w.entries);
      PrintedIsWellFormed(leq, entries);
      PrintedIsWellFormed(leq, w.entries);
      FieldsHaveSameText(leq, Printed(leq, entries), Printed(leq, w.entries));
    case _ =>
  }

  lemma {:induction false} ItemsHaveSameText(leq: Collation, xs: seq<Value>, ys: seq<Value>)
    requires TotalPreorder(leq) && Strict(leq)
    requires AllPrintable(leq, xs) && ItemsWellFormed(xs) && ItemsWellFormed(ys)
    requires |xs| == |ys| && forall i :: 0 <= i < |xs| ==> Same(xs[i], ys[i])
    ensures AllPrintable(leq, ys) && Items(leq, xs) == Items(leq, ys)
    decreases SizeItems(xs), 1
  {
    if xs != [] {
      SameHasSameText(leq, xs[0], ys[0]);
      ItemsHaveSameText(leq, xs[1..], ys[1..]);
    }
  }

  lemma {:induction false} FieldsHaveSameText(leq: Collation, p: seq<Entry>, q: seq<Entry>)
    requires TotalPreorder(leq) && Strict(leq)
    requires FieldsPrintable(leq, p) && FieldsWellFormed(p) && FieldsWellFormed(q) && Matching(p, q)
    ensures FieldsPrintable(leq, q) && Fields(leq, p) == Fields(leq, q)
    decreases SizeEntries(p), 1
  {
    if p != [] {
      SameHasSameText(leq, p[0].value, q[0].value);
      FieldsHaveSameText(leq, p[1..], q[1..]);
    }
  }

  /** Unique decodability, both ways; what is printable is decided by what is equal. */
  lemma CanonicalTextIsUnique(leq: Collation, v: Value, w: Value)
    requires TotalPreorder(leq) && Strict(leq)
    requires WellFormed(v) && WellFormed(w) && Canonical(leq, v).Ok?
    ensures Canonical(leq, v) == Canonical(leq, w) <==> Same(v, w)
  {
    if Same(v, w) {
      SameHasSameText(leq, v, w);
    }
    if Canonical(leq, w).Ok? && Text(leq, v) == Text(leq, w) {
      assert Text(leq, v) + [] == Text(leq, w) + [];
      TextDetermines(leq, v, w, [], []);
    }
  }

  // ------------------------------------------------------------ exactly when key order is immaterial

  function Pair(a: string, b: string): seq<Entry> {
    [Entry(a, Null), Entry(b, Null)]
  }

  lemma PrintsOne(leq: Collation, e: Entry)
    requires e.value.Null?
    ensures Defined([e]) == [e] && Sort([e], KeyLeq(leq)) == [e] && FieldsPrintable(leq, [e])
  {
    assert [e][1..] == [];
    assert Defined([]) == [] && Sort([], KeyLeq(leq)) == [] && FieldsPrintable(leq, []);
    assert Printable(leq, e.value);
  }

  lemma PrintsPair(leq: Collation, a: string, b: string)
    requires leq(a, b)
    ensures Printed(leq, Pair(a, b)) == Pair(a, b) && FieldsPrintable(leq, Pair(a, b))
  {
    var one, other := Entry(a, Null), Entry(b, Null);
    var rest := Pair(a, b)[1..];
    assert Pair(a, b)[0] == one && rest == [other];
    PrintsOne(leq, other);
    assert Defined(Pair(a, b)) == [one] + Defined(rest) == Pair(a, b);
    assert Sort(Pair(a, b), KeyLeq(leq)) == Insert(one, [other], KeyLeq(leq)) == [one] + [other];
  }

  lemma KeysOfPair(a: string, b: string)
    ensures Keys(Pair(a, b)) == {a, b}
  {
    assert Entry(a, Null) in Pair(a, b) && Entry(b, Null) in Pair(a, b);
    assert forall e :: e in Pair(a, b) ==> e == Entry(a, Null) || e == Entry(b, Null);
  }

  lemma PairsAreSame(a: string, b: string)
    requires a != b
    ensures WellFormed(Obj(Pair(a, b))) && Same(Obj(Pair(a, b)), Obj(Pair(b, a)))
  {
    KeysOfPair(a, b);
    KeysOfPair(b, a);
  }

  lemma PairsDiffer(leq: Collation, a: string, b: string)
    requires a != b && FieldsPrintable(leq, Pair(a, b)) && FieldsPrintable(leq, Pair(b, a))
    ensures ['{'] + Fields(leq, Pair(a, b)) + ['}'] != ['{'] + Fields(leq, Pair(b, a)) + ['}']
  {
    var x, y := Fields(leq, Pair(a, b)), Fields(leq, Pair(b, a));
    if ['{'] + x + ['}'] == ['{'] + y + ['}'] {
      StripBrackets('{', x, ['}'], [], y, []);
      SplitFields(leq, Pair(a, b), []);
      SplitFields(leq, Pair(b, a), []);
      QuoteDetermines(a, b, [':'] + (Text(leq, Null) + AfterField(leq, Pair(a, b), [])),
                      [':'] + (Text(leq, Null) + AfterField(leq, Pair(b, a), [])));
    }
  }

  /** Keys that compare as equal stay in the order they came in, so the text tells their order. */
  lemma TiedKeysTell(leq: Collation, a: string, b: string)
    requires a != b && leq(a, b) && leq(b, a)
    ensures var v, w := Obj(Pair(a, b)), Obj(Pair(b, a));
      && WellFormed(v) && WellFormed(w) && Same(v, w)
      && Printable(leq, v) && Printable(leq, w) && Text(leq, v) != Text(leq, w)
  {
    PrintsPair(leq, a, b);
    PrintsPair(leq, b, a);
    PairsAreSame(a, b);
    PairsAreSame(b, a);
    PairsDiffer(leq, a, b);
  }

  /** Equal values always have one text. */
  ghost predicate OneTextEach(leq: Collation) {
    forall v, w :: WellFormed(v) && WellFormed(w) && Printable(leq, v) && Same(v, w) ==> Canonical(leq, v) == Canonical(leq, w)
  }

  /** The order of keys is immaterial exactly when the collation never ties distinct strings. */
  lemma OrderIsImmaterialExactly(leq: Collation)
    requires TotalPreorder(leq)
    ensures OneTextEach(leq) <==> Strict(leq)
  {
    if Strict(leq) {
      forall v, w | WellFormed(v) && WellFormed(w) && Printable(leq, v) && Same(v, w) ensures Canonical(leq, v) == Canonical(leq, w) {
        SameHasSameText(leq, v, w);
      }
    } else {
      var a, b :| leq(a, b) && leq(b, a) && a != b;
      TiedKeysTell(leq, a, b);
      assert Canonical(leq, Obj(Pair(a, b))) != Canonical(leq, Obj(Pair(b, a)));
    }
  }
}
