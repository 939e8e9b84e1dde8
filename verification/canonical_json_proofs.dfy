/** Canonical JSON is uniquely decodable. */
module CanonicalJsonProofs {
  import opened Sorting
  import opened CanonicalJson

  // ------------------------------------------------------------ the reference: equal values

  /** The keys an object shows. */
  function Keys(entries: seq<Entry>): set<string> {
    set e | e in entries && !e.value.Undefined? :: e.key
  }

  /** Equal up to the order of keys and to undefined fields. */
  ghost predicate Same(v: Value, w: Value)
    decreases v
  {
    match (v, w)
    case (Arr(xs), Arr(ys)) => |xs| == |ys| && forall i | 0 <= i < |xs| :: Same(xs[i], ys[i])
    case (Obj(es), Obj(fs)) =>
      && Keys(es) == Keys(fs)
      && forall e, f | e in es && f in fs && e.key == f.key && !e.value.Undefined? && !f.value.Undefined? :: Same(e.value, f.value)
    case (_, _) => v == w
  }

  ghost predicate DistinctKeys(entries: seq<Entry>) {
    forall i, j :: 0 <= i < j < |entries| ==> entries[i].key != entries[j].key
  }

  /** Objects have distinct keys, at every depth. */
  ghost predicate WellFormed(v: Value)
    decreases v
  {
    match v
    case Arr(items) => forall i | 0 <= i < |items| :: WellFormed(items[i])
    case Obj(entries) => DistinctKeys(entries) && forall e | e in entries :: WellFormed(e.value)
    case _ => true
  }

  // ------------------------------------------------------------ scalars

  lemma Cancel(p: string, x: string, q: string, y: string)
    requires p + x == q + y && |p| == |q|
    ensures p == q && x == y
  {
    assert p == (p + x)[..|p|] && q == (q + y)[..|q|];
    assert x == (p + x)[|p|..] && y == (q + y)[|q|..];
  }

  predicate IsDigit(c: char) {
    '0' <= c <= '9'
  }

  /** The text that follows cannot prolong a number. */
  predicate EndsNumber(rest: string) {
    rest == [] || !IsDigit(rest[0])
  }

  lemma {:induction false} DigitsAreDigits(n: nat)
    ensures |Digits(n)| > 0 && forall i :: 0 <= i < |Digits(n)| ==> IsDigit(Digits(n)[i])
  {
    if n >= 10 {
      DigitsAreDigits(n / 10);
    }
  }

  lemma {:induction false} DigitsInjective(m: nat, n: nat)
    requires Digits(m) == Digits(n)
    ensures m == n
  {
    DigitsAreDigits(m / 10);
    DigitsAreDigits(n / 10);
    if m >= 10 && n >= 10 {
      Cancel(Digits(m / 10), [Digit(m % 10)], Digits(n / 10), [Digit(n % 10)]);
      DigitsInjective(m / 10, n / 10);
    }
  }

  lemma DigitsNoLonger(a: string, b: string, r: string, s: string)
    requires a + r == b + s && EndsNumber(s)
    requires forall i :: 0 <= i < |a| ==> IsDigit(a[i])
    ensures |a| <= |b|
  {
    var k := if |b| < |a| then |b| else 0;
    assert a != [] ==> (a + r)[k] == a[k];
    assert k < |b + s| && k >= |b| ==> (b + s)[k] == s[k - |b|];
  }

  lemma DigitsDetermine(m: nat, n: nat, r: string, s: string)
    requires Digits(m) + r == Digits(n) + s && EndsNumber(r) && EndsNumber(s)
    ensures m == n && r == s
  {
    DigitsAreDigits(m);
    DigitsAreDigits(n);
    DigitsNoLonger(Digits(m), Digits(n), r, s);
    DigitsNoLonger(Digits(n), Digits(m), s, r);
    Cancel(Digits(m), r, Digits(n), s);
    DigitsInjective(m, n);
  }

  lemma MinusFirst(m: int, r: string)
    ensures |PrintInt(m)| > 0 && (PrintInt(m) + r)[0] == PrintInt(m)[0]
    ensures PrintInt(m)[0] == '-' <==> m < 0
  {
    DigitsAreDigits(Magnitude(m));
  }

  lemma Regrouped(a: string, b: string, c: string)
    ensures (a + b) + c == a + (b + c)
  {
  }

  lemma IntDetermines(m: int, n: int, r: string, s: string)
    requires PrintInt(m) + r == PrintInt(n) + s && EndsNumber(r) && EndsNumber(s)
    ensures m == n && r == s
  {
    MinusFirst(m, r);
    MinusFirst(n, s);
    var a, b := Digits(Magnitude(m)), Digits(Magnitude(n));
    Regrouped(Sign(m), a, r);
    Regrouped(Sign(n), b, s);
    Cancel(Sign(m), a + r, Sign(n), b + s);
    DigitsDetermine(Magnitude(m), Magnitude(n), r, s);
  }

  /** What an escape starts with tells one character from another. */
  lemma EscapeDetermines(c: char, d: char, x: string, y: string)
    requires Escape(c) + x == Escape(d) + y
    ensures c == d && x == y
  {
    var a, b := Escape(c), Escape(d);
    assert (a + x)[0] == a[0] && (b + y)[0] == b[0];
    if |a| > 1 {
      assert |b| > 1;
      assert (a + x)[1] == a[1] && (b + y)[1] == b[1];
      if |a| == 6 {
        assert |b| == 6;
        assert (a + x)[4] == a[4] && (b + y)[4] == b[4];
        assert (a + x)[5] == a[5] && (b + y)[5] == b[5];
        assert c as int == 16 * (c as int / 16) + c as int % 16;
        assert d as int == 16 * (d as int / 16) + d as int % 16;
      }
    }
    Cancel(a, x, b, y);
  }

  lemma EscapeNeverStartsWithQuote(c: char)
    ensures |Escape(c)| > 0 && Escape(c)[0] != '"'
  {
  }

  /** The rest of a quoted string starts with a quote only at its end. */
  lemma QuotedStart(a: string, r: string) returns (rest: string)
    ensures a == [] ==> EscapeAll(a) + ['"'] + r == ['"'] + r
    ensures a != [] ==>
      && rest == EscapeAll(a[1..]) + ['"'] + r
      && EscapeAll(a) + ['"'] + r == Escape(a[0]) + rest
      && (EscapeAll(a) + ['"'] + r)[0] != '"'
  {
    rest := [];
    if a != [] {
      rest := EscapeAll(a[1..]) + ['"'] + r;
      EscapeNeverStartsWithQuote(a[0]);
      assert EscapeAll(a) + ['"'] + r == Escape(a[0]) + rest;
      assert (Escape(a[0]) + rest)[0] == Escape(a[0])[0];
    }
  }

  lemma {:induction false} QuotedDetermines(a: string, b: string, r: string, s: string)
    requires EscapeAll(a) + ['"'] + r == EscapeAll(b) + ['"'] + s
    ensures a == b && r == s
  {
    var x := QuotedStart(a, r);
    var y := QuotedStart(b, s);
    if a == [] {
      assert (['"'] + r)[0] == '"';
      Cancel(['"'], r, ['"'], s);
    } else if b == [] {
      assert false;
    } else {
      EscapeDetermines(a[0], b[0], x, y);
      QuotedDetermines(a[1..], b[1..], r, s);
      assert a == [a[0]] + a[1..] && b == [b[0]] + b[1..];
    }
  }

  lemma QuoteDetermines(a: string, b: string, r: string, s: string)
    requires Quote(a) + r == Quote(b) + s
    ensures a == b && r == s
  {
    assert Quote(a) + r == ['"'] + (EscapeAll(a) + ['"'] + r);
    assert Quote(b) + s == ['"'] + (EscapeAll(b) + ['"'] + s);
    Cancel(['"'], EscapeAll(a) + ['"'] + r, ['"'], EscapeAll(b) + ['"'] + s);
    QuotedDetermines(a, b, r, s);
  }

  // ------------------------------------------------------------ first characters

  /** The constructor that a first character announces. */
  function Kind(c: char): nat {
    if c == 'n' then 0 else if c == 't' then 1 else if c == 'f' then 2 else if c == '"' then 3
    else if c == '[' then 4 else if c == '{' then 5 else if c == '-' || IsDigit(c) then 6 else 7
  }

  function KindOf(leq: Collation, v: Value): nat
    requires Printable(leq, v)
  {
    match v
    case Null => 0
    case Bool(b) => if b then 1 else 2
    case Str(_) => 3
    case Arr(_) => 4
    case Obj(_) => 5
    case Num(_) => 6
  }

  lemma FirstCharacter(leq: Collation, v: Value)
    requires Printable(leq, v)
    ensures |Text(leq, v)| > 0 && Kind(Text(leq, v)[0]) == KindOf(leq, v)
  {
    if v.Num? {
      DigitsAreDigits(Magnitude(v.n));
    }
  }

  // ------------------------------------------------------------ objects: printed entries

  /** Distinct strings never compare as equal. */
  ghost predicate Strict(leq: Collation) {
    forall a, b :: leq(a, b) && leq(b, a) ==> a == b
  }

  lemma KeyOrder(leq: Collation)
    requires TotalPreorder(leq)
    ensures TotalPreorder(KeyLeq(leq))
  {
    forall x: Entry, y: Entry ensures KeyLeq(leq)(x, y) || KeyLeq(leq)(y, x) {
      assert leq(x.key, y.key) || leq(y.key, x.key);
    }
    forall x: Entry, y: Entry, z: Entry | KeyLeq(leq)(x, y) && KeyLeq(leq)(y, z) ensures KeyLeq(leq)(x, z) {
      assert leq(x.key, y.key) && leq(y.key, z.key);
    }
  }

  lemma {:induction false} DefinedMembers(entries: seq<Entry>, e: Entry)
    ensures e in Defined(entries) <==> e in entries && !e.value.Undefined?
  {
    if entries != [] {
      DefinedMembers(entries[1..], e);
    }
  }

  lemma {:induction false} DefinedKeepsDistinct(entries: seq<Entry>)
    requires DistinctKeys(entries)
    ensures DistinctKeys(Defined(entries))
  {
    if entries != [] {
      DefinedKeepsDistinct(entries[1..]);
      var rest := Defined(entries[1..]);
      forall j | 0 <= j < |rest| ensures entries[0].key != rest[j].key {
        DefinedMembers(entries[1..], rest[j]);
        var i :| 0 <= i < |entries[1..]| && entries[1..][i] == rest[j];
        assert entries[i + 1] == rest[j];
      }
    }
  }

  lemma {:induction false} InsertMembers(leq: Collation, e: Entry, s: seq<Entry>)
    requires DistinctKeys(s) && forall i :: 0 <= i < |s| ==> s[i].key != e.key
    ensures forall x :: x in Insert(e, s, KeyLeq(leq)) <==> x == e || x in s
    ensures DistinctKeys(Insert(e, s, KeyLeq(leq)))
  {
    if s != [] && !KeyLeq(leq)(e, s[0]) {
      InsertMembers(leq, e, s[1..]);
      var rest := Insert(e, s[1..], KeyLeq(leq));
      assert s == [s[0]] + s[1..];
      forall j | 0 <= j < |rest| ensures rest[j].key != s[0].key {
        assert rest[j] in rest;
      }
    }
  }

  lemma {:induction false} SortMembers(leq: Collation, s: seq<Entry>)
    requires DistinctKeys(s)
    ensures forall x :: x in Sort(s, KeyLeq(leq)) <==> x in s
    ensures DistinctKeys(Sort(s, KeyLeq(leq)))
  {
    if s != [] {
      SortMembers(leq, s[1..]);
      var rest := Sort(s[1..], KeyLeq(leq));
      forall i | 0 <= i < |rest| ensures rest[i].key != s[0].key {
        assert rest[i] in s[1..];
      }
      InsertMembers(leq, s[0], rest);
      assert s == [s[0]] + s[1..];
    }
  }

  /** Printed entries are the defined ones, each once. */
  lemma PrintedEntries(leq: Collation, entries: seq<Entry>)
    requires DistinctKeys(entries)
    ensures DistinctKeys(Printed(leq, entries))
    ensures forall e :: e in Printed(leq, entries) <==> e in entries && !e.value.Undefined?
  {
    DefinedKeepsDistinct(entries);
    SortMembers(leq, Defined(entries));
    forall e ensures e in Printed(leq, entries) <==> e in entries && !e.value.Undefined? {
      DefinedMembers(entries, e);
    }
  }

  lemma PrintedIsSorted(leq: Collation, entries: seq<Entry>)
    requires TotalPreorder(leq)
    ensures SortedBy(Printed(leq, entries), KeyLeq(leq))
  {
    KeyOrder(leq);
    SortIsSortedPermutation(Defined(entries), KeyLeq(leq));
  }

  /** Two lists of entries print the same keys and equal values, one by one. */
  ghost predicate Matching(p: seq<Entry>, q: seq<Entry>) {
    |p| == |q| && forall i :: 0 <= i < |p| ==> p[i].key == q[i].key && Same(p[i].value, q[i].value)
  }

  lemma KeysOfPrinted(leq: Collation, entries: seq<Entry>, k: string)
    requires DistinctKeys(entries)
    ensures k in Keys(entries) <==> exists i :: 0 <= i < |Printed(leq, entries)| && Printed(leq, entries)[i].key == k
  {
    PrintedEntries(leq, entries);
    var p := Printed(leq, entries);
    if k in Keys(entries) {
      var e :| e in entries && !e.value.Undefined? && e.key == k;
      assert e in p;
      var i :| 0 <= i < |p| && p[i] == e;
    }
    if i :| 0 <= i < |p| && p[i].key == k {
      assert p[i] in p;
    }
  }

  lemma MatchingIsSame(leq: Collation, es: seq<Entry>, fs: seq<Entry>)
    requires DistinctKeys(es) && DistinctKeys(fs) && Matching(Printed(leq, es), Printed(leq, fs))
    ensures Same(Obj(es), Obj(fs))
  {
    var p, q := Printed(leq, es), Printed(leq, fs);
    PrintedEntries(leq, es);
    PrintedEntries(leq, fs);
    forall k ensures k in Keys(es) <==> k in Keys(fs) {
      KeysOfPrinted(leq, es, k);
      KeysOfPrinted(leq, fs, k);
    }
    forall e, f | e in es && f in fs && e.key == f.key && !e.value.Undefined? && !f.value.Undefined?
      ensures Same(e.value, f.value)
    {
      assert e in p && f in q;
      var i :| 0 <= i < |p| && p[i] == e;
      var j :| 0 <= j < |q| && q[j] == f;
      assert p[j].key == p[i].key;
      assert i == j;
    }
  }
}
