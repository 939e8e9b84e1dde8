/**
 Canonical JSON: a recursive printer with sorted keys, and the string-aware scanner that
 cuts the first balanced object out of a text.
 */
module CanonicalJson {
  import opened Wrappers
  import opened Sorting

  /** A JavaScript value. `Undefined` fields of an object are dropped; `Opaque` is a function, a bigint or a symbol. */
  datatype Value =
    | Undefined
    | Opaque
    | Null
    | Bool(b: bool)
    | Num(n: int)
    | Str(s: string)
    | Arr(items: seq<Value>)
    | Obj(entries: seq<Entry>)

  /** An own property; the keys of an object are distinct. */
  datatype Entry = Entry(key: string, value: Value)

  // ------------------------------------------------------------ scalars (RFC 8259, sections 6 and 7)

  function Digit(d: nat): char
    requires d < 10
  {
    ['0', '1', '2', '3', '4', '5', '6', '7', '8', '9'][d]
  }

  function Digits(n: nat): string {
    if n < 10 then [Digit(n)] else Digits(n / 10) + [Digit(n % 10)]
  }

  function Sign(n: int): string {
    if n < 0 then ['-'] else []
  }

  function Magnitude(n: int): nat {
    if n < 0 then -n else n
  }

  function PrintInt(n: int): string {
    Sign(n) + Digits(Magnitude(n))
  }

  function HexDigit(d: nat): char
    requires d < 16
  {
    ['0', '1', '2', '3', '4', '5', '6', '7', '8', '9', 'a', 'b', 'c', 'd', 'e', 'f'][d]
  }

  /** The escape of one character of a string. */
  function Escape(c: char): string {
    if c == '"' then ['\\', '"']
    else if c == '\\' then ['\\', '\\']
    else if c == 8 as char then ['\\', 'b']
    else if c == 12 as char then ['\\', 'f']
    else if c == '\n' then ['\\', 'n']
    else if c == '\r' then ['\\', 'r']
    else if c == '\t' then ['\\', 't']
    else if c < ' ' then ['\\', 'u', '0', '0', HexDigit(c as int / 16), HexDigit(c as int % 16)]
    else [c]
  }

  function EscapeAll(s: string): string {
    if s == [] then [] else Escape(s[0]) + EscapeAll(s[1..])
  }

  function Quote(s: string): string {
    ['"'] + EscapeAll(s) + ['"']
  }

  // ------------------------------------------------------------ the printer

  /** How strings are compared; nothing is supposed of it here. */
  type Collation = (string, string) -> bool

  function KeyLeq(leq: Collation): (Entry, Entry) -> bool {
    (a: Entry, b: Entry) => leq(a.key, b.key)
  }

  function Defined(entries: seq<Entry>): seq<Entry> {
    if entries == [] then []
    else (if entries[0].value.Undefined? then [] else [entries[0]]) + Defined(entries[1..])
  }

  /** The entries an object prints, in the order it prints them. */
  function Printed(leq: Collation, entries: seq<Entry>): seq<Entry> {
    Sort(Defined(entries), KeyLeq(leq))
  }

  function Size(v: Value): nat {
    match v
    case Arr(items) => 1 + SizeItems(items)
    case Obj(entries) => 1 + SizeEntries(entries)
    case _ => 1
  }

  function SizeItems(items: seq<Value>): nat {
    if items == [] then 0 else 1 + Size(items[0]) + SizeItems(items[1..])
  }

  function SizeEntries(entries: seq<Entry>): nat {
    if entries == [] then 0 else 1 + Size(entries[0].value) + SizeEntries(entries[1..])
  }

  lemma {:induction false} InsertKeepsSize(leq: Collation, e: Entry, entries: seq<Entry>)
    ensures SizeEntries(Insert(e, entries, KeyLeq(leq))) == 1 + Size(e.value) + SizeEntries(entries)
  {
    if entries != [] && !KeyLeq(leq)(e, entries[0]) {
      InsertKeepsSize(leq, e, entries[1..]);
    }
  }

  lemma {:induction false} SortKeepsSize(leq: Collation, entries: seq<Entry>)
    ensures SizeEntries(Sort(entries, KeyLeq(leq))) == SizeEntries(entries)
  {
    if entries != [] {
      SortKeepsSize(leq, entries[1..]);
      InsertKeepsSize(leq, entries[0], Sort(entries[1..], KeyLeq(leq)));
    }
  }

  lemma {:induction false} DefinedIsNoLarger(entries: seq<Entry>)
    ensures SizeEntries(Defined(entries)) <= SizeEntries(entries)
  {
    if entries != [] {
      DefinedIsNoLarger(entries[1..]);
      if !entries[0].value.Undefined? {
        assert Defined(entries)[1..] == Defined(entries[1..]);
      } else {
        assert Defined(entries) == Defined(entries[1..]);
      }
    }
  }

  lemma PrintedIsNoLarger(leq: Collation, entries: seq<Entry>)
    ensures SizeEntries(Printed(leq, entries)) <= SizeEntries(entries)
  {
    DefinedIsNoLarger(entries);
    SortKeepsSize(leq, Defined(entries));
  }

  /** A value is printed unless it holds an unsupported one: `undefined` counts as one outside of object fields. */
  predicate Printable(leq: Collation, v: Value)
    decreases Size(v)
  {
    match v
    case Undefined => false
    case Opaque => false
    case Arr(items) => AllPrintable(leq, items)
    case Obj(entries) => PrintedIsNoLarger(leq, entries); FieldsPrintable(leq, Printed(leq, entries))
    case _ => true
  }

  predicate AllPrintable(leq: Collation, items: seq<Value>)
    decreases SizeItems(items)
  {
    items == [] || (Printable(leq, items[0]) && AllPrintable(leq, items[1..]))
  }

  predicate FieldsPrintable(leq: Collation, entries: seq<Entry>)
    decreases SizeEntries(entries)
  {
    entries == [] || (Printable(leq, entries[0].value) && FieldsPrintable(leq, entries[1..]))
  }

  function Text(leq: Collation, v: Value): string
    requires Printable(leq, v)
    decreases Size(v), 0
  {
    match v
    case Null => "null"
    case Bool(b) => if b then "true" else "false"
    case Num(n) => PrintInt(n)
    case Str(s) => Quote(s)
    case Arr(items) => ['['] + Items(leq, items) + [']']
    case Obj(entries) => PrintedIsNoLarger(leq, entries); ['{'] + Fields(leq, Printed(leq, entries)) + ['}']
  }

  function Items(leq: Collation, items: seq<Value>): string
    requires AllPrintable(leq, items)
    decreases SizeItems(items), 1
  {
    if items == [] then []
    else if |items| == 1 then Text(leq, items[0])
    else Text(leq, items[0]) + [','] + Items(leq, items[1..])
  }

  function Field(leq: Collation, e: Entry): string
    requires Printable(leq, e.value)
    decreases Size(e.value), 1
  {
    Quote(e.key) + [':'] + Text(leq, e.value)
  }

  function Fields(leq: Collation, entries: seq<Entry>): string
    requires FieldsPrintable(leq, entries)
    decreases SizeEntries(entries), 1
  {
    if entries == [] then []
    else if |entries| == 1 then Field(leq, entries[0])
    else Field(leq, entries[0]) + [','] + Fields(leq, entries[1..])
  }

  /** The canonical text of a value; an error where the printer throws. */
  function Canonical(leq: Collation, v: Value): Result<string, string> {
    if Printable(leq, v) then Ok(Text(leq, v)) else Err("unsupported canonical value")
  }
}
