/** The string-aware brace scanner that finds the first JSON object in free text. */
module BalancedObject {
  import opened Wrappers
  import opened CanonicalJson
  import opened CanonicalJsonProofs

  /** Where in a text the scanner is: brace depth, inside a string, right after a backslash. */
  datatype State = State(depth: int, inString: bool, escaped: bool)

  function Next(st: State, ch: char): State {
    if st.inString then
      if st.escaped then st.(escaped := false)
      else if ch == '\\' then st.(escaped := true)
      else if ch == '"' then st.(inString := false)
      else st
    else if ch == '"' then st.(inString := true)
    else if ch == '{' then st.(depth := st.depth + 1)
    else if ch == '}' then st.(depth := st.depth - 1)
    else st
  }

  /** The scanner stops right after the brace that brings the depth to zero. */
  predicate Closes(st: State, ch: char) {
    !st.inString && ch == '}' && st.depth - 1 == 0
  }

  /** How many characters are read up to and including the closing brace. */
  function Scan(text: string, st: State): Option<nat> {
    if text == [] then None
    else if Closes(st, text[0]) then Some(1)
    else Shift(1, Scan(text[1..], Next(st, text[0])))
  }

  function Shift(n: nat, r: Option<nat>): Option<nat> {
    if r.None? then None else Some(n + r.value)
  }

  function IndexOf(text: string, ch: char): Option<nat> {
    if text == [] then None else if text[0] == ch then Some(0) else Shift(1, IndexOf(text[1..], ch))
  }

  lemma {:induction false} IndexOfInRange(text: string, ch: char)
    ensures IndexOf(text, ch).Some? ==> IndexOf(text, ch).value < |text|
  {
    if text != [] {
      IndexOfInRange(text[1..], ch);
    }
  }

  lemma {:induction false} ScanInRange(text: string, st: State)
    ensures Scan(text, st).Some? ==> Scan(text, st).value <= |text|
  {
    if text != [] {
      ScanInRange(text[1..], Next(st, text[0]));
    }
  }

  function FirstObject(text: string): Option<string> {
    IndexOfInRange(text, '{');
    var start := IndexOf(text, '{');
    if start.None? then None
    else
      ScanInRange(text[start.value..], State(0, false, false));
      var length := Scan(text[start.value..], State(0, false, false));
      if length.None? then None else Some(text[start.value..start.value + length.value])
  }

  /** The scanning loop. */
  method FirstBalancedObject(text: string) returns (found: Option<string>)
    ensures found == FirstObject(text)
  {
    IndexOfInRange(text, '{');
    var at := IndexOf(text, '{');
    if at.None? {
      return None;
    }
    var start := at.value;
    var depth, inString, escaped := 0, false, false;
    ScanInRange(text[start..], State(0, false, false));
    for i := start to |text|
      invariant Scan(text[start..], State(0, false, false)) == Shift(i - start, Scan(text[i..], State(depth, inString, escaped)))
    {
      var ch := text[i];
      assert text[i..][1..] == text[i + 1..];
      if inString {
        if escaped { escaped := false; }
        else if ch == '\\' { escaped := true; }
        else if ch == '"' { inString := false; }
        continue;
      }
      if ch == '"' { inString := true; }
      else if ch == '{' { depth := depth + 1; }
      else if ch == '}' {
        depth := depth - 1;
        if depth == 0 {
          return Some(text[start..i + 1]);
        }
      }
    }
    return None;
  }

  // ------------------------------------------------------------ scanning canonical text

  /** Reading `part` takes the scanner from one state to another without stopping in it. */
  ghost predicate Passes(part: string, st: State, after: State) {
    forall rest {:trigger Scan(part + rest, st)} :: Scan(part + rest, st) == Shift(|part|, Scan(rest, after))
  }

  lemma PassesOne(ch: char, st: State)
    requires !Closes(st, ch)
    ensures Passes([ch], st, Next(st, ch))
  {
    forall rest ensures Scan([ch] + rest, st) == Shift(1, Scan(rest, Next(st, ch))) {
      assert ([ch] + rest)[1..] == rest;
    }
  }

  lemma PassesBoth(a: string, b: string, st: State, mid: State, after: State)
    requires Passes(a, st, mid) && Passes(b, mid, after)
    ensures Passes(a + b, st, after)
  {
    forall rest ensures Scan((a + b) + rest, st) == Shift(|a + b|, Scan(rest, after)) {
      assert (a + b) + rest == a + (b + rest);
      assert Scan(a + (b + rest), st) == Shift(|a|, Scan(b + rest, mid));
    }
  }

  lemma PassesNothing(st: State)
    ensures Passes([], st, st)
  {
    forall rest ensures Scan([] + rest, st) == Shift(0, Scan(rest, st)) {
      assert [] + rest == rest;
    }
  }

  /** A text outside strings that holds no brace and no quote. */
  lemma {:induction false} PassesPlain(part: string, depth: int)
    requires forall i :: 0 <= i < |part| ==> part[i] !in ['"', '{', '}']
    ensures Passes(part, State(depth, false, false), State(depth, false, false))
  {
    var st := State(depth, false, false);
    if part == [] {
      PassesNothing(st);
    } else {
      PassesOne(part[0], st);
      PassesPlain(part[1..], depth);
      PassesBoth([part[0]], part[1..], st, st, st);
      assert part == [part[0]] + part[1..];
    }
  }

  /** Inside a string an escape is passed whole, and leaves the scanner inside. */
  lemma PassesEscape(c: char, depth: int)
    ensures Passes(Escape(c), State(depth, true, false), State(depth, true, false))
  {
    var inside := State(depth, true, false);
    var e := Escape(c);
    if e[0] == '\\' {
      var after := State(depth, true, true);
      PassesOne('\\', inside);
      PassesOne(e[1], after);
      PassesBoth(['\\'], [e[1]], inside, after, inside);
      PassesInside(e[2..], depth);
      PassesBoth(['\\'] + [e[1]], e[2..], inside, inside, inside);
      assert e == ['\\'] + [e[1]] + e[2..];
    } else {
      PassesOne(c, inside);
    }
  }

  lemma {:induction false} PassesInside(part: string, depth: int)
    requires forall i :: 0 <= i < |part| ==> part[i] != '"' && part[i] != '\\'
    ensures Passes(part, State(depth, true, false), State(depth, true, false))
  {
    var inside := State(depth, true, false);
    if part == [] {
      PassesNothing(inside);
    } else {
      PassesOne(part[0], inside);
      PassesInside(part[1..], depth);
      PassesBoth([part[0]], part[1..], inside, inside, inside);
      assert part == [part[0]] + part[1..];
    }
  }

  lemma {:induction false} PassesEscapes(s: string, depth: int)
    ensures Passes(EscapeAll(s), State(depth, true, false), State(depth, true, false))
  {
    var inside := State(depth, true, false);
    if s == [] {
      PassesNothing(inside);
    } else {
      PassesEscape(s[0], depth);
      PassesEscapes(s[1..], depth);
      PassesBoth(Escape(s[0]), EscapeAll(s[1..]), inside, inside, inside);
    }
  }

  /** A quoted string is passed as a whole, whatever braces and quotes it holds. */
  lemma PassesQuoted(s: string, depth: int)
    ensures Passes(Quote(s), State(depth, false, false), State(depth, false, false))
  {
    var outside, inside := State(depth, false, false), State(depth, true, false);
    PassesOne('"', outside);
    PassesEscapes(s, depth);
    PassesBoth(['"'], EscapeAll(s), outside, inside, inside);
    PassesOne('"', inside);
    PassesBoth(['"'] + EscapeAll(s), ['"'], outside, inside, outside);
  }

  lemma PassesNumber(n: int, depth: int)
    ensures Passes(PrintInt(n), State(depth, false, false), State(depth, false, false))
  {
    DigitsAreDigits(Magnitude(n));
    PassesPlain(PrintInt(n), depth);
  }

  /** Inside an object every canonical text is passed as a whole. */
  lemma {:induction false} PassesText(leq: Collation, v: Value, depth: int)
    requires Printable(leq, v) && depth >= 1
    ensures Passes(Text(leq, v), State(depth, false, false), State(depth, false, false))
    decreases Size(v), 0
  {
    var st := State(depth, false, false);
    match v
    case Null => PassesPlain(Text(leq, v), depth);
    case Bool(_) => PassesPlain(Text(leq, v), depth);
    case Num(n) => PassesNumber(n, depth);
    case Str(s) => PassesQuoted(s, depth);
    case Arr(items) =>
      PassesOne('[', st);
      PassesItems(leq, items, depth);
      PassesBoth(['['], Items(leq, items), st, st, st);
      PassesOne(']', st);
      PassesBoth(['['] + Items(leq, items), [']'], st, st, st);
    case Obj(entries) =>
      var inner := State(depth + 1, false, false);
      var fields := Fields(leq, Printed(leq, entries));
      PrintedIsNoLarger(leq, entries);
      PassesOne('{', st);
      PassesFields(leq, Printed(leq, entries), depth + 1);
      PassesBoth(['{'], fields, st, inner, inner);
      PassesOne('}', inner);
      PassesBoth(['{'] + fields, ['}'], st, inner, st);
  }

  lemma {:induction false} PassesItems(leq: Collation, items: seq<Value>, depth: int)
    requires AllPrintable(leq, items) && depth >= 1
    ensures Passes(Items(leq, items), State(depth, false, false), State(depth, false, false))
    decreases SizeItems(items), 1
  {
    var st := State(depth, false, false);
    if items == [] {
      PassesNothing(st);
    } else {
      PassesText(leq, items[0], depth);
      if |items| > 1 {
        PassesOne(',', st);
        PassesBoth(Text(leq, items[0]), [','], st, st, st);
        PassesItems(leq, items[1..], depth);
        PassesBoth(Text(leq, items[0]) + [','], Items(leq, items[1..]), st, st, st);
      }
    }
  }

  lemma {:induction false} PassesFields(leq: Collation, entries: seq<Entry>, depth: int)
    requires FieldsPrintable(leq, entries) && depth >= 1
    ensures Passes(Fields(leq, entries), State(depth, false, false), State(depth, false, false))
    decreases SizeEntries(entries), 1
  {
    var st := State(depth, false, false);
    if entries == [] {
      PassesNothing(st);
    } else {
      var key, text := Quote(entries[0].key), Text(leq, entries[0].value);
      PassesQuoted(entries[0].key, depth);
      PassesOne(':', st);
      PassesBoth(key, [':'], st, st, st);
      PassesText(leq, entries[0].value, depth);
      PassesBoth(key + [':'], text, st, st, st);
      if |entries| > 1 {
        PassesOne(',', st);
        PassesBoth(Field(leq, entries[0]), [','], st, st, st);
        PassesFields(leq, entries[1..], depth);
        PassesBoth(Field(leq, entries[0]) + [','], Fields(leq, entries[1..]), st, st, st);
      }
    }
  }

  lemma {:induction false} IndexAfterPrefix(prefix: string, text: string, ch: char)
    requires ch !in prefix && text != [] && text[0] == ch
    ensures IndexOf(prefix + text, ch) == Some(|prefix|)
  {
    if prefix == [] {
      assert prefix + text == text;
    } else {
      assert (prefix + text)[0] == prefix[0] && (prefix + text)[1..] == prefix[1..] + text;
      IndexAfterPrefix(prefix[1..], text, ch);
    }
  }

  /** The scan of an object's text stops exactly at its end. */
  lemma ScanObject(leq: Collation, entries: seq<Entry>, suffix: string)
    requires Printable(leq, Obj(entries))
    ensures Scan(Text(leq, Obj(entries)) + suffix, State(0, false, false)) == Some(|Text(leq, Obj(entries))|)
  {
    var fields := Fields(leq, Printed(leq, entries));
    var outer, inner := State(0, false, false), State(1, false, false);
    PassesOne('{', outer);
    PassesFields(leq, Printed(leq, entries), 1);
    PassesBoth(['{'], fields, outer, inner, inner);
    var rest := ['}'] + suffix;
    assert Text(leq, Obj(entries)) + suffix == (['{'] + fields) + rest;
    assert Scan((['{'] + fields) + rest, outer) == Shift(1 + |fields|, Scan(rest, inner));
    assert rest[0] == '}';
  }

  /**
   From any text whose first opening brace starts the canonical text of an object, the
   scanner returns exactly that text, through nested objects and escaped strings.
   */
  lemma FirstObjectIsExact(leq: Collation, prefix: string, entries: seq<Entry>, suffix: string)
    requires Printable(leq, Obj(entries)) && '{' !in prefix
    ensures FirstObject(prefix + Text(leq, Obj(entries)) + suffix) == Some(Text(leq, Obj(entries)))
  {
    var body := Text(leq, Obj(entries));
    var text := prefix + body + suffix;
    assert text == prefix + (body + suffix);
    IndexAfterPrefix(prefix, body + suffix, '{');
    assert text[|prefix|..] == body + suffix;
    ScanObject(leq, entries, suffix);
    assert text[|prefix|..|prefix| + |body|] == body;
  }
}
