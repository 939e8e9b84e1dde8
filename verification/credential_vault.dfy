/** The encrypted credential vault: a sealed file of named entries with a generation. */
module CredentialVault {
  import opened Wrappers
  import opened Sorting

  type Timestamp = nat
  type KeyId = nat

  datatype Entry = Entry(name: string, value: string, createdAt: Timestamp, updatedAt: Timestamp)

  /** What is sealed in the file. */
  datatype Plaintext = Plaintext(generation: nat, entries: seq<Entry>)

  /** The file: only the key it was sealed with opens it. */
  datatype Sealed = Sealed(key: KeyId, content: Plaintext)

  datatype Error = InvalidInput | Conflict | WrongKey | NotInitialized | WriteFailed

  predicate NameLeq(a: Entry, b: Entry) {
    StringLeq(a.name, b.name)
  }

  ghost predicate NamesDistinct(entries: seq<Entry>) {
    forall i, j :: 0 <= i < j < |entries| ==> entries[i].name != entries[j].name
  }

  ghost predicate WellKept(p: Plaintext) {
    NamesDistinct(p.entries) && SortedBy(p.entries, NameLeq)
  }

  /** The entries as a map from names. */
  function Find(entries: seq<Entry>, name: string): (e: Option<Entry>)
    ensures e.Some? ==> e.value in entries && e.value.name == name
    ensures e.None? ==> forall x :: x in entries ==> x.name != name
  {
    if entries == [] then None
    else if entries[0].name == name then Some(entries[0])
    else Find(entries[1..], name)
  }

  /** `Map.set`: an entry replaces the one of its name in place, or is added at the end. */
  function Put(entries: seq<Entry>, e: Entry): (r: seq<Entry>)
  {
    if entries == [] then [e]
    else if entries[0].name == e.name then [e] + entries[1..]
    else [entries[0]] + Put(entries[1..], e)
  }

  lemma {:induction false} PutNames(entries: seq<Entry>, e: Entry, x: Entry)
    requires x in Put(entries, e)
    ensures x == e || x in entries
  {
    if entries != [] && entries[0].name != e.name && x != entries[0] {
      PutNames(entries[1..], e, x);
    }
  }

  lemma {:induction false} PutKeepsDistinct(entries: seq<Entry>, e: Entry)
    requires NamesDistinct(entries)
    ensures NamesDistinct(Put(entries, e))
  {
    if entries != [] {
      assert forall x :: x in entries[1..] ==> x.name != entries[0].name;
      if entries[0].name != e.name {
        PutKeepsDistinct(entries[1..], e);
        forall x | x in Put(entries[1..], e) ensures x.name != entries[0].name {
          PutNames(entries[1..], e, x);
        }
      }
    }
  }

  lemma {:induction false} FindAfterPut(entries: seq<Entry>, e: Entry, name: string)
    ensures Find(Put(entries, e), name) == if name == e.name then Some(e) else Find(entries, name)
  {
    if entries != [] && entries[0].name != e.name {
      FindAfterPut(entries[1..], e, name);
    }
  }

  lemma {:induction false} DistinctCountsOne(entries: seq<Entry>, x: Entry)
    requires NamesDistinct(entries) && x in entries
    ensures multiset(entries)[x] == 1
  {
    assert entries == [entries[0]] + entries[1..];
    if x in entries[1..] {
      DistinctCountsOne(entries[1..], x);
    }
  }

  lemma TwiceCounts(entries: seq<Entry>, i: nat, j: nat)
    requires i < j < |entries| && entries[i] == entries[j]
    ensures multiset(entries)[entries[i]] >= 2
  {
    assert entries == entries[..j] + [entries[j]] + entries[j + 1..];
    assert entries[..j][i] == entries[i];
    assert entries[i] in multiset(entries[..j]);
  }

  lemma PermutationKeepsDistinct(a: seq<Entry>, b: seq<Entry>)
    requires NamesDistinct(a) && multiset(a) == multiset(b)
    ensures NamesDistinct(b)
  {
    forall i, j | 0 <= i < j < |b| ensures b[i].name != b[j].name {
      assert b[i] in multiset(a) && b[j] in multiset(a);
      DistinctCountsOne(a, b[i]);
      if b[i] == b[j] {
        TwiceCounts(b, i, j);
      }
    }
  }

  lemma FindIsMembership(entries: seq<Entry>, e: Entry)
    requires NamesDistinct(entries) && e in entries
    ensures Find(entries, e.name) == Some(e)
  {
    var found := Find(entries, e.name);
  }

  lemma FindInPermutation(a: seq<Entry>, b: seq<Entry>, name: string)
    requires NamesDistinct(a) && NamesDistinct(b) && multiset(a) == multiset(b)
    ensures Find(a, name) == Find(b, name)
  {
    var found := Find(a, name);
    if found.Some? {
      assert found.value in multiset(b);
      FindIsMembership(b, found.value);
    }
    var other := Find(b, name);
    if other.Some? {
      assert other.value in multiset(a);
      FindIsMembership(a, other.value);
    }
  }

  lemma NameOrder()
    ensures TotalPreorder(NameLeq)
  {
    StringOrder();
  }

  /** Sorting the entries keeps the vault well kept and every lookup as it was. */
  lemma SortedEntries(entries: seq<Entry>, generation: nat)
    requires NamesDistinct(entries)
    ensures var sorted := Sort(entries, NameLeq);
      WellKept(Plaintext(generation, sorted)) && forall name :: Find(sorted, name) == Find(entries, name)
  {
    NameOrder();
    SortIsSortedPermutation(entries, NameLeq);
    PermutationKeepsDistinct(entries, Sort(entries, NameLeq));
    forall name ensures Find(Sort(entries, NameLeq), name) == Find(entries, name) {
      FindInPermutation(entries, Sort(entries, NameLeq), name);
    }
  }

  // ------------------------------------------------------------ the vault

  /** The last value given for a name. */
  function Written(values: seq<(string, string)>, name: string): Option<string> {
    if values == [] then None
    else if values[|values| - 1].0 == name then Some(values[|values| - 1].1)
    else Written(values[..|values| - 1], name)
  }

  /** The entry of a name after the values were written. */
  function AfterWriting(entries: seq<Entry>, values: seq<(string, string)>, now: Timestamp, name: string): Option<Entry> {
    var previous := Find(entries, name);
    match Written(values, name)
    case None => previous
    case Some(value) => Some(Entry(name, value, if previous.Some? then previous.value.createdAt else now, now))
  }

  /** One more value written. */
  lemma WritingOne(entries: seq<Entry>, values: seq<(string, string)>, i: nat, now: Timestamp, name: string)
    requires i < |values|
    ensures AfterWriting(entries, values[..i + 1], now, name) ==
      if name == values[i].0
      then Some(Entry(name, values[i].1, if Find(entries, name).Some? then Find(entries, name).value.createdAt else now, now))
      else AfterWriting(entries, values[..i], now, name)
  {
    assert values[..i + 1][..i] == values[..i];
  }

  class VaultFile {
    var content: Option<Sealed>

    constructor ()
      ensures content == None
    {
      content := None;
    }
  }

  class EncryptedCredentialVault {
    const file: VaultFile
    var masterKey: KeyId

    constructor (file: VaultFile, masterKey: KeyId)
      ensures this.file == file && this.masterKey == masterKey
    {
      this.file, this.masterKey := file, masterKey;
    }

    /** If there is a file, its entries are sorted and have distinct names. */
    ghost predicate FileSound()
      reads file
    {
      file.content.Some? ==> WellKept(file.content.value.content)
    }

    /** There is a file, and the master key opens it. */
    predicate Opens()
      reads this, file
    {
      file.content.Some? && file.content.value.key == masterKey
    }

    ghost predicate Valid()
      reads this, file
    {
      FileSound() && Opens()
    }

    /** Why a file that does not open is refused. */
    ghost function Refusal(): Error
      reads file
    {
      if file.content.None? then NotInitialized else WrongKey
    }

    method Initialize() returns (r: Result<bool, Error>)
      requires FileSound()
      modifies file
      ensures FileSound() && (r.Ok? ==> Opens() && r.value == old(file.content).None?)
      ensures old(file.content).Some? ==> file.content == old(file.content) && (r.Err? <==> !Opens())
      ensures old(file.content).None? ==> if r.Ok? then file.content.value.content == Plaintext(0, []) else file.content.None?
    {
      if file.content.Some? {
        var current := Read();
        return if current.Ok? then Ok(false) else Err(current.error);
      }
      var ok := Write(Plaintext(0, []), masterKey);
      return if ok then Ok(true) else Err(WriteFailed);
    }

    method Read() returns (r: Result<Plaintext, Error>)
      ensures r == if Opens() then Ok(file.content.value.content) else Err(Refusal())
    {
      if file.content.None? {
        return Err(NotInitialized);
      }
      if file.content.value.key != masterKey {
        return Err(WrongKey);
      }
      return Ok(file.content.value.content);
    }

    /** Replaces the file by renaming a new one onto it: a failure leaves the old file. */
    method Write(plaintext: Plaintext, key: KeyId) returns (ok: bool)
      modifies file
      ensures file.content == if ok then Some(Sealed(key, plaintext)) else old(file.content)
    {
      ok := *;
      if ok {
        file.content := Some(Sealed(key, plaintext));
      }
    }

    method SetMany(values: seq<(string, string)>, now: Timestamp) returns (r: Result<nat, Error>)
      requires FileSound()
      modifies file
      ensures FileSound() && (r.Err? ==> file.content == old(file.content))
      ensures values == [] ==> r == Err(InvalidInput)
      ensures values != [] && !old(Opens()) ==> r == Err(old(Refusal()))
      ensures r.Ok? ==>
        && old(Opens()) && Opens()
        && r.value == file.content.value.content.generation == old(file.content).value.content.generation + 1
        && forall name :: Find(file.content.value.content.entries, name)
             == AfterWriting(old(file.content).value.content.entries, values, now, name)
    {
      if values == [] {
        return Err(InvalidInput);
      }
      var stored := Read();
      if stored.Err? {
        return Err(stored.error);
      }
      var current := stored.value;
      var entries := current.entries;
      for i := 0 to |values|
        invariant file.content == old(file.content) && NamesDistinct(entries)
        invariant forall name :: Find(entries, name) == AfterWriting(current.entries, values[..i], now, name)
      {
        var (name, value) := values[i];
        var previous := Find(entries, name);
        var e := Entry(name, value, if previous.Some? then previous.value.createdAt else now, now);
        PutKeepsDistinct(entries, e);
        forall n ensures Find(Put(entries, e), n) == AfterWriting(current.entries, values[..i + 1], now, n) {
          FindAfterPut(entries, e, n);
          WritingOne(current.entries, values, i, now, n);
        }
        entries := Put(entries, e);
      }
      assert values[..|values|] == values;
      SortedEntries(entries, current.generation + 1);
      var next := Plaintext(current.generation + 1, Sort(entries, NameLeq));
      var ok := Write(next, masterKey);
      return if ok then Ok(next.generation) else Err(WriteFailed);
    }

    /** Replaces a value only if it is still the expected one. */
    method CompareAndSwap(name: string, expected: string, next: string, now: Timestamp) returns (r: Result<nat, Error>)
      requires FileSound()
      modifies file
      ensures FileSound() && (r.Err? ==> file.content == old(file.content))
      ensures !old(Opens()) ==> r == Err(old(Refusal()))
      ensures old(Opens()) ==>
        var before := Find(old(file.content).value.content.entries, name);
        && Opens()
        && (r == Err(Conflict) <==> before.None? || before.value.value != expected)
        && (r.Ok? && expected == next ==> file.content == old(file.content))
        && (r.Ok? && expected != next ==>
              && r.value == file.content.value.content.generation == old(file.content).value.content.generation + 1
              && forall n :: Find(file.content.value.content.entries, n)
                   == if n == name then Some(before.value.(value := next, updatedAt := now))
                      else Find(old(file.content).value.content.entries, n))
    {
      var stored := Read();
      if stored.Err? {
        return Err(stored.error);
      }
      var current := stored.value;
      var previous := Find(current.entries, name);
      if previous.None? || previous.value.value != expected {
        return Err(Conflict);
      }
      if previous.value.value == next {
        return Ok(current.generation);
      }
      var e := previous.value.(value := next, updatedAt := now);
      var entries := Put(current.entries, e);
      PutKeepsDistinct(current.entries, e);
      forall n ensures Find(entries, n) == if n == name then Some(e) else Find(current.entries, n) {
        FindAfterPut(current.entries, e, n);
      }
      SortedEntries(entries, current.generation + 1);
      var rotated := Plaintext(current.generation + 1, Sort(entries, NameLeq));
      var ok := Write(rotated, masterKey);
      return if ok then Ok(rotated.generation) else Err(WriteFailed);
    }

    method Remove(name: string) returns (r: Result<nat, Error>)
      requires FileSound()
      modifies file
      ensures FileSound() && (r.Err? ==> file.content == old(file.content))
      ensures !old(Opens()) ==> r == Err(old(Refusal()))
      ensures r.Ok? ==>
        var entries := old(file.content).value.content.entries;
        && old(Opens()) && Opens()
        && (Find(entries, name).None? ==> file.content == old(file.content))
        && (Find(entries, name).Some? ==>
              && r.value == file.content.value.content.generation == old(file.content).value.content.generation + 1
              && forall n :: Find(file.content.value.content.entries, n) == if n == name then None else Find(entries, n))
    {
      var stored := Read();
      if stored.Err? {
        return Err(stored.error);
      }
      var current := stored.value;
      var entries := Without(current.entries, name);
      WithoutKeeps(current, name);
      if |entries| == |current.entries| {
        return Ok(current.generation);
      }
      var ok := Write(Plaintext(current.generation + 1, entries), masterKey);
      return if ok then Ok(current.generation + 1) else Err(WriteFailed);
    }

    /** Seals the same entries with another key; this vault goes on with it. */
    method RotateMasterKey(next: KeyId) returns (r: Result<nat, Error>)
      requires FileSound()
      modifies this, file
      ensures FileSound() && (r.Err? ==> file.content == old(file.content) && masterKey == old(masterKey))
      ensures !old(Opens()) ==> r == Err(old(Refusal()))
      ensures r.Ok? ==>
        && old(Opens()) && Opens() && masterKey == next && r.value == file.content.value.content.generation
        && file.content.value.content
             == old(file.content).value.content.(generation := old(file.content).value.content.generation
                  + if next == old(masterKey) then 0 else 1)
    {
      var stored := Read();
      if stored.Err? {
        return Err(stored.error);
      }
      if next == masterKey {
        return Ok(stored.value.generation);
      }
      var ok := Write(stored.value.(generation := stored.value.generation + 1), next);
      if !ok {
        return Err(WriteFailed);
      }
      masterKey := next;
      return Ok(stored.value.generation + 1);
    }
  }

  function Without(entries: seq<Entry>, name: string): seq<Entry> {
    if entries == [] then []
    else (if entries[0].name == name then [] else [entries[0]]) + Without(entries[1..], name)
  }

  lemma {:induction false} WithoutMembers(entries: seq<Entry>, name: string, x: Entry)
    ensures x in Without(entries, name) <==> x in entries && x.name != name
    ensures |Without(entries, name)| <= |entries|
    ensures Find(entries, name).None? <==> |Without(entries, name)| == |entries|
    ensures Find(entries, name).None? ==> Without(entries, name) == entries
  {
    if entries != [] {
      WithoutMembers(entries[1..], name, x);
    }
  }

  lemma {:induction false} WithoutFinds(entries: seq<Entry>, name: string, n: string)
    ensures Find(Without(entries, name), n) == if n == name then None else Find(entries, n)
  {
    if entries != [] {
      var rest := Without(entries[1..], name);
      WithoutFinds(entries[1..], name, n);
      if entries[0].name != name {
        assert Without(entries, name) == [entries[0]] + rest;
        assert ([entries[0]] + rest)[1..] == rest;
      } else {
        assert Without(entries, name) == rest;
      }
    }
  }

  lemma {:induction false} WithoutWellKept(entries: seq<Entry>, name: string)
    requires NamesDistinct(entries) && SortedBy(entries, NameLeq)
    ensures NamesDistinct(Without(entries, name)) && SortedBy(Without(entries, name), NameLeq)
  {
    if entries != [] {
      WithoutWellKept(entries[1..], name);
      forall x | x in Without(entries[1..], name) ensures x.name != entries[0].name && NameLeq(entries[0], x) {
        WithoutMembers(entries[1..], name, x);
      }
    }
  }

  lemma WithoutKeeps(p: Plaintext, name: string)
    requires WellKept(p)
    ensures WellKept(Plaintext(p.generation + 1, Without(p.entries, name)))
    ensures Find(p.entries, name).None? <==> |Without(p.entries, name)| == |p.entries|
    ensures forall n :: Find(Without(p.entries, name), n) == if n == name then None else Find(p.entries, n)
  {
    WithoutWellKept(p.entries, name);
    if p.entries != [] {
      WithoutMembers(p.entries, name, p.entries[0]);
    }
    forall n ensures Find(Without(p.entries, name), n) == if n == name then None else Find(p.entries, n) {
      WithoutFinds(p.entries, name, n);
    }
  }
}
