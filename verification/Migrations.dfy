/** The migration runner of internal/migrate: reading the file list, and applying
    what the ledger does not name yet, one transaction for each script. */
module Migrations {
  import opened Basics
  import opened Timestamps

  datatype Entry = Entry(name: string, isDir: bool, sql: string)

  datatype Migration = Migration(version: int, name: string, sql: string)

  // ------------------------------------------------------------ the file list

  predicate EndsWith(s: string, suffix: string) { |suffix| <= |s| && s[|s| - |suffix|..] == suffix }

  /** The position of the first underscore, or the length. */
  function Underscore(name: string): (n: nat)
    ensures n <= |name|
  {
    if name == "" || name[0] == '_' then 0 else 1 + Underscore(name[1..])
  }

  const MAX_INT: int := 0x7fff_ffff_ffff_ffff

  /** `strconv.Atoi`: an optional sign, digits, and the range of a 64-bit integer. */
  function Atoi(s: string): Option<int> {
    var signed := s != "" && (s[0] == '-' || s[0] == '+');
    var digits := if signed then s[1..] else s;
    match if digits == "" then None else Number(digits)
    case None => None
    case Some(n) =>
      if signed && s[0] == '-' then (if n <= MAX_INT + 1 then Some(-(n as int)) else None)
      else if n <= MAX_INT then Some(n) else None
  }

  predicate Relevant(e: Entry) { !e.isDir && EndsWith(e.name, ".sql") }

  /** `<version>_<anything>.sql` with a positive version. */
  function Parse(e: Entry): Result<Migration> {
    var cut := Underscore(e.name);
    match Atoi(e.name[..cut])
    case None => Err(Internal)
    case Some(v) => if v <= 0 || cut == |e.name| then Err(Internal) else Ok(Migration(v, e.name, e.sql))
  }

  predicate WellNamed(entries: seq<Entry>) { forall e | e in entries :: Relevant(e) ==> Parse(e).Ok? }

  /** The scripts of the list, in the order of the list. */
  function Scripts(entries: seq<Entry>): seq<Migration> {
    if entries == [] then []
    else
      var e := entries[|entries| - 1];
      Scripts(entries[..|entries| - 1]) + if Relevant(e) && Parse(e).Ok? then [Parse(e).value] else []
  }

  function Versions(items: seq<Migration>): (v: seq<int>)
    ensures |v| == |items| && forall i :: 0 <= i < |v| ==> v[i] == items[i].version
  {
    seq(|items|, i requires 0 <= i < |items| => items[i].version)
  }

  function OneTo(n: nat): (v: seq<int>)
    ensures |v| == n && forall i :: 0 <= i < n ==> v[i] == i + 1
  {
    seq(n, i => i + 1)
  }

  predicate Sorted(items: seq<Migration>) { forall i, j :: 0 <= i < j < |items| ==> items[i].version <= items[j].version }

  predicate Contiguous(items: seq<Migration>) { forall i :: 0 <= i < |items| ==> items[i].version == i + 1 }

  /** The versions are 1 to n in some order. */
  predicate Permutes(items: seq<Migration>) { multiset(Versions(items)) == multiset(OneTo(|items|)) }

  lemma {:induction false} UnderscoreAfter(digits: string, rest: string)
    requires Digits(digits)
    ensures Underscore(digits + "_" + rest) == |digits|
  {
    var name := digits + "_" + rest;
    if digits != "" {
      assert name[0] == digits[0] && name[1..] == digits[1..] + "_" + rest;
      UnderscoreAfter(digits[1..], rest);
    }
  }

  /** A file named by a positive number, however padded, an underscore and anything else
      is the script of that version, under its own name and with its own text. */
  lemma ParsesNumbered(version: nat, width: nat, rest: string, isDir: bool, sql: string)
    requires 0 < version < Pow10(width) && version <= 0x7fff_ffff_ffff_ffff
    ensures var name := Pad(version, width) + "_" + rest; Parse(Entry(name, isDir, sql)) == Ok(Migration(version, name, sql))
  {
    var digits := Pad(version, width);
    PadDigits(version, width);
    NumberOfPad(version, width);
    UnderscoreAfter(digits, rest);
    assert (digits + "_" + rest)[..width] == digits;
    assert width > 0 && '0' <= digits[0] <= '9';
    hide Pad, Number, Underscore;
    assert Atoi(digits) == Some(version);
  }

  lemma {:induction false} FirstUnderscore(name: string)
    ensures '_' !in name[..Underscore(name)]
    ensures Underscore(name) < |name| ==> name[Underscore(name)] == '_'
  {
    if name != "" && name[0] != '_' {
      FirstUnderscore(name[1..]);
      assert name[..Underscore(name)] == [name[0]] + name[1..][..Underscore(name[1..])];
    }
  }

  lemma {:induction false} NumberIsDigits(s: string)
    requires Number(s).Some?
    ensures Digits(s)
  {
    if s != "" {
      NumberIsDigits(s[..|s| - 1]);
    }
  }

  /** No other name is accepted: up to the first underscore it is digits, after a plus
      sign or none, of a positive 64-bit number, which is the version. */
  lemma ParsesNothingElse(e: Entry) returns (cut: nat, digits: string)
    requires Parse(e).Ok?
    ensures cut < |e.name| && e.name[cut] == '_' && '_' !in e.name[..cut]
    ensures (e.name[..cut] == digits || e.name[..cut] == "+" + digits) && digits != "" && Digits(digits)
    ensures Number(digits) == Some(Parse(e).value.version) && 0 < Parse(e).value.version <= 0x7fff_ffff_ffff_ffff
  {
    cut := Underscore(e.name);
    FirstUnderscore(e.name);
    var s := e.name[..cut];
    digits := if s != "" && (s[0] == '+' || s[0] == '-') then s[1..] else s;
    NumberIsDigits(digits);
    assert s != "" ==> s == [s[0]] + s[1..];
  }

  /** The script is that of the file. */
  predicate ScriptOf(m: Migration, e: Entry) { !e.isDir && EndsWith(e.name, ".sql") && m.name == e.name && m.sql == e.sql }

  lemma ParsedIsScript(e: Entry)
    requires Parse(e).Ok? && !e.isDir && EndsWith(e.name, ".sql")
    ensures ScriptOf(Parse(e).value, e)
  {
    hide Atoi, EndsWith;
  }

  lemma {:induction false} ScriptsComeFromFiles(entries: seq<Entry>, m: Migration)
    requires m in Scripts(entries)
    ensures exists e :: e in entries && ScriptOf(m, e)
  {
    hide Parse, EndsWith, ScriptOf;
    var n := |entries| - 1;
    var last := entries[n];
    if m in Scripts(entries[..n]) {
      ScriptsComeFromFiles(entries[..n], m);
      var e :| e in entries[..n] && ScriptOf(m, e);
      assert e in entries;
    } else {
      assert last in entries && Relevant(last) && Parse(last).Ok? && m == Parse(last).value;
      ParsedIsScript(last);
    }
  }

  lemma {:induction false} FilesBecomeScripts(entries: seq<Entry>, i: nat)
    requires i < |entries| && Relevant(entries[i]) && Parse(entries[i]).Ok?
    ensures Parse(entries[i]).value in Scripts(entries)
    decreases |entries|
  {
    hide Parse, Relevant;
    var n := |entries| - 1;
    if i < n {
      FilesBecomeScripts(entries[..n], i);
    }
  }

  // ----------------------------------------------------- sorting, as specified

  lemma Put<T>(s: seq<T>, i: nat, x: T)
    requires i <= |s|
    ensures multiset(s[..i] + [x] + s[i..]) == multiset(s) + multiset{x}
  {
    assert s == s[..i] + s[i..];
  }

  lemma Taken<T>(s: seq<T>, i: nat)
    requires i < |s|
    ensures multiset(s[..i] + s[i + 1..]) == multiset(s) - multiset{s[i]}
  {
    assert s == s[..i] + [s[i]] + s[i + 1..];
  }

  lemma SameSize<T>(a: seq<T>, b: seq<T>)
    requires multiset(a) == multiset(b)
    ensures |a| == |b|
  {
    assert |a| == |multiset(a)| == |multiset(b)| == |b|;
  }

  method Insert(items: seq<Migration>, m: Migration) returns (r: seq<Migration>)
    requires Sorted(items)
    ensures Sorted(r) && multiset(r) == multiset(items) + multiset{m}
  {
    var i := |items|;
    while i > 0 && items[i - 1].version > m.version
      invariant 0 <= i <= |items|
      invariant forall k :: i <= k < |items| ==> items[k].version > m.version
    {
      i := i - 1;
    }
    Put(items, i, m);
    r := items[..i] + [m] + items[i..];
  }

  /** Any sort by version; the order of equal versions is left open. */
  method SortByVersion(items: seq<Migration>) returns (r: seq<Migration>)
    ensures Sorted(r) && multiset(r) == multiset(items)
  {
    r := [];
    for i := 0 to |items|
      invariant Sorted(r) && multiset(r) == multiset(items[..i])
    {
      assert items[..i + 1] == items[..i] + [items[i]];
      r := Insert(r, items[i]);
    }
    assert items[..|items|] == items;
  }

  predicate Ascending(s: seq<int>) { forall i, j :: 0 <= i < j < |s| ==> s[i] <= s[j] }

  lemma LeastFirst(a: seq<int>, b: seq<int>)
    requires a != [] && Ascending(a) && multiset(a) == multiset(b)
    ensures forall x :: x in b ==> a[0] <= x
  {
    forall x | x in b ensures a[0] <= x {
      assert x in multiset(a);
    }
  }

  lemma TailsAgree(a: seq<int>, b: seq<int>)
    requires a != [] && b != [] && a[0] == b[0] && multiset(a) == multiset(b)
    ensures multiset(a[1..]) == multiset(b[1..])
  {
    assert a == [a[0]] + a[1..] && b == [b[0]] + b[1..];
    assert multiset(a) == multiset{a[0]} + multiset(a[1..]);
    assert multiset(b) == multiset{a[0]} + multiset(b[1..]);
    assert multiset(a[1..]) == multiset(a) - multiset{a[0]};
    assert multiset(b[1..]) == multiset(b) - multiset{a[0]};
  }

  lemma HeadsAgree(a: seq<int>, b: seq<int>)
    requires a != [] && b != [] && Ascending(a) && Ascending(b) && multiset(a) == multiset(b)
    ensures a[0] == b[0] && Ascending(a[1..]) && Ascending(b[1..])
  {
    LeastFirst(a, b);
    LeastFirst(b, a);
    assert a[0] in a && b[0] in b;
  }

  /** Two ascending sequences of the same values are the same. */
  lemma {:induction false} AscendingUnique(a: seq<int>, b: seq<int>)
    requires Ascending(a) && Ascending(b) && multiset(a) == multiset(b)
    ensures a == b
    decreases |a|
  {
    SameSize(a, b);
    if a != [] {
      HeadsAgree(a, b);
      TailsAgree(a, b);
      AscendingUnique(a[1..], b[1..]);
      assert a == [a[0]] + a[1..] && b == [b[0]] + b[1..];
    }
  }

  lemma {:induction false} VersionsOfPermutation(a: seq<Migration>, b: seq<Migration>)
    requires multiset(a) == multiset(b)
    ensures multiset(Versions(a)) == multiset(Versions(b))
    decreases |a|
  {
    SameSize(a, b);
    if a == [] {
      assert Versions(a) == Versions(b);
    } else {
      var k := Position(a, b);
      VersionsOfPermutation(a[..0] + a[1..], b[..k] + b[k + 1..]);
      VersionTaken(a, 0);
      VersionTaken(b, k);
    }
  }

  lemma Position(a: seq<Migration>, b: seq<Migration>) returns (k: nat)
    requires a != [] && multiset(a) == multiset(b)
    ensures k < |b| && b[k] == a[0] && multiset(a[..0] + a[1..]) == multiset(b[..k] + b[k + 1..])
  {
    assert a[0] in multiset(b);
    k :| 0 <= k < |b| && b[k] == a[0];
    Taken(a, 0);
    Taken(b, k);
  }

  lemma VersionTaken(a: seq<Migration>, k: nat)
    requires k < |a|
    ensures multiset(Versions(a)) == multiset(Versions(a[..k] + a[k + 1..])) + multiset{a[k].version}
  {
    var v := Versions(a);
    Taken(v, k);
    assert Versions(a[..k] + a[k + 1..]) == v[..k] + v[k + 1..];
    assert v[k] in multiset(v);
  }

  /** Once sorted, the versions are contiguous from one exactly when the list holds
      a permutation of 1 to n. */
  lemma ContiguousIffPermutes(items: seq<Migration>, sorted: seq<Migration>)
    requires Sorted(sorted) && multiset(sorted) == multiset(items)
    ensures Contiguous(sorted) <==> Permutes(items)
  {
    SameSize(items, sorted);
    VersionsOfPermutation(items, sorted);
    if Contiguous(sorted) {
      assert Versions(sorted) == OneTo(|sorted|);
    }
    if Permutes(items) {
      AscendingUnique(Versions(sorted), OneTo(|sorted|));
    }
  }

  /** The scripts of the list, unless one is badly named. */
  method ParseAll(entries: seq<Entry>) returns (r: Result<seq<Migration>>)
    ensures r.Ok? <==> WellNamed(entries)
    ensures r.Ok? ==> r.value == Scripts(entries)
  {
    hide Atoi;
    var items: seq<Migration> := [];
    for i := 0 to |entries|
      invariant items == Scripts(entries[..i])
      invariant forall k :: 0 <= k < i ==> Relevant(entries[k]) ==> Parse(entries[k]).Ok?
    {
      var entry := entries[i];
      assert entries[..i + 1][..i] == entries[..i];
      if entry.isDir || !EndsWith(entry.name, ".sql") {
        continue;
      }
      var cut := Underscore(entry.name);
      var version := Atoi(entry.name[..cut]);
      if version.None? || version.value <= 0 || cut == |entry.name| {
        assert entry in entries;
        return Err(Internal);
      }
      items := items + [Migration(version.value, entry.name, entry.sql)];
    }
    assert entries[..|entries|] == entries;
    return Ok(items);
  }

  lemma NamedWell(entries: seq<Entry>, e: Entry)
    requires WellNamed(entries) && e in entries && !e.isDir && EndsWith(e.name, ".sql")
    ensures Relevant(e) && Parse(e).Ok?
  {
    hide Parse, EndsWith;
  }

  lemma ScriptsAndFiles(entries: seq<Entry>, sorted: seq<Migration>)
    requires WellNamed(entries) && multiset(sorted) == multiset(Scripts(entries))
    ensures forall m :: m in sorted ==> exists e :: e in entries && ScriptOf(m, e)
    ensures forall e :: e in entries && !e.isDir && EndsWith(e.name, ".sql") ==> exists m :: m in sorted && ScriptOf(m, e)
  {
    hide EndsWith, WellNamed, Parse, ScriptOf, Scripts;
    forall m | m in sorted ensures exists e :: e in entries && ScriptOf(m, e) {
      assert m in multiset(sorted);
      ScriptsComeFromFiles(entries, m);
    }
    forall e | e in entries && !e.isDir && EndsWith(e.name, ".sql") ensures exists m :: m in sorted && ScriptOf(m, e) {
      var i :| 0 <= i < |entries| && entries[i] == e;
      assert Relevant(e) && Parse(e).Ok? by { NamedWell(entries, e); }
      FilesBecomeScripts(entries, i);
      ParsedIsScript(e);
      assert Parse(e).value in multiset(sorted);
    }
  }

  /** Accepts exactly the lists whose scripts are well named and whose versions are a
      permutation of 1 to n, and returns the scripts in version order. */
  method Load(entries: seq<Entry>) returns (r: Result<seq<Migration>>)
    ensures r.Ok? <==> WellNamed(entries) && Permutes(Scripts(entries))
    ensures r.Ok? ==> Contiguous(r.value) && multiset(r.value) == multiset(Scripts(entries))
    // every script is that of a file, and every file gives a script
    ensures r.Ok? ==> forall m :: m in r.value ==> exists e :: e in entries && ScriptOf(m, e)
    ensures r.Ok? ==> forall e :: e in entries && !e.isDir && EndsWith(e.name, ".sql") ==> exists m :: m in r.value && ScriptOf(m, e)
  {
    hide WellNamed, Permutes, Scripts, EndsWith;
    var items :- ParseAll(entries);
    var sorted := SortByVersion(items);
    ContiguousIffPermutes(items, sorted);
    for i := 0 to |sorted|
      invariant forall k :: 0 <= k < i ==> sorted[k].version == k + 1
    {
      if sorted[i].version != i + 1 {
        return Err(Internal);
      }
    }
    ScriptsAndFiles(entries, sorted);
    return Ok(sorted);
  }
}
