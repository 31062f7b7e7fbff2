/** Applying migrations, over any sequence of launches that may be interrupted
    anywhere and between which the file list may grow. */
module MigrationRuns {
  import opened Basics
  import opened Transactions
  import opened Migrations

  /** The ledger, and the scripts that have taken effect, in order. */
  datatype Database = Database(ledger: map<int, string>, done: seq<string>)

  const BLANK := Database(map[], [])

  predicate Known(items: seq<Migration>, version: int) { exists i :: 0 <= i < |items| && items[i].version == version }

  predicate AllKnown(db: Database, items: seq<Migration>) { forall v | v in db.ledger :: Known(items, v) }

  /** From script `i` on; a storage error, if any, strikes the script of version `at`. */
  function AppliedFrom(db: Database, items: seq<Migration>, i: nat, at: int, fault: Fault): (Database, Option<Error>)
    requires i <= |items|
    decreases |items| - i
  {
    if i == |items| then (db, None)
    else
      var m := items[i];
      if m.version in db.ledger then AppliedFrom(db, items, i + 1, at, fault)
      else if m.version == at && fault != NoFault then (db, Some(Internal))
      else AppliedFrom(Database(db.ledger[m.version := m.name], db.done + [m.sql]), items, i + 1, at, fault)
  }

  /** One launch; an error at 0 strikes before the first script. */
  function Applied(db: Database, items: seq<Migration>, at: int, fault: Fault): (Database, Option<Error>) {
    if (at == 0 && fault != NoFault) || !AllKnown(db, items) then (db, Some(Internal))
    else AppliedFrom(db, items, 0, at, fault)
  }

  // ----------------------------------------------------------------- prefixes

  /** Exactly the first `k` scripts have taken effect, each once and in order, and
      the ledger says so. */
  ghost predicate PrefixOf(db: Database, items: seq<Migration>, k: nat) {
    && k <= |items|
    && (forall v :: v in db.ledger <==> 1 <= v <= k)
    && (forall v :: 1 <= v <= k ==> db.ledger[v] == items[v - 1].name)
    && |db.done| == k && forall i :: 0 <= i < k ==> db.done[i] == items[i].sql
  }

  /** A launch goes on where the last one stopped: to the end, or to the script that is struck. */
  lemma {:induction false} GoesOn(db: Database, items: seq<Migration>, i: nat, k: nat, at: int, fault: Fault)
    requires Contiguous(items) && i <= k && PrefixOf(db, items, k)
    ensures var (db', err) := AppliedFrom(db, items, i, at, fault);
      if fault != NoFault && k < at <= |items|
      then err.Some? && PrefixOf(db', items, at - 1)
      else err.None? && PrefixOf(db', items, |items|)
    decreases |items| - i
  {
    if i < |items| {
      if i < k {
        GoesOn(db, items, i + 1, k, at, fault);
      } else if !(items[i].version == at && fault != NoFault) {
        GoesOn(Database(db.ledger[items[i].version := items[i].name], db.done + [items[i].sql]), items, i + 1, k + 1, at, fault);
      }
    }
  }

  /** A ledger of a prefix is refused exactly by a list that is too short, and then
      the launch leaves the database as it is. */
  lemma UnknownIffShrunk(db: Database, items: seq<Migration>, longer: seq<Migration>, k: nat)
    requires Contiguous(items) && Contiguous(longer) && PrefixOf(db, longer, k)
    ensures !AllKnown(db, items) <==> |items| < k
    ensures |items| < k ==> forall at, fault :: Applied(db, items, at, fault) == (db, Some(Internal))
    ensures Applied(db, items, 0, NoFault).1.Some? <==> |items| < k
  {
    AppliesWithoutFaults(db, items, 0);
    if |items| < k {
      assert k in db.ledger && !Known(items, k);
    } else {
      forall v | v in db.ledger ensures Known(items, v) {
        assert items[v - 1].version == v;
      }
    }
  }

  lemma {:induction false} AppliesWithoutFaults(db: Database, items: seq<Migration>, i: nat)
    requires i <= |items|
    ensures AppliedFrom(db, items, i, 0, NoFault).1.None?
    decreases |items| - i
  {
    if i < |items| {
      var m := items[i];
      AppliesWithoutFaults(if m.version in db.ledger then db else Database(db.ledger[m.version := m.name], db.done + [m.sql]), items, i + 1);
    }
  }

  // ----------------------------------------------------------- many launches

  datatype Launch = Launch(items: seq<Migration>, at: int, fault: Fault)

  function Launched(db: Database, launches: seq<Launch>): Database
    decreases |launches|
  {
    if launches == [] then db
    else
      var last := launches[|launches| - 1];
      Applied(Launched(db, launches[..|launches| - 1]), last.items, last.at, last.fault).0
  }

  /** The lists load, and each extends the one before. */
  ghost predicate Growing(launches: seq<Launch>) {
    && (forall i :: 0 <= i < |launches| ==> Contiguous(launches[i].items))
    && (forall i :: 0 < i < |launches| ==> launches[i - 1].items <= launches[i].items)
  }

  lemma PrefixGrows(db: Database, items: seq<Migration>, more: seq<Migration>, k: nat)
    requires PrefixOf(db, items, k) && items <= more
    ensures PrefixOf(db, more, k)
  {
  }

  /** One launch on a prefix: scripts are only added, in order, and success means all of them. */
  lemma LaunchKeeps(db: Database, l: Launch, k: nat) returns (k': nat)
    requires Contiguous(l.items) && PrefixOf(db, l.items, k)
    ensures var (db', err) := Applied(db, l.items, l.at, l.fault);
      && k <= k' <= |l.items| && PrefixOf(db', l.items, k') && db.done <= db'.done
      && (err.None? ==> k' == |l.items|)
      && (err.None? <==> l.fault == NoFault || !(l.at == 0 || k < l.at <= |l.items|))
  {
    UnknownIffShrunk(db, l.items, l.items, k);
    if l.at == 0 && l.fault != NoFault {
      k' := k;
    } else {
      GoesOn(db, l.items, 0, k, l.at, l.fault);
      k' := if l.fault != NoFault && k < l.at <= |l.items| then l.at - 1 else |l.items|;
    }
  }

  /** However often migration is launched and wherever it is interrupted, what has
      taken effect is a prefix of the list, each script once and in order; the last
      launch succeeded only if it is the whole list. */
  lemma {:induction false} AlwaysAPrefix(launches: seq<Launch>) returns (k: nat)
    requires launches != [] && Growing(launches)
    ensures var last := launches[|launches| - 1]; var before := Launched(BLANK, launches[..|launches| - 1]);
      && PrefixOf(Launched(BLANK, launches), last.items, k)
      && before.done <= Launched(BLANK, launches).done
      && (Applied(before, last.items, last.at, last.fault).1.None? ==> k == |last.items|)
    decreases |launches|
  {
    var n := |launches| - 1;
    var last := launches[n];
    var start := 0;
    if n > 0 {
      start := AlwaysAPrefix(launches[..n]);
      PrefixGrows(Launched(BLANK, launches[..n]), launches[n - 1].items, last.items, start);
    }
    k := LaunchKeeps(Launched(BLANK, launches[..n]), last, start);
  }

  // --------------------------------------------------------------- the object

  class Schema {
    var db: Database

    constructor ()
      ensures db == BLANK
    {
      db := BLANK;
    }

    /** One script and its ledger row in one transaction. */
    method ApplyOne(m: Migration, fault: Fault) returns (err: Option<Error>)
      requires m.version !in db.ledger
      modifies this
      ensures err == if fault == NoFault then None else Some(Internal)
      ensures db == if err.None? then Database(old(db).ledger[m.version := m.name], old(db).done + [m.sql]) else old(db)
    {
      if fault == AtBegin { return Some(Internal); }
      var saved := db;
      err := None;
      if fault == AtStatement(1) { err := Some(Internal); } else { db := db.(done := db.done + [m.sql]); }
      if err.None? {
        if fault.AtStatement? { err := Some(Internal); } else { db := db.(ledger := db.ledger[m.version := m.name]); }
      }
      if err.None? && fault == AtCommit { err := Some(Internal); }
      if err.Some? { db := saved; }
    }

    /** `items` are the scripts that were loaded. */
    method Apply(entries: seq<Entry>, at: int, fault: Fault) returns (err: Option<Error>, ghost items: seq<Migration>)
      modifies this
      ensures !(WellNamed(entries) && Permutes(Scripts(entries))) ==> err.Some? && db == old(db)
      ensures WellNamed(entries) && Permutes(Scripts(entries)) ==>
        && Contiguous(items) && multiset(items) == multiset(Scripts(entries))
        && (db, err) == Applied(old(db), items, at, fault)
    {
      hide WellNamed, Permutes, Scripts;
      items := [];
      var loaded := Load(entries);
      if loaded.Err? { return Some(loaded.error), []; }
      var available := loaded.value;
      items := available;
      if at == 0 && fault != NoFault { return Some(Internal), items; }
      var applied := db.ledger.Keys;
      err := CheckKnown(available, db.ledger);
      if err.Some? { return err, items; }
      for i := 0 to |available|
        invariant AppliedFrom(db, available, i, at, fault) == Applied(old(db), available, at, fault)
        invariant forall v :: v in db.ledger && v !in applied ==> v <= i
        invariant forall v :: v in applied ==> v in db.ledger
      {
        if available[i].version in applied {
          continue;
        }
        err := ApplyOne(available[i], if available[i].version == at then fault else NoFault);
        if err.Some? {
          return;
        }
      }
      return None, items;
    }
  }

  /** Refuses a database with a version that the list does not have. */
  method CheckKnown(items: seq<Migration>, ledger: map<int, string>) returns (err: Option<Error>)
    ensures err == if forall v | v in ledger :: Known(items, v) then None else Some(Internal)
  {
    var unseen := ledger.Items;
    while unseen != {}
      invariant unseen <= ledger.Items && forall v :: v in ledger && (v, ledger[v]) !in unseen ==> Known(items, v)
      decreases unseen
    {
      var row :| row in unseen;
      var found := IsAvailable(items, row.0);
      if !found {
        return Some(Internal);
      }
      unseen := unseen - {row};
    }
    return None;
  }

  method IsAvailable(items: seq<Migration>, version: int) returns (found: bool)
    ensures found == Known(items, version)
  {
    for i := 0 to |items|
      invariant forall k :: 0 <= k < i ==> items[k].version != version
    {
      if items[i].version == version {
        return true;
      }
    }
    return false;
  }
}
