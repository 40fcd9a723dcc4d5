/**
  The migration runner, internal/db/migrations.go: any number of runs, each of which may fail or
  be abandoned at any step, on one database and a directory that only gains lexically later
  files.

  S is whatever the migration bodies change; effect(name) is what executing the file of that
  name does to it, or None when a statement of the file fails.
*/
module Migrations {
  import opened Basics
  import opened Lexical

  type Effect<!S> = (string, S) -> Option<S>

  datatype Entry = Entry(name: string, isDir: bool)

  // ---- listMigrationFiles ----------------------------------------------------------------

  predicate IsMigration(e: Entry) {
    !e.isDir && |e.name| >= 4 && e.name[|e.name| - 4..] == ".sql"
  }

  function Names(entries: seq<Entry>): (r: seq<string>) {
    if entries == [] then [] else (
      var front, e := entries[..|entries| - 1], entries[|entries| - 1];
      Names(front) + (if IsMigration(e) then [e.name] else []))
  }

  /** A directory has no two entries of one name. */
  ghost predicate IsDirectory(entries: seq<Entry>) {
    forall i, j :: 0 <= i < j < |entries| ==> entries[i].name != entries[j].name
  }

  function Listing(entries: seq<Entry>): (r: seq<string>) {
    SortStrings(Names(entries))
  }

  lemma {:induction false} NamesOf(entries: seq<Entry>)
    requires IsDirectory(entries)
    ensures NoRepeats(Names(entries))
    ensures forall x :: x in Names(entries) <==>
      exists i :: 0 <= i < |entries| && entries[i].name == x && IsMigration(entries[i])
  {
    if entries != [] {
      var front, e := entries[..|entries| - 1], entries[|entries| - 1];
      NamesOf(front);
      assert forall i :: 0 <= i < |front| ==> front[i] == entries[i];
      if IsMigration(e) {
        assert e.name !in Names(front);
        assert Names(entries) == Names(front) + [e.name];
      }
    }
  }

  /** The listing is strictly sorted and holds exactly the .sql files. */
  lemma ListingOk(entries: seq<Entry>)
    requires IsDirectory(entries)
    ensures Sorted(Listing(entries))
    ensures forall x :: x in Listing(entries) <==>
      exists i :: 0 <= i < |entries| && entries[i].name == x && IsMigration(entries[i])
  {
    NamesOf(entries);
    SortStringsSorts(Names(entries));
    forall x ensures x in Listing(entries) <==> x in Names(entries) {
      assert x in multiset(Listing(entries)) <==> x in multiset(Names(entries));
    }
  }

  /** Adding files that all sort after the old ones extends the listing at its end. */
  lemma ListingGrows(entries: seq<Entry>, more: seq<Entry>)
    requires IsDirectory(entries + more)
    requires forall x, y :: x in Names(more) && y in Names(entries) ==> Less(y, x)
    ensures Listing(entries) <= Listing(entries + more)
  {
    var all := entries + more;
    assert forall i :: 0 <= i < |entries| ==> all[i] == entries[i];
    assert forall i :: 0 <= i < |more| ==> all[|entries| + i] == more[i];
    ListingOk(entries);
    ListingOk(all);
    NamesOf(more);
    NamesOf(entries);
    forall x | x in Listing(entries) ensures x in Listing(all) {
      var i :| 0 <= i < |entries| && entries[i].name == x && IsMigration(entries[i]);
      assert all[i].name == x && IsMigration(all[i]);
    }
    forall x, y | x in Listing(all) && x !in Listing(entries) && y in Listing(entries) ensures Less(y, x) {
      var i :| 0 <= i < |all| && all[i].name == x && IsMigration(all[i]);
      assert forall j :: 0 <= j < |entries| && IsMigration(entries[j]) ==> entries[j].name in Listing(entries);
      assert i >= |entries|;
      assert more[i - |entries|].name == x && IsMigration(more[i - |entries|]);
      assert x in Names(more);
      assert y in Names(entries);
    }
    SortedExtends(Listing(entries), Listing(all));
  }

  /** os.ReadDir, the filter loop and the sort; an unreadable directory (None) lists nothing. */
  method ListMigrationFiles(dir: Option<seq<Entry>>) returns (out: seq<string>)
    requires dir.Some? ==> IsDirectory(dir.value)
    ensures out == (if dir.None? then [] else Listing(dir.value))
    ensures dir.Some? ==> Sorted(out)
    ensures dir.Some? ==> forall x :: x in out <==>
      exists i :: 0 <= i < |dir.value| && dir.value[i].name == x && IsMigration(dir.value[i])
  {
    if dir.None? { return []; }
    var entries := dir.value;
    out := [];
    for i := 0 to |entries|
      invariant out == Names(entries[..i])
    {
      assert entries[..i + 1][..i] == entries[..i];
      if IsMigration(entries[i]) { out := out + [entries[i].name]; }
    }
    assert entries[..|entries|] == entries;
    out := SortStrings(out);
    ListingOk(entries);
  }

  // ---- the runs as a state machine -------------------------------------------------------

  /**
    Where a run of RunMigrations stands.  files and seen are its directory listing and what
    loadApplied read; both may be out of date by the time they are used.
  */
  datatype Pc =
    | Ensure
    | List
    | Load(files: seq<string>)
    | At(files: seq<string>, seen: set<string>, i: nat)
    | Returned(ok: bool, files: seq<string>)

  /** applied is schema_migrations in insertion order; dir is the listing a readable directory gives now. */
  datatype Sys<S> = Sys(dir: seq<string>, hasTable: bool, applied: seq<string>, schema: S, runs: map<nat, Pc>)

  /** fault: the outside world (the database, the file system, the context) fails this step. */
  datatype Label = Start(r: nat) | Step(r: nat, fault: bool) | AddFile(name: string)

  /**
    The transaction of applyOne: the body, then the INSERT of the name, which the primary key
    refuses when the name is there already; None when it is rolled back.
  */
  function Apply<S>(effect: Effect<S>, applied: seq<string>, schema: S, name: string): (r: Option<(seq<string>, S)>) {
    var schema2 := effect(name, schema);
    if schema2.None? || name in applied then None else Some((applied + [name], schema2.value))
  }

  function StepRun<S>(effect: Effect<S>, s: Sys<S>, r: nat, fault: bool): (v: Sys<S>)
    requires r in s.runs
  {
    match s.runs[r]
    case Ensure =>
      if fault then s.(runs := s.runs[r := Returned(false, [])])
      else s.(hasTable := true, runs := s.runs[r := List])
    case List => s.(runs := s.runs[r := Load(if fault then [] else s.dir)])  // a ReadDir error lists nothing
    case Load(files) =>
      s.(runs := s.runs[r := if fault then Returned(false, files) else At(files, set x | x in s.applied, 0)])
    case At(files, seen, i) =>
      if i >= |files| then s.(runs := s.runs[r := Returned(true, files)])
      else if files[i] in seen then s.(runs := s.runs[r := At(files, seen, i + 1)])
      else (
        var tx := Apply(effect, s.applied, s.schema, files[i]);
        if fault || tx.None? then s.(runs := s.runs[r := Returned(false, files)])
        else s.(applied := tx.value.0, schema := tx.value.1, runs := s.runs[r := At(files, seen, i + 1)]))
    case Returned(_, _) => s
  }

  predicate ComesLast(name: string, dir: seq<string>) {
    forall i :: 0 <= i < |dir| ==> Less(dir[i], name)
  }

  function Next<S>(effect: Effect<S>, s: Sys<S>, l: Label): (r: Sys<S>) {
    match l
    case Start(r) => if r in s.runs then s else s.(runs := s.runs[r := Ensure])
    case Step(r, fault) => if r in s.runs then StepRun(effect, s, r, fault) else s
    case AddFile(name) => if ComesLast(name, s.dir) then s.(dir := s.dir + [name]) else s
  }

  function Run<S>(effect: Effect<S>, s: Sys<S>, labels: seq<Label>): (r: Sys<S>) {
    if labels == [] then s else Next(effect, Run(effect, s, labels[..|labels| - 1]), labels[|labels| - 1])
  }

  /** Executing the bodies of names in order, each once; None when one of them fails. */
  function Fold<S>(effect: Effect<S>, schema: S, names: seq<string>): (r: Option<S>) {
    if names == [] then Some(schema) else (
      var before := Fold(effect, schema, names[..|names| - 1]);
      if before.None? then None else effect(names[|names| - 1], before.value))
  }

  // ---- what every run keeps --------------------------------------------------------------

  /** What a run knows is a prefix of what is true now. */
  ghost predicate RunOk(dir: seq<string>, applied: seq<string>, pc: Pc) {
    match pc
    case Load(files) => files <= dir
    case At(files, seen, i) =>
      files <= dir && i <= |files| && i <= |applied| && (forall x :: x in seen ==> x in applied)
    case Returned(ok, files) => files <= dir && (ok ==> files <= applied)
    case _ => true
  }

  ghost predicate Inv<S>(effect: Effect<S>, schema0: S, s: Sys<S>) {
    && Sorted(s.dir)
    && s.applied <= s.dir
    && Fold(effect, schema0, s.applied) == Some(s.schema)
    && forall r :: r in s.runs ==> RunOk(s.dir, s.applied, s.runs[r])
  }

  lemma RunStays(dir: seq<string>, applied: seq<string>, dir2: seq<string>, applied2: seq<string>, pc: Pc)
    requires dir <= dir2 && applied <= applied2 && RunOk(dir, applied, pc)
    ensures RunOk(dir2, applied2, pc)
  {
  }

  /** A file that the snapshot holds is not at or after the end of the applied prefix. */
  lemma SeenIsBehind(dir: seq<string>, applied: seq<string>, i: nat)
    requires Sorted(dir) && applied <= dir && i < |dir|
    ensures dir[i] in applied <==> i < |applied|
  {
    if dir[i] in applied {
      var j :| 0 <= j < |applied| && applied[j] == dir[i];
      LessTotal(dir[i], dir[i]);
      assert dir[j] == dir[i];
    }
  }

  lemma ApplyKeeps<S>(effect: Effect<S>, schema0: S, s: Sys<S>, r: nat)
    requires Inv(effect, schema0, s) && r in s.runs && s.runs[r].At? && s.runs[r].i < |s.runs[r].files|
    requires s.runs[r].files[s.runs[r].i] !in s.runs[r].seen
    ensures Inv(effect, schema0, StepRun(effect, s, r, false))
  {
    var files, i := s.runs[r].files, s.runs[r].i;
    var s2 := StepRun(effect, s, r, false);
    var name := files[i];
    assert RunOk(s.dir, s.applied, s.runs[r]);
    assert name == s.dir[i];
    SeenIsBehind(s.dir, s.applied, i);
    if Apply(effect, s.applied, s.schema, name).Some? {
      assert s2.applied == s.dir[..i + 1];
      assert s2.applied[..|s2.applied| - 1] == s.applied;
      forall q | q in s2.runs ensures RunOk(s2.dir, s2.applied, s2.runs[q]) {
        if q != r { RunStays(s.dir, s.applied, s2.dir, s2.applied, s.runs[q]); }
      }
    }
  }

  lemma StepKeeps<S>(effect: Effect<S>, schema0: S, s: Sys<S>, r: nat, fault: bool)
    requires Inv(effect, schema0, s) && r in s.runs
    ensures Inv(effect, schema0, StepRun(effect, s, r, fault))
  {
    var pc := s.runs[r];
    assert RunOk(s.dir, s.applied, pc);
    if pc.At? && pc.i < |pc.files| {
      SeenIsBehind(s.dir, s.applied, pc.i);
      if pc.files[pc.i] !in pc.seen && !fault {
        ApplyKeeps(effect, schema0, s, r);
      }
    }
  }

  lemma AddFileKeeps<S>(effect: Effect<S>, schema0: S, s: Sys<S>, name: string)
    requires Inv(effect, schema0, s) && ComesLast(name, s.dir)
    ensures Inv(effect, schema0, s.(dir := s.dir + [name]))
  {
    forall r | r in s.runs ensures RunOk(s.dir + [name], s.applied, s.runs[r]) {
      RunStays(s.dir, s.applied, s.dir + [name], s.applied, s.runs[r]);
    }
  }

  lemma NextKeeps<S>(effect: Effect<S>, schema0: S, s: Sys<S>, l: Label)
    requires Inv(effect, schema0, s)
    ensures Inv(effect, schema0, Next(effect, s, l))
    ensures s.applied <= Next(effect, s, l).applied && s.dir <= Next(effect, s, l).dir
  {
    match l
    case Start(_) =>
    case Step(r, fault) => if r in s.runs { StepKeeps(effect, schema0, s, r, fault); }
    case AddFile(name) => if ComesLast(name, s.dir) { AddFileKeeps(effect, schema0, s, name); }
  }

  /**
    Over any runs, failing anywhere and interleaved in any way: the applied migrations are a
    prefix of the sorted directory, none applied twice, and the schema is what executing exactly
    these bodies, each once and in order, makes of the first one.
  */
  lemma {:induction false} AppliedIsPrefix<S>(effect: Effect<S>, schema0: S, s: Sys<S>, labels: seq<Label>)
    requires Inv(effect, schema0, s)
    ensures var s2 := Run(effect, s, labels);
      && Inv(effect, schema0, s2)
      && s2.applied <= s2.dir && Sorted(s2.applied)
      && Fold(effect, schema0, s2.applied) == Some(s2.schema)
      && s.applied <= s2.applied && s.dir <= s2.dir
  {
    if labels != [] {
      var front := labels[..|labels| - 1];
      AppliedIsPrefix(effect, schema0, s, front);
      NextKeeps(effect, schema0, Run(effect, s, front), labels[|labels| - 1]);
    }
  }

  /** An empty database satisfies the invariant, whatever sorted directory it meets. */
  lemma FreshDatabase<S>(effect: Effect<S>, schema0: S, dir: seq<string>)
    requires Sorted(dir)
    ensures Inv(effect, schema0, Sys(dir, false, [], schema0, map[]))
  {
  }

  /**
    So from an empty database, whatever runs, fails and interleaves, at every point the schema is that of a
    prefix of the directory.
  */
  lemma FromEmpty<S>(effect: Effect<S>, schema0: S, dir: seq<string>, labels: seq<Label>)
    requires Sorted(dir)
    ensures var s2 := Run(effect, Sys(dir, false, [], schema0, map[]), labels);
      && dir <= s2.dir && Sorted(s2.dir) && s2.applied <= s2.dir
      && Fold(effect, schema0, s2.applied) == Some(s2.schema)
  {
    FreshDatabase(effect, schema0, dir);
    AppliedIsPrefix(effect, schema0, Sys(dir, false, [], schema0, map[]), labels);
  }

  // ---- after a successful run ------------------------------------------------------------

  /** A run that returned without error has applied every file of its listing. */
  lemma SuccessApplies<S>(effect: Effect<S>, schema0: S, s: Sys<S>, labels: seq<Label>, r: nat)
    requires Inv(effect, schema0, s)
    requires var s2 := Run(effect, s, labels); r in s2.runs && s2.runs[r].Returned? && s2.runs[r].ok
    ensures var s2 := Run(effect, s, labels); s2.runs[r].files <= s2.applied
    ensures var s2 := Run(effect, s, labels); s2.runs[r].files == s2.dir ==> s2.applied == s2.dir
  {
    AppliedIsPrefix(effect, schema0, s, labels);
  }

  /** When everything is applied and no file is added, no further run changes anything. */
  lemma {:induction false} NothingLeft<S>(effect: Effect<S>, schema0: S, s: Sys<S>, labels: seq<Label>)
    requires Inv(effect, schema0, s) && s.applied == s.dir
    requires forall l :: l in labels ==> !l.AddFile?
    ensures var s2 := Run(effect, s, labels); s2.dir == s.dir && s2.applied == s.applied && s2.schema == s.schema
  {
    if labels != [] {
      var front, l := labels[..|labels| - 1], labels[|labels| - 1];
      NothingLeft(effect, schema0, s, front);
      AppliedIsPrefix(effect, schema0, s, front);
      var s1 := Run(effect, s, front);
      NextKeeps(effect, schema0, s1, l);
      assert l in labels;
      if l.Step? && l.r in s1.runs && s1.runs[l.r].At? {
        assert RunOk(s1.dir, s1.applied, s1.runs[l.r]);
      }
    }
  }

  lemma Extend<S>(effect: Effect<S>, s: Sys<S>, labels: seq<Label>, l: Label)
    ensures Run(effect, s, labels + [l]) == Next(effect, Run(effect, s, labels), l)
  {
    assert (labels + [l])[..|labels|] == labels;
  }

  /** A run that could not read the directory also returns without error, having applied nothing. */
  lemma UnreadableSucceeds<S>(effect: Effect<S>, schema0: S, name: string) returns (labels: seq<Label>)
    ensures var s := Run(effect, Sys([name], false, [], schema0, map[]), labels);
      0 in s.runs && s.runs[0] == Returned(true, []) && s.applied == [] && s.dir == [name]
  {
    var s := Sys([name], false, [], schema0, map[]);
    labels := [];
    Extend(effect, s, labels, Start(0));
    labels := labels + [Start(0)];
    Extend(effect, s, labels, Step(0, false));
    labels := labels + [Step(0, false)];
    assert Run(effect, s, labels).runs[0] == List;
    Extend(effect, s, labels, Step(0, true));
    labels := labels + [Step(0, true)];
    assert Run(effect, s, labels).runs[0] == Load([]);
    Extend(effect, s, labels, Step(0, false));
    labels := labels + [Step(0, false)];
    assert Run(effect, s, labels).runs[0].i == 0;
    Extend(effect, s, labels, Step(0, false));
    labels := labels + [Step(0, false)];
  }

  // ---- the runner over a mutable database ------------------------------------------------

  /** What the outside world does to one call: it lets it through or fails it. */
  type Faults = nat -> bool

  class Database<S(!new)> {
    const effect: Effect<S>
    const faults: Faults
    var calls: nat
    var hasTable: bool
    var applied: seq<string>
    var schema: S

    constructor (effect: Effect<S>, faults: Faults, schema: S)
      ensures this.effect == effect && this.faults == faults
      ensures !hasTable && applied == [] && this.schema == schema && calls == 0
    {
      this.effect, this.faults, this.calls := effect, faults, 0;
      this.hasTable, this.applied, this.schema := false, [], schema;
    }

    method Fails() returns (fault: bool)
      modifies this`calls
      ensures calls == old(calls) + 1 && fault == faults(old(calls))
    {
      fault := faults(calls);
      calls := calls + 1;
    }

    method EnsureMigrationsTable() returns (ok: bool)
      modifies this`calls, this`hasTable
      ensures ok ==> hasTable
      ensures !ok ==> hasTable == old(hasTable)
    {
      var fault := Fails();
      if fault { return false; }
      hasTable := true;
      ok := true;
    }

    /** SELECT name FROM schema_migrations. */
    method LoadApplied() returns (ok: bool, names: set<string>)
      modifies this`calls
      ensures ok ==> names == set x | x in applied
    {
      var fault := Fails();
      if fault { return false, {}; }
      names := {};
      for i := 0 to |applied|
        invariant names == set x | x in applied[..i]
      {
        assert applied[..i + 1] == applied[..i] + [applied[i]];
        names := names + {applied[i]};
      }
      assert applied[..|applied|] == applied;
      ok := true;
    }

    /** WithTx around applyOne: both statements commit together or neither does. */
    method ApplyOne(name: string) returns (ok: bool)
      modifies this`calls, this`applied, this`schema
      ensures ok ==> Apply(effect, old(applied), old(schema), name) == Some((applied, schema))
      ensures !ok ==> applied == old(applied) && schema == old(schema)
    {
      // The transaction works on its own copy until it commits.
      var txApplied, txSchema := applied, schema;
      var fault := Fails();
      if fault { return false; }
      var after := effect(name, txSchema);
      if after.None? { return false; }
      txSchema := after.value;
      fault := Fails();
      if fault || name in txApplied { return false; }
      txApplied := txApplied + [name];
      fault := Fails();
      if fault { return false; }
      applied, schema := txApplied, txSchema;
      ok := true;
    }

    /** applied is a prefix of the listing, and the schema is what these files make of the first one. */
    ghost predicate Prefix(listing: seq<string>, schema0: S)
      reads this`applied, this`schema
    {
      applied <= listing && Fold(effect, schema0, applied) == Some(schema)
    }

    /** One turn of the loop, on the i-th file of the listing. */
    method SkipOrApply(name: string, seen: set<string>, ghost listing: seq<string>, ghost i: nat, ghost schema0: S)
      returns (ok: bool)
      requires Sorted(listing) && Prefix(listing, schema0) && i <= |applied| && i < |listing| && name == listing[i]
      requires forall x :: x in seen ==> x in applied
      modifies this`calls, this`applied, this`schema
      ensures Prefix(listing, schema0) && old(applied) <= applied
      ensures ok ==> i < |applied|
      ensures i < |old(applied)| && name in seen ==> ok && applied == old(applied) && schema == old(schema)
    {
      SeenIsBehind(listing, applied, i);
      if name in seen { return true; }
      ok := ApplyOne(name);
      if ok {
        assert applied == listing[..i + 1];
        assert applied[..i] == old(applied);
      }
    }

    /**
      RunMigrations with no other run beside it.  It only extends the applied prefix, whatever
      fails; without an error it has applied the whole directory exactly when it could read it
      or nothing was left to apply.
    */
    method RunMigrations(dir: Option<seq<Entry>>, ghost listing: seq<string>, ghost schema0: S) returns (ok: bool)
      requires Sorted(listing) && Prefix(listing, schema0)
      requires dir.Some? ==> IsDirectory(dir.value) && Listing(dir.value) == listing
      modifies this
      ensures Prefix(listing, schema0) && old(applied) <= applied
      ensures ok ==> (applied == listing <==> dir.Some? || old(applied) == listing)
      ensures old(applied) == listing ==> schema == old(schema)
    {
      ok := EnsureMigrationsTable();
      if !ok { return false; }
      var files := ListMigrationFiles(dir);
      var seen;
      ok, seen := LoadApplied();
      if !ok { return false; }
      for i := 0 to |files|
        invariant Prefix(listing, schema0) && old(applied) <= applied
        invariant i <= |applied|
        invariant files == [] ==> applied == old(applied)
        invariant old(applied) == listing ==> applied == listing && schema == old(schema)
      {
        if old(applied) == listing { SeenIsBehind(listing, old(applied), i); }
        ok := SkipOrApply(files[i], seen, listing, i, schema0);
        if !ok { return false; }
      }
      ok := true;
    }
  }
}
