/** The migrator: list the files, apply each unapplied one in its own transaction, record it. */
module Migrator {
  import opened Common
  import opened Ordering

  datatype DirEntry = DirEntry(name: string, isDir: bool)

  /** What goes wrong while one file is handled; a failed transaction leaves nothing behind. */
  datatype Fault = NoFault | AtQuery | AtRead | AtBegin | AtExecute | AtRecord | AtCommit

  predicate IsSql(name: string) {
    |name| >= 4 && name[|name| - 4..] == ".sql"
  }

  /** An SQL file is a name with this ending. */
  lemma SqlEnding(name: string)
    ensures IsSql(name) <==> exists base :: name == base + ".sql"
  {
    if IsSql(name) {
      assert name == name[..|name| - 4] + ".sql";
    }
    if base :| name == base + ".sql" {
      assert name[|name| - 4..] == ".sql";
    }
  }

  predicate Wanted(e: DirEntry) {
    !e.isDir && IsSql(e.name)
  }

  /** Strictly increasing in byte order. */
  ghost predicate Increasing(names: seq<string>) {
    forall i, j :: 0 <= i < j < |names| ==> TextLess(names[i], names[j])
  }

  // ----- listing -----

  function InsertName(name: string, names: seq<string>): seq<string> {
    if names == [] then [name]
    else if TextLess(name, names[0]) then [name] + names
    else [names[0]] + InsertName(name, names[1..])
  }

  function SortNames(names: seq<string>): seq<string> {
    if names == [] then [] else InsertName(names[|names| - 1], SortNames(names[..|names| - 1]))
  }

  lemma {:induction false} InsertNameSorts(name: string, names: seq<string>)
    requires Increasing(names) && name !in names
    ensures Increasing(InsertName(name, names))
    ensures forall x :: x in InsertName(name, names) <==> x == name || x in names
  {
    if names != [] {
      assert names == [names[0]] + names[1..];
      if TextLess(name, names[0]) {
        forall j | 0 <= j < |names| ensures TextLess(name, names[j]) {
          if j > 0 {
            TextTransitive(name, names[0], names[j]);
          }
        }
      } else {
        InsertNameSorts(name, names[1..]);
        TextTotal(name, names[0]);
        var rest := InsertName(name, names[1..]);
        forall j | 0 <= j < |rest| ensures TextLess(names[0], rest[j]) {
          assert rest[j] in rest;
        }
      }
    }
  }

  lemma {:induction false} SortNamesSorts(names: seq<string>)
    requires forall i, j :: 0 <= i < j < |names| ==> names[i] != names[j]
    ensures Increasing(SortNames(names))
    ensures forall x :: x in SortNames(names) <==> x in names
  {
    if names != [] {
      var init, last := names[..|names| - 1], names[|names| - 1];
      SortNamesSorts(init);
      assert last !in init;
      InsertNameSorts(last, SortNames(init));
      assert names == init + [last];
    }
  }

  /** The names of a directory are distinct. */
  ghost predicate IsDirectory(entries: seq<DirEntry>) {
    forall i, j :: 0 <= i < j < |entries| ==> entries[i].name != entries[j].name
  }

  /** files are the SQL files of the directory, in byte order, each once. */
  ghost predicate Lists(entries: seq<DirEntry>, files: seq<string>) {
    && Increasing(files)
    && (forall name :: name in files <==>
          exists i :: 0 <= i < |entries| && Wanted(entries[i]) && entries[i].name == name)
  }

  method ListMigrationFiles(entries: seq<DirEntry>) returns (files: seq<string>)
    requires IsDirectory(entries)
    ensures Lists(entries, files)
  {
    var found := [];
    var i := 0;
    while i < |entries|
      invariant 0 <= i <= |entries|
      invariant forall name :: name in found <==>
                  exists k :: 0 <= k < i && Wanted(entries[k]) && entries[k].name == name
      invariant forall a, b :: 0 <= a < b < |found| ==> found[a] != found[b]
    {
      if !entries[i].isDir && IsSql(entries[i].name) {
        assert entries[i].name !in found;
        found := found + [entries[i].name];
      }
      i := i + 1;
    }
    SortNamesSorts(found);
    files := SortNames(found);
  }

  // ----- applying -----

  /** The database as the migrator sees it: committed file effects in commit order, and recorded versions. */
  datatype Schema = Schema(effects: seq<string>, recorded: seq<string>)

  function FaultAt(faults: seq<Fault>, i: nat): Fault {
    if i < |faults| then faults[i] else NoFault
  }

  /** The result of Up from file i on: the new schema, and whether Up succeeded. */
  function UpFrom(s: Schema, files: seq<string>, faults: seq<Fault>, i: nat): (Schema, bool)
    requires i <= |files|
    decreases |files| - i
  {
    if i == |files| then (s, true)
    else if FaultAt(faults, i) == AtQuery then (s, false)
    else if files[i] in s.recorded then UpFrom(s, files, faults, i + 1)
    else if FaultAt(faults, i) != NoFault then (s, false)
    else UpFrom(Schema(s.effects + [files[i]], s.recorded + [files[i]]), files, faults, i + 1)
  }

  class Database {
    var schema: Schema

    /** The row lookup; a file is skipped exactly when its effect is committed. */
    method IsApplied(version: string, ok: bool) returns (r: Result<bool>)
      ensures r.Failure? <==> !ok
      ensures r.Success? ==> (r.value <==> version in schema.recorded)
      ensures r.Success? && ExactlyOnce(schema) ==>
                (r.value <==> exists i :: 0 <= i < |schema.effects| && schema.effects[i] == version)
    {
      if !ok { return Failure(Internal); }
      return Success(version in schema.recorded);
    }

    /**
     Ensure the version table, list the directory (None: unreadable), then apply the
     unapplied files one transaction at a time; stop at the first error.
     */
    method Up(ensured: bool, dir: Option<seq<DirEntry>>, faults: seq<Fault>)
      returns (ok: bool, ghost listed: seq<string>)
      requires dir.Some? ==> IsDirectory(dir.value)
      modifies this
      ensures !ensured || dir.None? ==> !ok && schema == old(schema)
      ensures ensured && dir.Some? ==>
                Lists(dir.value, listed) && (schema, ok) == UpFrom(old(schema), listed, faults, 0)
    {
      ok, listed := false, [];
      if !ensured || dir.None? { return; }
      var files := ListMigrationFiles(dir.value);
      listed := files;
      var i := 0;
      while i < |files|
        invariant 0 <= i <= |files|
        invariant UpFrom(old(schema), files, faults, 0) == UpFrom(schema, files, faults, i)
      {
        var file, fault := files[i], FaultAt(faults, i);
        var applied := IsApplied(file, fault != AtQuery);
        if applied.Failure? { return; }
        if applied.value {
          i := i + 1;
          continue;
        }
        if fault == AtRead || fault == AtBegin { return; }
        var tx := schema;
        if fault == AtExecute { return; }
        tx := tx.(effects := tx.effects + [file]);
        if fault == AtRecord { return; }
        tx := tx.(recorded := tx.recorded + [file]);
        if fault == AtCommit { return; }
        schema := tx;
        i := i + 1;
      }
      ok := true;
    }
  }

  // ----- over restarts -----

  /** One Up call: the files found then and what goes wrong. */
  datatype Call = Call(files: seq<string>, faults: seq<Fault>)

  function AfterCalls(s: Schema, calls: seq<Call>): Schema {
    if calls == [] then s
    else UpFrom(AfterCalls(s, calls[..|calls| - 1]), calls[|calls| - 1].files, calls[|calls| - 1].faults, 0).0
  }

  /** Every effect is recorded and every record has its effect, each exactly once and in the same order. */
  ghost predicate ExactlyOnce(s: Schema) {
    s.effects == s.recorded && forall i, j :: 0 <= i < j < |s.effects| ==> s.effects[i] != s.effects[j]
  }

  lemma {:induction false} UpKeepsExactlyOnce(s: Schema, files: seq<string>, faults: seq<Fault>, i: nat)
    requires ExactlyOnce(s) && i <= |files|
    ensures ExactlyOnce(UpFrom(s, files, faults, i).0)
    ensures s.effects <= UpFrom(s, files, faults, i).0.effects
    decreases |files| - i
  {
    if i < |files| && FaultAt(faults, i) != AtQuery {
      if files[i] in s.recorded {
        UpKeepsExactlyOnce(s, files, faults, i + 1);
      } else if FaultAt(faults, i) == NoFault {
        UpKeepsExactlyOnce(Schema(s.effects + [files[i]], s.recorded + [files[i]]), files, faults, i + 1);
      }
    }
  }

  /** Over any sequence of calls that may fail anywhere, effects and records stay in step. */
  lemma {:induction false} RestartsExactlyOnce(s: Schema, calls: seq<Call>)
    requires ExactlyOnce(s)
    ensures ExactlyOnce(AfterCalls(s, calls))
  {
    if calls != [] {
      var last := calls[|calls| - 1];
      RestartsExactlyOnce(s, calls[..|calls| - 1]);
      UpKeepsExactlyOnce(AfterCalls(s, calls[..|calls| - 1]), last.files, last.faults, 0);
    }
  }

  /** A successful Up leaves every file applied. */
  lemma {:induction false} SuccessIsComplete(s: Schema, files: seq<string>, faults: seq<Fault>, i: nat)
    requires i <= |files| && UpFrom(s, files, faults, i).1
    ensures forall k :: i <= k < |files| ==> files[k] in UpFrom(s, files, faults, i).0.recorded
    ensures forall x :: x in s.recorded ==> x in UpFrom(s, files, faults, i).0.recorded
    decreases |files| - i
  {
    if i < |files| {
      if files[i] in s.recorded {
        SuccessIsComplete(s, files, faults, i + 1);
      } else {
        SuccessIsComplete(Schema(s.effects + [files[i]], s.recorded + [files[i]]), files, faults, i + 1);
      }
    }
  }

  /** Up stops at this file: the lookup fails, or the file is new and any part of its transaction fails. */
  predicate Stops(s: Schema, files: seq<string>, faults: seq<Fault>, k: nat)
    requires k < |files|
  {
    FaultAt(faults, k) == AtQuery || (files[k] !in s.recorded && FaultAt(faults, k) != NoFault)
  }

  /** The files that are not recorded, in order. */
  function Missing(files: seq<string>, recorded: seq<string>): seq<string> {
    if files == [] then []
    else (if files[0] in recorded then [] else [files[0]]) + Missing(files[1..], recorded)
  }

  /**
   Exactly what Up does: it commits the files before the first one that it stops at and that
   are not recorded, in order, and it succeeds exactly when it stops at none.
   */
  lemma {:induction false} UpExact(s: Schema, files: seq<string>, faults: seq<Fault>, i: nat, stop: nat)
    requires Increasing(files) && i <= stop <= |files|
    requires forall k :: i <= k < stop ==> !Stops(s, files, faults, k)
    requires stop < |files| ==> Stops(s, files, faults, stop)
    ensures
      var added := Missing(files[i..stop], s.recorded);
      UpFrom(s, files, faults, i) == (Schema(s.effects + added, s.recorded + added), stop == |files|)
    decreases |files| - i
  {
    if i < stop {
      var rest := files[i..stop];
      assert rest[0] == files[i] && rest[1..] == files[i + 1..stop];
      assert !Stops(s, files, faults, i);
      if files[i] in s.recorded {
        assert Missing(rest, s.recorded) == Missing(rest[1..], s.recorded);
        UpExact(s, files, faults, i + 1, stop);
      } else {
        var s' := Schema(s.effects + [files[i]], s.recorded + [files[i]]);
        forall k | i < k < |files|
          ensures files[k] in s'.recorded <==> files[k] in s.recorded
          ensures Stops(s', files, faults, k) <==> Stops(s, files, faults, k)
        {
          LaterDiffers(files, i, k);
        }
        UpExact(s', files, faults, i + 1, stop);
        MissingSame(files[i + 1..stop], s.recorded, s'.recorded);
        var more := Missing(rest[1..], s.recorded);
        assert Missing(rest, s.recorded) == [files[i]] + more;
        assert s'.effects + more == s.effects + ([files[i]] + more);
        assert s'.recorded + more == s.recorded + ([files[i]] + more);
      }
    } else {
      assert files[i..stop] == [];
      assert s.effects + [] == s.effects && s.recorded + [] == s.recorded;
    }
  }

  lemma LaterDiffers(files: seq<string>, i: nat, k: nat)
    requires Increasing(files) && i < k < |files|
    ensures files[i] != files[k]
  {
    TextTotal(files[i], files[k]);
  }

  lemma {:induction false} MissingSame(files: seq<string>, a: seq<string>, b: seq<string>)
    requires forall k :: 0 <= k < |files| ==> (files[k] in a <==> files[k] in b)
    ensures Missing(files, a) == Missing(files, b)
  {
    if files != [] {
      MissingSame(files[1..], a, b);
    }
  }

  /** Once every file is applied, Up changes nothing. */
  lemma {:induction false} AppliedIsStable(s: Schema, files: seq<string>, faults: seq<Fault>, i: nat)
    requires i <= |files| && (forall k :: i <= k < |files| ==> files[k] in s.recorded)
    ensures UpFrom(s, files, faults, i).0 == s
    decreases |files| - i
  {
    if i < |files| {
      AppliedIsStable(s, files, faults, i + 1);
    }
  }

  /** After a successful Up, a further Up over the same files changes nothing, whatever fails. */
  lemma UpTwice(s: Schema, files: seq<string>, faults: seq<Fault>, again: seq<Fault>)
    requires UpFrom(s, files, faults, 0).1
    ensures UpFrom(UpFrom(s, files, faults, 0).0, files, again, 0).0 == UpFrom(s, files, faults, 0).0
  {
    SuccessIsComplete(s, files, faults, 0);
    AppliedIsStable(UpFrom(s, files, faults, 0).0, files, again, 0);
  }

  /** The applied files are the first ones of the list. */
  ghost predicate IsPrefix(s: Schema, files: seq<string>) {
    s.effects == s.recorded && s.effects <= files
  }

  lemma {:induction false} UpKeepsPrefix(s: Schema, files: seq<string>, faults: seq<Fault>, i: nat)
    requires Increasing(files) && IsPrefix(s, files) && i <= |files| && i <= |s.effects|
    ensures IsPrefix(UpFrom(s, files, faults, i).0, files)
    decreases |files| - i
  {
    if i < |files| && FaultAt(faults, i) != AtQuery {
      if i < |s.effects| {
        assert s.effects[i] == files[i];
        UpKeepsPrefix(s, files, faults, i + 1);
      } else {
        NotYetApplied(s, files, i);
        if FaultAt(faults, i) == NoFault {
          assert s.effects + [files[i]] == files[..i + 1];
          UpKeepsPrefix(Schema(s.effects + [files[i]], s.recorded + [files[i]]), files, faults, i + 1);
        }
      }
    }
  }

  lemma NotYetApplied(s: Schema, files: seq<string>, i: nat)
    requires Increasing(files) && IsPrefix(s, files) && i == |s.effects| < |files|
    ensures files[i] !in s.recorded
  {
    if files[i] in s.recorded {
      var k :| 0 <= k < |s.recorded| && s.recorded[k] == files[i];
      assert s.effects[k] == files[k];
      TextTotal(files[k], files[i]);
    }
  }

  /** Each call sees the files of the previous one, possibly with more at the end of the sort order. */
  ghost predicate OnlyAppended(calls: seq<Call>) {
    (forall i :: 0 <= i < |calls| ==> Increasing(calls[i].files))
    && (forall i :: 0 < i < |calls| ==> calls[i - 1].files <= calls[i].files)
  }

  /** If files are only ever added at the end, the overall commit order is sorted order. */
  lemma {:induction false} CommitOrderIsSorted(calls: seq<Call>)
    requires OnlyAppended(calls) && calls != []
    ensures IsPrefix(AfterCalls(Schema([], []), calls), calls[|calls| - 1].files)
    ensures Increasing(AfterCalls(Schema([], []), calls).effects)
  {
    var init, last := calls[..|calls| - 1], calls[|calls| - 1];
    if init != [] {
      CommitOrderIsSorted(init);
      assert init[|init| - 1].files <= last.files;
    }
    UpKeepsPrefix(AfterCalls(Schema([], []), init), last.files, last.faults, 0);
  }

  /** The condition is needed: a file that sorts before an applied one is committed after it. */
  lemma LateFileWitness(early: string, late: string)
    requires TextLess(early, late) && early != late
    ensures
      var calls := [Call([late], []), Call([early, late], [])];
      AfterCalls(Schema([], []), calls) == Schema([late, early], [late, early]) && !Increasing([late, early])
  {
    var empty := Schema([], []);
    var first, calls := [Call([late], [])], [Call([late], []), Call([early, late], [])];
    assert calls[..1] == first && first[..0] == [];
    assert UpFrom(empty, [late], [], 0).0 == Schema([late], [late]);
    assert AfterCalls(empty, first) == Schema([late], [late]);
    TextTotal(early, late);
    var s, files := Schema([late], [late]), [early, late];
    var s' := Schema(s.effects + [early], s.recorded + [early]);
    assert UpFrom(s', files, [], 1) == UpFrom(s', files, [], 2) == (s', true);
    assert UpFrom(s, files, [], 0) == UpFrom(s', files, [], 1);
    var order := [late, early];
    assert !TextLess(order[0], order[1]);
  }
}
