/** The local database's schema migrations: the `migrations` table
    records which ones ran; on start-up the pending ones run in order, and
    a developer command reverts the most recent one. The SQL of each
    migration is not modelled: whether its `up` or `down` script succeeds
    is an input. */
module Migrations {
  import opened Common

  type Instant = int

  const InitialId := "0000_initial_schema"

  /** The migrations the code knows, in declaration order: the initial
      schema, then the declared ones. */
  function AllMigrations(declared: seq<string>): seq<string> {
    [InitialId] + declared
  }

  /** A row of the `migrations` table, in insertion (rowid) order. */
  datatype AppliedRow = AppliedRow(id: string, appliedAt: Instant)

  function Ids(rows: seq<AppliedRow>): set<string> {
    set k | 0 <= k < |rows| :: rows[k].id
  }

  /** `id` is the table's primary key. */
  predicate UniqueIds(rows: seq<AppliedRow>) {
    forall i, j :: 0 <= i < j < |rows| ==> rows[i].id != rows[j].id
  }

  /** The migrations not yet applied, in declaration order. */
  function Pending(all: seq<string>, applied: set<string>): seq<string> {
    Filter(all, (id: string) => id !in applied)
  }

  /** A migration is pending exactly when the code declares it and it is
      not applied. */
  lemma PendingMembers(all: seq<string>, applied: set<string>)
    ensures forall id :: id in Pending(all, applied) <==> id in all && id !in applied
  {
  }

  /** Pending migrations keep declaration order: declaring one more adds
      it, when unapplied, after all the others. */
  lemma PendingInOrder(all: seq<string>, next: string, applied: set<string>)
    ensures Pending(all + [next], applied) == Pending(all, applied) + (if next in applied then [] else [next])
  {
    FilterAppend(all, [next], (id: string) => id !in applied);
  }

  /** Where applying a list of migrations ends: the rows then recorded and
      the migration that failed, if any. */
  datatype Outcome = Outcome(rows: seq<AppliedRow>, failed: Option<string>)

  /** Applies the migrations front to back, each in its own transaction,
      stopping at the first failure: a migration fails when its script
      fails (`up`) or when its id is already recorded (the insert breaks
      the primary key); a failed one is rolled back and not recorded. */
  function Apply(rows: seq<AppliedRow>, p: seq<string>, up: string -> bool, times: seq<Instant>): Outcome
    requires |times| >= |p|
    decreases |p|
  {
    if p == [] then Outcome(rows, None)
    else if up(p[0]) && p[0] !in Ids(rows) then Apply(rows + [AppliedRow(p[0], times[0])], p[1..], up, times[1..])
    else Outcome(rows, Some(p[0]))
  }

  /** Applying only appends: the rows recorded before are kept as they were. */
  lemma {:induction false} ApplyExtends(rows: seq<AppliedRow>, p: seq<string>, up: string -> bool, times: seq<Instant>)
    requires |times| >= |p|
    ensures var o := Apply(rows, p, up, times); |rows| <= |o.rows| && o.rows[..|rows|] == rows
    decreases |p|
  {
    if p != [] && up(p[0]) && p[0] !in Ids(rows) {
      var next := rows + [AppliedRow(p[0], times[0])];
      ApplyExtends(next, p[1..], up, times[1..]);
      var o := Apply(next, p[1..], up, times[1..]);
      assert o.rows[..|rows|] == o.rows[..|next|][..|rows|];
    }
  }

  /** Recording keeps ids unique; what was recorded before stays. */
  lemma {:induction false} ApplyKeepsUnique(rows: seq<AppliedRow>, p: seq<string>, up: string -> bool, times: seq<Instant>)
    requires |times| >= |p| && UniqueIds(rows)
    ensures UniqueIds(Apply(rows, p, up, times).rows)
    decreases |p|
  {
    if p != [] && up(p[0]) && p[0] !in Ids(rows) {
      var next := rows + [AppliedRow(p[0], times[0])];
      assert UniqueIds(next) by {
        forall i, j | 0 <= i < j < |next| ensures next[i].id != next[j].id {
          if j == |rows| {
            assert next[i] == rows[i];
          }
        }
      }
      ApplyKeepsUnique(next, p[1..], up, times[1..]);
    }
  }

  function Elements(s: seq<string>): set<string> {
    set x | x in s
  }

  /** Without a failure every pending migration gets recorded. */
  lemma {:induction false} ApplyRecordsAll(rows: seq<AppliedRow>, p: seq<string>, up: string -> bool, times: seq<Instant>)
    requires |times| >= |p|
    requires Apply(rows, p, up, times).failed.None?
    ensures Ids(Apply(rows, p, up, times).rows) == Ids(rows) + Elements(p)
    decreases |p|
  {
    if p == [] {
      assert Elements(p) == {};
    } else {
      var next := rows + [AppliedRow(p[0], times[0])];
      ApplyRecordsAll(next, p[1..], up, times[1..]);
      AppendedIds(rows, AppliedRow(p[0], times[0]));
      assert p == [p[0]] + p[1..];
    }
  }

  /** With a failure, exactly the migrations before the failing one are
      recorded; the failing one is not, unless it was recorded already. */
  lemma {:induction false} ApplyRecordsUntil(rows: seq<AppliedRow>, p: seq<string>, up: string -> bool, times: seq<Instant>)
    returns (k: nat)
    requires |times| >= |p|
    requires Apply(rows, p, up, times).failed.Some?
    ensures k < |p| && p[k] == Apply(rows, p, up, times).failed.value
    ensures Ids(Apply(rows, p, up, times).rows) == Ids(rows) + Elements(p[..k])
    ensures p[k] !in Ids(rows) && p[k] !in p[..k] ==> p[k] !in Ids(Apply(rows, p, up, times).rows)
    decreases |p|
  {
    if up(p[0]) && p[0] !in Ids(rows) {
      var next := rows + [AppliedRow(p[0], times[0])];
      var j := ApplyRecordsUntil(next, p[1..], up, times[1..]);
      AppendedIds(rows, AppliedRow(p[0], times[0]));
      assert p[..j + 1] == [p[0]] + p[1..][..j];
      k := j + 1;
    } else {
      assert p[..0] == [];
      k := 0;
    }
  }

  lemma AppendedIds(rows: seq<AppliedRow>, x: AppliedRow)
    ensures Ids(rows + [x]) == Ids(rows) + {x.id}
  {
    var next := rows + [x];
    forall id | id in Ids(next) ensures id in Ids(rows) + {x.id} {
      var k :| 0 <= k < |next| && next[k].id == id;
      if k < |rows| { assert rows[k] == next[k]; }
    }
    assert next[|rows|].id == x.id;
    forall id | id in Ids(rows) ensures id in Ids(next) {
      var k :| 0 <= k < |rows| && rows[k].id == id;
      assert next[k] == rows[k];
    }
  }

  function FailureMessage(id: string): string {
    "Migration " + id + " failed."
  }

  /** What `runMigrations` reports for an outcome that started from
      `before` rows: the number applied, or the failing migration. */
  function Report(o: Outcome, before: nat): Result<nat, string> {
    if o.failed.Some? then Err(FailureMessage(o.failed.value))
    else if |o.rows| >= before then Ok(|o.rows| - before) else Ok(0)
  }

  class MigrationTable {
    var rows: seq<AppliedRow>

    ghost predicate Valid()
      reads this
    {
      UniqueIds(rows)
    }

    constructor()
      ensures Valid() && rows == []
    {
      rows := [];
    }

    /** `runMigrations()`: `times[i]` is the clock when the i-th pending
        migration is recorded. The result is the number applied, or the
        error `Migration <id> failed.` raised after the rollback. */
    method RunMigrations(declared: seq<string>, up: string -> bool, times: seq<Instant>) returns (r: Result<nat, string>)
      requires Valid()
      requires |times| >= |declared| + 1
      modifies this
      ensures Valid()
      ensures var o := Apply(old(rows), Pending(AllMigrations(declared), Ids(old(rows))), up, times);
        rows == o.rows && r == Report(o, |old(rows)|)
      ensures Pending(AllMigrations(declared), Ids(old(rows))) == [] ==> rows == old(rows) && r == Ok(0)
    {
      var pending := Pending(AllMigrations(declared), Ids(rows));
      if |pending| == 0 {
        return Ok(0);
      }
      ApplyKeepsUnique(rows, pending, up, times);
      ApplyExtends(rows, pending, up, times);
      var before := |rows|;
      var failed := ApplyAll(pending, up, times);
      if failed.Some? {
        return Err(FailureMessage(failed.value));
      }
      r := Ok(|rows| - before);
    }

    /** The loop over the pending migrations: each is applied in its own
        transaction until one fails. */
    method ApplyAll(pending: seq<string>, up: string -> bool, times: seq<Instant>) returns (failed: Option<string>)
      requires |times| >= |pending|
      modifies this
      ensures Outcome(rows, failed) == Apply(old(rows), pending, up, times)
    {
      var i := 0;
      failed := None;
      while i < |pending| && failed.None?
        invariant 0 <= i <= |pending|
        invariant failed.None? ==> Apply(old(rows), pending, up, times) == Apply(rows, pending[i..], up, times[i..])
        invariant failed.Some? ==> Apply(old(rows), pending, up, times) == Outcome(rows, failed)
        decreases |pending| - i, if failed.None? then 1 else 0
      {
        var id := pending[i];
        ApplyAt(rows, pending, up, times, i);
        if !up(id) || id in Ids(rows) {
          failed := Some(id);
        } else {
          rows := rows + [AppliedRow(id, times[i])];
          i := i + 1;
        }
      }
      if failed.None? {
        assert pending[i..] == [];
      }
    }
  }

  /** One step of the loop in `RunMigrations`. */
  lemma ApplyAt(rows: seq<AppliedRow>, p: seq<string>, up: string -> bool, times: seq<Instant>, i: nat)
    requires i < |p| && |times| >= |p|
    ensures Apply(rows, p[i..], up, times[i..]) ==
      if up(p[i]) && p[i] !in Ids(rows) then Apply(rows + [AppliedRow(p[i], times[i])], p[i + 1..], up, times[i + 1..])
      else Outcome(rows, Some(p[i]))
  {
    assert p[i..][0] == p[i] && p[i..][1..] == p[i + 1..];
    assert times[i..][0] == times[i] && times[i..][1..] == times[i + 1..];
  }

  /** After a run that did not fail, a second run finds nothing pending:
      running the migrations is idempotent. */
  lemma RunTwiceNoop(rows: seq<AppliedRow>, declared: seq<string>, up: string -> bool, times: seq<Instant>)
    requires |times| >= |declared| + 1
    requires Apply(rows, Pending(AllMigrations(declared), Ids(rows)), up, times).failed.None?
    ensures Pending(AllMigrations(declared), Ids(Apply(rows, Pending(AllMigrations(declared), Ids(rows)), up, times).rows)) == []
  {
    var all := AllMigrations(declared);
    var p := Pending(all, Ids(rows));
    PendingMembers(all, Ids(rows));
    ApplyExtends(rows, p, up, times);
    var after := Apply(rows, p, up, times).rows;
    ApplyRecordsAll(rows, p, up, times);
    forall id | id in all ensures id in Ids(after) {
      if id in Ids(rows) {
        var k :| 0 <= k < |rows| && rows[k].id == id;
        assert after[..|rows|][k] == rows[k];
      } else {
        assert id in p;
      }
    }
    FilterNone(all, (id: string) => id !in Ids(after));
  }

  // ---------------------------------------------------------------------
  // Reverting the most recent migration
  // ---------------------------------------------------------------------

  /** The ids `SELECT id FROM migrations ORDER BY applied_at DESC LIMIT 1`
      may return: any row with the latest `applied_at`. With equal stamps
      the database is free to return any of them. */
  function LatestCandidates(rows: seq<AppliedRow>): (c: set<string>)
    ensures forall id :: id in c ==> id in Ids(rows)
  {
    set i | 0 <= i < |rows| && (forall j :: 0 <= j < |rows| ==> rows[j].appliedAt <= rows[i].appliedAt) :: rows[i].id
  }

  /** The row of the migration applied last: the latest stamp, and among
      equal stamps the one recorded last. */
  function LastApplied(rows: seq<AppliedRow>): (r: AppliedRow)
    requires rows != []
    ensures r in rows
    ensures forall j :: 0 <= j < |rows| ==> rows[j].appliedAt <= r.appliedAt
    decreases |rows|
  {
    if |rows| == 1 then rows[0]
    else
      var init := LastApplied(rows[..|rows| - 1]);
      var last := rows[|rows| - 1];
      if last.appliedAt >= init.appliedAt then last
      else
        assert forall j :: 0 <= j < |rows| - 1 ==> rows[j] == rows[..|rows| - 1][j];
        init
  }

  /** When stamps never decrease along the table, the last row recorded is
      the one reverted. */
  lemma LastAppliedIsNewest(rows: seq<AppliedRow>)
    requires rows != []
    requires forall i, j :: 0 <= i < j < |rows| ==> rows[i].appliedAt <= rows[j].appliedAt
    ensures LastApplied(rows) == rows[|rows| - 1]
  {
  }

  datatype RevertError =
    | UnknownMigration(id: string)
    | InitialSchema
    | DownFailed(id: string)

  function RevertMessage(e: RevertError): string {
    match e
    case UnknownMigration(id) => "Migration with id " + id + " found in DB but not in code."
    case InitialSchema => "Reverting the initial schema is not supported."
    case DownFailed(id) => "Migration " + id + " revert failed."
  }

  function RemoveId(rows: seq<AppliedRow>, id: string): (r: seq<AppliedRow>)
    ensures forall x :: x in r <==> x in rows && x.id != id
    ensures |r| <= |rows|
  {
    Filter(rows, (x: AppliedRow) => x.id != id)
  }

  /** The checks `revertLastMigration` makes on the chosen id, and the
      table it leaves: nothing is reverted for an id the code does not
      know, for the initial schema, or when the `down` script fails. */
  function RevertChosen(rows: seq<AppliedRow>, chosen: string, declared: seq<string>, downOk: bool): (res: (seq<AppliedRow>, Result<string, RevertError>))
    ensures res.1.Ok? <==> chosen in AllMigrations(declared) && chosen != InitialId && downOk
    ensures res.1.Ok? ==> res.1.value == chosen && res.0 == RemoveId(rows, chosen)
    ensures res.1.Err? ==> res.0 == rows
    ensures chosen !in AllMigrations(declared) ==> res.1 == Err(UnknownMigration(chosen))
    ensures chosen in AllMigrations(declared) && chosen == InitialId ==> res.1 == Err(InitialSchema)
  {
    if chosen !in AllMigrations(declared) then (rows, Err(UnknownMigration(chosen)))
    else if chosen == InitialId then (rows, Err(InitialSchema))
    else if !downOk then (rows, Err(DownFailed(chosen)))
    else (RemoveId(rows, chosen), Ok(chosen))
  }

  /** `revertLastMigration()` as written: the migration is whichever row
      the query returns among those with the latest stamp. */
  method RevertLastMigrationAsWritten(t: MigrationTable, declared: seq<string>, downOk: bool)
    returns (r: Option<Result<string, RevertError>>)
    modifies t
    ensures old(t.rows) == [] ==> r.None? && t.rows == old(t.rows)
    ensures old(t.rows) != [] ==>
      r.Some? && exists c :: c in LatestCandidates(old(t.rows)) && (t.rows, r.value) == RevertChosen(old(t.rows), c, declared, downOk)
  {
    if |t.rows| == 0 {
      return None;
    }
    var best := LastApplied(t.rows);
    var i :| 0 <= i < |t.rows| && t.rows[i] == best;
    assert best.id in LatestCandidates(t.rows);
    var c :| c in LatestCandidates(t.rows);
    var res := RevertChosen(t.rows, c, declared, downOk);
    t.rows := res.0;
    r := Some(res.1);
  }

  /** Two migrations recorded in the same millisecond: the query may
      return the initial schema, so the revert refuses although another
      migration was applied after it. */
  lemma TiedStampsMayPickInitial()
    ensures var rows := [AppliedRow(InitialId, 7), AppliedRow("0001_add_tones", 7)];
      && InitialId in LatestCandidates(rows)
      && RevertChosen(rows, InitialId, ["0001_add_tones"], true).1 == Err(InitialSchema)
      && LastApplied(rows).id == "0001_add_tones"
  {
    var rows := [AppliedRow(InitialId, 7), AppliedRow("0001_add_tones", 7)];
    assert rows[0].id == InitialId;
    assert forall j :: 0 <= j < |rows| ==> rows[j].appliedAt <= rows[0].appliedAt;
  }

  /** `revertLastMigration()` choosing the migration recorded last (the
      latest stamp, ties broken by insertion order). A successful revert
      removes exactly that id. */
  method RevertLastMigration(t: MigrationTable, declared: seq<string>, downOk: bool)
    returns (r: Option<Result<string, RevertError>>)
    requires t.Valid()
    modifies t
    ensures t.Valid()
    ensures old(t.rows) == [] ==> r.None? && t.rows == old(t.rows)
    ensures old(t.rows) != [] ==>
      r.Some? && (t.rows, r.value) == RevertChosen(old(t.rows), LastApplied(old(t.rows)).id, declared, downOk)
    ensures r.Some? && r.value.Ok? ==> Ids(t.rows) == Ids(old(t.rows)) - {r.value.value}
  {
    if |t.rows| == 0 {
      return None;
    }
    var last := LastApplied(t.rows);
    var res := RevertChosen(t.rows, last.id, declared, downOk);
    if res.1.Ok? {
      RemoveIdIds(t.rows, last.id);
    }
    RemoveIdUnique(t.rows, last.id);
    t.rows := res.0;
    r := Some(res.1);
  }

  lemma RemoveIdIds(rows: seq<AppliedRow>, id: string)
    ensures Ids(RemoveId(rows, id)) == Ids(rows) - {id}
  {
    var r := RemoveId(rows, id);
    forall x | x in Ids(rows) - {id} ensures x in Ids(r) {
      var k :| 0 <= k < |rows| && rows[k].id == x;
      assert rows[k] in r;
    }
    forall x | x in Ids(r) ensures x in Ids(rows) - {id} {
      var k :| 0 <= k < |r| && r[k].id == x;
      assert r[k] in rows;
    }
  }

  lemma {:induction false} RemoveIdUnique(rows: seq<AppliedRow>, id: string)
    requires UniqueIds(rows)
    ensures UniqueIds(RemoveId(rows, id))
  {
    FilterKeepsUniqueIds(rows, id);
  }

  /** Filtering a table with unique ids keeps them unique. */
  lemma {:induction false} FilterKeepsUniqueIds(rows: seq<AppliedRow>, id: string)
    requires UniqueIds(rows)
    ensures UniqueIds(Filter(rows, (x: AppliedRow) => x.id != id))
    decreases |rows|
  {
    if rows != [] {
      var p := (x: AppliedRow) => x.id != id;
      FilterKeepsUniqueIds(rows[1..], id);
      assert UniqueIds(rows[1..]) by {
        forall i, j | 0 <= i < j < |rows[1..]| ensures rows[1..][i].id != rows[1..][j].id {
          assert rows[i + 1].id != rows[j + 1].id;
        }
      }
      var tail := Filter(rows[1..], p);
      assert Filter(rows, p) == (if p(rows[0]) then [rows[0]] else []) + tail;
      forall k | 0 <= k < |tail| ensures tail[k].id != rows[0].id {
        assert tail[k] in rows[1..];
        var m :| 0 <= m < |rows[1..]| && rows[1..][m] == tail[k];
        assert rows[0].id != rows[m + 1].id;
      }
    }
  }
}
