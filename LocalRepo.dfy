/** The desktop client's local SQLite repositories: notes, interactions and
    dictionary items (the tables the sync service mirrors), the key/value
    table, and user metadata. Each table is a map from its primary key to
    its row, and each SQL statement is a method or function that changes or
    reads that map the way its WHERE, SET and ON CONFLICT clauses say. An
    ISO-8601 timestamp is represented by the millisecond instant it denotes,
    so SQL's string comparison of `updated_at` is integer comparison here;
    `new Date()` is the `now` parameter and `uuidv4()` the `newId`
    parameter. */
module LocalRepo {
  import opened Common
  import opened Protocol

  type Instant = int

  // ---------------------------------------------------------------------
  // Errors
  // ---------------------------------------------------------------------

  /** The fields of a SQLite driver error the repository looks at; an
      absent `code` or `message` is the empty string. */
  datatype SqlError = SqlError(code: string, message: string, errno: Option<int>)

  const UniqueCode := "SQLITE_CONSTRAINT_UNIQUE"
  const UniqueMessage := "UNIQUE constraint failed"
  /** SQLITE_CONSTRAINT. */
  const ConstraintErrno := 19

  /** `isUniqueConstraintError`: any one of the three signs is enough. */
  predicate IsUniqueConstraintError(e: SqlError) {
    e.code == UniqueCode || Contains(e.message, UniqueMessage) || e.errno == Some(ConstraintErrno)
  }

  /** `DbResult<T>`: success with data, or an error message and kind. */
  datatype DbResult<T> = Success(data: T) | Failure(error: string, errorType: string)

  function DuplicateMessage(word: string): string {
    "\"" + word + "\" already exists in your dictionary"
  }

  /** `handleDictionaryConstraintError`: a unique-constraint error is a
      DUPLICATE naming the word; anything else is UNKNOWN with the driver's
      message, or a stock one when it has none. */
  function DictionaryConstraintFailure<T>(e: SqlError, word: string): (r: DbResult<T>)
    ensures r.Failure?
    ensures r.errorType == "DUPLICATE" <==> IsUniqueConstraintError(e)
    ensures IsUniqueConstraintError(e) ==> r.error == DuplicateMessage(word)
    ensures !IsUniqueConstraintError(e) ==> r.errorType == "UNKNOWN"
    ensures !IsUniqueConstraintError(e) ==> r.error == (if e.message == "" then "Database operation failed" else e.message)
  {
    if IsUniqueConstraintError(e) then Failure(DuplicateMessage(word), "DUPLICATE")
    else Failure(if e.message == "" then "Database operation failed" else e.message, "UNKNOWN")
  }

  /** The error the partial unique index on live dictionary words raises. */
  const WordIndexViolation := SqlError(UniqueCode, "UNIQUE constraint failed: dictionary_items.word", Some(ConstraintErrno))

  /** A dictionary write that hits the word index reports the word as a
      duplicate. */
  lemma WordIndexViolationIsDuplicate(word: string)
    ensures DictionaryConstraintFailure<()>(WordIndexViolation, word) == Failure(DuplicateMessage(word), "DUPLICATE")
  {
  }

  // ---------------------------------------------------------------------
  // JSON columns
  // ---------------------------------------------------------------------

  /** A JavaScript value as far as `parseJsonField` distinguishes it;
      objects and arrays are `Composite`, identified by their JSON text. */
  datatype Json = Undefined | Null | Bool(b: bool) | Num(n: int) | Str(s: string) | Composite(text: string)

  predicate Falsy(v: Json) {
    v.Undefined? || v.Null? || v == Bool(false) || v == Num(0) || v == Str("")
  }

  /** `parseJsonField`: falsy and non-string values come back unchanged; a
      string is parsed, a result that is itself a string (double encoding)
      is parsed once more, and a parse failure gives null. `parse` is
      `JSON.parse`, with None for a throw. */
  function ParseJsonField(v: Json, parse: string -> Option<Json>): (r: Json)
    ensures Falsy(v) || !v.Str? ==> r == v
    ensures !Falsy(v) && v.Str? && parse(v.s).None? ==> r.Null?
  {
    if Falsy(v) || !v.Str? then v
    else
      match parse(v.s)
      case None => Null
      case Some(p) =>
        if p.Str? then
          match parse(p.s)
          case None => Null
          case Some(q) => q
        else p
  }

  /** A value stored once as JSON text reads back as itself. */
  lemma ParseOfEncoded(x: Json, stringify: Json -> string, parse: string -> Option<Json>)
    requires !x.Str? && stringify(x) != ""
    requires parse(stringify(x)) == Some(x)
    ensures ParseJsonField(Str(stringify(x)), parse) == x
  {
  }

  /** A value whose JSON text was encoded a second time also reads back as
      itself: the extra layer is removed. */
  lemma ParseOfDoubleEncoded(x: Json, stringify: Json -> string, parse: string -> Option<Json>)
    requires !x.Str? && stringify(x) != ""
    requires parse(stringify(x)) == Some(x)
    requires stringify(Str(stringify(x))) != ""
    requires parse(stringify(Str(stringify(x)))) == Some(Str(stringify(x)))
    ensures ParseJsonField(Str(stringify(Str(stringify(x)))), parse) == x
  {
  }

  // ---------------------------------------------------------------------
  // Synced tables
  // ---------------------------------------------------------------------

  /** Which of the three synced tables a row belongs to. */
  datatype TableKind = Notes | Interactions | Dictionary

  /** The table-specific columns of a row. */
  datatype Cols =
    | NoteCols(interactionId: Option<string>, content: string)
    | InteractionCols(title: Option<string>, asrOutput: Json, llmOutput: Json, rawAudio: Option<seq<Byte>>,
                      rawAudioId: Option<string>, durationMs: Option<int>, sampleRate: Option<int>)
    | DictionaryCols(word: string, pronunciation: Option<string>)

  predicate OfKind(c: Cols, kind: TableKind) {
    match kind
    case Notes => c.NoteCols?
    case Interactions => c.InteractionCols?
    case Dictionary => c.DictionaryCols?
  }

  datatype Row = Row(id: string, userId: Option<string>, cols: Cols, createdAt: Instant, updatedAt: Instant, deletedAt: Option<Instant>)

  type Rows = map<string, Row>

  /** Every row is stored under its own id and belongs to the table. */
  ghost predicate WellKeyed(rows: Rows, kind: TableKind) {
    forall id :: id in rows ==> rows[id].id == id && OfKind(rows[id].cols, kind)
  }

  /** The owner filter of `findAll`: `user_id = ?`, or `user_id IS NULL`
      when no (or an empty) user id is given. */
  predicate OwnedBy(r: Row, userId: string) {
    if userId == "" then r.userId.None? else r.userId == Some(userId)
  }

  /** `findAll(user_id)`: the user's rows that are not soft-deleted. */
  function FindAll(rows: Rows, userId: string): (r: set<Row>)
    ensures forall x :: x in r ==> x in rows.Values && x.deletedAt.None?
  {
    set x | x in rows.Values && OwnedBy(x, userId) && x.deletedAt.None?
  }

  /** `findModifiedSince(t)`: every row updated after t, deleted or not. */
  function FindModifiedSince(rows: Rows, t: Instant): (r: set<Row>)
    ensures forall x :: x in r ==> x in rows.Values
  {
    set x | x in rows.Values && x.updatedAt > t
  }

  /** `softDelete(id)`: stamps `deleted_at` and `updated_at` of that row and
      changes nothing else; an unknown id changes nothing. */
  function SoftDeleted(rows: Rows, id: string, now: Instant): (r: Rows)
    ensures r.Keys == rows.Keys
    ensures forall k :: k in rows && k != id ==> r[k] == rows[k]
    ensures id in rows ==> r[id] == rows[id].(deletedAt := Some(now), updatedAt := now)
  {
    if id in rows then rows[id := rows[id].(deletedAt := Some(now), updatedAt := now)] else rows
  }

  /** `deleteAllUserData(user)`: soft-deletes every row the user owns. */
  function DeletedAllOf(rows: Rows, userId: string, now: Instant): (r: Rows)
    ensures r.Keys == rows.Keys
    ensures forall k :: k in rows && rows[k].userId != Some(userId) ==> r[k] == rows[k]
    ensures forall k :: k in rows && rows[k].userId == Some(userId) ==> r[k] == rows[k].(deletedAt := Some(now), updatedAt := now)
  {
    map k | k in rows :: if rows[k].userId == Some(userId) then rows[k].(deletedAt := Some(now), updatedAt := now) else rows[k]
  }

  /** The columns an upsert's `ON CONFLICT DO UPDATE` overwrites. An
      interaction's `raw_audio_id` is not among them (nor among the
      inserted columns), so an existing row keeps it. */
  function MergeCols(existing: Cols, incoming: Cols): (c: Cols)
    ensures existing.InteractionCols? && incoming.InteractionCols? ==>
      c == incoming.(rawAudioId := existing.rawAudioId)
    ensures !(existing.InteractionCols? && incoming.InteractionCols?) ==> c == incoming
  {
    if existing.InteractionCols? && incoming.InteractionCols? then incoming.(rawAudioId := existing.rawAudioId)
    else incoming
  }

  /** The row an upsert inserts when the id is new: an interaction's
      `raw_audio_id` is not in the column list and starts NULL. */
  function Inserted(x: Row): (r: Row)
    ensures r.id == x.id && r.userId == x.userId && r.createdAt == x.createdAt
    ensures r.updatedAt == x.updatedAt && r.deletedAt == x.deletedAt
    ensures x.cols.InteractionCols? ==> r.cols == x.cols.(rawAudioId := None)
    ensures !x.cols.InteractionCols? ==> r.cols == x.cols
  {
    if x.cols.InteractionCols? then x.(cols := x.cols.(rawAudioId := None)) else x
  }

  /** `upsert(row)` keyed on id: an existing row keeps its id, owner and
      creation time and takes the listed columns, `updated_at` and
      `deleted_at` from the new row. */
  function Upserted(rows: Rows, x: Row): (r: Rows)
    ensures r.Keys == rows.Keys + {x.id}
    ensures forall k :: k in rows && k != x.id ==> r[k] == rows[k]
    ensures x.id in rows ==>
      && r[x.id].id == rows[x.id].id && r[x.id].userId == rows[x.id].userId
      && r[x.id].createdAt == rows[x.id].createdAt
      && r[x.id].cols == MergeCols(rows[x.id].cols, x.cols)
      && r[x.id].updatedAt == x.updatedAt && r[x.id].deletedAt == x.deletedAt
    ensures x.id !in rows ==> r[x.id] == Inserted(x)
  {
    if x.id in rows then
      rows[x.id := rows[x.id].(cols := MergeCols(rows[x.id].cols, x.cols), updatedAt := x.updatedAt, deletedAt := x.deletedAt)]
    else rows[x.id := Inserted(x)]
  }

  /** Some other live dictionary row already holds the word: the partial
      unique index `ON dictionary_items(word) WHERE deleted_at IS NULL`. */
  predicate WordTaken(rows: Rows, word: string, id: string) {
    exists k :: k in rows && k != id && rows[k].deletedAt.None? && rows[k].cols.DictionaryCols? && rows[k].cols.word == word
  }

  /** A soft-deleted row drops out of `findAll` and every other row keeps
      its place in it. */
  lemma SoftDeleteHides(rows: Rows, id: string, now: Instant, userId: string)
    requires forall k :: k in rows ==> rows[k].id == k
    ensures forall x :: x in FindAll(SoftDeleted(rows, id, now), userId) ==> x.id != id
    ensures forall x :: x in FindAll(rows, userId) && x.id != id ==> x in FindAll(SoftDeleted(rows, id, now), userId)
  {
    var r := SoftDeleted(rows, id, now);
    forall x | x in FindAll(rows, userId) && x.id != id
      ensures x in FindAll(r, userId)
    {
      var k :| k in rows && rows[k] == x;
      assert r[k] == x;
    }
  }

  /** A soft delete shows up in the next `findModifiedSince` of any
      earlier instant. */
  lemma SoftDeleteIsModified(rows: Rows, id: string, now: Instant, t: Instant)
    requires id in rows && t < now
    ensures SoftDeleted(rows, id, now)[id] in FindModifiedSince(SoftDeleted(rows, id, now), t)
  {
  }

  /** After an upsert of a live row owned by the user, `findAll` returns
      it with the new columns. */
  lemma UpsertShows(rows: Rows, x: Row, userId: string)
    requires forall k :: k in rows ==> rows[k].id == k
    requires x.deletedAt.None? && OwnedBy(x, userId)
    requires x.id in rows ==> rows[x.id].userId == x.userId
    ensures exists y :: y in FindAll(Upserted(rows, x), userId) && y.id == x.id && y.updatedAt == x.updatedAt
  {
    var r := Upserted(rows, x);
    assert r[x.id] in r.Values;
    assert r[x.id] in FindAll(r, userId);
  }

  /** A synced table (`notes`, `interactions` or `dictionary_items`). */
  class Table {
    const kind: TableKind
    var rows: Rows

    ghost predicate Valid()
      reads this
    {
      WellKeyed(rows, kind)
    }

    constructor (kind: TableKind)
      ensures this.kind == kind && rows == map[] && Valid()
    {
      this.kind := kind;
      rows := map[];
    }

    /** `insert` of notes and interactions: a fresh id, both timestamps
        `now`, not deleted. */
    method Insert(newId: string, userId: Option<string>, cols: Cols, now: Instant) returns (r: Row)
      requires Valid() && kind != Dictionary && OfKind(cols, kind)
      requires newId !in rows
      modifies this
      ensures Valid()
      ensures r == Row(newId, userId, cols, now, now, None)
      ensures rows == old(rows)[newId := r]
    {
      r := Row(newId, userId, cols, now, now, None);
      rows := rows[newId := r];
    }

    /** `DictionaryTable.insert`: refused as a duplicate when a live row
        already holds the word; otherwise the new row is returned. */
    method InsertWord(newId: string, userId: string, word: string, pronunciation: Option<string>, now: Instant)
      returns (res: DbResult<Row>)
      requires Valid() && kind == Dictionary
      requires newId !in rows
      modifies this
      ensures Valid()
      ensures WordTaken(old(rows), word, newId) ==>
        res == Failure(DuplicateMessage(word), "DUPLICATE") && rows == old(rows)
      ensures !WordTaken(old(rows), word, newId) ==>
        && res == Success(Row(newId, Some(userId), DictionaryCols(word, pronunciation), now, now, None))
        && rows == old(rows)[newId := res.data]
    {
      if WordTaken(rows, word, newId) {
        WordIndexViolationIsDuplicate(word);
        res := DictionaryConstraintFailure(WordIndexViolation, word);
        return;
      }
      var r := Row(newId, Some(userId), DictionaryCols(word, pronunciation), now, now, None);
      rows := rows[newId := r];
      res := Success(r);
    }

    /** `findById`. */
    function FindById(id: string): (r: Option<Row>)
      reads this
      ensures r.Some? <==> id in rows
      ensures r.Some? ==> r.value == rows[id]
    {
      if id in rows then Some(rows[id]) else None
    }

    /** `NotesTable.updateContent`: the content and `updated_at` of that
        note. */
    method UpdateContent(id: string, content: string, now: Instant)
      requires Valid() && kind == Notes
      modifies this
      ensures Valid()
      ensures rows.Keys == old(rows).Keys
      ensures forall k :: k in rows && k != id ==> rows[k] == old(rows)[k]
      ensures id in rows ==> rows[id] == old(rows)[id].(cols := NoteCols(old(rows)[id].cols.interactionId, content), updatedAt := now)
    {
      if id in rows {
        rows := rows[id := rows[id].(cols := NoteCols(rows[id].cols.interactionId, content), updatedAt := now)];
      }
    }

    /** `DictionaryTable.update`: word, pronunciation and `updated_at` of
        that item; it never throws, and a clash with another live word is
        a DUPLICATE that changes nothing. */
    method UpdateWord(id: string, word: string, pronunciation: Option<string>, now: Instant) returns (res: DbResult<()>)
      requires Valid() && kind == Dictionary
      modifies this
      ensures Valid()
      ensures res.Failure? <==> id in old(rows) && old(rows)[id].deletedAt.None? && WordTaken(old(rows), word, id)
      ensures res.Failure? ==> res == Failure(DuplicateMessage(word), "DUPLICATE") && rows == old(rows)
      ensures res.Success? ==> rows.Keys == old(rows).Keys
      ensures res.Success? ==> forall k :: k in rows && k != id ==> rows[k] == old(rows)[k]
      ensures res.Success? && id in old(rows) ==>
        rows[id] == old(rows)[id].(cols := DictionaryCols(word, pronunciation), updatedAt := now)
    {
      if id in rows && rows[id].deletedAt.None? && WordTaken(rows, word, id) {
        WordIndexViolationIsDuplicate(word);
        res := DictionaryConstraintFailure(WordIndexViolation, word);
        return;
      }
      if id in rows {
        rows := rows[id := rows[id].(cols := DictionaryCols(word, pronunciation), updatedAt := now)];
      }
      res := Success(());
    }

    /** `softDelete`. */
    method SoftDelete(id: string, now: Instant)
      requires Valid()
      modifies this
      ensures Valid()
      ensures rows == SoftDeleted(old(rows), id, now)
    {
      if id in rows {
        rows := rows[id := rows[id].(deletedAt := Some(now), updatedAt := now)];
      }
    }

    /** `deleteAllUserData`. */
    method DeleteAllUserData(userId: string, now: Instant)
      requires Valid()
      modifies this
      ensures Valid()
      ensures rows == DeletedAllOf(old(rows), userId, now)
    {
      rows := DeletedAllOf(rows, userId, now);
    }

    /** `upsert` of notes and interactions. */
    method Upsert(x: Row)
      requires Valid() && kind != Dictionary && OfKind(x.cols, kind)
      modifies this
      ensures Valid()
      ensures rows == Upserted(old(rows), x)
    {
      rows := Upserted(rows, x);
    }

    /** `DictionaryTable.upsert`: never throws; a live row whose word is
        held by another live row is a DUPLICATE that changes nothing. */
    method UpsertWord(x: Row) returns (res: DbResult<()>)
      requires Valid() && kind == Dictionary && x.cols.DictionaryCols?
      modifies this
      ensures Valid()
      ensures res.Failure? <==> x.deletedAt.None? && WordTaken(old(rows), x.cols.word, x.id)
      ensures res.Failure? ==> res == Failure(DuplicateMessage(x.cols.word), "DUPLICATE") && rows == old(rows)
      ensures res.Success? ==> rows == Upserted(old(rows), x)
    {
      if x.deletedAt.None? && WordTaken(rows, x.cols.word, x.id) {
        WordIndexViolationIsDuplicate(x.cols.word);
        res := DictionaryConstraintFailure(WordIndexViolation, x.cols.word);
        return;
      }
      rows := Upserted(rows, x);
      res := Success(());
    }
  }

  // ---------------------------------------------------------------------
  // Key/value table
  // ---------------------------------------------------------------------

  /** `key_value_store`: one value per key. */
  class KeyValueStore {
    var entries: map<string, string>

    constructor ()
      ensures entries == map[]
    {
      entries := map[];
    }

    /** `set`: insert, or replace the value on a key conflict. */
    method Set(key: string, value: string)
      modifies this
      ensures entries == old(entries)[key := value]
    {
      entries := entries[key := value];
    }

    /** `get`: the value, or undefined. */
    function Get(key: string): (r: Option<string>)
      reads this
      ensures r.Some? <==> key in entries
      ensures r.Some? ==> r.value == entries[key]
    {
      if key in entries then Some(entries[key]) else None
    }

    /** `delete`. */
    method Delete(key: string)
      modifies this
      ensures entries == old(entries) - {key}
    {
      entries := entries - {key};
    }
  }

  // ---------------------------------------------------------------------
  // User metadata
  // ---------------------------------------------------------------------

  datatype PaidStatus = Free | ProTrial | Pro

  /** A value bound to a `?` placeholder. */
  datatype SqlValue = SqlNull | SqlText(s: string) | SqlInt(n: int) | SqlStatus(status: PaidStatus) | SqlTime(t: Instant)

  /** The updatable columns of `user_metadata`, in the order `update`
      tests them. */
  datatype MetaColumn = PaidStatusCol | FreeWordsCol | TrialStartCol | TrialEndCol | SubStartCol | SubEndCol

  const MetaColumns: seq<MetaColumn> := [PaidStatusCol, FreeWordsCol, TrialStartCol, TrialEndCol, SubStartCol, SubEndCol]

  /** A partial update: an outer None is a key left undefined, an inner
      None an explicit null. */
  datatype MetaUpdates = MetaUpdates(
    paidStatus: Option<PaidStatus>,
    freeWordsRemaining: Option<Option<int>>,
    proTrialStartDate: Option<Option<Instant>>,
    proTrialEndDate: Option<Option<Instant>>,
    proSubscriptionStartDate: Option<Option<Instant>>,
    proSubscriptionEndDate: Option<Option<Instant>>)

  function ColumnName(c: MetaColumn): string {
    match c
    case PaidStatusCol => "paid_status"
    case FreeWordsCol => "free_words_remaining"
    case TrialStartCol => "pro_trial_start_date"
    case TrialEndCol => "pro_trial_end_date"
    case SubStartCol => "pro_subscription_start_date"
    case SubEndCol => "pro_subscription_end_date"
  }

  function Clause(c: MetaColumn): string {
    ColumnName(c) + " = ?"
  }

  function OptInt(v: Option<int>): SqlValue {
    if v.Some? then SqlInt(v.value) else SqlNull
  }

  function OptTime(v: Option<Instant>): SqlValue {
    if v.Some? then SqlTime(v.value) else SqlNull
  }

  /** The placeholder value of a column the update gives, None when its
      key is undefined; a null date is bound as NULL. */
  function Given(u: MetaUpdates, c: MetaColumn): Option<SqlValue> {
    match c
    case PaidStatusCol => if u.paidStatus.Some? then Some(SqlStatus(u.paidStatus.value)) else None
    case FreeWordsCol => if u.freeWordsRemaining.Some? then Some(OptInt(u.freeWordsRemaining.value)) else None
    case TrialStartCol => if u.proTrialStartDate.Some? then Some(OptTime(u.proTrialStartDate.value)) else None
    case TrialEndCol => if u.proTrialEndDate.Some? then Some(OptTime(u.proTrialEndDate.value)) else None
    case SubStartCol => if u.proSubscriptionStartDate.Some? then Some(OptTime(u.proSubscriptionStartDate.value)) else None
    case SubEndCol => if u.proSubscriptionEndDate.Some? then Some(OptTime(u.proSubscriptionEndDate.value)) else None
  }

  /** The columns an update sets, in the fixed column order. */
  function SetColumns(u: MetaUpdates, cols: seq<MetaColumn>): (r: seq<MetaColumn>)
    ensures forall c :: c in r <==> c in cols && Given(u, c).Some?
  {
    if |cols| == 0 then [] else (if Given(u, cols[0]).Some? then [cols[0]] else []) + SetColumns(u, cols[1..])
  }

  function Clauses(cs: seq<MetaColumn>): (r: seq<string>)
    ensures |r| == |cs|
    ensures forall i :: 0 <= i < |cs| ==> r[i] == Clause(cs[i])
  {
    if |cs| == 0 then [] else [Clause(cs[0])] + Clauses(cs[1..])
  }

  function Params(u: MetaUpdates, cs: seq<MetaColumn>): (r: seq<SqlValue>)
    requires forall c :: c in cs ==> Given(u, c).Some?
    ensures |r| == |cs|
    ensures forall i :: 0 <= i < |cs| ==> r[i] == Given(u, cs[i]).value
  {
    if |cs| == 0 then [] else [Given(u, cs[0]).value] + Params(u, cs[1..])
  }

  /** `UserMetadataTable.update`'s statement builder: one SET clause per
      given key in the fixed order, then `updated_at`; the parameters line
      up with the clauses and end with the user id. */
  method BuildMetadataUpdate(u: MetaUpdates, userId: string, now: Instant) returns (fields: seq<string>, params: seq<SqlValue>)
    ensures fields == Clauses(SetColumns(u, MetaColumns)) + ["updated_at = ?"]
    ensures params == Params(u, SetColumns(u, MetaColumns)) + [SqlTime(now), SqlText(userId)]
  {
    fields := [];
    params := [];
    ghost var done: seq<MetaColumn> := [];
    var i := 0;
    while i < |MetaColumns|
      invariant 0 <= i <= |MetaColumns|
      invariant done == SetColumns(u, MetaColumns[..i])
      invariant forall c :: c in done ==> Given(u, c).Some?
      invariant fields == Clauses(done) && params == Params(u, done)
    {
      SetColumnsStep(u, MetaColumns, i);
      var c := MetaColumns[i];
      var v := Given(u, c);
      if v.Some? {
        ClausesAppend(done, c);
        ParamsAppend(u, done, c);
        fields := fields + [Clause(c)];
        params := params + [v.value];
        done := done + [c];
      }
      i := i + 1;
    }
    assert MetaColumns[..i] == MetaColumns;
    fields := fields + ["updated_at = ?"];
    params := params + [SqlTime(now)];
    params := params + [SqlText(userId)];
  }

  lemma {:induction false} SetColumnsAppend(u: MetaUpdates, xs: seq<MetaColumn>, ys: seq<MetaColumn>)
    ensures SetColumns(u, xs + ys) == SetColumns(u, xs) + SetColumns(u, ys)
    decreases |xs|
  {
    if |xs| == 0 {
      assert xs + ys == ys;
    } else {
      assert (xs + ys)[1..] == xs[1..] + ys;
      SetColumnsAppend(u, xs[1..], ys);
    }
  }

  lemma SetColumnsStep(u: MetaUpdates, cols: seq<MetaColumn>, i: nat)
    requires i < |cols|
    ensures SetColumns(u, cols[..i + 1]) == SetColumns(u, cols[..i]) + (if Given(u, cols[i]).Some? then [cols[i]] else [])
  {
    SetColumnsAppend(u, cols[..i], [cols[i]]);
    assert cols[..i + 1] == cols[..i] + [cols[i]];
  }

  lemma ClausesAppend(cs: seq<MetaColumn>, c: MetaColumn)
    ensures Clauses(cs + [c]) == Clauses(cs) + [Clause(c)]
  {
  }

  lemma ParamsAppend(u: MetaUpdates, cs: seq<MetaColumn>, c: MetaColumn)
    requires forall x :: x in cs ==> Given(u, x).Some?
    requires Given(u, c).Some?
    ensures Params(u, cs + [c]) == Params(u, cs) + [Given(u, c).value]
  {
  }

  /** A SET clause appears exactly for the keys the update gives, and the
      statement always stamps `updated_at` last, with the user id as the
      final parameter. */
  lemma MetadataUpdateShape(u: MetaUpdates, userId: string, now: Instant, c: MetaColumn)
    ensures var fields := Clauses(SetColumns(u, MetaColumns)) + ["updated_at = ?"];
      && (Clause(c) in fields <==> Given(u, c).Some?)
      && fields[|fields| - 1] == "updated_at = ?"
  {
    var cs := SetColumns(u, MetaColumns);
    if Given(u, c).Some? {
      GivenColumnHasClause(u, c);
    }
    if Clause(c) in Clauses(cs) + ["updated_at = ?"] {
      ClauseOnlyIfGiven(cs, u, c);
    }
  }

  lemma GivenColumnHasClause(u: MetaUpdates, c: MetaColumn)
    requires Given(u, c).Some?
    ensures Clause(c) in Clauses(SetColumns(u, MetaColumns))
  {
    var cs := SetColumns(u, MetaColumns);
    assert c in MetaColumns;
    var i :| 0 <= i < |cs| && cs[i] == c;
    assert Clauses(cs)[i] == Clause(c);
  }

  lemma ClauseOnlyIfGiven(cs: seq<MetaColumn>, u: MetaUpdates, c: MetaColumn)
    requires forall x :: x in cs ==> Given(u, x).Some?
    requires Clause(c) in Clauses(cs) + ["updated_at = ?"]
    ensures Given(u, c).Some?
  {
    var fields := Clauses(cs) + ["updated_at = ?"];
    var i :| 0 <= i < |fields| && fields[i] == Clause(c);
    if i == |fields| - 1 {
      ClauseIsNotUpdatedAt(c);
    } else {
      ClauseInjective(cs[i], c);
    }
  }

  lemma ClauseIsNotUpdatedAt(c: MetaColumn)
    ensures Clause(c) != "updated_at = ?"
  {
    assert Clause(c)[0] != 'u';
  }

  lemma ClauseInjective(a: MetaColumn, b: MetaColumn)
    requires Clause(a) == Clause(b)
    ensures a == b
  {
    assert ColumnName(a) == Clause(a)[..|Clause(a)| - 4];
    assert ColumnName(b) == Clause(b)[..|Clause(b)| - 4];
  }
}
