/** The local `app_targets` and `tones` tables: which tone of voice the
    user picked for an application or a web domain, and the tones there
    are to pick from. */
module AppTargetRepo {
  import opened Common
  import opened SortedQuery
  import LocalRepo

  type Instant = LocalRepo.Instant

  // ---------------------------------------------------------------------
  // Rows and their mapping to records
  // ---------------------------------------------------------------------

  datatype MatchType = MatchApp | MatchDomain

  function MatchTypeName(m: MatchType): string {
    match m
    case MatchApp => "app"
    case MatchDomain => "domain"
  }

  /** A row of `app_targets`; `match_type` is whatever text is stored. */
  datatype TargetRow = TargetRow(
    id: string, userId: string, name: string, matchType: string,
    domain: Option<string>, toneId: Option<string>, iconBase64: Option<string>,
    createdAt: Instant, updatedAt: Instant, deletedAt: Option<Instant>)

  /** The record handed to callers. */
  datatype AppTarget = AppTarget(
    id: string, userId: string, name: string, matchType: string,
    domain: Option<string>, toneId: Option<string>, iconBase64: Option<string>,
    createdAt: Instant, updatedAt: Instant, deletedAt: Option<Instant>)

  /** `mapAppTargetRowToAppTarget`: every column is copied, and an empty
      match type reads as `app`. */
  function ToAppTarget(row: TargetRow): (t: AppTarget)
    ensures t.matchType != ""
    ensures row.matchType != "" ==> t.matchType == row.matchType
    ensures row.matchType == "" ==> t.matchType == "app"
    ensures t.id == row.id && t.userId == row.userId && t.name == row.name
    ensures t.domain == row.domain && t.toneId == row.toneId && t.iconBase64 == row.iconBase64
    ensures t.createdAt == row.createdAt && t.updatedAt == row.updatedAt && t.deletedAt == row.deletedAt
  {
    AppTarget(row.id, row.userId, row.name, if row.matchType == "" then "app" else row.matchType,
              row.domain, row.toneId, row.iconBase64, row.createdAt, row.updatedAt, row.deletedAt)
  }

  /** A row of `tones`; `user_id` is NULL for the built-in tones and
      `is_system` is an integer flag. */
  datatype ToneRow = ToneRow(
    id: string, userId: Option<string>, name: string, promptTemplate: string,
    isSystem: int, sortOrder: int, createdAt: Instant, updatedAt: Instant, deletedAt: Option<Instant>)

  datatype Tone = Tone(
    id: string, userId: Option<string>, name: string, promptTemplate: string,
    isSystem: bool, sortOrder: int, createdAt: Instant, updatedAt: Instant, deletedAt: Option<Instant>)

  /** `mapToneRowToTone`: `isSystem` holds exactly when the flag is not 0. */
  function ToTone(row: ToneRow): (t: Tone)
    ensures t.isSystem <==> row.isSystem != 0
    ensures t.id == row.id && t.userId == row.userId && t.name == row.name
    ensures t.promptTemplate == row.promptTemplate && t.sortOrder == row.sortOrder
    ensures t.createdAt == row.createdAt && t.updatedAt == row.updatedAt && t.deletedAt == row.deletedAt
  {
    Tone(row.id, row.userId, row.name, row.promptTemplate, row.isSystem != 0, row.sortOrder,
         row.createdAt, row.updatedAt, row.deletedAt)
  }

  // ---------------------------------------------------------------------
  // app_targets as a map keyed by its primary key (id, user_id)
  // ---------------------------------------------------------------------

  type Key = (string, string)

  type Targets = map<Key, TargetRow>

  predicate KeyedByIdAndUser(rows: Targets) {
    forall k :: k in rows ==> rows[k].id == k.0 && rows[k].userId == k.1
  }

  /** `findById(id, user)`: that row unless it is soft-deleted. */
  function FindTarget(rows: Targets, id: string, userId: string): (r: Option<AppTarget>)
    ensures r.Some? <==> (id, userId) in rows && rows[(id, userId)].deletedAt.None?
    ensures r.Some? ==> r.value == ToAppTarget(rows[(id, userId)])
  {
    if (id, userId) in rows && rows[(id, userId)].deletedAt.None? then Some(ToAppTarget(rows[(id, userId)]))
    else None
  }

  /** The `WHERE` clause of `findByDomain(domain, user)`. */
  predicate DomainMatch(row: TargetRow, domain: string, userId: string) {
    row.domain == Some(domain) && row.userId == userId && row.matchType == "domain" && row.deletedAt.None?
  }

  /** `findAll(user)`: the user's targets that are not soft-deleted. */
  function ListTargets(rows: Targets, userId: string): (r: set<AppTarget>)
    ensures forall t :: t in r ==> t.userId == userId && t.deletedAt.None?
  {
    set k | k in rows && rows[k].userId == userId && rows[k].deletedAt.None? :: ToAppTarget(rows[k])
  }

  /** The fields an upsert supplies. */
  datatype TargetInput = TargetInput(
    id: string, userId: string, name: string, matchType: Option<MatchType>,
    domain: Option<string>, toneId: Option<string>, iconBase64: Option<string>)

  /** The row left by `INSERT ... ON CONFLICT(id, user_id) DO UPDATE`: a
      new key is inserted with both stamps `now`; an existing row keeps its
      `created_at`, keeps its tone and icon where the new value is NULL
      (COALESCE), takes every other listed column and is undeleted. */
  function UpsertedTarget(existing: Option<TargetRow>, d: TargetInput, now: Instant): (r: TargetRow)
    requires existing.Some? ==> existing.value.id == d.id && existing.value.userId == d.userId
    ensures r.id == d.id && r.userId == d.userId && r.name == d.name
    ensures r.matchType == MatchTypeName(d.matchType.GetOr(MatchApp)) && r.domain == d.domain
    ensures r.deletedAt.None? && r.updatedAt == now
    ensures existing.None? ==> r.createdAt == now && r.toneId == d.toneId && r.iconBase64 == d.iconBase64
    ensures existing.Some? ==> r.createdAt == existing.value.createdAt
    ensures existing.Some? ==> r.toneId == (if d.toneId.Some? then d.toneId else existing.value.toneId)
    ensures existing.Some? ==> r.iconBase64 == (if d.iconBase64.Some? then d.iconBase64 else existing.value.iconBase64)
  {
    var matchType := MatchTypeName(d.matchType.GetOr(MatchApp));
    match existing
    case None => TargetRow(d.id, d.userId, d.name, matchType, d.domain, d.toneId, d.iconBase64, now, now, None)
    case Some(prev) =>
      prev.(name := d.name, matchType := matchType, domain := d.domain,
           toneId := if d.toneId.Some? then d.toneId else prev.toneId,
           iconBase64 := if d.iconBase64.Some? then d.iconBase64 else prev.iconBase64,
           updatedAt := now, deletedAt := None)
  }

  function Existing(rows: Targets, k: Key): (r: Option<TargetRow>)
    requires KeyedByIdAndUser(rows)
    ensures r.Some? ==> r.value.id == k.0 && r.value.userId == k.1
  {
    if k in rows then Some(rows[k]) else None
  }

  /** Upserting and then looking the key up always finds the upserted row,
      so the "Failed to upsert app target" error cannot arise. */
  lemma UpsertThenFind(rows: Targets, d: TargetInput, now: Instant)
    requires KeyedByIdAndUser(rows)
    ensures FindTarget(rows[(d.id, d.userId) := UpsertedTarget(Existing(rows, (d.id, d.userId)), d, now)], d.id, d.userId)
            == Some(ToAppTarget(UpsertedTarget(Existing(rows, (d.id, d.userId)), d, now)))
  {
  }

  /** Upserting a target the user soft-deleted brings it back. */
  lemma UpsertRevives(rows: Targets, d: TargetInput, deletedAt: Instant, now: Instant)
    requires KeyedByIdAndUser(rows)
    requires (d.id, d.userId) in rows && rows[(d.id, d.userId)].deletedAt == Some(deletedAt)
    ensures FindTarget(rows, d.id, d.userId).None?
    ensures var k := (d.id, d.userId);
            FindTarget(rows[k := UpsertedTarget(Some(rows[k]), d, now)], d.id, d.userId).Some?
  {
  }

  /** Re-registering an app without a tone keeps the tone the user chose. */
  lemma UpsertKeepsChosenTone(row: TargetRow, d: TargetInput, now: Instant)
    requires row.id == d.id && row.userId == d.userId && d.toneId.None?
    ensures UpsertedTarget(Some(row), d, now).toneId == row.toneId
  {
  }

  class AppTargetTable {
    var rows: Targets

    ghost predicate Valid()
      reads this
    {
      KeyedByIdAndUser(rows)
    }

    constructor()
      ensures Valid() && rows == map[]
    {
      rows := map[];
    }

    function FindById(id: string, userId: string): (r: Option<AppTarget>)
      reads this
      requires Valid()
      ensures r.Some? ==> r.value.id == id && r.value.userId == userId && r.value.deletedAt.None?
      ensures r.None? <==> (id, userId) !in rows || rows[(id, userId)].deletedAt.Some?
    {
      FindTarget(rows, id, userId)
    }

    function FindAll(userId: string): (r: set<AppTarget>)
      reads this
      requires Valid()
      ensures forall t :: t in r <==> exists k :: k in rows && rows[k].userId == userId && rows[k].deletedAt.None? && t == ToAppTarget(rows[k])
    {
      ListTargets(rows, userId)
    }

    /** `findByDomain(domain, user)`: some live `domain` row of that user
        for that domain, when there is one. Which of several such rows the
        database returns is not fixed. */
    method FindByDomain(domain: string, userId: string) returns (r: Option<AppTarget>)
      ensures r.None? <==> forall k :: k in rows ==> !DomainMatch(rows[k], domain, userId)
      ensures r.Some? ==> exists k :: k in rows && DomainMatch(rows[k], domain, userId) && r.value == ToAppTarget(rows[k])
      ensures r.Some? ==> r.value.matchType == "domain" && r.value.domain == Some(domain) && r.value.deletedAt.None?
    {
      if k :| k in rows && DomainMatch(rows[k], domain, userId) {
        r := Some(ToAppTarget(rows[k]));
      } else {
        r := None;
      }
    }

    /** `upsert(data)`: writes the row and returns what `findById` then
        reads, which is always the written row. */
    method Upsert(d: TargetInput, now: Instant) returns (r: AppTarget)
      requires Valid()
      modifies this
      ensures Valid()
      ensures rows == old(rows)[(d.id, d.userId) := UpsertedTarget(Existing(old(rows), (d.id, d.userId)), d, now)]
      ensures FindById(d.id, d.userId) == Some(r)
      ensures r.name == d.name && r.deletedAt.None? && r.updatedAt == now
    {
      var k := (d.id, d.userId);
      rows := rows[k := UpsertedTarget(Existing(rows, k), d, now)];
      UpsertThenFind(old(rows), d, now);
      var found := FindById(d.id, d.userId);
      r := found.value;
    }

    /** `updateTone(id, user, tone)`: sets the tone and stamps
        `updated_at`, whether or not the row is soft-deleted. */
    method UpdateTone(id: string, userId: string, toneId: Option<string>, now: Instant)
      requires Valid()
      modifies this
      ensures Valid()
      ensures (id, userId) in old(rows) ==> rows == old(rows)[(id, userId) := old(rows)[(id, userId)].(toneId := toneId, updatedAt := now)]
      ensures (id, userId) !in old(rows) ==> rows == old(rows)
    {
      if (id, userId) in rows {
        rows := rows[(id, userId) := rows[(id, userId)].(toneId := toneId, updatedAt := now)];
      }
    }

    /** `delete(id, user)`: stamps `deleted_at` of that one row; unlike the
        synced tables, `updated_at` is left alone. */
    method Delete(id: string, userId: string, now: Instant)
      requires Valid()
      modifies this
      ensures Valid()
      ensures (id, userId) in old(rows) ==> rows == old(rows)[(id, userId) := old(rows)[(id, userId)].(deletedAt := Some(now))]
      ensures (id, userId) !in old(rows) ==> rows == old(rows)
      ensures FindById(id, userId).None?
    {
      if (id, userId) in rows {
        rows := rows[(id, userId) := rows[(id, userId)].(deletedAt := Some(now))];
      }
    }

    /** `deleteAllUserData(user)`: removes every row of that user outright. */
    method DeleteAllUserData(userId: string)
      requires Valid()
      modifies this
      ensures Valid()
      ensures rows == map k | k in old(rows) && k.1 != userId :: old(rows)[k]
      ensures FindAll(userId) == {}
    {
      rows := map k | k in rows && k.1 != userId :: rows[k];
    }
  }

  // ---------------------------------------------------------------------
  // tones
  // ---------------------------------------------------------------------

  /** The `WHERE` clause of `ToneTable.findAll(user)`: a built-in tone or
      one of the user's own, not soft-deleted. */
  predicate Offered(row: ToneRow, userId: string) {
    (row.userId.None? || row.userId == Some(userId)) && row.deletedAt.None?
  }

  function ToneSortOrder(t: Tone): int {
    t.sortOrder
  }

  class ToneTable {
    var rows: map<string, ToneRow>

    ghost predicate Valid()
      reads this
    {
      forall id :: id in rows ==> rows[id].id == id
    }

    constructor()
      ensures Valid() && rows == map[]
    {
      rows := map[];
    }

    /** `findAll(user)`: the offered tones, ordered by `sort_order`. */
    method FindAll(userId: string) returns (r: seq<Tone>)
      ensures SortedBy(r, ToneSortOrder)
      ensures forall t :: t in r <==> exists id :: id in rows && Offered(rows[id], userId) && t == ToTone(rows[id])
    {
      var offered := set id | id in rows && Offered(rows[id], userId) :: ToTone(rows[id]);
      r := OrderBy(offered, ToneSortOrder);
    }

    /** `findById(id)`: that tone whoever owns it, even if soft-deleted. */
    function FindById(id: string): (r: Option<Tone>)
      reads this
      ensures r.Some? <==> id in rows
      ensures r.Some? ==> r.value == ToTone(rows[id])
    {
      if id in rows then Some(ToTone(rows[id])) else None
    }

    /** `deleteAllUserData(user)`: removes the user's own tones; the
        built-in ones (NULL owner) stay. */
    method DeleteAllUserData(userId: string)
      requires Valid()
      modifies this
      ensures Valid()
      ensures rows == map id | id in old(rows) && old(rows)[id].userId != Some(userId) :: old(rows)[id]
      ensures forall id :: id in old(rows) && old(rows)[id].userId.None? ==> id in rows
    {
      rows := map id | id in rows && rows[id].userId != Some(userId) :: rows[id];
    }
  }
}
