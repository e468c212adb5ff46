/** The server's Postgres repositories. Each table is a map from its primary
    key to its row, owned by one object, and each SQL statement is a method
    that updates that map the way the statement's WHERE, SET and ON CONFLICT
    clauses say. `current_timestamp` and `NOW()` are the `now` parameter. */
module ServerRepo {
  import opened Common

  // ---------------------------------------------------------------------
  // Synced tables: notes, interactions, dictionary items
  // ---------------------------------------------------------------------

  /** A row of a table the client synchronises: its id, owner, timestamps
      and the table-specific columns. */
  datatype SyncRow = SyncRow(id: string, userId: string, payload: Payload, createdAt: int, updatedAt: int, deletedAt: Option<int>)

  /** The table-specific columns of each synced table. */
  datatype Payload =
    | NotePayload(interactionId: Option<string>, content: string)
    | InteractionPayload(title: string, asrOutput: string, llmOutput: string, rawAudioId: Option<string>, durationMs: int)
    | DictionaryPayload(word: string, pronunciation: Option<string>)

  /** `WHERE user_id = $1 [AND (updated_at > $2 OR deleted_at > $2)]`; a
      NULL `deleted_at` never compares greater. */
  predicate Matches(r: SyncRow, userId: string, since: Option<int>) {
    r.userId == userId &&
    (since.None? || r.updatedAt > since.value || (r.deletedAt.Some? && r.deletedAt.value > since.value))
  }

  /** `ORDER BY updated_at ASC`. */
  predicate SortedByUpdatedAt(s: seq<SyncRow>) {
    forall i, j :: 0 <= i < j < |s| ==> s[i].updatedAt <= s[j].updatedAt
  }

  predicate DistinctIds(s: seq<SyncRow>) {
    forall i, j :: 0 <= i < j < |s| ==> s[i].id != s[j].id
  }

  /** Where a row goes in a list ordered by `updated_at`: before the first
      row updated no earlier than it. */
  function InsertPos(x: SyncRow, s: seq<SyncRow>): (k: nat)
    ensures k <= |s|
    ensures forall i :: 0 <= i < k ==> s[i].updatedAt < x.updatedAt
    ensures k < |s| ==> x.updatedAt <= s[k].updatedAt
    decreases |s|
  {
    if |s| == 0 || x.updatedAt <= s[0].updatedAt then 0
    else
      var k := InsertPos(x, s[1..]);
      assert forall i :: 1 <= i < k + 1 ==> s[i] == s[1..][i - 1];
      1 + k
  }

  /** Inserting a row into a list ordered by `updated_at`. */
  function InsertByUpdatedAt(x: SyncRow, s: seq<SyncRow>): (r: seq<SyncRow>)
    ensures |r| == |s| + 1
    ensures forall y :: y in r <==> y == x || y in s
  {
    var k := InsertPos(x, s);
    assert s == s[..k] + s[k..];
    s[..k] + [x] + s[k..]
  }

  lemma InsertKeepsOrder(x: SyncRow, s: seq<SyncRow>)
    requires SortedByUpdatedAt(s)
    ensures SortedByUpdatedAt(InsertByUpdatedAt(x, s))
  {
    var k := InsertPos(x, s);
    var r := InsertByUpdatedAt(x, s);
    forall i, j | 0 <= i < j < |r| ensures r[i].updatedAt <= r[j].updatedAt {
      if j < k {
        assert r[i] == s[i] && r[j] == s[j];
      } else if j == k {
        assert r[i] == s[i] && r[j] == x;
      } else if i < k {
        assert r[i] == s[i] && r[j] == s[j - 1];
      } else if i == k {
        assert r[i] == x && r[j] == s[j - 1];
      } else {
        assert r[i] == s[i - 1] && r[j] == s[j - 1];
      }
    }
  }

  lemma InsertKeepsIdsDistinct(x: SyncRow, s: seq<SyncRow>)
    requires DistinctIds(s)
    requires forall i :: 0 <= i < |s| ==> s[i].id != x.id
    ensures DistinctIds(InsertByUpdatedAt(x, s))
  {
    var k := InsertPos(x, s);
    var r := InsertByUpdatedAt(x, s);
    forall i, j | 0 <= i < j < |r| ensures r[i].id != r[j].id {
      if j < k {
        assert r[i] == s[i] && r[j] == s[j];
      } else if j == k {
        assert r[i] == s[i] && r[j] == x;
      } else if i < k {
        assert r[i] == s[i] && r[j] == s[j - 1];
      } else if i == k {
        assert r[i] == x && r[j] == s[j - 1];
      } else {
        assert r[i] == s[i - 1] && r[j] == s[j - 1];
      }
    }
  }

  /** A synced table: `notes`, `interactions` or `dictionary_items`, keyed
      by id. */
  class SyncTable {
    var rows: map<string, SyncRow>

    /** Every row is stored under its own id. */
    ghost predicate Valid()
      reads this
    {
      forall id :: id in rows ==> rows[id].id == id
    }

    constructor ()
      ensures rows == map[] && Valid()
    {
      rows := map[];
    }

    /** `create`: an INSERT; a taken id violates the primary key and the
        statement fails, leaving the table as it was. */
    method Create(id: string, userId: string, payload: Payload, now: int) returns (r: Result<SyncRow, string>)
      requires Valid()
      modifies this
      ensures Valid()
      ensures id in old(rows) ==> r.Err? && rows == old(rows)
      ensures id !in old(rows) ==> (r == Ok(SyncRow(id, userId, payload, now, now, None))
                                    && rows == old(rows)[id := r.value])
    {
      if id in rows {
        r := Err("duplicate key value violates unique constraint");
      } else {
        var row := SyncRow(id, userId, payload, now, now, None);
        rows := rows[id := row];
        r := Ok(row);
      }
    }

    /** `findById` of notes: the row with that id, deleted or not. */
    function FindById(id: string): (r: Option<SyncRow>)
      reads this
      ensures r.Some? <==> id in rows
      ensures r.Some? ==> r.value == rows[id]
    {
      if id in rows then Some(rows[id]) else None
    }

    /** `findById` of interactions: live rows only. */
    function FindLiveById(id: string): (r: Option<SyncRow>)
      reads this
      ensures r.Some? <==> id in rows && rows[id].deletedAt.None?
      ensures r.Some? ==> r.value == rows[id]
    {
      if id in rows && rows[id].deletedAt.None? then Some(rows[id]) else None
    }

    /** `findByUserId(userId, since)`: every row of the user changed or
        deleted after `since` (every row of the user without it), each once,
        oldest update first. */
    method FindByUserId(userId: string, since: Option<int>) returns (result: seq<SyncRow>)
      requires Valid()
      ensures forall x :: x in result <==> x.id in rows && rows[x.id] == x && Matches(x, userId, since)
      ensures SortedByUpdatedAt(result)
      ensures DistinctIds(result)
    {
      result := [];
      var remaining := rows.Keys;
      while remaining != {}
        invariant remaining <= rows.Keys
        invariant forall x :: x in result <==> x.id in rows && rows[x.id] == x && x.id !in remaining && Matches(x, userId, since)
        invariant SortedByUpdatedAt(result)
        invariant DistinctIds(result)
        decreases |remaining|
      {
        var id :| id in remaining;
        var row := rows[id];
        if Matches(row, userId, since) {
          InsertKeepsOrder(row, result);
          InsertKeepsIdsDistinct(row, result);
          result := InsertByUpdatedAt(row, result);
        }
        remaining := remaining - {id};
      }
    }

    /** `update`: the row with that id gets the edited columns and a new
        `updated_at`; with `liveOnly` (interactions and dictionary items) a
        soft-deleted row is left alone, without it (notes) it is updated
        too. No matching row: nothing changes. */
    method Update(id: string, edit: Payload -> Payload, liveOnly: bool, now: int) returns (r: Option<SyncRow>)
      requires Valid()
      modifies this
      ensures Valid()
      ensures r.Some? <==> id in old(rows) && (!liveOnly || old(rows)[id].deletedAt.None?)
      ensures r.Some? ==> (r.value == old(rows)[id].(payload := edit(old(rows)[id].payload), updatedAt := now)
                           && rows == old(rows)[id := r.value])
      ensures r.None? ==> rows == old(rows)
    {
      if id in rows && (!liveOnly || rows[id].deletedAt.None?) {
        var row := rows[id].(payload := edit(rows[id].payload), updatedAt := now);
        rows := rows[id := row];
        r := Some(row);
      } else {
        r := None;
      }
    }

    /** `softDelete`: stamps `deleted_at` (again, if it was already set)
        and nothing else, and reports whether the row exists. */
    method SoftDelete(id: string, now: int) returns (deleted: bool)
      requires Valid()
      modifies this
      ensures Valid()
      ensures deleted <==> id in old(rows)
      ensures deleted ==> rows == old(rows)[id := old(rows)[id].(deletedAt := Some(now))]
      ensures !deleted ==> rows == old(rows)
    {
      deleted := id in rows;
      if deleted {
        rows := rows[id := rows[id].(deletedAt := Some(now))];
      }
    }

    /** `deleteAllUserData`: soft-deletes every row of the user and reports
        whether there was any. */
    method DeleteAllUserData(userId: string, now: int) returns (any: bool)
      requires Valid()
      modifies this
      ensures Valid()
      ensures any <==> exists id :: id in old(rows) && old(rows)[id].userId == userId
      ensures rows == SoftDeletedFor(old(rows), userId, now)
    {
      any := exists id :: id in rows && rows[id].userId == userId;
      rows := SoftDeletedFor(rows, userId, now);
    }

    /** `hardDeleteAllUserData`: removes every row of the user and returns
        how many there were. */
    method HardDeleteAllUserData(userId: string) returns (count: nat)
      requires Valid()
      modifies this
      ensures Valid()
      ensures rows == map id | id in old(rows) && old(rows)[id].userId != userId :: old(rows)[id]
      ensures count == |OwnedBy(old(rows), userId)|
    {
      count := |OwnedBy(rows, userId)|;
      rows := map id | id in rows && rows[id].userId != userId :: rows[id];
    }
  }

  /** The ids of the user's rows. */
  function OwnedBy(rows: map<string, SyncRow>, userId: string): set<string> {
    set id | id in rows && rows[id].userId == userId
  }

  /** The table after `UPDATE ... SET deleted_at = now WHERE user_id = $1`. */
  function SoftDeletedFor(rows: map<string, SyncRow>, userId: string, now: int): (r: map<string, SyncRow>)
    ensures r.Keys == rows.Keys
    ensures forall id :: id in r && rows[id].userId != userId ==> r[id] == rows[id]
    ensures forall id :: id in r && rows[id].userId == userId ==> r[id] == rows[id].(deletedAt := Some(now))
  {
    map id | id in rows :: if rows[id].userId == userId then rows[id].(deletedAt := Some(now)) else rows[id]
  }

  /** After a soft delete of every row of a user, a sync with a cursor
      older than `now` returns all of that user's rows: deletions are
      delivered. */
  lemma SoftDeletedRowsAreDelivered(rows: map<string, SyncRow>, userId: string, now: int, since: int, id: string)
    requires id in rows && rows[id].userId == userId && since < now
    ensures Matches(SoftDeletedFor(rows, userId, now)[id], userId, Some(since))
  {
  }

  // ---------------------------------------------------------------------
  // llm_settings
  // ---------------------------------------------------------------------

  /** The optional fields of an `UpdateAdvancedSettingsRequest.llm`. */
  datatype LlmSettingsRequest = LlmSettingsRequest(
    asrModel: string, asrProvider: string, asrPrompt: string, llmProvider: string, llmModel: string,
    llmTemperature: Option<real>, transcriptionPrompt: string, editingPrompt: string,
    noSpeechThreshold: Option<real>, lowQualityThreshold: Option<real>)

  /** A stored `llm_settings` row. */
  datatype LlmSettingsRow = LlmSettingsRow(
    id: int, userId: string, asrModel: string, asrProvider: string, asrPrompt: string,
    llmProvider: string, llmModel: string, llmTemperature: real, transcriptionPrompt: string,
    editingPrompt: string, noSpeechThreshold: real, lowQualityThreshold: real, createdAt: int, updatedAt: int)

  const DefaultAsrModel := "whisper-large-v3"

  /** `x || d` for a string. */
  function OrString(x: string, d: string): string {
    if x != "" then x else d
  }

  /** `x || 0.0` for a number: zero and a missing value both give zero. */
  function OrZero(x: Option<real>): (r: real)
    ensures x.Some? ==> r == x.value
  {
    if x.Some? && x.value != 0.0 then x.value else 0.0
  }

  /** The values the upsert writes, with the falsy fallbacks applied. */
  function SettingsValues(id: int, userId: string, llm: Option<LlmSettingsRequest>, createdAt: int, now: int): (r: LlmSettingsRow)
    ensures r.asrModel != ""
    ensures llm.Some? && llm.value.asrModel != "" ==> r.asrModel == llm.value.asrModel
    ensures llm.None? ==> r.asrModel == DefaultAsrModel && r.llmProvider == "" && r.llmTemperature == 0.0
  {
    if llm.None? then
      LlmSettingsRow(id, userId, DefaultAsrModel, "", "", "", "", 0.0, "", "", 0.0, 0.0, createdAt, now)
    else
      var q := llm.value;
      LlmSettingsRow(id, userId, OrString(q.asrModel, DefaultAsrModel), q.asrProvider, q.asrPrompt,
                     q.llmProvider, q.llmModel, OrZero(q.llmTemperature), q.transcriptionPrompt,
                     q.editingPrompt, OrZero(q.noSpeechThreshold), OrZero(q.lowQualityThreshold), createdAt, now)
  }

  /** `llm_settings`, keyed by user id (its ON CONFLICT target). */
  class AdvancedSettingsTable {
    var rows: map<string, LlmSettingsRow>

    ghost predicate Valid()
      reads this
    {
      forall u :: u in rows ==> rows[u].userId == u
    }

    constructor ()
      ensures rows == map[] && Valid()
    {
      rows := map[];
    }

    function FindByUserId(userId: string): (r: Option<LlmSettingsRow>)
      reads this
      ensures r.Some? <==> userId in rows
      ensures r.Some? ==> r.value == rows[userId]
    {
      if userId in rows then Some(rows[userId]) else None
    }

    /** `upsert`: a user without settings gets a new row (with the given
        fresh serial id); an existing row keeps its id and creation time
        and has every setting column overwritten. */
    method Upsert(userId: string, llm: Option<LlmSettingsRequest>, freshId: int, now: int) returns (r: LlmSettingsRow)
      requires Valid()
      modifies this
      ensures Valid()
      ensures userId in old(rows) ==> r == SettingsValues(old(rows)[userId].id, userId, llm, old(rows)[userId].createdAt, now)
      ensures userId !in old(rows) ==> r == SettingsValues(freshId, userId, llm, now, now)
      ensures rows == old(rows)[userId := r]
    {
      if userId in rows {
        r := SettingsValues(rows[userId].id, userId, llm, rows[userId].createdAt, now);
      } else {
        r := SettingsValues(freshId, userId, llm, now, now);
      }
      rows := rows[userId := r];
    }

    /** `hardDeleteByUserId`: the user's row, if any, is removed; the count
        is the number of rows removed. */
    method HardDeleteByUserId(userId: string) returns (count: nat)
      requires Valid()
      modifies this
      ensures Valid()
      ensures count == if userId in old(rows) then 1 else 0
      ensures userId !in rows && rows == old(rows) - {userId}
    {
      count := if userId in rows then 1 else 0;
      rows := rows - {userId};
    }
  }

  /** Upserting twice with the same request leaves the same settings, apart
      from the update time. */
  lemma SettingsUpsertStable(id: int, userId: string, llm: Option<LlmSettingsRequest>, createdAt: int, t1: int, t2: int)
    ensures SettingsValues(id, userId, llm, createdAt, t2) == SettingsValues(id, userId, llm, createdAt, t1).(updatedAt := t2)
  {
  }

  // ---------------------------------------------------------------------
  // ip_link_candidates
  // ---------------------------------------------------------------------

  /** A website visitor waiting to be linked to the app install behind the
      same (hashed) IP address. */
  datatype IpCandidate = IpCandidate(ipHash: string, websiteDistinctId: string, expiresAt: int)

  /** How long a candidate stays valid: one hour. */
  const CandidateLifetimeMs := 60 * 60 * 1000

  /** `DELETE ... WHERE expires_at < NOW()`: keeps the rest in order. */
  function Unexpired(cs: seq<IpCandidate>, now: int): (r: seq<IpCandidate>)
    ensures forall c :: c in r <==> c in cs && c.expiresAt >= now
  {
    Filter(cs, (c: IpCandidate) => c.expiresAt >= now)
  }

  /** A candidate that `consumeLatestForIp` may pick. */
  predicate Eligible(c: IpCandidate, ipHash: string, now: int) {
    c.ipHash == ipHash && c.expiresAt > now
  }

  /** `ip_link_candidates`: a heap without a key, in physical order. */
  class IpLinkTable {
    var candidates: seq<IpCandidate>

    constructor ()
      ensures candidates == []
    {
      candidates := [];
    }

    /** `cleanupExpired`: drops the candidates that expired before now and
        counts them. */
    method CleanupExpired(now: int) returns (removed: nat)
      modifies this
      ensures candidates == Unexpired(old(candidates), now)
      ensures removed == |old(candidates)| - |candidates|
    {
      var kept := Unexpired(candidates, now);
      removed := |candidates| - |kept|;
      candidates := kept;
    }

    /** `registerCandidate`: cleanup, then a candidate valid for one hour. */
    method RegisterCandidate(ipHash: string, websiteDistinctId: string, now: int)
      modifies this
      ensures candidates == Unexpired(old(candidates), now) + [IpCandidate(ipHash, websiteDistinctId, now + CandidateLifetimeMs)]
    {
      var _ := CleanupExpired(now);
      candidates := candidates + [IpCandidate(ipHash, websiteDistinctId, now + CandidateLifetimeMs)];
    }

    /** `consumeLatestForIp`: cleanup, then remove and return the eligible
        candidate for that hash that expires last (the first such one when
        several tie), or nothing when none is eligible. */
    method ConsumeLatestForIp(ipHash: string, now: int) returns (r: Option<string>)
      modifies this
      ensures var live := Unexpired(old(candidates), now);
        && (r.None? <==> forall c :: c in live ==> !Eligible(c, ipHash, now))
        && (r.None? ==> candidates == live)
        && (r.Some? ==> exists k :: 0 <= k < |live| && Eligible(live[k], ipHash, now)
                          && r.value == live[k].websiteDistinctId
                          && (forall c :: c in live && Eligible(c, ipHash, now) ==> c.expiresAt <= live[k].expiresAt)
                          && candidates == live[..k] + live[k + 1..])
    {
      var _ := CleanupExpired(now);
      var best: Option<nat> := None;
      var i := 0;
      while i < |candidates|
        invariant 0 <= i <= |candidates|
        invariant best.None? <==> forall j :: 0 <= j < i ==> !Eligible(candidates[j], ipHash, now)
        invariant best.Some? ==> best.value < i && Eligible(candidates[best.value], ipHash, now)
        invariant best.Some? ==> forall j :: 0 <= j < i && Eligible(candidates[j], ipHash, now) ==>
                                   candidates[j].expiresAt <= candidates[best.value].expiresAt
      {
        var c := candidates[i];
        if Eligible(c, ipHash, now) && (best.None? || c.expiresAt > candidates[best.value].expiresAt) {
          best := Some(i);
        }
        i := i + 1;
      }
      if best.None? {
        r := None;
      } else {
        var k := best.value;
        r := Some(candidates[k].websiteDistinctId);
        candidates := candidates[..k] + candidates[k + 1..];
      }
    }
  }

  /** A candidate that expires exactly now is neither purged (it is not
      before now) nor consumable (it is not after now). */
  lemma ExpiringNowIsStranded(c: IpCandidate, now: int)
    requires c.expiresAt == now
    ensures Unexpired([c], now) == [c] && !Eligible(c, c.ipHash, now)
  {
    assert c in Unexpired([c], now);
  }

  // ---------------------------------------------------------------------
  // user_trials
  // ---------------------------------------------------------------------

  /** A `user_trials` row. */
  datatype UserTrial = UserTrial(
    userId: string,
    stripeSubscriptionId: Option<string>,
    trialStartAt: Option<int>,
    trialEndAt: Option<int>,
    hasCompletedTrial: bool,
    updatedAt: int)

  /** `startTrial` on the table as a value: the new table and the row
      returned. */
  function StartTrialSpec(rows: map<string, UserTrial>, userId: string, startAt: Option<int>, now: int): (r: (map<string, UserTrial>, UserTrial))
    ensures r.0 == rows[userId := r.1]
    ensures userId !in rows ==> r.1 == UserTrial(userId, None, Some(startAt.GetOr(now)), None, false, now)
    ensures userId in rows && (rows[userId].hasCompletedTrial || rows[userId].trialStartAt.Some?) ==> r.1 == rows[userId]
    ensures userId in rows && !rows[userId].hasCompletedTrial && rows[userId].trialStartAt.None? ==>
      r.1 == rows[userId].(trialStartAt := Some(startAt.GetOr(now)), updatedAt := now)
  {
    if userId !in rows then
      var row := UserTrial(userId, None, Some(startAt.GetOr(now)), None, false, now);
      (rows[userId := row], row)
    else
      var existing := rows[userId];
      if existing.hasCompletedTrial then (rows, existing)
      else if existing.trialStartAt.None? then
        var row := existing.(trialStartAt := Some(startAt.GetOr(now)), updatedAt := now);
        (rows[userId := row], row)
      else (rows, existing)
  }

  /** `completeTrial` on the table as a value. */
  function CompleteTrialSpec(rows: map<string, UserTrial>, userId: string, now: int): (r: (map<string, UserTrial>, UserTrial))
    ensures r.0 == rows[userId := r.1]
    ensures r.1.hasCompletedTrial && r.1.trialStartAt.None?
    ensures userId in rows ==> r.1 == rows[userId].(hasCompletedTrial := true, trialStartAt := None, updatedAt := now)
    ensures userId !in rows ==> r.1 == UserTrial(userId, None, None, None, true, now)
  {
    if userId in rows then
      var row := rows[userId].(hasCompletedTrial := true, trialStartAt := None, updatedAt := now);
      (rows[userId := row], row)
    else
      var row := UserTrial(userId, None, None, None, true, now);
      (rows[userId := row], row)
  }

  /** `startTrial` is idempotent: a second call, at any time and with any
      start, changes nothing and returns the row the first call returned. */
  lemma StartTrialIdempotent(rows: map<string, UserTrial>, userId: string, s1: Option<int>, t1: int, s2: Option<int>, t2: int)
    ensures var (rows1, row1) := StartTrialSpec(rows, userId, s1, t1);
      StartTrialSpec(rows1, userId, s2, t2) == (rows1, row1)
  {
    var (rows1, row1) := StartTrialSpec(rows, userId, s1, t1);
    assert rows1[userId] == row1;
    assert rows1[userId := row1] == rows1;
  }

  /** Once a trial is completed, `startTrial` cannot restart it. */
  lemma CompletedTrialCannotRestart(rows: map<string, UserTrial>, userId: string, now: int, s: Option<int>, t: int)
    ensures var (rows1, row1) := CompleteTrialSpec(rows, userId, now);
      StartTrialSpec(rows1, userId, s, t).1 == row1 && row1.trialStartAt.None?
  {
  }

  /** `user_trials`, keyed by user id. */
  class TrialsTable {
    var rows: map<string, UserTrial>

    ghost predicate Valid()
      reads this
    {
      forall u :: u in rows ==> rows[u].userId == u
    }

    constructor ()
      ensures rows == map[] && Valid()
    {
      rows := map[];
    }

    function GetByUserId(userId: string): (r: Option<UserTrial>)
      reads this
      ensures r.Some? <==> userId in rows
      ensures r.Some? ==> r.value == rows[userId]
    {
      if userId in rows then Some(rows[userId]) else None
    }

    /** `getByStripeSubscriptionId`: some row recorded against the Stripe
        subscription (the query names no order), or none when no row is. */
    method GetByStripeSubscriptionId(subscriptionId: string) returns (r: Option<UserTrial>)
      ensures r.None? <==> forall u :: u in rows ==> rows[u].stripeSubscriptionId != Some(subscriptionId)
      ensures r.Some? ==> r.value in rows.Values && r.value.stripeSubscriptionId == Some(subscriptionId)
    {
      if u :| u in rows && rows[u].stripeSubscriptionId == Some(subscriptionId) {
        r := Some(rows[u]);
      } else {
        r := None;
      }
    }

    /** `upsertFromStripeSubscription`: the Stripe-derived columns replace
        whatever the user's row held. */
    method UpsertFromStripeSubscription(userId: string, subscriptionId: string, trialStartAt: Option<int>,
                                        hasCompletedTrial: bool, trialEndAt: Option<int>, now: int)
      returns (r: UserTrial)
      requires Valid()
      modifies this
      ensures Valid()
      ensures r == UserTrial(userId, Some(subscriptionId), trialStartAt, trialEndAt, hasCompletedTrial, now)
      ensures rows == old(rows)[userId := r]
    {
      r := UserTrial(userId, Some(subscriptionId), trialStartAt, trialEndAt, hasCompletedTrial, now);
      rows := rows[userId := r];
    }

    /** `startTrial`: a missing row is inserted with the start; a completed
        row or one already started is returned as it is; otherwise only
        the start is set. */
    method StartTrial(userId: string, startAt: Option<int>, now: int) returns (r: UserTrial)
      requires Valid()
      modifies this
      ensures Valid()
      ensures (rows, r) == StartTrialSpec(old(rows), userId, startAt, now)
    {
      var existing := GetByUserId(userId);
      if existing.None? {
        r := UserTrial(userId, None, Some(startAt.GetOr(now)), None, false, now);
        rows := rows[userId := r];
        return;
      }
      if existing.value.hasCompletedTrial {
        r := existing.value;
        return;
      }
      if existing.value.trialStartAt.None? {
        r := existing.value.(trialStartAt := Some(startAt.GetOr(now)), updatedAt := now);
        rows := rows[userId := r];
        return;
      }
      r := existing.value;
    }

    /** `completeTrial`: an UPDATE that marks the trial completed and clears
        its start; with no row to update, an INSERT of a completed row. */
    method CompleteTrial(userId: string, now: int) returns (r: UserTrial)
      requires Valid()
      modifies this
      ensures Valid()
      ensures (rows, r) == CompleteTrialSpec(old(rows), userId, now)
    {
      if userId in rows {
        r := rows[userId].(hasCompletedTrial := true, trialStartAt := None, updatedAt := now);
      } else {
        r := UserTrial(userId, None, None, None, true, now);
      }
      rows := rows[userId := r];
    }
  }

  // ---------------------------------------------------------------------
  // user_subscriptions
  // ---------------------------------------------------------------------

  /** A `user_subscriptions` row. */
  datatype UserSubscription = UserSubscription(
    userId: string,
    stripeCustomerId: Option<string>,
    stripeSubscriptionId: Option<string>,
    subscriptionStartAt: Option<int>,
    subscriptionEndAt: Option<int>,
    updatedAt: int)

  /** `user_subscriptions`, keyed by user id. */
  class SubscriptionsTable {
    var rows: map<string, UserSubscription>

    ghost predicate Valid()
      reads this
    {
      forall u :: u in rows ==> rows[u].userId == u
    }

    constructor ()
      ensures rows == map[] && Valid()
    {
      rows := map[];
    }

    function GetByUserId(userId: string): (r: Option<UserSubscription>)
      reads this
      ensures r.Some? <==> userId in rows
      ensures r.Some? ==> r.value == rows[userId]
    {
      if userId in rows then Some(rows[userId]) else None
    }

    /** `upsertActive`: every subscription column is replaced. */
    method UpsertActive(userId: string, customerId: Option<string>, subscriptionId: Option<string>,
                        startAt: Option<int>, endAt: Option<int>, now: int) returns (r: UserSubscription)
      requires Valid()
      modifies this
      ensures Valid()
      ensures r == UserSubscription(userId, customerId, subscriptionId, startAt, endAt, now)
      ensures rows == old(rows)[userId := r]
    {
      r := UserSubscription(userId, customerId, subscriptionId, startAt, endAt, now);
      rows := rows[userId := r];
    }

    /** `updateSubscriptionEndAt`: only an existing row changes. */
    method UpdateSubscriptionEndAt(userId: string, endAt: Option<int>, now: int) returns (r: Option<UserSubscription>)
      requires Valid()
      modifies this
      ensures Valid()
      ensures r.Some? <==> userId in old(rows)
      ensures r.Some? ==> (r.value == old(rows)[userId].(subscriptionEndAt := endAt, updatedAt := now)
                           && rows == old(rows)[userId := r.value])
      ensures r.None? ==> rows == old(rows)
    {
      if userId in rows {
        var row := rows[userId].(subscriptionEndAt := endAt, updatedAt := now);
        rows := rows[userId := row];
        r := Some(row);
      } else {
        r := None;
      }
    }

    /** `deleteByStripeSubscriptionId`: removes every row carrying that
        subscription id and reports whether there was one. */
    method DeleteByStripeSubscriptionId(subscriptionId: string) returns (deleted: bool)
      requires Valid()
      modifies this
      ensures Valid()
      ensures deleted <==> exists u :: u in old(rows) && old(rows)[u].stripeSubscriptionId == Some(subscriptionId)
      ensures rows == map u | u in old(rows) && old(rows)[u].stripeSubscriptionId != Some(subscriptionId) :: old(rows)[u]
    {
      deleted := exists u :: u in rows && rows[u].stripeSubscriptionId == Some(subscriptionId);
      rows := map u | u in rows && rows[u].stripeSubscriptionId != Some(subscriptionId) :: rows[u];
    }
  }
}
