/** The desktop client's sync service: one cycle pushes the rows of the
    local notes, interactions and dictionary tables that changed since the
    cursor, pulls the server's changes since the cursor into those tables,
    refreshes the advanced settings, and moves the cursor when anything was
    processed. The server is an oracle: what it lists, which pushes it
    rejects, and which awaited call throws are the cycle's `World`. Every
    call to the server is recorded in `calls`. */
module SyncService {
  import opened Common
  import opened Protocol
  import opened LocalRepo

  const LastSyncedAtKey := "lastSyncedAt"

  /** The instant `new Date(0).toISOString()` denotes. */
  const Epoch: Instant := 0

  /** `getEnvNamespace`: the host of the gRPC base URL, else the base URL
      itself, else `unknown`. `parsedHost` is what `new URL(baseUrl).host`
      gives, None when the URL does not parse. */
  function EnvNamespace(baseUrl: string, parsedHost: Option<string>): (ns: string)
    ensures ns != ""
    ensures parsedHost.Some? && parsedHost.value != "" ==> ns == parsedHost.value
    ensures !(parsedHost.Some? && parsedHost.value != "") ==> ns == (if baseUrl != "" then baseUrl else "unknown")
  {
    if parsedHost.Some? && parsedHost.value != "" then parsedHost.value
    else if baseUrl != "" then baseUrl
    else "unknown"
  }

  /** `getLastSyncedAtKey`: `lastSyncedAt:<envNs>:<userId>`. */
  function CursorKey(envNs: string, userId: string): (key: string)
    ensures StartsWith(key, LastSyncedAtKey + ":")
    ensures EndsWith(key, ":" + userId)
  {
    var key := LastSyncedAtKey + ":" + envNs + ":" + userId;
    assert key[..|LastSyncedAtKey + ":"|] == LastSyncedAtKey + ":";
    assert key[|key| - |":" + userId|..] == ":" + userId;
    key
  }

  /** Within one environment every user has a cursor of their own. */
  lemma CursorKeyPerUser(envNs: string, u: string, v: string)
    requires CursorKey(envNs, u) == CursorKey(envNs, v)
    ensures u == v
  {
    var p := LastSyncedAtKey + ":" + envNs + ":";
    assert CursorKey(envNs, u) == p + u && CursorKey(envNs, v) == p + v;
    assert u == (p + u)[|p|..];
    assert v == (p + v)[|p|..];
  }

  /** For one user, every environment has a cursor of its own. */
  lemma CursorKeyPerEnvironment(a: string, b: string, userId: string)
    requires CursorKey(a, userId) == CursorKey(b, userId)
    ensures a == b
  {
    var s := ":" + userId;
    var pa := LastSyncedAtKey + ":" + a;
    var pb := LastSyncedAtKey + ":" + b;
    assert CursorKey(a, userId) == pa + s && CursorKey(b, userId) == pb + s;
    assert pa == (pa + s)[..|pa|];
    assert pb == (pb + s)[..|pb|];
    assert a == pa[|LastSyncedAtKey + ":"|..];
    assert b == pb[|LastSyncedAtKey + ":"|..];
  }

  // ---------------------------------------------------------------------
  // Push
  // ---------------------------------------------------------------------

  datatype PushOp = Create | Delete | Update

  /** How a locally modified row is pushed: a row created after the cursor
      is new to the server and is created even when it has since been
      deleted; otherwise a deleted row is deleted and any other updated. */
  function Classify(r: Row, cursor: Instant): (op: PushOp)
    ensures op == Create <==> r.createdAt > cursor
    ensures op == Delete <==> r.createdAt <= cursor && r.deletedAt.Some?
    ensures op == Update <==> r.createdAt <= cursor && r.deletedAt.None?
  {
    if r.createdAt > cursor then Create
    else if r.deletedAt.Some? then Delete
    else Update
  }

  /** A call made to the server: a push of one row (with whether the
      server accepted it), a listing of one table's changes, or the
      advanced-settings fetch. */
  datatype RemoteCall =
    | Push(kind: TableKind, op: PushOp, row: Row, accepted: bool)
    | ListSince(kind: TableKind, cursor: Instant)
    | FetchAdvancedSettings

  function PushCall(kind: TableKind, r: Row, cursor: Instant, failing: set<string>): RemoteCall {
    Push(kind, Classify(r, cursor), r, r.id !in failing)
  }

  /** The pushes for rows visited in the given order. */
  function PushCalls(kind: TableKind, rows: seq<Row>, cursor: Instant, failing: set<string>): (r: seq<RemoteCall>)
    ensures |r| == |rows|
    ensures forall i :: 0 <= i < |rows| ==> r[i] == PushCall(kind, rows[i], cursor, failing)
  {
    if |rows| == 0 then [] else PushCalls(kind, rows[..|rows| - 1], cursor, failing) + [PushCall(kind, rows[|rows| - 1], cursor, failing)]
  }

  lemma PushCallsSnoc(kind: TableKind, rows: seq<Row>, r: Row, cursor: Instant, failing: set<string>)
    ensures PushCalls(kind, rows + [r], cursor, failing) == PushCalls(kind, rows, cursor, failing) + [PushCall(kind, r, cursor, failing)]
  {
    assert (rows + [r])[..|rows|] == rows;
  }

  /** A rejected push is still a push of that row with its operation; the
      rows pushed do not depend on which pushes fail. */
  lemma PushesIgnoreFailures(kind: TableKind, rows: seq<Row>, cursor: Instant, f: set<string>, g: set<string>, i: nat)
    requires i < |rows|
    ensures PushCalls(kind, rows, cursor, f)[i].row == PushCalls(kind, rows, cursor, g)[i].row == rows[i]
    ensures PushCalls(kind, rows, cursor, f)[i].op == PushCalls(kind, rows, cursor, g)[i].op
  {
  }

  // ---------------------------------------------------------------------
  // Pull
  // ---------------------------------------------------------------------

  /** A row as the server lists it; an absent string field is "". */
  datatype RemoteCols =
    | RemoteNote(interactionId: string, content: string)
    | RemoteInteraction(title: string, asrOutput: string, llmOutput: string, rawAudio: seq<Byte>, durationMs: int, rawAudioId: Option<string>)
    | RemoteDictionaryItem(word: string, pronunciation: string)

  datatype RemoteRow = RemoteRow(id: string, userId: string, cols: RemoteCols, createdAt: Instant, updatedAt: Instant, deletedAt: Option<Instant>)

  predicate RemoteOfKind(rr: RemoteRow, kind: TableKind) {
    match kind
    case Notes => rr.cols.RemoteNote?
    case Interactions => rr.cols.RemoteInteraction?
    case Dictionary => rr.cols.RemoteDictionaryItem?
  }

  function OrNull(s: string): (r: Option<string>)
    ensures r.None? <==> s == ""
  {
    if s == "" then None else Some(s)
  }

  /** The local row a live pulled row becomes: empty strings become null,
      a JSON column is decoded, empty audio is null, a missing duration is
      0, and the sample rate is unknown. `decode` is `JSON.parse`. */
  function ToLocal(rr: RemoteRow, decode: string -> Json): (r: Row)
    ensures r.id == rr.id && r.createdAt == rr.createdAt && r.updatedAt == rr.updatedAt && r.deletedAt.None?
    ensures rr.cols.RemoteNote? ==> r.cols == NoteCols(OrNull(rr.cols.interactionId), rr.cols.content)
    ensures rr.cols.RemoteDictionaryItem? ==> r.cols == DictionaryCols(rr.cols.word, OrNull(rr.cols.pronunciation))
    ensures rr.cols.RemoteInteraction? ==> r.cols.InteractionCols? && r.cols.sampleRate.None?
    ensures rr.cols.RemoteInteraction? ==> (r.cols.rawAudio.None? <==> |rr.cols.rawAudio| == 0)
  {
    match rr.cols
    case RemoteNote(iid, content) =>
      Row(rr.id, Some(rr.userId), NoteCols(OrNull(iid), content), rr.createdAt, rr.updatedAt, None)
    case RemoteInteraction(title, asr, llm, audio, duration, rawAudioId) =>
      Row(rr.id, OrNull(rr.userId),
          InteractionCols(OrNull(title), if asr != "" then decode(asr) else Null, if llm != "" then decode(llm) else Null,
                          if |audio| > 0 then Some(audio) else None, rawAudioId, Some(duration), None),
          rr.createdAt, rr.updatedAt, None)
    case RemoteDictionaryItem(word, pron) =>
      Row(rr.id, Some(rr.userId), DictionaryCols(word, OrNull(pron)), rr.createdAt, rr.updatedAt, None)
  }

  /** What an upsert leaves in a table: the dictionary's upsert refuses a
      live word another live row holds (and the sync ignores the refusal);
      the other tables always take the row. */
  function UpsertOutcome(kind: TableKind, rows: Rows, x: Row): Rows {
    if kind == Dictionary && x.cols.DictionaryCols? && x.deletedAt.None? && WordTaken(rows, x.cols.word, x.id) then rows
    else Upserted(rows, x)
  }

  /** One pulled row: a row the server has deleted is soft-deleted locally
      and never upserted; any other is upserted. */
  function PullOne(kind: TableKind, rows: Rows, rr: RemoteRow, decode: string -> Json, now: Instant): (r: Rows)
    ensures rr.deletedAt.Some? ==> r == SoftDeleted(rows, rr.id, now)
    ensures rr.deletedAt.None? ==> r == UpsertOutcome(kind, rows, ToLocal(rr, decode))
  {
    if rr.deletedAt.Some? then SoftDeleted(rows, rr.id, now) else UpsertOutcome(kind, rows, ToLocal(rr, decode))
  }

  /** Pulling a listing, row by row in the server's order. */
  function PullInto(kind: TableKind, rows: Rows, remote: seq<RemoteRow>, decode: string -> Json, now: Instant): Rows
    decreases |remote|
  {
    if |remote| == 0 then rows
    else PullOne(kind, PullInto(kind, rows, remote[..|remote| - 1], decode, now), remote[|remote| - 1], decode, now)
  }

  lemma PullIntoStep(kind: TableKind, rows: Rows, remote: seq<RemoteRow>, decode: string -> Json, now: Instant, i: nat)
    requires i < |remote|
    ensures PullInto(kind, rows, remote[..i + 1], decode, now)
         == PullOne(kind, PullInto(kind, rows, remote[..i], decode, now), remote[i], decode, now)
  {
    assert remote[..i + 1][..i] == remote[..i];
  }

  /** Pulling only ever adds ids of rows the server lists as live: a row
      the server has deleted is never created locally. */
  lemma {:induction false} PullAddsOnlyLiveRows(kind: TableKind, rows: Rows, remote: seq<RemoteRow>, decode: string -> Json, now: Instant, k: string)
    requires k in PullInto(kind, rows, remote, decode, now)
    ensures k in rows || exists i :: 0 <= i < |remote| && remote[i].id == k && remote[i].deletedAt.None?
    decreases |remote|
  {
    if |remote| > 0 {
      var pre := remote[..|remote| - 1];
      var last := remote[|remote| - 1];
      var mid := PullInto(kind, rows, pre, decode, now);
      if k in mid {
        PullAddsOnlyLiveRows(kind, rows, pre, decode, now, k);
        if !(k in rows) {
          var i :| 0 <= i < |pre| && pre[i].id == k && pre[i].deletedAt.None?;
          assert remote[i] == pre[i];
        }
      } else {
        assert last.id == k && last.deletedAt.None?;
      }
    }
  }

  /** Pulling rows with other ids leaves a row alone. */
  lemma {:induction false} PullLeavesOthers(kind: TableKind, rows: Rows, remote: seq<RemoteRow>, decode: string -> Json, now: Instant, k: string)
    requires forall i :: 0 <= i < |remote| ==> remote[i].id != k
    requires kind != Dictionary
    ensures k in PullInto(kind, rows, remote, decode, now) <==> k in rows
    ensures k in rows ==> PullInto(kind, rows, remote, decode, now)[k] == rows[k]
    decreases |remote|
  {
    if |remote| > 0 {
      PullLeavesOthers(kind, rows, remote[..|remote| - 1], decode, now, k);
    }
  }

  /** With distinct ids, what pulling a listing leaves under the id of its
      i-th row is what applying that row to the earlier rows' outcome
      leaves there. */
  lemma PullAt(kind: TableKind, rows: Rows, remote: seq<RemoteRow>, decode: string -> Json, now: Instant, i: nat)
    requires i < |remote| && kind != Dictionary
    requires forall a, b :: 0 <= a < b < |remote| ==> remote[a].id != remote[b].id
    ensures var k := remote[i].id;
      var m := PullOne(kind, PullInto(kind, rows, remote[..i], decode, now), remote[i], decode, now);
      var r := PullInto(kind, rows, remote, decode, now);
      (k in r <==> k in m) && (k in m ==> r[k] == m[k])
  {
    var k := remote[i].id;
    var pre := remote[..i + 1];
    var post := remote[i + 1..];
    assert remote == pre + post;
    PullSplit(kind, rows, pre, post, decode, now);
    assert pre[..|pre| - 1] == remote[..i];
    var m := PullOne(kind, PullInto(kind, rows, remote[..i], decode, now), remote[i], decode, now);
    assert PullInto(kind, rows, pre, decode, now) == m;
    forall j | 0 <= j < |post|
      ensures post[j].id != k
    {
      assert post[j] == remote[i + 1 + j];
    }
    PullLeavesOthers(kind, m, post, decode, now, k);
  }

  /** With distinct ids, a note the server lists as live ends up in the
      local table with the pulled content, and one it lists as deleted and
      that exists locally ends up soft-deleted now. */
  lemma PulledNoteLands(rows: Rows, remote: seq<RemoteRow>, decode: string -> Json, now: Instant, i: nat)
    requires i < |remote| && remote[i].cols.RemoteNote?
    requires forall a, b :: 0 <= a < b < |remote| ==> remote[a].id != remote[b].id
    ensures var r := PullInto(Notes, rows, remote, decode, now);
      && (remote[i].deletedAt.None? ==> remote[i].id in r && r[remote[i].id].cols == NoteCols(OrNull(remote[i].cols.interactionId), remote[i].cols.content))
      && (remote[i].deletedAt.Some? && remote[i].id in rows ==> remote[i].id in r && r[remote[i].id].deletedAt == Some(now))
  {
    PullAt(Notes, rows, remote, decode, now, i);
    var k := remote[i].id;
    var before := PullInto(Notes, rows, remote[..i], decode, now);
    if remote[i].deletedAt.Some? && k in rows {
      forall j | 0 <= j < |remote[..i]|
        ensures remote[..i][j].id != k
      {
        assert remote[..i][j] == remote[j];
      }
      PullLeavesOthers(Notes, rows, remote[..i], decode, now, k);
      assert k in before;
    }
  }

  lemma {:induction false} PullSplit(kind: TableKind, rows: Rows, a: seq<RemoteRow>, b: seq<RemoteRow>, decode: string -> Json, now: Instant)
    ensures PullInto(kind, rows, a + b, decode, now) == PullInto(kind, PullInto(kind, rows, a, decode, now), b, decode, now)
    decreases |b|
  {
    if |b| == 0 {
      assert a + b == a;
    } else {
      var b' := b[..|b| - 1];
      assert (a + b)[..|a + b| - 1] == a + b';
      assert (a + b)[|a + b| - 1] == b[|b| - 1];
      PullSplit(kind, rows, a, b', decode, now);
    }
  }

  // ---------------------------------------------------------------------
  // Advanced settings
  // ---------------------------------------------------------------------

  /** The LLM part of the advanced settings; numeric settings are whole
      numbers here. */
  datatype LlmSettings = LlmSettings(
    asrProvider: Option<string>, asrModel: Option<string>, asrPrompt: Option<string>,
    llmProvider: Option<string>, llmModel: Option<string>, llmTemperature: Option<int>,
    transcriptionPrompt: Option<string>, editingPrompt: Option<string>, noSpeechThreshold: Option<int>)

  const NoLlmSettings := LlmSettings(None, None, None, None, None, None, None, None, None)

  /** The server's defaults, kept as an opaque record. */
  type SettingsDefaults = map<string, string>

  datatype AdvancedSettings = AdvancedSettings(
    llm: LlmSettings, grammarServiceEnabled: Option<bool>, defaults: Option<SettingsDefaults>,
    macosAccessibilityContextEnabled: Option<bool>)

  datatype RemoteSettings = RemoteSettings(defaults: Option<SettingsDefaults>, updatedAt: Instant, llm: Option<LlmSettings>)

  /** `syncAdvancedSettings`: the server's defaults always replace the
      local ones; the LLM settings are pulled only when the server's copy
      is newer than the cursor, and the local-only switches survive (as
      false when unset). No settings, or a failed fetch, change nothing. */
  function SyncedSettings(cur: AdvancedSettings, remote: Option<RemoteSettings>, cursor: Instant): (r: AdvancedSettings)
    ensures remote.None? ==> r == cur
    ensures remote.Some? ==> r.defaults == (if remote.value.defaults.Some? then remote.value.defaults else cur.defaults)
    ensures remote.Some? && remote.value.updatedAt <= cursor ==> r.llm == cur.llm && r.grammarServiceEnabled == cur.grammarServiceEnabled
    ensures remote.Some? && remote.value.updatedAt > cursor ==>
      && r.llm == remote.value.llm.GetOr(NoLlmSettings)
      && r.grammarServiceEnabled == Some(cur.grammarServiceEnabled.GetOr(false))
      && r.macosAccessibilityContextEnabled == Some(cur.macosAccessibilityContextEnabled.GetOr(false))
  {
    if remote.None? then cur
    else
      var withDefaults := if remote.value.defaults.Some? then cur.(defaults := remote.value.defaults) else cur;
      if remote.value.updatedAt > cursor then
        AdvancedSettings(remote.value.llm.GetOr(NoLlmSettings),
                         Some(withDefaults.grammarServiceEnabled.GetOr(false)),
                         withDefaults.defaults,
                         Some(withDefaults.macosAccessibilityContextEnabled.GetOr(false)))
      else withDefaults
  }

  /** Syncing the same server settings twice in a row changes nothing the
      second time. */
  lemma SyncedSettingsIdempotent(cur: AdvancedSettings, remote: Option<RemoteSettings>, cursor: Instant)
    ensures SyncedSettings(SyncedSettings(cur, remote, cursor), remote, cursor) == SyncedSettings(cur, remote, cursor)
  {
  }

  // ---------------------------------------------------------------------
  // The service
  // ---------------------------------------------------------------------

  /** An awaited call that can throw and end the cycle. */
  datatype Stage = ReadCursor | ListLocal(kind: TableKind) | ListRemote(kind: TableKind) | WriteCursor

  /** What the outside world does during one cycle. */
  datatype World = World(
    remoteNotes: seq<RemoteRow>, remoteInteractions: seq<RemoteRow>, remoteDictionary: seq<RemoteRow>,
    failingPushes: set<string>, settings: Option<RemoteSettings>, decode: string -> Json,
    fault: Option<Stage>, now: Instant)

  predicate WellTyped(w: World) {
    && (forall i :: 0 <= i < |w.remoteNotes| ==> RemoteOfKind(w.remoteNotes[i], Notes))
    && (forall i :: 0 <= i < |w.remoteInteractions| ==> RemoteOfKind(w.remoteInteractions[i], Interactions))
    && (forall i :: 0 <= i < |w.remoteDictionary| ==> RemoteOfKind(w.remoteDictionary[i], Dictionary))
  }

  function Listing(w: World, kind: TableKind): seq<RemoteRow> {
    match kind
    case Notes => w.remoteNotes
    case Interactions => w.remoteInteractions
    case Dictionary => w.remoteDictionary
  }

  /** The rows of a query result, in the (unspecified) order SQLite
      returns them: each row of the result exactly once. */
  method QueryOrder(rows: set<Row>) returns (xs: seq<Row>)
    ensures |xs| == |rows|
    ensures forall r :: r in xs <==> r in rows
  {
    var remaining := rows;
    ghost var seen: set<Row> := {};
    xs := [];
    while remaining != {}
      invariant seen + remaining == rows && seen !! remaining
      invariant forall r :: r in xs <==> r in seen
      invariant |xs| == |seen|
      decreases remaining
    {
      var r :| r in remaining;
      xs := xs + [r];
      seen := seen + {r};
      remaining := remaining - {r};
    }
  }

  /** The local rows a cycle pushes: those modified since the cursor. */
  function Pending(n: Rows, i: Rows, d: Rows, cursor: Instant): nat {
    |FindModifiedSince(n, cursor)| + |FindModifiedSince(i, cursor)| + |FindModifiedSince(d, cursor)|
  }

  /** The remote rows a cycle pulls. */
  function Listed(w: World): nat {
    |w.remoteNotes| + |w.remoteInteractions| + |w.remoteDictionary|
  }

  /** The three tables after the server's listings are pulled into them. */
  ghost predicate PulledAll(n0: Rows, i0: Rows, d0: Rows, n1: Rows, i1: Rows, d1: Rows, w: World) {
    && n1 == PullInto(Notes, n0, w.remoteNotes, w.decode, w.now)
    && i1 == PullInto(Interactions, i0, w.remoteInteractions, w.decode, w.now)
    && d1 == PullInto(Dictionary, d0, w.remoteDictionary, w.decode, w.now)
  }

  /** The rows of one cycle's three push loops, each in the order its
      query returned them. */
  datatype Pushed = Pushed(notes: seq<Row>, interactions: seq<Row>, dictionary: seq<Row>)

  /** Appending two runs of pushes after `pre` adds nothing but pushes. */
  lemma AllPushes(pre: seq<RemoteCall>, x: seq<RemoteCall>, y: seq<RemoteCall>)
    requires forall i :: 0 <= i < |x| ==> x[i].Push?
    requires forall i :: 0 <= i < |y| ==> y[i].Push?
    ensures forall i :: |pre| <= i < |pre + x + y| ==> (pre + x + y)[i].Push?
  {
    forall i | |pre| <= i < |pre + x + y|
      ensures (pre + x + y)[i].Push?
    {
      if i < |pre| + |x| {
        assert (pre + x + y)[i] == x[i - |pre|];
      } else {
        assert (pre + x + y)[i] == y[i - |pre| - |x|];
      }
    }
  }

  lemma AppendThree<T>(pre: seq<T>, a: seq<T>, b: seq<T>, c: seq<T>)
    ensures pre + a + b + c == pre + (a + b + c)
  {
  }

  /** `xs` is a result of querying `rows`: each row exactly once. */
  ghost predicate QueryResult(xs: seq<Row>, rows: set<Row>) {
    |xs| == |rows| && forall r :: r in xs <==> r in rows
  }

  /** `p` lists, table by table, the rows modified since the cursor. */
  ghost predicate PushedSince(p: Pushed, n: Rows, i: Rows, d: Rows, cursor: Instant) {
    && QueryResult(p.notes, FindModifiedSince(n, cursor))
    && QueryResult(p.interactions, FindModifiedSince(i, cursor))
    && QueryResult(p.dictionary, FindModifiedSince(d, cursor))
  }

  /** The pushes of a cycle: notes, then interactions, then dictionary items. */
  function PushLog(p: Pushed, cursor: Instant, failing: set<string>): seq<RemoteCall> {
    PushCalls(Notes, p.notes, cursor, failing)
      + PushCalls(Interactions, p.interactions, cursor, failing)
      + PushCalls(Dictionary, p.dictionary, cursor, failing)
  }

  /** The calls of a cycle that gets through: the pushes, the three
      listings in table order, then the advanced-settings fetch. */
  function CycleLog(p: Pushed, cursor: Instant, failing: set<string>): seq<RemoteCall> {
    PushLog(p, cursor, failing)
      + [ListSince(Notes, cursor), ListSince(Interactions, cursor), ListSince(Dictionary, cursor), FetchAdvancedSettings]
  }

  /** Every row of a query result is pushed. */
  lemma QueryResultPushed(kind: TableKind, xs: seq<Row>, rows: set<Row>, cursor: Instant, failing: set<string>)
    requires QueryResult(xs, rows)
    ensures forall r :: r in rows ==> PushCall(kind, r, cursor, failing) in PushCalls(kind, xs, cursor, failing)
  {
    forall r | r in rows
      ensures PushCall(kind, r, cursor, failing) in PushCalls(kind, xs, cursor, failing)
    {
      var j :| 0 <= j < |xs| && xs[j] == r;
      assert PushCalls(kind, xs, cursor, failing)[j] == PushCall(kind, r, cursor, failing);
    }
  }

  /** The calls of a cycle, as they are appended step by step. */
  lemma CycleCalls(pre: seq<RemoteCall>, p: Pushed, cursor: Instant, failing: set<string>)
    ensures pre + PushLog(p, cursor, failing)
        + [ListSince(Notes, cursor), ListSince(Interactions, cursor), ListSince(Dictionary, cursor)]
        + [FetchAdvancedSettings]
      == pre + CycleLog(p, cursor, failing)
  {
  }

  /** The pushes of a cycle are all pushes, one per row listed. */
  lemma PushLogIsPushes(p: Pushed, cursor: Instant, failing: set<string>)
    ensures |PushLog(p, cursor, failing)| == |p.notes| + |p.interactions| + |p.dictionary|
    ensures forall k :: 0 <= k < |PushLog(p, cursor, failing)| ==> PushLog(p, cursor, failing)[k].Push?
  {
    var a := PushCalls(Notes, p.notes, cursor, failing);
    var b := PushCalls(Interactions, p.interactions, cursor, failing);
    var c := PushCalls(Dictionary, p.dictionary, cursor, failing);
    AllPushes([], a + b, c);
    assert [] + (a + b) + c == PushLog(p, cursor, failing);
  }

  /** A cycle that gets through pushes every locally modified row of every
      table, with its classified operation, before any listing, and ends
      with the settings fetch. */
  lemma CycleLogPushesEveryRow(p: Pushed, n: Rows, i: Rows, d: Rows, cursor: Instant, failing: set<string>)
    requires PushedSince(p, n, i, d, cursor)
    ensures |CycleLog(p, cursor, failing)| == Pending(n, i, d, cursor) + 4
    ensures CycleLog(p, cursor, failing)[Pending(n, i, d, cursor) + 3] == FetchAdvancedSettings
    ensures forall k :: 0 <= k < Pending(n, i, d, cursor) ==> CycleLog(p, cursor, failing)[k].Push?
    ensures forall r :: r in FindModifiedSince(n, cursor) ==> PushCall(Notes, r, cursor, failing) in CycleLog(p, cursor, failing)
    ensures forall r :: r in FindModifiedSince(i, cursor) ==> PushCall(Interactions, r, cursor, failing) in CycleLog(p, cursor, failing)
    ensures forall r :: r in FindModifiedSince(d, cursor) ==> PushCall(Dictionary, r, cursor, failing) in CycleLog(p, cursor, failing)
  {
    var log := PushLog(p, cursor, failing);
    var tail: seq<RemoteCall> := [ListSince(Notes, cursor), ListSince(Interactions, cursor), ListSince(Dictionary, cursor), FetchAdvancedSettings];
    PushLogIsPushes(p, cursor, failing);
    assert |log| == Pending(n, i, d, cursor);
    assert CycleLog(p, cursor, failing) == log + tail;
    forall k | 0 <= k < |log|
      ensures (log + tail)[k].Push?
    {
      assert (log + tail)[k] == log[k];
    }
    QueryResultPushed(Notes, p.notes, FindModifiedSince(n, cursor), cursor, failing);
    QueryResultPushed(Interactions, p.interactions, FindModifiedSince(i, cursor), cursor, failing);
    QueryResultPushed(Dictionary, p.dictionary, FindModifiedSince(d, cursor), cursor, failing);
  }

  class Sync {
    var isSyncing: bool
    var intervalActive: bool
    /** The `lastSyncedAt:*` entries of the key/value table. */
    var cursors: map<string, Instant>
    var calls: seq<RemoteCall>
    var advanced: AdvancedSettings
    const notes: Table
    const interactions: Table
    const dictionary: Table

    ghost predicate Valid()
      reads this, notes, interactions, dictionary
    {
      && notes.kind == Notes && interactions.kind == Interactions && dictionary.kind == Dictionary
      && notes.Valid() && interactions.Valid() && dictionary.Valid()
    }

    constructor (notes: Table, interactions: Table, dictionary: Table, advanced: AdvancedSettings)
      requires notes.kind == Notes && interactions.kind == Interactions && dictionary.kind == Dictionary
      requires notes.Valid() && interactions.Valid() && dictionary.Valid()
      ensures Valid() && !isSyncing && !intervalActive && calls == []
      ensures this.notes == notes && this.interactions == interactions && this.dictionary == dictionary
      ensures this.advanced == advanced && cursors == map[]
    {
      this.notes := notes;
      this.interactions := interactions;
      this.dictionary := dictionary;
      this.advanced := advanced;
      isSyncing := false;
      intervalActive := false;
      cursors := map[];
      calls := [];
    }

    /** `stop`: the timer is cleared and the in-progress flag reset. */
    method Stop()
      modifies this
      ensures !intervalActive && !isSyncing
      ensures cursors == old(cursors) && calls == old(calls) && advanced == old(advanced)
    {
      intervalActive := false;
      isSyncing := false;
    }

    /** `pushNotes` and its siblings: every row of the table modified since
        the cursor is pushed once, in the order the query returns them; a
        rejected push is logged and the loop goes on; the count is the
        number of rows listed. */
    method PushTable(t: Table, cursor: Instant, failing: set<string>, ghost start: nat) returns (n: nat, pushed: seq<Row>)
      requires start <= |calls| && forall i :: start <= i < |calls| ==> calls[i].Push?
      modifies this`calls
      ensures n == |pushed| == |FindModifiedSince(t.rows, cursor)|
      ensures forall r :: r in pushed <==> r in FindModifiedSince(t.rows, cursor)
      ensures calls == old(calls) + PushCalls(t.kind, pushed, cursor, failing)
      ensures forall i :: start <= i < |calls| ==> calls[i].Push?
    {
      pushed := QueryOrder(FindModifiedSince(t.rows, cursor));
      RecordPushes(t.kind, pushed, cursor, failing);
      n := |pushed|;
      forall i | start <= i < |calls|
        ensures calls[i].Push?
      {
        if i >= |old(calls)| {
          assert calls[i] == PushCall(t.kind, pushed[i - |old(calls)|], cursor, failing);
        }
      }
    }

    /** The push loop itself: one call per row, in order. */
    method RecordPushes(kind: TableKind, rows: seq<Row>, cursor: Instant, failing: set<string>)
      modifies this`calls
      ensures calls == old(calls) + PushCalls(kind, rows, cursor, failing)
    {
      var i := 0;
      while i < |rows|
        invariant 0 <= i <= |rows|
        invariant calls == old(calls) + PushCalls(kind, rows[..i], cursor, failing)
      {
        calls := calls + [PushCall(kind, rows[i], cursor, failing)];
        assert calls == old(calls) + PushCalls(kind, rows[..i + 1], cursor, failing) by {
          PushCallsSnoc(kind, rows[..i], rows[i], cursor, failing);
          assert rows[..i + 1] == rows[..i] + [rows[i]];
        }
        i := i + 1;
      }
      assert rows[..i] == rows;
    }

    /** The body of a pull loop: a row the server has deleted is
        soft-deleted (`continue`), any other is upserted. */
    method PullRow(t: Table, rr: RemoteRow, decode: string -> Json, now: Instant)
      requires t.Valid() && RemoteOfKind(rr, t.kind)
      modifies t
      ensures t.Valid()
      ensures t.rows == PullOne(t.kind, old(t.rows), rr, decode, now)
    {
      if rr.deletedAt.Some? {
        t.SoftDelete(rr.id, now);
        return;
      }
      var x := ToLocal(rr, decode);
      if t.kind == Dictionary {
        var _ := t.UpsertWord(x);
      } else {
        t.Upsert(x);
      }
    }

    /** `pullNotes` and its siblings: the server's listing since the cursor
        is applied row by row; the count is the number of rows listed. */
    method PullTable(t: Table, remote: seq<RemoteRow>, decode: string -> Json, now: Instant) returns (n: nat)
      requires t.Valid()
      requires forall i :: 0 <= i < |remote| ==> RemoteOfKind(remote[i], t.kind)
      modifies t
      ensures t.Valid()
      ensures n == |remote|
      ensures t.rows == PullInto(t.kind, old(t.rows), remote, decode, now)
    {
      var i := 0;
      while i < |remote|
        invariant 0 <= i <= |remote| && t.Valid()
        invariant t.rows == PullInto(t.kind, old(t.rows), remote[..i], decode, now)
      {
        PullRow(t, remote[i], decode, now);
        PullIntoStep(t.kind, old(t.rows), remote, decode, now, i);
        i := i + 1;
      }
      assert remote[..i] == remote;
      n := |remote|;
    }

    /** The push half of a cycle: each table is listed and pushed in turn,
        notes, interactions, then dictionary items; a listing that throws
        ends the cycle (`ok` false). Pushing never changes the local
        tables. `p` holds the rows in the order each query returned them. */
    method PushAll(cursor: Instant, w: World) returns (n: nat, ok: bool, p: Pushed)
      requires Valid()
      modifies this`calls
      ensures ok <==> !(w.fault.Some? && w.fault.value.ListLocal?)
      ensures forall i :: |old(calls)| <= i < |calls| ==> calls[i].Push?
      ensures ok ==> PushedSince(p, notes.rows, interactions.rows, dictionary.rows, cursor)
      ensures ok ==> calls == old(calls) + PushLog(p, cursor, w.failingPushes)
      ensures ok ==> n == Pending(notes.rows, interactions.rows, dictionary.rows, cursor)
    {
      n, ok, p := 0, false, Pushed([], [], []);
      ghost var pre := calls;
      if w.fault == Some(ListLocal(Notes)) { return; }
      var a, pn := PushTable(notes, cursor, w.failingPushes, |pre|);
      if w.fault == Some(ListLocal(Interactions)) { return; }
      var b, pi := PushTable(interactions, cursor, w.failingPushes, |pre|);
      if w.fault == Some(ListLocal(Dictionary)) { return; }
      var c, pd := PushTable(dictionary, cursor, w.failingPushes, |pre|);
      p := Pushed(pn, pi, pd);
      AppendThree(pre, PushCalls(Notes, pn, cursor, w.failingPushes), PushCalls(Interactions, pi, cursor, w.failingPushes),
        PushCalls(Dictionary, pd, cursor, w.failingPushes));
      n := a + b + c;
      if w.fault.Some? && w.fault.value.ListLocal? {
        assert w.fault == Some(ListLocal(w.fault.value.kind));
        match w.fault.value.kind
        case Notes =>
        case Interactions =>
        case Dictionary =>
      }
      ok := true;
    }

    /** The pull half of a cycle, in the same table order. */
    method PullAll(cursor: Instant, w: World) returns (n: nat, ok: bool)
      requires Valid() && WellTyped(w)
      requires notes != interactions && notes != dictionary && interactions != dictionary
      modifies this`calls, notes, interactions, dictionary
      ensures Valid()
      ensures ok <==> !(w.fault.Some? && w.fault.value.ListRemote?)
      ensures ok ==> n == Listed(w)
      ensures ok ==> PulledAll(old(notes.rows), old(interactions.rows), old(dictionary.rows), notes.rows, interactions.rows, dictionary.rows, w)
      ensures ok ==> calls == old(calls) + [ListSince(Notes, cursor), ListSince(Interactions, cursor), ListSince(Dictionary, cursor)]
      ensures old(calls) <= calls
    {
      n := 0;
      ok := false;
      if w.fault == Some(ListRemote(Notes)) { return; }
      calls := calls + [ListSince(Notes, cursor)];
      var a := PullTable(notes, w.remoteNotes, w.decode, w.now);
      if w.fault == Some(ListRemote(Interactions)) { return; }
      calls := calls + [ListSince(Interactions, cursor)];
      var b := PullTable(interactions, w.remoteInteractions, w.decode, w.now);
      if w.fault == Some(ListRemote(Dictionary)) { return; }
      calls := calls + [ListSince(Dictionary, cursor)];
      var c := PullTable(dictionary, w.remoteDictionary, w.decode, w.now);
      n := a + b + c;
      if w.fault.Some? && w.fault.value.ListRemote? {
        assert w.fault == Some(ListRemote(w.fault.value.kind));
        match w.fault.value.kind
        case Notes =>
        case Interactions =>
        case Dictionary =>
      }
      ok := true;
    }

    /** The body of a cycle once the user and cursor are known: push, pull,
        refresh the settings, and move the cursor when something was
        processed. A throwing listing ends it early. `p` holds the rows
        pushed, in the order each query returned them. */
    method Cycle(key: string, cursor: Instant, w: World) returns (p: Pushed)
      requires Valid() && WellTyped(w)
      requires notes != interactions && notes != dictionary && interactions != dictionary
      modifies this`calls, this`cursors, this`advanced, notes, interactions, dictionary
      ensures Valid()
      ensures w.fault.Some? && w.fault.value.ListLocal? ==>
        && (forall i :: |old(calls)| <= i < |calls| ==> calls[i].Push?)
        && cursors == old(cursors) && advanced == old(advanced)
        && notes.rows == old(notes.rows) && interactions.rows == old(interactions.rows)
        && dictionary.rows == old(dictionary.rows)
      ensures !(w.fault.Some? && w.fault.value.ListLocal?) ==>
        && PushedSince(p, old(notes.rows), old(interactions.rows), old(dictionary.rows), cursor)
        && old(calls) + PushLog(p, cursor, w.failingPushes) <= calls
      ensures w.fault.Some? && w.fault.value.ListRemote? ==> cursors == old(cursors) && advanced == old(advanced)
      ensures w.fault.None? || w.fault == Some(WriteCursor) ==>
        && calls == old(calls) + CycleLog(p, cursor, w.failingPushes)
        && PulledAll(old(notes.rows), old(interactions.rows), old(dictionary.rows), notes.rows, interactions.rows, dictionary.rows, w)
        && advanced == SyncedSettings(old(advanced), w.settings, cursor)
        && cursors == (if Pending(old(notes.rows), old(interactions.rows), old(dictionary.rows), cursor) + Listed(w) > 0 && w.fault.None?
                       then old(cursors)[key := w.now] else old(cursors))
    {
      ghost var pre := calls;
      var pushedCount, pushOk;
      pushedCount, pushOk, p := PushAll(cursor, w);
      if !pushOk {
        return;
      }
      ghost var pushedCalls := calls;
      var pulledCount, pullOk := PullAll(cursor, w);
      assert pushedCalls <= calls;
      if !pullOk {
        return;
      }
      calls := calls + [FetchAdvancedSettings];
      CycleCalls(pre, p, cursor, w.failingPushes);
      advanced := SyncedSettings(advanced, w.settings, cursor);
      if pushedCount + pulledCount > 0 && w.fault != Some(WriteCursor) {
        cursors := cursors[key := w.now];
      }
    }

    /** `runSync` up to its first `await`, where the cursor is read. While
        another cycle is running (`isSyncing`) it does nothing at all.
        Without a user id, or when reading the cursor throws, no cycle
        starts and the flag ends false. Otherwise the flag is raised, and
        stays raised until `FinishSync`, so that every `runSync` in between
        does nothing; a missing cursor is the epoch. */
    method BeginSync(userId: string, envNs: string, w: World) returns (started: bool, key: string, cursor: Instant)
      requires Valid()
      modifies this
      ensures Valid()
      ensures started <==> !old(isSyncing) && userId != "" && w.fault != Some(ReadCursor)
      ensures isSyncing == (old(isSyncing) || started)
      ensures started ==> key == CursorKey(envNs, userId) && cursor == (if key in cursors then cursors[key] else Epoch)
      ensures calls == old(calls) && cursors == old(cursors) && advanced == old(advanced)
      ensures intervalActive == old(intervalActive)
      ensures old(isSyncing) ==> !started && unchanged(this)
    {
      key, cursor := "", Epoch;
      if isSyncing {
        return false, key, cursor;
      }
      isSyncing := true;
      if userId == "" || w.fault == Some(ReadCursor) {
        isSyncing := false;
        return false, key, cursor;
      }
      key := CursorKey(envNs, userId);
      cursor := if key in cursors then cursors[key] else Epoch;
      started := true;
    }

    /** `runSync` after the cursor is read: the cycle, then the flag is
        lowered however it ended. The cursor moves to `now` exactly when
        the cycle got through and processed something, pushed or pulled; a
        failure while listing local changes ends the cycle before anything
        is pulled. */
    method FinishSync(key: string, cursor: Instant, w: World) returns (p: Pushed)
      requires Valid() && WellTyped(w)
      requires notes != interactions && notes != dictionary && interactions != dictionary
      modifies this, notes, interactions, dictionary
      ensures Valid() && !isSyncing
      ensures intervalActive == old(intervalActive)
      ensures w.fault.Some? && w.fault.value.ListLocal? ==>
        && (forall i :: |old(calls)| <= i < |calls| ==> calls[i].Push?)
        && cursors == old(cursors) && advanced == old(advanced)
        && notes.rows == old(notes.rows) && interactions.rows == old(interactions.rows)
        && dictionary.rows == old(dictionary.rows)
      ensures !(w.fault.Some? && w.fault.value.ListLocal?) ==>
        && PushedSince(p, old(notes.rows), old(interactions.rows), old(dictionary.rows), cursor)
        && old(calls) + PushLog(p, cursor, w.failingPushes) <= calls
      ensures w.fault.Some? && w.fault.value.ListRemote? ==> cursors == old(cursors) && advanced == old(advanced)
      ensures w.fault.None? || w.fault == Some(WriteCursor) ==>
        && calls == old(calls) + CycleLog(p, cursor, w.failingPushes)
        && PulledAll(old(notes.rows), old(interactions.rows), old(dictionary.rows), notes.rows, interactions.rows, dictionary.rows, w)
        && advanced == SyncedSettings(old(advanced), w.settings, cursor)
        && cursors == (if Pending(old(notes.rows), old(interactions.rows), old(dictionary.rows), cursor) + Listed(w) > 0 && w.fault.None?
                       then old(cursors)[key := w.now] else old(cursors))
    {
      p := Cycle(key, cursor, w);
      isSyncing := false;
    }

    /** `runSync` with nothing else happening during its awaits: a cycle
        when none is running and a user is signed in, after which the flag
        is what it was on entry. */
    method RunSync(userId: string, envNs: string, w: World) returns (p: Pushed)
      requires Valid() && WellTyped(w)
      requires notes != interactions && notes != dictionary && interactions != dictionary
      modifies this, notes, interactions, dictionary
      ensures Valid() && isSyncing == old(isSyncing)
      ensures intervalActive == old(intervalActive)
      ensures old(isSyncing) || userId == "" || w.fault == Some(ReadCursor) ==>
        && calls == old(calls) && cursors == old(cursors) && advanced == old(advanced)
        && notes.rows == old(notes.rows) && interactions.rows == old(interactions.rows)
        && dictionary.rows == old(dictionary.rows)
      ensures !old(isSyncing) && userId != "" && (w.fault.None? || w.fault == Some(WriteCursor)) ==>
        var key := CursorKey(envNs, userId);
        var cursor := if key in old(cursors) then old(cursors)[key] else Epoch;
        && PushedSince(p, old(notes.rows), old(interactions.rows), old(dictionary.rows), cursor)
        && calls == old(calls) + CycleLog(p, cursor, w.failingPushes)
        && PulledAll(old(notes.rows), old(interactions.rows), old(dictionary.rows), notes.rows, interactions.rows, dictionary.rows, w)
        && advanced == SyncedSettings(old(advanced), w.settings, cursor)
        && cursors == (if Pending(old(notes.rows), old(interactions.rows), old(dictionary.rows), cursor) + Listed(w) > 0 && w.fault.None?
                       then old(cursors)[key := w.now] else old(cursors))
    {
      p := Pushed([], [], []);
      var started, key, cursor := BeginSync(userId, envNs, w);
      if started {
        p := FinishSync(key, cursor, w);
      }
    }

    /** `start`: an immediate cycle, then the 30-second timer. The cycle has
        the effect `RunSync` describes. */
    method Start(userId: string, envNs: string, w: World) returns (p: Pushed)
      requires Valid() && WellTyped(w)
      requires notes != interactions && notes != dictionary && interactions != dictionary
      modifies this, notes, interactions, dictionary
      ensures Valid() && isSyncing == old(isSyncing) && intervalActive
      ensures old(isSyncing) || userId == "" || w.fault == Some(ReadCursor) ==>
        && calls == old(calls) && cursors == old(cursors) && advanced == old(advanced)
        && notes.rows == old(notes.rows) && interactions.rows == old(interactions.rows)
        && dictionary.rows == old(dictionary.rows)
      ensures !old(isSyncing) && userId != "" && (w.fault.None? || w.fault == Some(WriteCursor)) ==>
        var key := CursorKey(envNs, userId);
        var cursor := if key in old(cursors) then old(cursors)[key] else Epoch;
        && PushedSince(p, old(notes.rows), old(interactions.rows), old(dictionary.rows), cursor)
        && calls == old(calls) + CycleLog(p, cursor, w.failingPushes)
        && PulledAll(old(notes.rows), old(interactions.rows), old(dictionary.rows), notes.rows, interactions.rows, dictionary.rows, w)
        && advanced == SyncedSettings(old(advanced), w.settings, cursor)
        && cursors == (if Pending(old(notes.rows), old(interactions.rows), old(dictionary.rows), cursor) + Listed(w) > 0 && w.fault.None?
                       then old(cursors)[key := w.now] else old(cursors))
    {
      p := RunSync(userId, envNs, w);
      intervalActive := true;
    }
  }
}
