/** The client's bookkeeping of the dictation in progress: its id and
    start time, and the interaction record saved when it ends. */
module InteractionManager {
  import opened Common
  import opened Protocol
  import opened LocalRepo

  const TitleLimit := 50
  const DefaultTitle := "Voice interaction"

  /** The title shown for an interaction: the transcript, cut to 50
      characters plus `...` when longer, or a fixed text when empty. */
  function Title(transcript: string): (t: string)
    ensures |transcript| > TitleLimit ==> t == transcript[..TitleLimit] + "..."
    ensures transcript == [] ==> t == DefaultTitle
    ensures 0 < |transcript| <= TitleLimit ==> t == transcript
  {
    if |transcript| > TitleLimit then transcript[..TitleLimit] + "..."
    else if transcript == [] then DefaultTitle
    else transcript
  }

  /** A title never exceeds 53 characters and starts like the transcript. */
  lemma TitleBounded(transcript: string)
    ensures 0 < |Title(transcript)| <= TitleLimit + 3
    ensures transcript != [] ==> Title(transcript)[..Min(|transcript|, TitleLimit)] == transcript[..Min(|transcript|, TitleLimit)]
  {
  }

  function Min(a: int, b: int): int {
    if a <= b then a else b
  }

  /** The `asr_output` record stored with an interaction. Absent error
      texts are `None`. */
  datatype AsrOutput = AsrOutput(
    transcript: string, totalAudioBytes: nat, error: Option<string>, errorCode: Option<string>,
    timestamp: Instant, durationMs: int)

  /** The `llm_output` record: `{error}` or `{}`. */
  datatype LlmOutput = LlmOutput(error: Option<string>)

  /** `x || null` for an optional text, absent being the empty string. */
  function NullIfEmpty(s: string): (r: Option<string>)
    ensures r.None? <==> s == ""
    ensures r.Some? ==> r.value == s
  {
    if s == "" then None else Some(s)
  }

  /** The record `createInteraction` saves. `errorMessage` and
      `errorCode` are empty when not given. */
  datatype InteractionData = InteractionData(
    id: string, userId: string, title: string, asrOutput: AsrOutput, llmOutput: LlmOutput,
    rawAudio: Option<seq<Byte>>, durationMs: int, sampleRate: int, createdAt: Instant)

  /** The elapsed time, or 0 without a (truthy) start time. */
  function Duration(start: Option<Instant>, now: Instant): (d: int)
    ensures start.Some? && start.value != 0 ==> d == now - start.value
    ensures start.None? || start.value == 0 ==> d == 0
  {
    if start.Some? && start.value != 0 then now - start.value else 0
  }

  function BuildInteraction(id: string, userId: string, start: Option<Instant>, transcript: string, audio: seq<Byte>,
                            sampleRate: int, errorMessage: string, errorCode: string, now: Instant): (d: InteractionData)
    ensures d.id == id && d.userId == userId && d.title == Title(transcript)
    ensures d.rawAudio.None? <==> audio == []
    ensures d.rawAudio.Some? ==> d.rawAudio.value == audio
    ensures d.llmOutput.error.Some? <==> errorMessage != ""
    ensures d.llmOutput.error.Some? ==> d.llmOutput.error.value == errorMessage
    ensures d.asrOutput == AsrOutput(transcript, |audio|, NullIfEmpty(errorMessage), NullIfEmpty(errorCode), now, d.durationMs)
    ensures d.durationMs == Duration(start, now) && d.sampleRate == sampleRate && d.createdAt == now
  {
    var duration := Duration(start, now);
    InteractionData(id, userId, Title(transcript),
                    AsrOutput(transcript, |audio|, NullIfEmpty(errorMessage), NullIfEmpty(errorCode), now, duration),
                    LlmOutput(NullIfEmpty(errorMessage)),
                    if |audio| > 0 then Some(audio) else None,
                    duration, sampleRate, now)
  }

  /** The interactions row an `InteractionsTable.upsert` of the record
      writes; the two records are stored as JSON text, produced by the
      `encodeAsr` and `encodeLlm` parameters. */
  function ToRow(d: InteractionData, encodeAsr: AsrOutput -> string, encodeLlm: LlmOutput -> string): (r: Row)
    ensures r.id == d.id && r.userId == Some(d.userId) && r.deletedAt.None?
    ensures r.createdAt == d.createdAt && r.updatedAt == d.createdAt
    ensures r.cols == InteractionCols(Some(d.title), Composite(encodeAsr(d.asrOutput)), Composite(encodeLlm(d.llmOutput)),
                                      d.rawAudio, None, Some(d.durationMs), Some(d.sampleRate))
  {
    Row(d.id, Some(d.userId),
        InteractionCols(Some(d.title), Composite(encodeAsr(d.asrOutput)), Composite(encodeLlm(d.llmOutput)),
                        d.rawAudio, None, Some(d.durationMs), Some(d.sampleRate)),
        d.createdAt, d.createdAt, None)
  }

  class Manager {
    var currentId: Option<string>
    var startTime: Option<Instant>

    constructor()
      ensures currentId.None? && startTime.None?
    {
      currentId := None;
      startTime := None;
    }

    /** `initialize`: a fresh id (`newId` stands for the generated UUID)
        that starts now. */
    method Initialize(newId: string, now: Instant) returns (id: string)
      modifies this
      ensures id == newId && currentId == Some(newId) && startTime == Some(now)
    {
      currentId := Some(newId);
      startTime := Some(now);
      id := newId;
    }

    /** `adoptInteractionId`: continues under an id chosen elsewhere. */
    method Adopt(id: string, now: Instant)
      modifies this
      ensures currentId == Some(id) && startTime == Some(now)
    {
      currentId := Some(id);
      startTime := Some(now);
    }

    /** `clearCurrentInteraction`. */
    method Clear()
      modifies this
      ensures currentId.None? && startTime.None?
    {
      currentId := None;
      startTime := None;
    }

    /** `createInteraction`: without a current id, or without a signed-in
        user (`profileUserId` empty), nothing is written; otherwise the
        record is upserted into the interactions table under the current
        id. The current id itself is left as it is. */
    method CreateInteraction(table: Table, transcript: string, audio: seq<Byte>, sampleRate: int,
                             errorMessage: string, errorCode: string, profileUserId: string, now: Instant,
                             encodeAsr: AsrOutput -> string, encodeLlm: LlmOutput -> string)
      returns (written: Option<InteractionData>)
      requires table.Valid() && table.kind == Interactions
      modifies table
      ensures table.Valid()
      ensures currentId == old(currentId) && startTime == old(startTime)
      ensures (currentId.None? || currentId.value == "" || profileUserId == "") ==>
        written.None? && table.rows == old(table.rows)
      ensures written.Some? ==>
        && currentId.Some? && profileUserId != ""
        && written.value == BuildInteraction(currentId.value, profileUserId, startTime, transcript, audio,
                                             sampleRate, errorMessage, errorCode, now)
        && table.rows == Upserted(old(table.rows), ToRow(written.value, encodeAsr, encodeLlm))
      ensures currentId.Some? && currentId.value != "" && profileUserId != "" ==> written.Some?
    {
      if currentId.None? || currentId.value == "" {
        return None;
      }
      if profileUserId == "" {
        return None;
      }
      var data := BuildInteraction(currentId.value, profileUserId, startTime, transcript, audio,
                                   sampleRate, errorMessage, errorCode, now);
      table.Upsert(ToRow(data, encodeAsr, encodeLlm));
      written := Some(data);
    }
  }

  /** A saved interaction is listed for its user, titled from its
      transcript, whether or not a row with that id existed before. */
  lemma SavedInteractionListed(rows: Rows, d: InteractionData, encodeAsr: AsrOutput -> string, encodeLlm: LlmOutput -> string)
    requires WellKeyed(rows, Interactions)
    requires d.userId != "" && d.title == Title(d.asrOutput.transcript)
    requires d.id in rows ==> rows[d.id].userId == Some(d.userId)
    ensures var after := Upserted(rows, ToRow(d, encodeAsr, encodeLlm));
      && after[d.id] in FindAll(after, d.userId)
      && after[d.id].cols.title == Some(Title(d.asrOutput.transcript))
  {
    var after := Upserted(rows, ToRow(d, encodeAsr, encodeLlm));
    assert after[d.id] in after.Values;
  }
}
