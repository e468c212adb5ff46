/** The client's controller of one TranscribeStreamV2 stream: it guards
    against a second stream, queues configuration messages while the
    recording is streaming, and produces the outgoing message stream, in
    which every queued configuration goes out before the next audio chunk.
    The gRPC call itself and its awaited response are left to the caller:
    the generator is modelled one audio chunk at a time. */
module ItoStreamController {
  import opened Common
  import opened Protocol
  import opened AudioStream
  import Timing
  import TranscribeStream
  import TranscribeStreamV2

  /** One outgoing message of the client stream. */
  datatype ClientMessage = SendConfig(config: StreamConfig) | SendAudio(chunk: seq<Byte>)

  /** The state of the stream's abort controller. */
  datatype AbortState = NoController | Armed | Aborted

  /** The fields of the gathered context that `buildStreamConfig` reads:
      the nullable ones are options, the advanced LLM settings are the
      fields that were set. */
  datatype StreamContext = StreamContext(
    windowTitle: string,
    appName: string,
    contextText: string,
    browserUrl: Option<string>,
    browserDomain: Option<string>,
    tonePrompt: Option<string>,
    llm: LlmSettings,
    vocabularyWords: seq<string>)

  /** `sendModeUpdate`'s message: a context holding only the mode. */
  function ModeOnlyConfig(mode: ItoMode): (c: StreamConfig)
    ensures c.context.Some? && c.context.value.mode == Some(mode)
  {
    StreamConfig(Some(ContextInfo(Some(mode), "", "", "", "", "", "")), None, [], [], "", None)
  }

  /** Merged on the server, a mode-only update changes the mode and
      nothing else, so the window context sent earlier is kept. */
  lemma ModeUpdateKeepsContext(base: StreamConfig, mode: ItoMode)
    ensures var r := TranscribeStreamV2.MergeStreamConfigs(base, ModeOnlyConfig(mode));
      && TranscribeStreamV2.ModeOf(r) == Some(mode)
      && r.llmSettings == base.llmSettings && r.vocabulary == base.vocabulary
      && r.replacements == base.replacements && r.interactionId == base.interactionId
      && r.userDetails == base.userDetails
      && (base.context.Some? ==> r.context == Some(base.context.value.(mode := Some(mode))))
  {
  }

  /** `buildStreamConfig`: the context with the current mode, the LLM
      settings, the vocabulary and the current interaction id; replacements
      and user details are not sent. */
  function BuildStreamConfig(ctx: StreamContext, mode: ItoMode, interactionId: Option<string>): (c: StreamConfig)
    ensures c.context.Some? && c.context.value.mode == Some(mode)
    ensures c.context.value.windowTitle == ctx.windowTitle && c.context.value.appName == ctx.appName
    ensures c.context.value.contextText == ctx.contextText
    ensures c.context.value.browserUrl == ctx.browserUrl.GetOr("")
    ensures c.context.value.tonePrompt == ctx.tonePrompt.GetOr("")
    ensures c.llmSettings == Some(ctx.llm) && c.vocabulary == ctx.vocabularyWords
    ensures c.replacements == [] && c.userDetails.None?
    ensures c.interactionId == (if interactionId.Some? then interactionId.value else "")
  {
    StreamConfig(
      Some(ContextInfo(Some(mode), ctx.windowTitle, ctx.appName, ctx.contextText,
        ctx.browserUrl.GetOr(""), ctx.browserDomain.GetOr(""), ctx.tonePrompt.GetOr(""))),
      Some(ctx.llm),
      ctx.vocabularyWords,
      [],
      if interactionId.Some? then interactionId.value else "",
      None)
  }

  /** The timing event a stream is measured under. */
  function TimingEventFor(mode: ItoMode): (name: Timing.TimingEventName)
    ensures name == Timing.ServerEditing <==> mode == Edit
    ensures name == Timing.ServerDictation <==> mode != Edit
  {
    if mode == Edit then Timing.ServerEditing else Timing.ServerDictation
  }

  /** The queued configurations as messages, oldest first. */
  function ConfigMessages(configs: seq<StreamConfig>): (r: seq<ClientMessage>)
    ensures |r| == |configs|
    decreases |configs|
  {
    if |configs| == 0 then [] else [SendConfig(configs[0])] + ConfigMessages(configs[1..])
  }

  lemma {:induction false} ConfigMessagesAppend(a: seq<StreamConfig>, b: seq<StreamConfig>)
    ensures ConfigMessages(a + b) == ConfigMessages(a) + ConfigMessages(b)
    decreases |a|
  {
    if |a| > 0 {
      assert (a + b)[1..] == a[1..] + b;
      ConfigMessagesAppend(a[1..], b);
    } else {
      assert a + b == b;
    }
  }

  /** The audio payloads of a message stream, in order. */
  function AudioSent(msgs: seq<ClientMessage>): seq<seq<Byte>>
    decreases |msgs|
  {
    if |msgs| == 0 then []
    else (if msgs[0].SendAudio? then [msgs[0].chunk] else []) + AudioSent(msgs[1..])
  }

  /** The configuration payloads of a message stream, in order. */
  function ConfigsSent(msgs: seq<ClientMessage>): seq<StreamConfig>
    decreases |msgs|
  {
    if |msgs| == 0 then []
    else (if msgs[0].SendConfig? then [msgs[0].config] else []) + ConfigsSent(msgs[1..])
  }

  lemma {:induction false} SentAppend(a: seq<ClientMessage>, b: seq<ClientMessage>)
    ensures AudioSent(a + b) == AudioSent(a) + AudioSent(b)
    ensures ConfigsSent(a + b) == ConfigsSent(a) + ConfigsSent(b)
    decreases |a|
  {
    if |a| > 0 {
      assert (a + b)[1..] == a[1..] + b;
      SentAppend(a[1..], b);
    } else {
      assert a + b == b;
    }
  }

  /** Configuration messages carry every queued configuration and no audio. */
  lemma {:induction false} ConfigMessagesCarry(configs: seq<StreamConfig>)
    ensures ConfigsSent(ConfigMessages(configs)) == configs
    ensures AudioSent(ConfigMessages(configs)) == []
    decreases |configs|
  {
    if |configs| > 0 {
      ConfigMessagesCarry(configs[1..]);
    }
  }

  /** What the generator sends for one audio chunk that arrives while the
      stream is not cancelled: the configurations queued since the
      previous chunk, then the chunk. */
  datatype Round = Round(queued: seq<StreamConfig>, chunk: seq<Byte>)

  function RoundMessages(r: Round): seq<ClientMessage> {
    ConfigMessages(r.queued) + [SendAudio(r.chunk)]
  }

  /** A whole uncancelled stream: every round in order, then the
      configurations still queued when the audio ends. */
  function StreamMessages(rounds: seq<Round>, remaining: seq<StreamConfig>): seq<ClientMessage>
    decreases |rounds|
  {
    if |rounds| == 0 then ConfigMessages(remaining)
    else RoundMessages(rounds[0]) + StreamMessages(rounds[1..], remaining)
  }

  function Chunks(rounds: seq<Round>): seq<seq<Byte>>
    decreases |rounds|
  {
    if |rounds| == 0 then [] else [rounds[0].chunk] + Chunks(rounds[1..])
  }

  function QueuedConfigs(rounds: seq<Round>, remaining: seq<StreamConfig>): seq<StreamConfig>
    decreases |rounds|
  {
    if |rounds| == 0 then remaining else rounds[0].queued + QueuedConfigs(rounds[1..], remaining)
  }

  /** One round carries its configurations and then its chunk. */
  lemma RoundCarries(r: Round)
    ensures AudioSent(RoundMessages(r)) == [r.chunk]
    ensures ConfigsSent(RoundMessages(r)) == r.queued
  {
    ConfigMessagesCarry(r.queued);
    var one: seq<ClientMessage> := [SendAudio(r.chunk)];
    assert AudioSent(one) == [r.chunk] && ConfigsSent(one) == [] by {
      assert one[1..] == [];
    }
    SentAppend(ConfigMessages(r.queued), one);
  }

  /** The stream carries every audio chunk, in arrival order, and every
      queued configuration, in queueing order; nothing is lost, duplicated
      or reordered by the interleaving. */
  lemma {:induction false} StreamCarriesEverything(rounds: seq<Round>, remaining: seq<StreamConfig>)
    ensures AudioSent(StreamMessages(rounds, remaining)) == Chunks(rounds)
    ensures ConfigsSent(StreamMessages(rounds, remaining)) == QueuedConfigs(rounds, remaining)
    decreases |rounds|
  {
    if |rounds| == 0 {
      ConfigMessagesCarry(remaining);
    } else {
      var rest := StreamMessages(rounds[1..], remaining);
      StreamCarriesEverything(rounds[1..], remaining);
      RoundCarries(rounds[0]);
      SentAppend(RoundMessages(rounds[0]), rest);
    }
  }

  /** Every configuration queued before a chunk goes out before it: the
      messages of a round end with its chunk, after all its configurations. */
  lemma RoundEndsWithChunk(r: Round)
    ensures |RoundMessages(r)| == |r.queued| + 1
    ensures RoundMessages(r)[|r.queued|] == SendAudio(r.chunk)
    ensures forall i :: 0 <= i < |r.queued| ==> RoundMessages(r)[i].SendConfig?
  {
    ConfigMessagesCarry(r.queued);
    forall i | 0 <= i < |r.queued|
      ensures RoundMessages(r)[i].SendConfig?
    {
      ConfigMessagesAt(r.queued, i);
    }
  }

  lemma {:induction false} ConfigMessagesAt(configs: seq<StreamConfig>, i: nat)
    requires i < |configs|
    ensures ConfigMessages(configs)[i] == SendConfig(configs[i])
    decreases i
  {
    if i > 0 {
      ConfigMessagesAt(configs[1..], i - 1);
    }
  }

  /** What `startGrpcStream` resolves to: the server's response with the
      interaction's audio and the rate it was recorded at. */
  datatype GrpcStreamResult<R> = GrpcStreamResult(response: R, audioBuffer: seq<Byte>, sampleRate: int)

  class ItoStreamController {
    const audio: AudioStreamManager
    var hasStartedGrpc: bool
    var currentMode: ItoMode
    var isCancelled: bool
    var configQueue: seq<StreamConfig>
    var abort: AbortState

    ghost predicate Valid()
      reads this, audio
    {
      audio.Valid()
    }

    constructor ()
      ensures Valid() && fresh(audio)
      ensures !hasStartedGrpc && currentMode == Transcribe && !isCancelled
      ensures configQueue == [] && abort == NoController && !audio.isStreaming
    {
      audio := new AudioStreamManager();
      hasStartedGrpc := false;
      currentMode := Transcribe;
      isCancelled := false;
      configQueue := [];
      abort := NoController;
    }

    /** `initialize`: refused while a recording is streaming; otherwise
        the audio manager starts streaming and every flag is reset. */
    method Initialize(mode: ItoMode) returns (ok: bool)
      requires Valid()
      modifies this, audio
      ensures Valid()
      ensures ok <==> !old(audio.isStreaming)
      ensures !ok ==>
        && hasStartedGrpc == old(hasStartedGrpc) && currentMode == old(currentMode)
        && isCancelled == old(isCancelled) && configQueue == old(configQueue) && abort == old(abort)
        && audio.isStreaming && audio.audioChunkQueue == old(audio.audioChunkQueue)
        && audio.audioChunksForInteraction == old(audio.audioChunksForInteraction)
      ensures ok ==>
        && !hasStartedGrpc && currentMode == mode && !isCancelled
        && configQueue == [] && abort == NoController
        && audio.isStreaming && audio.audioChunkQueue == [] && audio.audioChunksForInteraction == []
      ensures audio.currentSampleRate == old(audio.currentSampleRate)
    {
      if audio.isStreaming {
        return false;
      }
      audio.Initialize();
      hasStartedGrpc := false;
      currentMode := mode;
      isCancelled := false;
      configQueue := [];
      abort := NoController;
      ok := true;
    }

    /** The synchronous part of `startGrpcStream`: a second start fails
        with "Stream already started"; the first arms the abort controller
        and names the timing event the call is measured under. */
    method StartGrpcStream() returns (r: Result<Timing.TimingEventName, string>)
      requires Valid()
      modifies this
      ensures Valid()
      ensures old(hasStartedGrpc) ==> r == Err("Stream already started") && abort == old(abort)
      ensures !old(hasStartedGrpc) ==> r == Ok(TimingEventFor(currentMode)) && abort == Armed
      ensures hasStartedGrpc
      ensures currentMode == old(currentMode) && isCancelled == old(isCancelled) && configQueue == old(configQueue)
    {
      if hasStartedGrpc {
        return Err("Stream already started");
      }
      hasStartedGrpc := true;
      abort := Armed;
      r := Ok(TimingEventFor(currentMode));
    }

    /** The part of `startGrpcStream` after the streamed call returns:
        `response` is what the call gave, or the message it threw. A
        failure propagates; a response is returned with every audio chunk
        recorded for the interaction, in order, and the current sample
        rate. Nothing changes. */
    method CompleteGrpcStream<R>(response: Result<R, string>) returns (r: Result<GrpcStreamResult<R>, string>)
      requires Valid()
      ensures response.Err? ==> r == Err(response.error)
      ensures response.Ok? ==> r.Ok? && r.value.response == response.value
      ensures r.Ok? ==> r.value.audioBuffer == Flatten(audio.audioChunksForInteraction)
                        && r.value.sampleRate == audio.currentSampleRate && r.value.sampleRate > 0
    {
      if response.Err? {
        return Err(response.error);
      }
      r := Ok(GrpcStreamResult(response.value, audio.InteractionAudioBuffer(), audio.currentSampleRate));
    }

    /** `setMode`: ignored unless streaming; otherwise the mode is set and
        one mode-only configuration is queued. */
    method SetMode(mode: ItoMode)
      requires Valid()
      modifies this
      ensures Valid()
      ensures !audio.isStreaming ==> currentMode == old(currentMode) && configQueue == old(configQueue)
      ensures audio.isStreaming ==> currentMode == mode && configQueue == old(configQueue) + [ModeOnlyConfig(mode)]
      ensures hasStartedGrpc == old(hasStartedGrpc) && isCancelled == old(isCancelled) && abort == old(abort)
    {
      if !audio.isStreaming {
        return;
      }
      currentMode := mode;
      configQueue := configQueue + [ModeOnlyConfig(mode)];
    }

    /** `scheduleConfigUpdate`: ignored unless streaming; otherwise the
        configuration built from the context is queued. */
    method ScheduleConfigUpdate(ctx: StreamContext, interactionId: Option<string>)
      requires Valid()
      modifies this
      ensures Valid()
      ensures !audio.isStreaming ==> configQueue == old(configQueue)
      ensures audio.isStreaming ==> configQueue == old(configQueue) + [BuildStreamConfig(ctx, currentMode, interactionId)]
      ensures currentMode == old(currentMode) && hasStartedGrpc == old(hasStartedGrpc)
      ensures isCancelled == old(isCancelled) && abort == old(abort)
    {
      if !audio.isStreaming {
        return;
      }
      configQueue := configQueue + [BuildStreamConfig(ctx, currentMode, interactionId)];
    }

    /** `endInteraction`: stops the recording stream if there is one. */
    method EndInteraction()
      requires Valid()
      modifies audio
      ensures Valid()
      ensures !audio.isStreaming
      ensures !old(audio.isStreaming) ==> audio.audioChunkQueue == old(audio.audioChunkQueue)
      ensures old(audio.isStreaming) ==> audio.audioChunkQueue == []
      ensures audio.audioChunksForInteraction == old(audio.audioChunksForInteraction)
    {
      if !audio.isStreaming {
        return;
      }
      audio.StopStreaming();
    }

    /** `cancelTranscription`: only while streaming; marks the stream
        cancelled, aborts the call if it was started and stops the
        recording stream. */
    method CancelTranscription()
      requires Valid()
      modifies this, audio
      ensures Valid()
      ensures !old(audio.isStreaming) ==>
        isCancelled == old(isCancelled) && abort == old(abort) && audio.audioChunkQueue == old(audio.audioChunkQueue)
      ensures old(audio.isStreaming) ==>
        && isCancelled && !audio.isStreaming && audio.audioChunkQueue == []
        && abort == (if old(abort) == NoController then NoController else Aborted)
      ensures hasStartedGrpc == old(hasStartedGrpc) && currentMode == old(currentMode)
      ensures configQueue == old(configQueue)
      ensures audio.audioChunksForInteraction == old(audio.audioChunksForInteraction)
    {
      if !audio.isStreaming {
        return;
      }
      isCancelled := true;
      if abort != NoController {
        abort := Aborted;
      }
      audio.StopStreaming();
    }

    /** `getAudioDurationMs`, delegated to the audio manager. */
    method GetAudioDurationMs() returns (ms: int)
      requires Valid()
      ensures ms == DurationMs(TranscribeStream.TotalLength(audio.audioChunksForInteraction), audio.currentSampleRate)
    {
      ms := audio.GetAudioDurationMs();
    }

    /** The generator's sending of the whole configuration queue, oldest
        first, shifting one configuration at a time. */
    method DrainConfigs() returns (out: seq<ClientMessage>)
      requires Valid()
      modifies this
      ensures Valid()
      ensures out == ConfigMessages(old(configQueue)) && configQueue == []
      ensures hasStartedGrpc == old(hasStartedGrpc) && currentMode == old(currentMode)
      ensures isCancelled == old(isCancelled) && abort == old(abort)
    {
      out := [];
      ghost var sentConfigs: seq<StreamConfig> := [];
      while |configQueue| > 0
        invariant sentConfigs + configQueue == old(configQueue)
        invariant out == ConfigMessages(sentConfigs)
        invariant hasStartedGrpc == old(hasStartedGrpc) && currentMode == old(currentMode)
        invariant isCancelled == old(isCancelled) && abort == old(abort)
        decreases |configQueue|
      {
        var config := configQueue[0];
        configQueue := configQueue[1..];
        ConfigMessagesAppend(sentConfigs, [config]);
        assert ConfigMessages([config]) == [SendConfig(config)];
        out := out + [SendConfig(config)];
        sentConfigs := sentConfigs + [config];
      }
      assert sentConfigs == old(configQueue);
    }

    /** One pass of the generator's loop, for one audio chunk: once
        cancelled it stops; otherwise it sends the queued configurations
        and then the chunk. */
    method OnAudioChunk(chunk: seq<Byte>) returns (out: seq<ClientMessage>, stop: bool)
      requires Valid()
      modifies this
      ensures Valid()
      ensures stop <==> isCancelled
      ensures stop ==> out == [] && configQueue == old(configQueue)
      ensures !stop ==> out == RoundMessages(Round(old(configQueue), chunk)) && configQueue == []
      ensures hasStartedGrpc == old(hasStartedGrpc) && currentMode == old(currentMode)
      ensures isCancelled == old(isCancelled) && abort == old(abort)
    {
      if isCancelled {
        return [], true;
      }
      out := DrainConfigs();
      out := out + [SendAudio(chunk)];
      stop := false;
    }

    /** The end of the generator, after the audio ends or a cancellation:
        the configurations still queued are sent. */
    method FinishStream() returns (out: seq<ClientMessage>)
      requires Valid()
      modifies this
      ensures Valid()
      ensures out == ConfigMessages(old(configQueue)) && configQueue == []
      ensures ConfigsSent(out) == old(configQueue) && AudioSent(out) == []
      ensures hasStartedGrpc == old(hasStartedGrpc) && currentMode == old(currentMode)
      ensures isCancelled == old(isCancelled) && abort == old(abort)
    {
      ConfigMessagesCarry(configQueue);
      out := DrainConfigs();
    }
  }
}
