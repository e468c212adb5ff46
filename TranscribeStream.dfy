/** The legacy streaming transcription handler (version 1): the audio
    arrives as a stream of chunks and the configuration as request headers;
    only EDIT mode goes through the LLM. */
module TranscribeStream {
  import opened Common
  import opened Protocol
  import opened ItoHelpers
  import ProviderUtils

  // ---------------------------------------------------------------------
  // Concatenating the audio
  // ---------------------------------------------------------------------

  /** The sum of the chunk lengths. */
  function TotalLength(chunks: seq<seq<Byte>>): nat
    decreases |chunks|
  {
    if |chunks| == 0 then 0 else |chunks[0]| + TotalLength(chunks[1..])
  }

  lemma {:induction false} TotalLengthAppend(xs: seq<seq<Byte>>, ys: seq<seq<Byte>>)
    ensures TotalLength(xs + ys) == TotalLength(xs) + TotalLength(ys)
    decreases |xs|
  {
    if |xs| == 0 {
      assert xs + ys == ys;
    } else {
      assert (xs + ys)[1..] == xs[1..] + ys;
      TotalLengthAppend(xs[1..], ys);
    }
  }

  /** The concatenation is exactly as long as the chunks together. */
  lemma {:induction false} FlattenLength(chunks: seq<seq<Byte>>)
    ensures |Flatten(chunks)| == TotalLength(chunks)
    decreases |chunks|
  {
    if |chunks| > 0 {
      FlattenLength(chunks[1..]);
    }
  }

  /** Adding the next chunk to a prefix of the chunks. */
  lemma PrefixStep(chunks: seq<seq<Byte>>, i: nat)
    requires i < |chunks|
    ensures TotalLength(chunks[..i + 1]) == TotalLength(chunks[..i]) + |chunks[i]|
    ensures Flatten(chunks[..i + 1]) == Flatten(chunks[..i]) + chunks[i]
    ensures TotalLength(chunks[..i + 1]) <= TotalLength(chunks)
  {
    assert chunks[..i + 1] == chunks[..i] + [chunks[i]];
    TotalLengthAppend(chunks[..i], [chunks[i]]);
    FlattenAppend(chunks[..i], [chunks[i]]);
    assert chunks == chunks[..i + 1] + chunks[i + 1..];
    TotalLengthAppend(chunks[..i + 1], chunks[i + 1..]);
    assert TotalLength([chunks[i]]) == |chunks[i]| + TotalLength([]);
    assert Flatten([chunks[i]]) == chunks[i] + Flatten([]);
  }

  /** The reduce over the chunk lengths. */
  method SumChunkLengths(chunks: seq<seq<Byte>>) returns (totalLength: nat)
    ensures totalLength == TotalLength(chunks)
  {
    totalLength := 0;
    var i := 0;
    while i < |chunks|
      invariant 0 <= i <= |chunks|
      invariant totalLength == TotalLength(chunks[..i])
    {
      PrefixStep(chunks, i);
      totalLength := totalLength + |chunks[i]|;
      i := i + 1;
    }
    assert chunks[..|chunks|] == chunks;
  }

  /** The copy loop: each chunk is written into the buffer at the running
      offset, which ends at the total length. */
  method ConcatenateChunks(chunks: seq<seq<Byte>>) returns (fullAudio: array<Byte>)
    ensures fullAudio.Length == TotalLength(chunks)
    ensures fullAudio[..] == Flatten(chunks)
  {
    var totalLength := SumChunkLengths(chunks);
    fullAudio := new Byte[totalLength];
    var offset := 0;
    var i := 0;
    while i < |chunks|
      invariant 0 <= i <= |chunks|
      invariant offset == TotalLength(chunks[..i]) <= totalLength
      invariant fullAudio[..offset] == Flatten(chunks[..i])
    {
      var chunk := chunks[i];
      PrefixStep(chunks, i);
      var j := 0;
      while j < |chunk|
        invariant 0 <= j <= |chunk|
        invariant fullAudio[..offset + j] == Flatten(chunks[..i]) + chunk[..j]
      {
        fullAudio[offset + j] := chunk[j];
        assert fullAudio[..offset + j + 1] == fullAudio[..offset + j] + [chunk[j]];
        assert chunk[..j + 1] == chunk[..j] + [chunk[j]];
        j := j + 1;
      }
      assert chunk[..|chunk|] == chunk;
      offset := offset + |chunk|;
      i := i + 1;
    }
    assert chunks[..|chunks|] == chunks;
    assert fullAudio[..] == fullAudio[..offset];
  }

  /** Chunk i sits in the concatenation at the offset given by the lengths
      of the chunks before it. */
  lemma {:induction false} ChunkAtOffset(chunks: seq<seq<Byte>>, i: nat)
    requires i < |chunks|
    ensures TotalLength(chunks[..i]) + |chunks[i]| <= |Flatten(chunks)|
    ensures Flatten(chunks)[TotalLength(chunks[..i])..TotalLength(chunks[..i]) + |chunks[i]|] == chunks[i]
  {
    PrefixStep(chunks, i);
    FlattenLength(chunks);
    FlattenLength(chunks[..i]);
    assert chunks == chunks[..i + 1] + chunks[i + 1..];
    FlattenAppend(chunks[..i + 1], chunks[i + 1..]);
    var pre := Flatten(chunks[..i]);
    var whole := Flatten(chunks);
    assert whole == pre + chunks[i] + Flatten(chunks[i + 1..]);
    assert whole[|pre|..|pre| + |chunks[i]|] == chunks[i];
  }

  // ---------------------------------------------------------------------
  // Headers
  // ---------------------------------------------------------------------

  const Base64Prefix := "base64:"

  /** The `context-text` header: a value marked `base64:` is decoded from
      the rest, anything else is used as it is. */
  function ContextTextFromHeader(raw: string, decodeBase64: string -> string): (r: string)
    ensures StartsWith(raw, Base64Prefix) ==> r == decodeBase64(raw[7..])
    ensures !StartsWith(raw, Base64Prefix) ==> r == raw
  {
    if StartsWith(raw, Base64Prefix) then decodeBase64(raw[7..]) else raw
  }

  /** Any payload sent behind the marker is decoded as it was sent. */
  lemma MarkedPayloadIsDecoded(payload: string, decodeBase64: string -> string)
    ensures ContextTextFromHeader(Base64Prefix + payload, decodeBase64) == decodeBase64(payload)
  {
    assert (Base64Prefix + payload)[..7] == Base64Prefix;
    assert (Base64Prefix + payload)[7..] == payload;
  }

  /** The enum value of a numeric mode code (TRANSCRIBE is 0, EDIT is 1). */
  function ModeOfCode(code: int): (m: ItoMode)
    ensures code == 0 <==> m == Transcribe
    ensures code == 1 <==> m == Edit
  {
    if code == 0 then Transcribe else if code == 1 then Edit else OtherMode(code)
  }

  /** `mode || detectItoMode(transcript)`: the header mode is used only when
      it is a non-zero code; a missing header, an unparsable one and code 0
      all fall back to detection from the transcript. */
  function SelectModeV1(headerCode: Option<int>, transcript: string): (m: ItoMode)
    ensures headerCode.Some? && headerCode.value != 0 ==> m == ModeOfCode(headerCode.value)
    ensures headerCode.None? || headerCode == Some(0) ==> m == DetectItoMode(transcript)
  {
    if headerCode.Some? && headerCode.value != 0 then ModeOfCode(headerCode.value)
    else DetectItoMode(transcript)
  }

  /** Because TRANSCRIBE is the falsy code 0, a client that asks for
      TRANSCRIBE still gets EDIT when the transcript opens with a wake
      phrase: the request cannot force TRANSCRIBE. */
  lemma TranscribeHeaderDoesNotForceTranscribe(transcript: string)
    requires |Words(transcript)| >= 2
    requires ToLower(Words(transcript)[0]) == "hey" && ToLower(Words(transcript)[1]) == "ito"
    ensures ModeOfCode(0) == Transcribe && SelectModeV1(Some(0), transcript) == Edit
  {
    DetectHeyIto(transcript);
  }

  // ---------------------------------------------------------------------
  // Processing
  // ---------------------------------------------------------------------

  /** The validated header settings the handler reads, each in its
      textual form. */
  datatype HeaderSettings = HeaderSettings(
    asrModel: string,
    asrProvider: string,
    llmProvider: string,
    llmModel: string,
    llmTemperature: string,
    transcriptionPrompt: string,
    noSpeechThreshold: string)

  /** The request headers, already read; an absent `vocabulary` header is "". */
  datatype Headers = Headers(
    windowTitle: string,
    appName: string,
    browserUrl: string,
    browserDomain: string,
    contextText: string,
    modeCode: Option<int>,
    vocabulary: string)

  /** The options of the ASR call. */
  datatype AsrOptions = AsrOptions(fileType: string, asrModel: string, noSpeechThreshold: string, vocabulary: seq<string>)

  /** The format the audio is sent in: 16 kHz, 16-bit, mono. */
  const SampleRate := 16000
  const BitDepth := 16
  const Channels := 1

  /** The collaborators of `process`: PCM enhancement, the WAV header
      (data length, sample rate, channels, bit depth), the vocabulary
      header validator, the available clients with their ASR and LLM
      calls, base64 decoding, and the fixed prompt texts. */
  datatype Services = Services(
    enhance: (seq<Byte>, int) -> seq<Byte>,
    wavHeader: (int, int, int, int) -> seq<Byte>,
    validateVocabulary: string -> Result<seq<string>, Failure>,
    clients: ProviderUtils.Availability,
    transcribe: (ProviderUtils.Client, seq<Byte>, AsrOptions) -> Result<string, Failure>,
    adjust: (ProviderUtils.Client, string, LlmOptions) -> Result<string, Failure>,
    decodeBase64: string -> string,
    prompts: ModePrompts,
    markers: Markers,
    editSystemPrompt: string)

  /** The catch block: RPC errors propagate, anything else is answered with
      an empty transcript and the error. */
  function FailV1(f: Failure, settings: HeaderSettings): (o: Outcome)
    ensures f.RpcError? ==> o == Rethrown(f)
    ensures f.OtherError? ==> o == ErrorResponse(f, settings.asrProvider)
  {
    if f.RpcError? then Rethrown(f) else ErrorResponse(f, settings.asrProvider)
  }

  /** The WAV file sent for transcription: the enhanced PCM behind a header
      that describes it. */
  function WavAudio(audio: seq<Byte>, s: Services): (wav: seq<Byte>)
    ensures var pcm := s.enhance(audio, SampleRate);
      |wav| >= |pcm| && wav[|wav| - |pcm|..] == pcm
      && wav[..|wav| - |pcm|] == s.wavHeader(|pcm|, SampleRate, Channels, BitDepth)
  {
    var pcm := s.enhance(audio, SampleRate);
    s.wavHeader(|pcm|, SampleRate, Channels, BitDepth) + pcm
  }

  /** Steps 2 to 4 of `process`: the vocabulary header is validated (an
      absent one is the empty list), the ASR client of the header's
      provider is picked, and it transcribes the WAV file with the header
      settings. */
  function Transcribed(audio: seq<Byte>, h: Headers, settings: HeaderSettings, s: Services): (r: Result<string, Failure>)
    ensures h.vocabulary != "" && s.validateVocabulary(h.vocabulary).Err? ==>
      r == Err(s.validateVocabulary(h.vocabulary).error)
    ensures ((h.vocabulary == "" || s.validateVocabulary(h.vocabulary).Ok?)
          && ProviderUtils.GetAsrProvider(settings.asrProvider, s.clients).Err?) ==>
      r == Err(ClientFailure(ProviderUtils.Unavailable(settings.asrProvider)))
    ensures ((h.vocabulary == "" || s.validateVocabulary(h.vocabulary).Ok?)
          && ProviderUtils.GetAsrProvider(settings.asrProvider, s.clients).Ok?) ==>
      var vocabulary := if h.vocabulary == "" then [] else s.validateVocabulary(h.vocabulary).value;
      r == s.transcribe(ProviderUtils.GetAsrProvider(settings.asrProvider, s.clients).value, WavAudio(audio, s),
                        AsrOptions("wav", settings.asrModel, settings.noSpeechThreshold, vocabulary))
  {
    var wav := WavAudio(audio, s);
    var vocabulary := if h.vocabulary == "" then Ok([]) else s.validateVocabulary(h.vocabulary);
    if vocabulary.Err? then Err(vocabulary.error)
    else
      match ProviderUtils.GetAsrProvider(settings.asrProvider, s.clients)
      case Err(e) => Err(ClientFailure(e))
      case Ok(client) => s.transcribe(client, wav, AsrOptions("wav", settings.asrModel, settings.noSpeechThreshold, vocabulary.value))
  }

  /** The EDIT-mode user prompt: the editing prompt, a line break, and
      the transcript wrapped with the header's window context. */
  function EditUserPrompt(transcript: string, h: Headers, settings: HeaderSettings, s: Services): (p: string)
    ensures StartsWith(p, GetPromptForMode(Edit, settings.transcriptionPrompt, s.prompts, None) + "\n")
  {
    var contextText := ContextTextFromHeader(h.contextText, s.decodeBase64);
    var context := ItoContext(h.windowTitle, h.appName, contextText, h.browserUrl, h.browserDomain, "", "");
    var prefix := GetPromptForMode(Edit, settings.transcriptionPrompt, s.prompts, None) + "\n";
    var p := prefix + CreateUserPromptWithContext(transcript, Some(context), s.markers);
    assert p[..|prefix|] == prefix;
    p
  }

  /** The EDIT-mode LLM step: the client of the header's LLM provider
      rewrites the editing prompt followed by the user prompt, with the
      header's temperature and model and the EDIT system prompt. */
  function EditAdjustment(transcript: string, h: Headers, settings: HeaderSettings, s: Services): (r: Result<string, Failure>)
    ensures ProviderUtils.GetLlmProvider(settings.llmProvider, s.clients).Err? ==>
      r == Err(ClientFailure(ProviderUtils.Unavailable(settings.llmProvider)))
    ensures ProviderUtils.GetLlmProvider(settings.llmProvider, s.clients).Ok? ==>
      exists userPrompt ::
        && StartsWith(userPrompt, GetPromptForMode(Edit, settings.transcriptionPrompt, s.prompts, None) + "\n")
        && r == s.adjust(ProviderUtils.GetLlmProvider(settings.llmProvider, s.clients).value, userPrompt,
                         LlmOptions(settings.llmTemperature, settings.llmModel, s.editSystemPrompt))
  {
    var userPrompt := EditUserPrompt(transcript, h, settings, s);
    match ProviderUtils.GetLlmProvider(settings.llmProvider, s.clients)
    case Err(e) => Err(ClientFailure(e))
    case Ok(client) => s.adjust(client, userPrompt, LlmOptions(settings.llmTemperature, settings.llmModel, s.editSystemPrompt))
  }

  /** The handler's `try` block, once the header settings are read:
      transcribe, pick the mode, and adjust through the LLM only in EDIT
      mode, where the adjusted text is what the client receives. A failure
      on the way that is not an RPC error is answered with an error
      response naming the ASR provider. */
  function ProcessValidated(audio: seq<Byte>, h: Headers, settings: HeaderSettings, s: Services): (o: Outcome)
    ensures o.Rethrown? ==> o.rpc.RpcError?
    ensures Transcribed(audio, h, settings, s).Err? ==> o == FailV1(Transcribed(audio, h, settings, s).error, settings)
    ensures Transcribed(audio, h, settings, s).Err? && Transcribed(audio, h, settings, s).error.OtherError? ==>
      o == ErrorResponse(Transcribed(audio, h, settings, s).error, settings.asrProvider)
    ensures Transcribed(audio, h, settings, s).Ok? ==>
      var transcript := Transcribed(audio, h, settings, s).value;
      if SelectModeV1(h.modeCode, transcript) != Edit then o == Transcript(transcript)
      else match EditAdjustment(transcript, h, settings, s)
        case Ok(adjusted) => o == Transcript(adjusted)
        case Err(f) => o == FailV1(f, settings)
  {
    match Transcribed(audio, h, settings, s)
    case Err(f) => FailV1(f, settings)
    case Ok(transcript) =>
      if SelectModeV1(h.modeCode, transcript) == Edit then
        match EditAdjustment(transcript, h, settings, s)
        case Err(f) => FailV1(f, settings)
        case Ok(adjusted) => Transcript(adjusted)
      else Transcript(transcript)
  }

  /** `process` after the audio is concatenated. `headerSettings` is the
      outcome of reading and validating the advanced-settings headers,
      which happens before the handler's `try`: a failure there escapes
      as it is, RPC error or not. */
  function ProcessV1(audio: seq<Byte>, h: Headers, headerSettings: Result<HeaderSettings, Failure>, s: Services): (o: Outcome)
    ensures headerSettings.Err? ==> o == Rethrown(headerSettings.error)
    ensures headerSettings.Ok? ==> o == ProcessValidated(audio, h, headerSettings.value, s)
    ensures headerSettings.Ok? && o.Rethrown? ==> o.rpc.RpcError?
    ensures o.Rethrown? && o.rpc.OtherError? ==> headerSettings == Err(o.rpc)
  {
    match headerSettings
    case Err(f) => Rethrown(f)
    case Ok(settings) => ProcessValidated(audio, h, settings, s)
  }

  /** In EDIT mode the LLM sees the editing prompt on the first line of its
      user prompt, then the transcript in its context. */
  lemma EditPromptHeadsUserPrompt(prompts: ModePrompts, transcriptionPrompt: string, transcript: string,
                                  context: ItoContext, markers: Markers)
    ensures var p := GetPromptForMode(Edit, transcriptionPrompt, prompts, None) + "\n"
                     + CreateUserPromptWithContext(transcript, Some(context), markers);
      StartsWith(p, prompts.edit + "\n") && EndsWith(p, CommandSection(transcript, markers))
  {
    var head := prompts.edit + "\n";
    var u := CreateUserPromptWithContext(transcript, Some(context), markers);
    var p := head + u;
    assert p[..|head|] == head;
    assert p[|p| - |CommandSection(transcript, markers)|..] == u[|u| - |CommandSection(transcript, markers)|..];
  }
}
