/** The streaming transcription handler (version 2): it collects the audio
    and the configuration messages of a client stream, merges the
    configurations, undoes a mode switch made just before the stream ended,
    and turns the transcript of the audio into the final text. */
module TranscribeStreamV2 {
  import opened Common
  import opened Protocol
  import opened ItoHelpers
  import opened LlmUtils
  import ProviderUtils

  // ---------------------------------------------------------------------
  // Merging configuration messages
  // ---------------------------------------------------------------------

  /** A later string field wins when it is not empty. */
  function PickText(update: string, base: string): (r: string)
    ensures update != "" ==> r == update
    ensures update == "" ==> r == base
  {
    if update != "" then update else base
  }

  /** The mode of a configuration, when it has a context with a mode. */
  function ModeOf(c: StreamConfig): Option<ItoMode> {
    if c.context.Some? then c.context.value.mode else None
  }

  /** `mergeContext`: an absent update keeps the base, an absent base takes
      the update, and otherwise every field is merged on its own. */
  function MergeContext(base: Option<ContextInfo>, update: Option<ContextInfo>): (r: Option<ContextInfo>)
    ensures update.None? ==> r == base
    ensures base.None? ==> r == update
    ensures base.Some? && update.Some? ==>
      && r.Some?
      && r.value.mode == (if update.value.mode.Some? then update.value.mode else base.value.mode)
      && r.value.windowTitle == PickText(update.value.windowTitle, base.value.windowTitle)
      && r.value.appName == PickText(update.value.appName, base.value.appName)
      && r.value.contextText == PickText(update.value.contextText, base.value.contextText)
      && r.value.browserUrl == PickText(update.value.browserUrl, base.value.browserUrl)
      && r.value.browserDomain == PickText(update.value.browserDomain, base.value.browserDomain)
      && r.value.tonePrompt == PickText(update.value.tonePrompt, base.value.tonePrompt)
  {
    if update.None? then base
    else if base.None? then update
    else
      var b := base.value;
      var u := update.value;
      Some(ContextInfo(
        if u.mode.Some? then u.mode else b.mode,
        PickText(u.windowTitle, b.windowTitle),
        PickText(u.appName, b.appName),
        PickText(u.contextText, b.contextText),
        PickText(u.browserUrl, b.browserUrl),
        PickText(u.browserDomain, b.browserDomain),
        PickText(u.tonePrompt, b.tonePrompt)))
  }

  /** `mergeStreamConfigs`: the update's settings are laid over the base's,
      its lists replace the base's only when non-empty, and an empty
      interaction id or absent user details keep the base's. */
  function MergeStreamConfigs(base: StreamConfig, update: StreamConfig): (r: StreamConfig)
    ensures r.context == MergeContext(base.context, update.context)
    ensures update.llmSettings.None? ==> r.llmSettings == base.llmSettings
    ensures update.llmSettings.Some? ==>
      && r.llmSettings.Some?
      && (forall k :: k in update.llmSettings.value ==> k in r.llmSettings.value && r.llmSettings.value[k] == update.llmSettings.value[k])
      && (base.llmSettings.Some? ==> forall k :: k in base.llmSettings.value && k !in update.llmSettings.value ==>
            k in r.llmSettings.value && r.llmSettings.value[k] == base.llmSettings.value[k])
      && (forall k :: k in r.llmSettings.value ==> k in update.llmSettings.value || (base.llmSettings.Some? && k in base.llmSettings.value))
    ensures r.vocabulary == (if |update.vocabulary| > 0 then update.vocabulary else base.vocabulary)
    ensures r.replacements == (if |update.replacements| > 0 then update.replacements else base.replacements)
    ensures r.interactionId == PickText(update.interactionId, base.interactionId)
    ensures r.userDetails == (if update.userDetails.Some? then update.userDetails else base.userDetails)
  {
    StreamConfig(
      MergeContext(base.context, update.context),
      Overlay(base.llmSettings, update.llmSettings),
      if |update.vocabulary| > 0 then update.vocabulary else base.vocabulary,
      if |update.replacements| > 0 then update.replacements else base.replacements,
      PickText(update.interactionId, base.interactionId),
      if update.userDetails.Some? then update.userDetails else base.userDetails)
  }

  /** The configuration a stream starts from. */
  const EmptyConfig := StreamConfig(None, None, [], [], "", None)

  /** The starting configuration changes nothing on either side of a merge. */
  lemma MergeIdentity(c: StreamConfig)
    ensures MergeStreamConfigs(EmptyConfig, c) == c
    ensures MergeStreamConfigs(c, EmptyConfig) == c
  {
    if c.llmSettings.Some? {
      assert map[] + c.llmSettings.value == c.llmSettings.value;
    }
  }

  /** Repeating the same update is harmless. */
  lemma MergeRepeatedUpdate(base: StreamConfig, update: StreamConfig)
    ensures MergeStreamConfigs(MergeStreamConfigs(base, update), update) == MergeStreamConfigs(base, update)
  {
    var once := MergeStreamConfigs(base, update);
    if update.llmSettings.Some? {
      var m := once.llmSettings.value;
      assert m + update.llmSettings.value == m;
    }
  }

  lemma MergeContextAssociative(a: Option<ContextInfo>, b: Option<ContextInfo>, c: Option<ContextInfo>)
    ensures MergeContext(MergeContext(a, b), c) == MergeContext(a, MergeContext(b, c))
  {
  }

  /** Merging is associative, so the order in which several updates are
      grouped does not matter, only their order in the stream. */
  lemma MergeAssociative(a: StreamConfig, b: StreamConfig, c: StreamConfig)
    ensures MergeStreamConfigs(MergeStreamConfigs(a, b), c) == MergeStreamConfigs(a, MergeStreamConfigs(b, c))
  {
    MergeContextAssociative(a.context, b.context, c.context);
    OverlayAssociative(a.llmSettings, b.llmSettings, c.llmSettings);
  }

  /** The shallow overlay of LLM settings that `mergeStreamConfigs` does. */
  function Overlay(base: Option<LlmSettings>, update: Option<LlmSettings>): Option<LlmSettings> {
    if update.Some? then Some(base.GetOr(map[]) + update.value) else base
  }

  lemma OverlayAssociative(a: Option<LlmSettings>, b: Option<LlmSettings>, c: Option<LlmSettings>)
    ensures Overlay(Overlay(a, b), c) == Overlay(a, Overlay(b, c))
  {
    if c.Some? {
      var ma := a.GetOr(map[]);
      var mc := c.value;
      if b.Some? {
        var mb := b.value;
        assert (ma + mb) + mc == ma + (mb + mc);
      } else {
        assert map[] + mc == mc;
      }
    }
  }

  /** The mode after a merge is the update's mode when it has one, and the
      base's otherwise. */
  lemma MergeMode(base: StreamConfig, update: StreamConfig)
    ensures ModeOf(MergeStreamConfigs(base, update)) == (if ModeOf(update).Some? then ModeOf(update) else ModeOf(base))
  {
  }

  /** The configuration messages of a stream merged from left to right. */
  function FoldConfigs(acc: StreamConfig, configs: seq<StreamConfig>): StreamConfig
    decreases |configs|
  {
    if |configs| == 0 then acc else FoldConfigs(MergeStreamConfigs(acc, configs[0]), configs[1..])
  }

  /** When no message sets a mode, the mode is the one merged into. */
  lemma {:induction false} FoldKeepsModeWithoutModes(acc: StreamConfig, configs: seq<StreamConfig>)
    requires forall j :: 0 <= j < |configs| ==> ModeOf(configs[j]).None?
    ensures ModeOf(FoldConfigs(acc, configs)) == ModeOf(acc)
    decreases |configs|
  {
    if |configs| > 0 {
      MergeMode(acc, configs[0]);
      FoldKeepsModeWithoutModes(MergeStreamConfigs(acc, configs[0]), configs[1..]);
    }
  }

  /** The last message that sets a mode decides the merged mode. */
  lemma {:induction false} FoldTakesLastMode(acc: StreamConfig, configs: seq<StreamConfig>, i: nat)
    requires i < |configs| && ModeOf(configs[i]).Some?
    requires forall j :: i < j < |configs| ==> ModeOf(configs[j]).None?
    ensures ModeOf(FoldConfigs(acc, configs)) == ModeOf(configs[i])
    decreases |configs|
  {
    var next := MergeStreamConfigs(acc, configs[0]);
    MergeMode(acc, configs[0]);
    if i == 0 {
      FoldKeepsModeWithoutModes(next, configs[1..]);
    } else {
      FoldTakesLastMode(next, configs[1..], i - 1);
    }
  }

  // ---------------------------------------------------------------------
  // Collecting the stream
  // ---------------------------------------------------------------------

  /** One message of the client stream; a configuration message carries the
      server clock reading taken when it arrived. */
  datatype StreamRequest =
    | AudioData(chunk: seq<Byte>)
    | Config(config: StreamConfig, receivedAt: int)
    | NoPayload

  /** What `collectStreamData` accumulates. */
  datatype Collected = Collected(
    audioChunks: seq<seq<Byte>>,
    mergedConfig: StreamConfig,
    lastModeChangeTimestamp: Option<int>,
    previousMode: Option<ItoMode>)

  const InitialCollected := Collected([], EmptyConfig, None, None)

  /** One round of the collection loop. */
  function CollectStep(s: Collected, request: StreamRequest): Collected {
    match request
    case AudioData(chunk) => s.(audioChunks := s.audioChunks + [chunk])
    case Config(config, at) =>
      var currentMode := ModeOf(s.mergedConfig);
      var merged := MergeStreamConfigs(s.mergedConfig, config);
      var newMode := ModeOf(merged);
      if newMode.Some? && newMode != currentMode then
        Collected(s.audioChunks, merged, Some(at), currentMode)
      else s.(mergedConfig := merged)
    case NoPayload => s
  }

  /** The whole collection loop, from a given state. */
  function Collect(s: Collected, requests: seq<StreamRequest>): Collected
    decreases |requests|
  {
    if |requests| == 0 then s else Collect(CollectStep(s, requests[0]), requests[1..])
  }

  /** The audio payloads of a stream, in stream order. */
  function AudioPayloads(requests: seq<StreamRequest>): seq<seq<Byte>>
    decreases |requests|
  {
    if |requests| == 0 then []
    else (if requests[0].AudioData? then [requests[0].chunk] else []) + AudioPayloads(requests[1..])
  }

  /** The configuration payloads of a stream, in stream order. */
  function ConfigPayloads(requests: seq<StreamRequest>): seq<StreamConfig>
    decreases |requests|
  {
    if |requests| == 0 then []
    else (if requests[0].Config? then [requests[0].config] else []) + ConfigPayloads(requests[1..])
  }

  /** The collected audio is exactly the audio payloads, in order. */
  lemma {:induction false} CollectAudio(s: Collected, requests: seq<StreamRequest>)
    ensures Collect(s, requests).audioChunks == s.audioChunks + AudioPayloads(requests)
    decreases |requests|
  {
    if |requests| > 0 {
      CollectAudio(CollectStep(s, requests[0]), requests[1..]);
    }
  }

  /** The collected configuration is the configuration payloads merged from
      left to right. */
  lemma {:induction false} CollectConfig(s: Collected, requests: seq<StreamRequest>)
    ensures Collect(s, requests).mergedConfig == FoldConfigs(s.mergedConfig, ConfigPayloads(requests))
    decreases |requests|
  {
    if |requests| > 0 {
      CollectConfig(CollectStep(s, requests[0]), requests[1..]);
      var rest := ConfigPayloads(requests[1..]);
      if requests[0].Config? {
        assert ConfigPayloads(requests) == [requests[0].config] + rest;
        assert ([requests[0].config] + rest)[1..] == rest;
      } else {
        assert ConfigPayloads(requests) == rest;
      }
    }
  }

  /** The mode-change record moves only on a configuration message after
      which the mode is defined and differs from the mode before it; then it
      records that message's arrival time and the mode before it. */
  lemma ModeChangeTracking(s: Collected, request: StreamRequest)
    ensures var t := CollectStep(s, request);
      (t.lastModeChangeTimestamp, t.previousMode) != (s.lastModeChangeTimestamp, s.previousMode) ==>
        && request.Config?
        && ModeOf(t.mergedConfig).Some?
        && ModeOf(t.mergedConfig) != ModeOf(s.mergedConfig)
    ensures var t := CollectStep(s, request);
      request.Config? && ModeOf(t.mergedConfig).Some? && ModeOf(t.mergedConfig) != ModeOf(s.mergedConfig) ==>
        t.lastModeChangeTimestamp == Some(request.receivedAt) && t.previousMode == ModeOf(s.mergedConfig)
  {
  }

  /** A stream whose messages never change the mode records no change. */
  lemma {:induction false} NoModeMessagesNoChange(s: Collected, requests: seq<StreamRequest>)
    requires forall j :: 0 <= j < |requests| ==> !requests[j].Config? || ModeOf(requests[j].config).None?
    ensures Collect(s, requests).lastModeChangeTimestamp == s.lastModeChangeTimestamp
    ensures Collect(s, requests).previousMode == s.previousMode
    decreases |requests|
  {
    if |requests| > 0 {
      if requests[0].Config? {
        MergeMode(s.mergedConfig, requests[0].config);
      }
      NoModeMessagesNoChange(CollectStep(s, requests[0]), requests[1..]);
    }
  }

  /** `collectStreamData`: reads the stream once, appending audio and merging
      configuration messages. */
  method CollectStreamData(requests: seq<StreamRequest>)
    returns (audioChunks: seq<seq<Byte>>, mergedConfig: StreamConfig,
             lastModeChangeTimestamp: Option<int>, previousMode: Option<ItoMode>)
    ensures Collected(audioChunks, mergedConfig, lastModeChangeTimestamp, previousMode) == Collect(InitialCollected, requests)
    ensures audioChunks == AudioPayloads(requests)
    ensures mergedConfig == FoldConfigs(EmptyConfig, ConfigPayloads(requests))
  {
    audioChunks := [];
    mergedConfig := EmptyConfig;
    lastModeChangeTimestamp := None;
    previousMode := None;
    var i := 0;
    while i < |requests|
      invariant 0 <= i <= |requests|
      invariant Collect(Collected(audioChunks, mergedConfig, lastModeChangeTimestamp, previousMode), requests[i..])
        == Collect(InitialCollected, requests)
    {
      var request := requests[i];
      assert requests[i..][1..] == requests[i + 1..];
      match request {
        case AudioData(chunk) =>
          audioChunks := audioChunks + [chunk];
        case Config(config, at) =>
          var currentMode := ModeOf(mergedConfig);
          mergedConfig := MergeStreamConfigs(mergedConfig, config);
          var newMode := ModeOf(mergedConfig);
          if newMode.Some? && newMode != currentMode {
            previousMode := currentMode;
            lastModeChangeTimestamp := Some(at);
          }
        case NoPayload =>
      }
      i := i + 1;
    }
    assert requests[|requests|..] == [];
    CollectAudio(InitialCollected, requests);
    CollectConfig(InitialCollected, requests);
  }

  /** The audio payloads of two consecutive parts of a stream are those of
      the first part followed by those of the second. */
  lemma {:induction false} AudioPayloadsAppend(r1: seq<StreamRequest>, r2: seq<StreamRequest>)
    ensures AudioPayloads(r1 + r2) == AudioPayloads(r1) + AudioPayloads(r2)
    decreases |r1|
  {
    if |r1| > 0 {
      assert (r1 + r2)[1..] == r1[1..] + r2;
      AudioPayloadsAppend(r1[1..], r2);
    } else {
      assert r1 + r2 == r2;
    }
  }

  /** The audio `process` transcribes: the collected chunks joined together. */
  function StreamAudio(requests: seq<StreamRequest>): seq<Byte> {
    Flatten(Collect(InitialCollected, requests).audioChunks)
  }

  /** The transcribed audio is every audio payload of the stream, in arrival
      order, whatever configuration messages are interleaved with them. */
  lemma StreamAudioIsPayloads(requests: seq<StreamRequest>)
    ensures StreamAudio(requests) == Flatten(AudioPayloads(requests))
  {
    CollectAudio(InitialCollected, requests);
    assert InitialCollected.audioChunks + AudioPayloads(requests) == AudioPayloads(requests);
  }

  /** A stream cut in two carries the audio of the first part followed by
      the audio of the second. */
  lemma StreamAudioSplits(r1: seq<StreamRequest>, r2: seq<StreamRequest>)
    ensures StreamAudio(r1 + r2) == StreamAudio(r1) + StreamAudio(r2)
  {
    StreamAudioIsPayloads(r1 + r2);
    StreamAudioIsPayloads(r1);
    StreamAudioIsPayloads(r2);
    AudioPayloadsAppend(r1, r2);
    FlattenAppend(AudioPayloads(r1), AudioPayloads(r2));
  }

  // ---------------------------------------------------------------------
  // Mode grace period
  // ---------------------------------------------------------------------

  /** A mode change this close to the end of the stream (in milliseconds)
      is treated as accidental. */
  const ModeChangeGracePeriodMs := 100

  /** Whether `applyModeGracePeriod` restores the previous mode. */
  predicate RevertsMode(mergedConfig: StreamConfig, lastModeChangeTimestamp: Option<int>, streamEndTime: int) {
    && lastModeChangeTimestamp.Some?
    && streamEndTime - lastModeChangeTimestamp.value <= ModeChangeGracePeriodMs
    && mergedConfig.context.Some?
  }

  /** `applyModeGracePeriod`: within the grace period the context's mode goes
      back to the mode before the last change; nothing else changes. */
  function ApplyModeGracePeriod(mergedConfig: StreamConfig, lastModeChangeTimestamp: Option<int>,
                                previousMode: Option<ItoMode>, streamEndTime: int): (r: StreamConfig)
    ensures !RevertsMode(mergedConfig, lastModeChangeTimestamp, streamEndTime) ==> r == mergedConfig
    ensures RevertsMode(mergedConfig, lastModeChangeTimestamp, streamEndTime) ==>
      r.context.Some? && r.context.value.mode == previousMode
    ensures r.context.Some? <==> mergedConfig.context.Some?
    ensures r.context.Some? ==> r.context.value.(mode := mergedConfig.context.value.mode) == mergedConfig.context.value
    ensures r.(context := mergedConfig.context) == mergedConfig
  {
    if RevertsMode(mergedConfig, lastModeChangeTimestamp, streamEndTime) then
      mergedConfig.(context := Some(mergedConfig.context.value.(mode := previousMode)))
    else mergedConfig
  }

  /** After a stream whose last mode change came within the grace period,
      the mode in force is the one that preceded that change. */
  lemma GraceRestoresModeBeforeLastChange(requests: seq<StreamRequest>, streamEndTime: int)
    requires var c := Collect(InitialCollected, requests);
      RevertsMode(c.mergedConfig, c.lastModeChangeTimestamp, streamEndTime)
    ensures var c := Collect(InitialCollected, requests);
      ModeOf(ApplyModeGracePeriod(c.mergedConfig, c.lastModeChangeTimestamp, c.previousMode, streamEndTime)) == c.previousMode
  {
  }

  // ---------------------------------------------------------------------
  // Settings with defaults
  // ---------------------------------------------------------------------

  /** `resolveOrDefault`: an absent or empty value falls back to the default. */
  function ResolveOrDefault(value: Option<string>, defaultValue: string): (r: string)
    ensures value.None? || value == Some("") ==> r == defaultValue
    ensures value.Some? && value.value != "" ==> r == value.value
    ensures r == defaultValue || (value.Some? && r == value.value)
  {
    if value.None? || value.value == "" then defaultValue else value.value
  }

  /** A default never replaces a value that is present and non-empty, and a
      non-empty default always yields a non-empty setting. */
  lemma ResolvedNeverEmpty(value: Option<string>, defaultValue: string)
    requires defaultValue != ""
    ensures ResolveOrDefault(value, defaultValue) != ""
  {
  }

  /** One named setting of a configuration, if it was sent. */
  function Setting(settings: Option<LlmSettings>, key: string): Option<string> {
    if settings.Some? && key in settings.value then Some(settings.value[key]) else None
  }

  /** The built-in advanced settings used where a stream sends none. */
  datatype AsrDefaults = AsrDefaults(asrModel: string, asrProvider: string, noSpeechThreshold: string)

  datatype AsrConfig = AsrConfig(asrModel: string, asrProvider: string, noSpeechThreshold: string, vocabulary: seq<string>)

  /** `extractAsrConfig`. */
  function ExtractAsrConfig(c: StreamConfig, defaults: AsrDefaults): (r: AsrConfig)
    ensures r.asrModel == ResolveOrDefault(Setting(c.llmSettings, "asrModel"), defaults.asrModel)
    ensures r.asrProvider == ResolveOrDefault(Setting(c.llmSettings, "asrProvider"), defaults.asrProvider)
    ensures r.noSpeechThreshold == ResolveOrDefault(Setting(c.llmSettings, "noSpeechThreshold"), defaults.noSpeechThreshold)
    ensures r.vocabulary == c.vocabulary
  {
    AsrConfig(
      ResolveOrDefault(Setting(c.llmSettings, "asrModel"), defaults.asrModel),
      ResolveOrDefault(Setting(c.llmSettings, "asrProvider"), defaults.asrProvider),
      ResolveOrDefault(Setting(c.llmSettings, "noSpeechThreshold"), defaults.noSpeechThreshold),
      c.vocabulary)
  }

  // ---------------------------------------------------------------------
  // User details
  // ---------------------------------------------------------------------

  /** A labelled line, present only for a non-empty value. */
  function LabelledLine(tag: string, value: string): (r: seq<string>)
    ensures value == "" <==> r == []
  {
    if value != "" then [tag + value] else []
  }

  /** The labelled profile lines, in their fixed order. */
  function ProfileLines(d: UserDetailsInfo): seq<string> {
    LabelledLine("Name: ", d.fullName)
    + LabelledLine("Occupation: ", d.occupation)
    + LabelledLine("Company: ", d.companyName)
    + LabelledLine("Role: ", d.role)
    + LabelledLine("Email: ", d.email)
    + LabelledLine("Phone: ", d.phoneNumber)
    + LabelledLine("Address: ", d.businessAddress)
    + LabelledLine("Website: ", d.website)
    + LabelledLine("LinkedIn: ", d.linkedin)
  }

  /** An additional-info line is kept when it is not blank. */
  predicate IsNonBlankLine(line: string) {
    !IsBlank(line)
  }

  /** Not blank is exactly what `line.trim()` being non-empty tests. */
  lemma NonBlankLineTrimsToText(line: string)
    ensures IsNonBlankLine(line) <==> Trim(line) != ""
  {
    TrimEmptyIffBlank(line);
  }

  /** All lines of the details context: the profile lines, then the
      non-blank additional lines in their order. */
  function DetailLines(d: UserDetailsInfo): seq<string> {
    ProfileLines(d) + Filter(d.additionalInfo, IsNonBlankLine)
  }

  /** Whether the details are worth a context at all. */
  predicate HasProfile(userDetails: Option<UserDetailsInfo>) {
    userDetails.Some? && (userDetails.value.fullName != "" || userDetails.value.occupation != "")
  }

  /** The text `buildUserDetailsContext` produces. */
  function UserDetailsContext(userDetails: Option<UserDetailsInfo>): string {
    if HasProfile(userDetails) then Join(DetailLines(userDetails.value), "\n") else ""
  }

  /** The additional-info loop: the non-blank lines, in their order. */
  method KeepNonBlankLines(info: seq<string>) returns (kept: seq<string>)
    ensures kept == Filter(info, IsNonBlankLine)
  {
    kept := [];
    var i := 0;
    while i < |info|
      invariant 0 <= i <= |info|
      invariant kept == Filter(info[..i], IsNonBlankLine)
    {
      var line := info[i];
      if IsNonBlankLine(line) {
        kept := kept + [line];
      }
      assert kept == Filter(info[..i + 1], IsNonBlankLine) by {
        FilterStep(info, i, IsNonBlankLine);
      }
      i := i + 1;
    }
    assert info[..|info|] == info;
  }

  /** `buildUserDetailsContext`: one line per filled-in field and per
      non-blank additional line, joined by line breaks. */
  method BuildUserDetailsContext(userDetails: Option<UserDetailsInfo>) returns (r: string)
    ensures !HasProfile(userDetails) ==> r == ""
    ensures HasProfile(userDetails) ==> r == Join(DetailLines(userDetails.value), "\n")
    ensures r == UserDetailsContext(userDetails)
  {
    if userDetails.None? {
      return "";
    }
    var d := userDetails.value;
    if d.fullName == "" && d.occupation == "" {
      return "";
    }
    var kept := KeepNonBlankLines(d.additionalInfo);
    r := Join(ProfileLines(d) + kept, "\n");
  }

  /** With a name or an occupation the context is never empty, and a name
      always opens it. */
  lemma UserDetailsContextShape(d: UserDetailsInfo)
    requires d.fullName != "" || d.occupation != ""
    ensures UserDetailsContext(Some(d)) != ""
    ensures d.fullName != "" ==> StartsWith(UserDetailsContext(Some(d)), "Name: " + d.fullName)
  {
    var lines := DetailLines(d);
    var first := if d.fullName != "" then "Name: " + d.fullName else "Occupation: " + d.occupation;
    assert lines[0] == first;
    if |lines| > 1 {
      var r := Join(lines, "\n");
      assert r == first + "\n" + Join(lines[1..], "\n");
      assert r[..|first|] == first;
    }
  }

  /** When no value contains a line break, splitting the context at line
      breaks gives back exactly its lines. */
  lemma UserDetailsContextLines(d: UserDetailsInfo)
    requires d.fullName != "" || d.occupation != ""
    requires forall i :: 0 <= i < |DetailLines(d)| ==> '\n' !in DetailLines(d)[i]
    ensures Split(UserDetailsContext(Some(d)), '\n') == DetailLines(d)
  {
    assert DetailLines(d)[0] == if d.fullName != "" then "Name: " + d.fullName else "Occupation: " + d.occupation;
    SplitJoin(DetailLines(d), '\n');
  }

  // ---------------------------------------------------------------------
  // Processing the collected stream
  // ---------------------------------------------------------------------

  /** The window context handed to the LLM: each missing field is empty. */
  function WindowContext(c: StreamConfig, userDetailsContext: string): (r: ItoContext)
    ensures c.context.None? ==> r == ItoContext("", "", "", "", "", "", userDetailsContext)
    ensures c.context.Some? ==>
      r == ItoContext(c.context.value.windowTitle, c.context.value.appName, c.context.value.contextText,
                      c.context.value.browserUrl, c.context.value.browserDomain, c.context.value.tonePrompt,
                      userDetailsContext)
  {
    if c.context.None? then ItoContext("", "", "", "", "", "", userDetailsContext)
    else
      var x := c.context.value;
      ItoContext(x.windowTitle, x.appName, x.contextText, x.browserUrl, x.browserDomain, x.tonePrompt, userDetailsContext)
  }

  /** The mode sent by the client, or else the mode the transcript asks for. */
  function SelectMode(c: StreamConfig, transcript: string): (m: ItoMode)
    ensures ModeOf(c).Some? ==> m == ModeOf(c).value
    ensures ModeOf(c).None? ==> m == DetectItoMode(transcript)
  {
    if ModeOf(c).Some? then ModeOf(c).value else DetectItoMode(transcript)
  }

  /** Without a mode from the client, the server only ever picks TRANSCRIBE
      or EDIT. */
  lemma SelectedModeIsKnown(c: StreamConfig, transcript: string)
    requires ModeOf(c).None?
    ensures SelectMode(c, transcript) == Edit || SelectMode(c, transcript) == Transcribe
  {
  }

  /** The system prompt of `adjustTranscriptForMode`: a non-blank tone
      prompt, a blank line and the smart-formatter prompt; otherwise the
      mode's own prompt. */
  function SystemPrompt(mode: ItoMode, transcriptionPrompt: string, prompts: ModePrompts,
                        tonePrompt: string, smartFormatterPrompt: string): (r: string)
    ensures Trim(tonePrompt) != "" ==> r == tonePrompt + "\n\n" + smartFormatterPrompt
    ensures Trim(tonePrompt) == "" ==> r == GetPromptForMode(mode, transcriptionPrompt, prompts, None)
  {
    if Trim(tonePrompt) != "" then tonePrompt + "\n\n" + smartFormatterPrompt
    else GetPromptForMode(mode, transcriptionPrompt, prompts, None)
  }

  /** A tone prompt overrides the mode: EDIT and TRANSCRIBE get the same
      system prompt. */
  lemma TonePromptOverridesMode(m1: ItoMode, m2: ItoMode, transcriptionPrompt: string, prompts: ModePrompts,
                                tonePrompt: string, smartFormatterPrompt: string)
    requires Trim(tonePrompt) != ""
    ensures SystemPrompt(m1, transcriptionPrompt, prompts, tonePrompt, smartFormatterPrompt)
         == SystemPrompt(m2, transcriptionPrompt, prompts, tonePrompt, smartFormatterPrompt)
  {
  }

  /** The built-in LLM settings used where a stream sends none. */
  datatype LlmDefaults = LlmDefaults(llmProvider: string, llmModel: string, llmTemperature: string)

  /** The collaborators of `process`: the WAV preparation of the joined
      audio, the ASR call, the LLM clients that are available and the
      adjustment call of one of them (client, user prompt, options), the
      whole-word replacer, and the fixed defaults and prompt texts. */
  datatype Services = Services(
    prepareAudio: seq<Byte> -> seq<Byte>,
    transcribe: (seq<Byte>, AsrConfig) -> Result<string, Failure>,
    clients: ProviderUtils.Availability,
    adjust: (ProviderUtils.Client, string, LlmOptions) -> Result<string, Failure>,
    replaceWord: WholeWordReplacer,
    defaults: AsrDefaults,
    llmDefaults: LlmDefaults,
    prompts: ModePrompts,
    markers: Markers,
    smartFormatterPrompt: string)

  /** The catch block: RPC errors propagate, every other error becomes a
      response naming the ASR provider of the stream (or the default one). */
  function Fail(f: Failure, c: StreamConfig, defaults: AsrDefaults): (o: Outcome)
    ensures f.RpcError? ==> o == Rethrown(f)
    ensures f.OtherError? ==> o.ErrorResponse? && o.failure == f
    ensures o.ErrorResponse? ==> o.provider == ResolveOrDefault(Setting(c.llmSettings, "asrProvider"), defaults.asrProvider)
  {
    if f.RpcError? then Rethrown(f)
    else ErrorResponse(f, ResolveOrDefault(Setting(c.llmSettings, "asrProvider"), defaults.asrProvider))
  }

  /** The final transcript step: the LLM output with the stream's
      replacements applied. */
  function Finish(adjusted: string, c: StreamConfig, s: Services): string {
    ApplyAll(adjusted, c.replacements, s.replaceWord)
  }

  /** The two prompts `process` hands to the LLM after a successful
      transcription: the user prompt around the transcript and the window
      context, and the system prompt of the selected mode or tone. */
  function LlmPrompts(c: StreamConfig, transcript: string, s: Services): (string, string) {
    var context := WindowContext(c, UserDetailsContext(c.userDetails));
    var mode := SelectMode(c, transcript);
    var transcriptionPrompt := ResolveOrDefault(Setting(c.llmSettings, "transcriptionPrompt"), s.prompts.transcribe);
    (CreateUserPromptWithContext(transcript, Some(context), s.markers),
     SystemPrompt(mode, transcriptionPrompt, s.prompts, context.tonePrompt, s.smartFormatterPrompt))
  }

  /** The stream's LLM provider, after its default. */
  function LlmProviderName(c: StreamConfig, s: Services): string {
    ResolveOrDefault(Setting(c.llmSettings, "llmProvider"), s.llmDefaults.llmProvider)
  }

  /** The LLM client `getLlmProvider` picks for the stream's provider, and
      the options `adjustTranscriptForMode` passes it: the stream's
      temperature and model (or their defaults) and the system prompt. An
      unavailable or unknown provider fails with the client error. */
  function LlmCall(c: StreamConfig, systemPrompt: string, s: Services): (r: Result<(ProviderUtils.Client, LlmOptions), Failure>)
    ensures r.Ok? <==> ProviderUtils.GetLlmProvider(LlmProviderName(c, s), s.clients).Ok?
    ensures r.Err? ==> r.error == ClientFailure(ProviderUtils.Unavailable(LlmProviderName(c, s)))
    ensures r.Ok? ==> r.value.0 == ProviderUtils.GetLlmProvider(LlmProviderName(c, s), s.clients).value
    ensures r.Ok? ==> r.value.1.prompt == systemPrompt
    ensures r.Ok? ==> r.value.1.model == ResolveOrDefault(Setting(c.llmSettings, "llmModel"), s.llmDefaults.llmModel)
    ensures r.Ok? ==> r.value.1.temperature == ResolveOrDefault(Setting(c.llmSettings, "llmTemperature"), s.llmDefaults.llmTemperature)
  {
    match ProviderUtils.GetLlmProvider(LlmProviderName(c, s), s.clients)
    case Err(e) => Err(ClientFailure(e))
    case Ok(client) =>
      Ok((client, LlmOptions(
        ResolveOrDefault(Setting(c.llmSettings, "llmTemperature"), s.llmDefaults.llmTemperature),
        ResolveOrDefault(Setting(c.llmSettings, "llmModel"), s.llmDefaults.llmModel),
        systemPrompt)))
  }

  /** The model and temperature a stream sets are the ones the LLM is
      called with, and a stream that sets neither gets the defaults. */
  lemma StreamLlmSettingsReachTheLlm(c: StreamConfig, systemPrompt: string, s: Services, model: string, temperature: string)
    requires LlmCall(c, systemPrompt, s).Ok?
    ensures Setting(c.llmSettings, "llmModel") == Some(model) && model != "" ==> LlmCall(c, systemPrompt, s).value.1.model == model
    ensures Setting(c.llmSettings, "llmTemperature") == Some(temperature) && temperature != "" ==>
      LlmCall(c, systemPrompt, s).value.1.temperature == temperature
    ensures c.llmSettings.None? ==>
      LlmCall(c, systemPrompt, s).value.1 == LlmOptions(s.llmDefaults.llmTemperature, s.llmDefaults.llmModel, systemPrompt)
  {
  }

  /** `adjustTranscriptForMode` and the replacements, given the user and
      system prompts: the LLM client of the stream's provider is called
      with the user prompt and the stream's options, and its output gets
      the replacements. A provider without an available client is
      answered with an error response, as any other non-RPC failure. */
  function AdjustWithPrompts(c: StreamConfig, userPrompt: string, systemPrompt: string, s: Services): (o: Outcome)
    ensures o.Rethrown? ==> o.rpc.RpcError?
    ensures o.Transcript? ==> exists adjusted :: o.text == ApplyAll(adjusted, c.replacements, s.replaceWord)
    ensures LlmCall(c, systemPrompt, s).Err? ==>
      o == ErrorResponse(ClientFailure(ProviderUtils.Unavailable(LlmProviderName(c, s))),
                         ResolveOrDefault(Setting(c.llmSettings, "asrProvider"), s.defaults.asrProvider))
    ensures LlmCall(c, systemPrompt, s).Ok? ==>
      var call := LlmCall(c, systemPrompt, s).value;
      match s.adjust(call.0, userPrompt, call.1)
      case Err(f) => o == Fail(f, c, s.defaults)
      case Ok(adjusted) => o == Transcript(ApplyAll(adjusted, c.replacements, s.replaceWord))
  {
    match LlmCall(c, systemPrompt, s)
    case Err(f) => Fail(f, c, s.defaults)
    case Ok(call) =>
      match s.adjust(call.0, userPrompt, call.1)
      case Err(f) => Fail(f, c, s.defaults)
      case Ok(adjusted) => Transcript(Finish(adjusted, c, s))
  }

  /** The part of `process` after a successful transcription: the LLM
      step with the prompts `LlmPrompts` builds for the transcript. */
  function AdjustTranscript(c: StreamConfig, transcript: string, s: Services): (o: Outcome)
    ensures o.Rethrown? ==> o.rpc.RpcError?
    ensures o.Transcript? ==> exists adjusted :: o.text == ApplyAll(adjusted, c.replacements, s.replaceWord)
    ensures ProviderUtils.GetLlmProvider(LlmProviderName(c, s), s.clients).Err? ==> o.ErrorResponse?
  {
    var prompts := LlmPrompts(c, transcript, s);
    AdjustWithPrompts(c, prompts.0, prompts.1, s)
  }

  /** The configuration `process` works with: the merged configuration
      after the mode grace period. */
  function StreamConfigAtEnd(requests: seq<StreamRequest>, streamEndTime: int): StreamConfig {
    var collected := Collect(InitialCollected, requests);
    ApplyModeGracePeriod(collected.mergedConfig, collected.lastModeChangeTimestamp,
                         collected.previousMode, streamEndTime)
  }

  /** The ASR call of `process`: the prepared joined audio, with the ASR
      settings of the stream's configuration. */
  function Transcription(requests: seq<StreamRequest>, streamEndTime: int, s: Services): Result<string, Failure> {
    s.transcribe(s.prepareAudio(StreamAudio(requests)),
                 ExtractAsrConfig(StreamConfigAtEnd(requests, streamEndTime), s.defaults))
  }

  /** `process`, from the collected stream to what the client receives. */
  function Process(requests: seq<StreamRequest>, streamEndTime: int, aborted: bool, s: Services): (o: Outcome)
    ensures aborted ==> o == Rethrown(RpcError("Stream cancelled by client"))
    ensures o.Rethrown? ==> o.rpc.RpcError?
    ensures !aborted ==>
      var c := StreamConfigAtEnd(requests, streamEndTime);
      match s.transcribe(s.prepareAudio(Flatten(AudioPayloads(requests))), ExtractAsrConfig(c, s.defaults))
      case Err(f) => o == Fail(f, c, s.defaults)
      case Ok(transcript) => o == AdjustTranscript(c, transcript, s)
  {
    var collected := Collect(InitialCollected, requests);
    if aborted then Rethrown(RpcError("Stream cancelled by client"))
    else
      var c := ApplyModeGracePeriod(collected.mergedConfig, collected.lastModeChangeTimestamp,
                                    collected.previousMode, streamEndTime);
      var fullAudio := Flatten(collected.audioChunks);
      StreamAudioIsPayloads(requests);
      match s.transcribe(s.prepareAudio(fullAudio), ExtractAsrConfig(c, s.defaults))
      case Err(f) => Fail(f, c, s.defaults)
      case Ok(transcript) => AdjustTranscript(c, transcript, s)
  }

  /** A failure that is not an RPC error never escapes: the client gets a
      response with the error and no transcript. */
  lemma NonRpcFailureIsReported(requests: seq<StreamRequest>, streamEndTime: int, s: Services)
    requires Transcription(requests, streamEndTime, s).Err?
    requires Transcription(requests, streamEndTime, s).error.OtherError?
    ensures Process(requests, streamEndTime, false, s).ErrorResponse?
  {
    StreamAudioIsPayloads(requests);
  }

  /** A stream without replacements returns the LLM output as it is. */
  lemma NoReplacementsKeepsLlmOutput(adjusted: string, c: StreamConfig, s: Services)
    requires c.replacements == []
    ensures Finish(adjusted, c, s) == adjusted
  {
  }
}
