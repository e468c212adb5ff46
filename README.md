# Ito dictation app: a verified Dafny model of its core logic

Ito is a desktop dictation app. An Electron main process records speech and streams it to a TypeScript server. The server transcribes the speech and, in edit mode, rewrites it with a language model. The text is then pasted into the focused application. A renderer process shows the stores and pages of the user interface. A small Rust helper reports the URL of the browser tab in the foreground.

This project models the sequential, self-contained logic of those parts and proves what each promises. There is one Dafny module per source file.

- **Browser URL reader** (`BrowserUrlReader`): URL normalisation, domain extraction, the browser-name table, and the three-field result on each platform. The operating-system queries are oracle parameters.
- **Server transcript pipeline**:
  - `TranscribeStreamV2` and `TranscribeStream`: stream-config merging, the mode grace period, audio concatenation and header handling.
  - `ItoHelpers`: wake-phrase detection and prompt composition.
  - `TranscriptionPrompt`: truncation of the vocabulary prompt.
  - `LlmUtils`: replacement and leak filtering.
  - `Schemas`: the header validators.
  - `ClientErrors`: the error-to-protobuf mapping.
  - `ProviderUtils`: provider selection.
  - `SupabaseJwt`: the bearer-token helpers.
- **Billing and trials**:
  - `Trial` and `Billing`: the status arithmetic on integer milliseconds.
  - `ServerRepo`: the server tables as maps, with each statement a map update.
- **Main-process state**:
  - The key-value store (`KvStore`) and the auth events (`AuthEvents`).
  - The audio stream manager (`AudioStream`), the stream controller (`ItoStreamController`) and the timing collector (`Timing`).
  - The sync service (`SyncService`), the context grabber (`ContextGrabber`), the interaction manager (`InteractionManager`), the Soniox key cache (`SonioxKeys`) and the logger queue (`Logger`).
  - The SQLite tables (`LocalRepo`, `AppTargetRepo`, `UserDetailsRepo`, `Migrations`). `SortedQuery` gives the meaning of `ORDER BY` on an integer column.
- **Renderer**:
  - The Zustand stores: onboarding, settings, dictionary, notes, user details, auth, app styling, audio and performance.
  - The performance tier classifier and the frame-rate autotuner.
  - The debounced store writer and the microphone helpers.
  - The pure helpers inside the shortcut editor, the home page and the notes page.

Objects whose fields the source updates in place are Dafny classes. Their methods carry `modifies` clauses and state the whole new state. Pure helpers are functions with named results. Loops in the source are methods with loop invariants. Shared string and sequence helpers live in `Common`, with their lemmas. These cover JavaScript's `trim`, ASCII `toLowerCase`, `split` and `join`, `filter`, and object spread. Timestamps are integers in milliseconds. Clocks, random ids, JSON parsing, JWT decoding, base64 and regular expressions are parameters.

## Model

| member | source | states |
|---|---|---|
| BrowserUrlReader.NormalizeUrl | native/browser-url-reader/src/main.rs:30-39 | the result has no surrounding whitespace and is the trimmed input, with or without an added `https://` |
| BrowserUrlReader.NormalizeKeepsSchemedText | native/browser-url-reader/src/main.rs:31-33 | text starting with `http://` or `https://` comes back only trimmed |
| BrowserUrlReader.NormalizePrefixesIff | native/browser-url-reader/src/main.rs:31-39 | `https://` is added exactly when the trimmed text has no scheme, contains `.` and no space; otherwise the trimmed text is returned |
| BrowserUrlReader.NormalizeIdempotent | native/browser-url-reader/src/main.rs:30-39 | normalising twice gives the same URL as normalising once |
| BrowserUrlReader.StripScheme | native/browser-url-reader/src/main.rs:43-46 | the text without its leading `https://` or `http://` is a suffix of the text |
| BrowserUrlReader.CutAtDelimiters | native/browser-url-reader/src/main.rs:48-51 | the host candidate is a prefix of its input and contains none of `/ ? # :` |
| BrowserUrlReader.HostPart | native/browser-url-reader/src/main.rs:42-51 | the host candidate is a delimiter-free prefix of the trimmed, scheme-stripped URL |
| BrowserUrlReader.ExtractDomain | native/browser-url-reader/src/main.rs:41-58 | `None` exactly when the host candidate is empty or has no `.`; a domain is the host candidate, contains `.` and none of `/ ? # :` |
| BrowserUrlReader.HostPartOfSchemeless | native/browser-url-reader/src/main.rs:48-51 | a host name followed by a path, query, fragment or port is cut back to the host name |
| BrowserUrlReader.ExtractDomainOfUrl | native/browser-url-reader/src/main.rs:41-58 | round trip: the domain of `https://` + host + suffix is the host |
| BrowserUrlReader.NormalizeThenExtract | native/browser-url-reader/src/main.rs:30-58 | round trip: a bare `host[suffix]` typed without scheme is normalised and its host recovered as the domain |
| BrowserUrlReader.ExtractDomainLocalhost | native/browser-url-reader/src/main.rs:53-54 | `localhost` and the empty text have no domain |
| BrowserUrlReader.BrowserRegistryRules | native/browser-url-reader/src/main.rs:155-174 | a path mentioning `chromium` is never Google Chrome; no browser exactly when the lower-cased path mentions none of the seven; a name is one of the seven |
| BrowserUrlReader.BrowserNameIgnoresCase | native/browser-url-reader/src/main.rs:156 | classification of a path and of its lower-cased form agree |
| BrowserUrlReader.GetBrowserNameFromHwnd | native/browser-url-reader/src/main.rs:125-178 | process id 0, an invalid handle or a failed image-name query give no browser; an `OpenProcess` error is propagated; otherwise the browser is the classification of the image path |
| BrowserUrlReader.GetBrowserUrlWindows | native/browser-url-reader/src/main.rs:60-122 | when every Windows call succeeds the reader succeeds; the first failing call on the path taken (process open, automation object, element, edit condition, value-pattern cast, current value) makes the error the result, unchanged; no foreground window or no recognised browser gives all three fields empty; a non-empty address-bar value gives its normalised URL and that URL's domain beside the browser; otherwise the browser alone; every result has a domain only with a URL |
| BrowserUrlReader.MacScriptFor | native/browser-url-reader/src/main.rs:190-206 | a script exists exactly for the eight named applications |
| BrowserUrlReader.GetBrowserUrlMac | native/browser-url-reader/src/main.rs:180-228 | a spawn error is propagated; an application without a script gives all fields empty; a reported browser is the trimmed frontmost name; a usable script output gives the normalised URL and its domain |
| BrowserUrlReader.ReadMacAddressBar | native/browser-url-reader/src/main.rs:208-227 | a failed script, empty output or `missing value` gives the browser alone; otherwise the URL is the normalised trimmed output, with its domain |
| BrowserUrlReader.GetBrowserUrlUnsupported | native/browser-url-reader/src/main.rs:230-237 | on other systems all three fields are empty |
| BrowserUrlReader.ExitStatus | native/browser-url-reader/src/main.rs:11-28 | status 0 exactly for a result, 1 for an error |
| TranscribeStreamV2.PickText | server/src/services/ito/transcribeStreamV2Handler.ts:494-514 | a non-empty update field wins, an empty one keeps the base field |
| TranscribeStreamV2.MergeContext | server/src/services/ito/transcribeStreamV2Handler.ts:484-516 | a missing update keeps the base context, a missing base takes the update; otherwise the mode comes from the update when set and each text field is picked field by field |
| TranscribeStreamV2.MergeStreamConfigs | server/src/services/ito/transcribeStreamV2Handler.ts:480-533 | the context is merged; update LLM settings override base keys and keep the others; non-empty vocabulary and replacements replace the base ones; interaction id and user details fall back to the base |
| TranscribeStreamV2.MergeIdentity | server/src/services/ito/transcribeStreamV2Handler.ts:480-533 | merging with the empty configuration, on either side, changes nothing |
| TranscribeStreamV2.MergeRepeatedUpdate | server/src/services/ito/transcribeStreamV2Handler.ts:480-533 | applying the same update twice is applying it once |
| TranscribeStreamV2.MergeContextAssociative | server/src/services/ito/transcribeStreamV2Handler.ts:484-516 | context merging is associative |
| TranscribeStreamV2.MergeAssociative | server/src/services/ito/transcribeStreamV2Handler.ts:480-533 | configuration merging is associative, so a stream of updates may be folded in any grouping |
| TranscribeStreamV2.OverlayAssociative | server/src/services/ito/transcribeStreamV2Handler.ts:521-523 | spreading LLM settings over each other is associative |
| TranscribeStreamV2.MergeMode | server/src/services/ito/transcribeStreamV2Handler.ts:493 | the merged mode is the update's mode when it has one, else the base's |
| TranscribeStreamV2.FoldKeepsModeWithoutModes | server/src/services/ito/transcribeStreamV2Handler.ts:224-248 | configurations without a mode leave the merged mode as it was |
| TranscribeStreamV2.FoldTakesLastMode | server/src/services/ito/transcribeStreamV2Handler.ts:224-248 | the merged mode is the mode of the last configuration that carries one |
| TranscribeStreamV2.CollectAudio | server/src/services/ito/transcribeStreamV2Handler.ts:225-226 | the collected audio is the audio payloads in arrival order |
| TranscribeStreamV2.CollectConfig | server/src/services/ito/transcribeStreamV2Handler.ts:227-232 | the merged configuration is the fold of the configuration payloads |
| TranscribeStreamV2.ModeChangeTracking | server/src/services/ito/transcribeStreamV2Handler.ts:228-246 | the change timestamp and previous mode move only on a configuration whose merged mode is set and differs, and then record its arrival time and the mode before it |
| TranscribeStreamV2.NoModeMessagesNoChange | server/src/services/ito/transcribeStreamV2Handler.ts:224-248 | a stream without mode-setting configurations records no mode change |
| TranscribeStreamV2.CollectStreamData | server/src/services/ito/transcribeStreamV2Handler.ts:205-261 | the loop's result equals the fold over the stream: the audio payloads in order and the merged configuration |
| TranscribeStreamV2.ApplyModeGracePeriod | server/src/services/ito/transcribeStreamV2Handler.ts:263-293 | within 100 ms of the last mode change, and only when there is a context, the mode reverts to the previous one; nothing else changes |
| TranscribeStreamV2.GraceRestoresModeBeforeLastChange | server/src/services/ito/transcribeStreamV2Handler.ts:263-293 | after a late mode change the stream is processed in the mode it had before that change |
| TranscribeStreamV2.ResolveOrDefault | server/src/services/ito/transcribeStreamV2Handler.ts:317-325 | a missing or empty value gives the default, any other value is kept |
| TranscribeStreamV2.ResolvedNeverEmpty | server/src/services/ito/transcribeStreamV2Handler.ts:317-325 | with a non-empty default the resolved value is never empty |
| TranscribeStreamV2.ExtractAsrConfig | server/src/services/ito/transcribeStreamV2Handler.ts:295-311 | model, provider and no-speech threshold are resolved against the defaults; the vocabulary is passed through |
| TranscribeStreamV2.LabelledLine | server/src/services/ito/transcribeStreamV2Handler.ts:458-469 | a labelled line appears exactly when its value is non-empty |
| TranscribeStreamV2.NonBlankLineTrimsToText | server/src/services/ito/transcribeStreamV2Handler.ts:473 | an additional-info line is kept exactly when it does not trim to nothing |
| TranscribeStreamV2.KeepNonBlankLines | server/src/services/ito/transcribeStreamV2Handler.ts:471-475 | the loop keeps exactly the non-blank lines, in order |
| TranscribeStreamV2.BuildUserDetailsContext | server/src/services/ito/transcribeStreamV2Handler.ts:443-478 | no details, or neither name nor occupation, gives the empty text; otherwise the labelled lines and kept additional lines joined by newlines |
| TranscribeStreamV2.UserDetailsContextShape | server/src/services/ito/transcribeStreamV2Handler.ts:450-477 | with a name or an occupation the context is non-empty and starts with the name line when there is a name |
| TranscribeStreamV2.UserDetailsContextLines | server/src/services/ito/transcribeStreamV2Handler.ts:456-477 | splitting the context on newlines gives back its lines |
| TranscribeStreamV2.WindowContext | server/src/services/ito/transcribeStreamV2Handler.ts:117-125 | each window field is the context's field, or empty without a context; the user-details text is attached |
| TranscribeStreamV2.SelectMode | server/src/services/ito/transcribeStreamV2Handler.ts:127 | the configured mode wins; without one the mode is detected from the transcript |
| TranscribeStreamV2.SelectedModeIsKnown | server/src/services/ito/transcribeStreamV2Handler.ts:127 | a detected mode is always edit or transcribe |
| TranscribeStreamV2.SystemPrompt | server/src/services/ito/transcribeStreamV2Handler.ts:410-417 | a non-blank tone prompt followed by the smart-formatter prompt, else the mode's prompt |
| TranscribeStreamV2.TonePromptOverridesMode | server/src/services/ito/transcribeStreamV2Handler.ts:410-417 | with a tone prompt the system prompt does not depend on the mode |
| TranscribeStreamV2.Fail | server/src/services/ito/transcribeStreamV2Handler.ts:182-202 | RPC errors are rethrown; any other error becomes an error response naming the stream's ASR provider or the default |
| TranscribeStreamV2.LlmCall | server/src/services/ito/transcribeStreamV2Handler.ts:419-433 | The settings are resolved at server/src/services/ito/transcribeStreamV2Handler.ts:346-357. The LLM client is the one `getLlmProvider` picks for the stream's provider (or the default provider); an unavailable or unknown provider fails with the client-unavailable error. The call gets the stream's temperature and model, or their defaults, and the system prompt. |
| TranscribeStreamV2.StreamLlmSettingsReachTheLlm | server/src/services/ito/transcribeStreamV2Handler.ts:346-357 | A non-empty model or temperature sent by the stream is exactly what the LLM call gets; a stream without LLM settings gets the default model and temperature. |
| TranscribeStreamV2.AdjustWithPrompts | server/src/services/ito/transcribeStreamV2Handler.ts:400-440 | The LLM client of the stream's provider is called with the user prompt and the stream's options; its output, with the stream's replacements applied, is the transcript. An LLM failure goes through the catch block, and a provider without an available client is answered with an error response naming the ASR provider. |
| TranscribeStreamV2.AdjustTranscript | server/src/services/ito/transcribeStreamV2Handler.ts:148-164 | Only RPC errors escape the adjustment step; a returned transcript is an LLM output with the replacements applied; an unavailable LLM provider is answered with an error response. |
| TranscribeStreamV2.AudioPayloadsAppend | server/src/services/ito/transcribeStreamV2Handler.ts:224-226 | the audio payloads of two consecutive parts of a stream are those of the first followed by those of the second |
| TranscribeStreamV2.StreamAudioIsPayloads | server/src/services/ito/transcribeStreamV2Handler.ts:89-90 | the audio handed to transcription is every audio payload of the stream joined in arrival order, whatever configuration messages are interleaved |
| TranscribeStreamV2.StreamAudioSplits | server/src/services/ito/transcribeStreamV2Handler.ts:89-90 | the audio of a stream cut in two is the audio of the first part followed by that of the second |
| TranscribeStreamV2.Process | server/src/services/ito/transcribeStreamV2Handler.ts:38-203 | a cancelled stream is rejected with the cancellation error; otherwise the ASR call receives the prepared concatenation of all audio payloads together with the ASR settings of the configuration after the grace period, its failure goes through the catch block and its transcript through the LLM adjustment, which calls the client of the stream's LLM provider with the stream's model and temperature; only RPC errors escape |
| TranscribeStreamV2.NonRpcFailureIsReported | server/src/services/ito/transcribeStreamV2Handler.ts:182-202 | an ASR failure on the stream's audio that is not an RPC error reaches the client as an error response |
| TranscribeStreamV2.NoReplacementsKeepsLlmOutput | server/src/services/ito/transcribeStreamV2Handler.ts:155-164 | a stream without replacements returns the LLM output unchanged |
| TranscribeStream.TotalLengthAppend | server/src/services/ito/transcribeStreamHandler.ts:58-61 | the summed chunk length of two chunk lists is the sum of their lengths |
| TranscribeStream.FlattenLength | server/src/services/ito/transcribeStreamHandler.ts:58-67 | the concatenated audio is as long as the summed chunk lengths |
| TranscribeStream.PrefixStep | server/src/services/ito/transcribeStreamHandler.ts:63-67 | each chunk extends the running offset by its length and the copied audio by its bytes |
| TranscribeStream.SumChunkLengths | server/src/services/ito/transcribeStreamHandler.ts:58-61 | the reduce computes the total length of all chunks |
| TranscribeStream.ConcatenateChunks | server/src/services/ito/transcribeStreamHandler.ts:57-67 | the buffer has the total length and holds the chunks one after another, each copied at the running offset |
| TranscribeStream.ChunkAtOffset | server/src/services/ito/transcribeStreamHandler.ts:63-67 | chunk i sits in the full audio at the sum of the lengths before it |
| TranscribeStream.ContextTextFromHeader | server/src/services/ito/transcribeStreamHandler.ts:119-122 | a `base64:` header value is decoded after its seven-character prefix; any other value is used as it is |
| TranscribeStream.MarkedPayloadIsDecoded | server/src/services/ito/transcribeStreamHandler.ts:119-122 | round trip: a payload sent behind the `base64:` marker is decoded |
| TranscribeStream.ModeOfCode | server/src/services/ito/helpers.ts:157-169 | the mode header code 0 is transcribe and 1 is edit |
| TranscribeStream.SelectModeV1 | server/src/services/ito/transcribeStreamHandler.ts:116-126 | a non-zero mode header wins; a missing header or transcribe (0, which is falsy) falls back to detection from the transcript |
| TranscribeStream.TranscribeHeaderDoesNotForceTranscribe | server/src/services/ito/transcribeStreamHandler.ts:126 | an explicit transcribe header does not stop a "hey ito" transcript from being edited |
| TranscribeStream.FailV1 | server/src/services/ito/transcribeStreamHandler.ts:160-176 | RPC errors are rethrown; any other error becomes an error response naming the header's ASR provider |
| TranscribeStream.WavAudio | server/src/services/ito/transcribeStreamHandler.ts:80-92 | The WAV file is the enhanced PCM (enhanced at 16 kHz) behind a header describing its length at 16 kHz, mono, 16-bit. |
| TranscribeStream.Transcribed | server/src/services/ito/transcribeStreamHandler.ts:94-107 | A vocabulary header that fails validation is the failure; an absent one is the empty list. A header ASR provider without an available client fails with the client-unavailable error. Otherwise the ASR client of that provider transcribes the WAV file with file type `wav`, the header's ASR model and no-speech threshold, and the validated vocabulary. |
| TranscribeStream.EditAdjustment | server/src/services/ito/transcribeStreamHandler.ts:127-146 | A header LLM provider without an available client fails with the client-unavailable error. Otherwise that provider's client gets a user prompt opening with the editing prompt and a line break, with the header's temperature and model and the EDIT system prompt. |
| TranscribeStream.ProcessV1 | server/src/services/ito/transcribeStreamHandler.ts:73-177 | the advanced-settings headers are read and validated before the `try`, so a failure there escapes as it is, even when it is not an RPC error; once they are read, the outcome is that of ProcessValidated |
| TranscribeStream.ProcessValidated | server/src/services/ito/transcribeStreamHandler.ts:78-177 | inside the `try` only RPC errors escape. A failed transcription goes through the catch block, so a non-RPC ASR failure is an error response naming the header's ASR provider. Outside edit mode the transcript is returned as the ASR produced it; in edit mode the LLM's output is returned, and its failure goes through the catch block. |
| TranscribeStream.EditPromptHeadsUserPrompt | server/src/services/ito/transcribeStreamHandler.ts:127-146 | in edit mode the LLM input starts with the edit prompt and a newline and ends with the user-command section |
| ItoHelpers.DetectItoMode | server/src/services/ito/helpers.ts:179-185 | the detected mode is edit or transcribe |
| ItoHelpers.DetectSeesOnlyFirstFiveWords | server/src/services/ito/helpers.ts:180-183 | transcripts with the same first five words get the same mode |
| ItoHelpers.WordsOfFirstFive | server/src/services/ito/helpers.ts:180-181 | re-splitting the joined first five words gives them back |
| ItoHelpers.DetectOfFirstFiveWords | server/src/services/ito/helpers.ts:180-184 | detection on the first five words alone agrees with detection on the transcript |
| ItoHelpers.DetectHeyIto | server/src/services/ito/helpers.ts:171-185 | a transcript opening with the words "hey ito", in any case, is edit mode |
| ItoHelpers.HeyItoIsWake | server/src/services/ito/helpers.ts:171-177 | text starting with "hey ito" contains a wake phrase |
| ItoHelpers.BasePromptForMode | server/src/services/ito/helpers.ts:192-204 | edit uses the edit prompt; transcribe uses the configured transcription prompt or the default one |
| ItoHelpers.ConfiguredPromptOnlyForTranscribe | server/src/services/ito/helpers.ts:193-204 | a configured transcription prompt is used exactly in transcribe mode |
| ItoHelpers.GetPromptForMode | server/src/services/ito/helpers.ts:187-211 | without a non-blank tone prompt the base prompt; with one, the tone prompt, a blank line, then the base prompt |
| ItoHelpers.Block | server/src/services/ito/helpers.ts:27-38 | a context block is empty exactly when its value is; otherwise it is the start marker, the value and the end marker on their own lines |
| ItoHelpers.ContextBlocksShape | server/src/services/ito/helpers.ts:25-39 | the context blocks are empty exactly when title, app, URL and domain all are; the first present field leads |
| ItoHelpers.CreateUserPromptWithContext | server/src/services/ito/helpers.ts:21-50 | the prompt always ends with the user-command section around the transcript; with a context it starts with the indented blocks; without one the context section is empty |
| LlmUtils.ApplyReplacements | server/src/services/ito/llmUtils.ts:1-19 | the loop's result is the replacements applied one after another in list order; no replacements return the transcript |
| LlmUtils.ApplyAllAppend | server/src/services/ito/llmUtils.ts:7-17 | applying two lists of replacements is applying the first, then the second |
| LlmUtils.SkippedEntriesChangeNothing | server/src/services/ito/llmUtils.ts:11-12 | entries with an empty side, or whose two sides differ only in case, change nothing |
| LlmUtils.StripMarkersAbsent | server/src/services/ito/llmUtils.ts:34-37 | text containing none of the markers is left as it is |
| LlmUtils.CollapseLeavesNoTriple | server/src/services/ito/llmUtils.ts:60 | after collapsing, no three newlines follow each other |
| LlmUtils.CollapseOfNoTriple | server/src/services/ito/llmUtils.ts:60 | text without three newlines in a row is not changed by collapsing |
| LlmUtils.RemoveMarkers | server/src/services/ito/llmUtils.ts:34-37 | the loop removes every occurrence of each prompt marker, marker by marker |
| LlmUtils.RemoveLeakedLines | server/src/services/ito/llmUtils.ts:56-58 | the loop blanks the lines matched by each leak pattern, pattern by pattern |
| LlmUtils.FilterLeakedContext | server/src/services/ito/llmUtils.ts:21-62 | blank input gives the empty text; otherwise markers and leaked lines are removed, the text trimmed and newline runs collapsed to two; the result is trimmed and has no triple newline |
| LlmUtils.CollapseKeepsTrimmed | server/src/services/ito/llmUtils.ts:60 | collapsing newlines keeps a trimmed text trimmed |
| LlmUtils.FilterFixedPoint | server/src/services/ito/llmUtils.ts:21-62 | clean text (trimmed, no markers, no leaked lines, no triple newline) passes through the filter unchanged |
| TranscriptionPrompt.EstimateTokenCount | server/src/prompts/transcription.ts:4-6 | the estimate is the length divided by four, rounded up |
| TranscriptionPrompt.LastComma | server/src/prompts/transcription.ts:36 | the position of the last comma, if any |
| TranscriptionPrompt.DropLastTerm | server/src/prompts/transcription.ts:36 | the text up to its last comma, or all of it without a comma |
| TranscriptionPrompt.CreateTranscriptionPrompt | server/src/prompts/transcription.ts:17-54 | no vocabulary gives the empty prompt; the prompt is a prefix of the comma-joined vocabulary, at most 886 characters and 224 estimated tokens, and never blank unless empty; a short enough non-blank list is used whole |
| TranscriptionPrompt.TruncatedPromptEndsBeforeLastComma | server/src/prompts/transcription.ts:32-46 | a vocabulary too long is cut at 886 characters and then back to before the last comma of the cut |
| TranscriptionPrompt.LongSingleWordIsCutMidWord | server/src/prompts/transcription.ts:32-41 | a single term longer than the limit, having no comma, is cut in the middle of the word |
| Schemas.ModelName | server/src/validation/schemas.ts:5-13 | accepted exactly when the trimmed value has 1 to 100 characters, all allowed; the accepted value is the trimmed one |
| Schemas.AsrModel | server/src/validation/schemas.ts:5-13 | an accepted ASR model is trimmed, 1 to 100 characters of letters, digits, `-`, `_` and `.` |
| Schemas.LlmModel | server/src/validation/schemas.ts:27-35 | an accepted LLM model is trimmed, 1 to 100 characters of letters, digits, `-`, `_`, `.` and `/` |
| Schemas.AsrModelIsLlmModel | server/src/validation/schemas.ts:5-35 | every valid ASR model name is also a valid LLM model name |
| Schemas.SlashOnlyInLlmModels | server/src/validation/schemas.ts:11-33 | a model name containing `/` is rejected as an ASR model |
| Schemas.AsrProvider | server/src/validation/schemas.ts:15-18 | accepted exactly when the trimmed value is groq or gemini |
| Schemas.LlmProvider | server/src/validation/schemas.ts:22-25 | accepted exactly when the trimmed value is groq, cerebras or gemini |
| Schemas.BoundedPrompt | server/src/validation/schemas.ts:20-45 | accepted exactly when the trimmed text is within the limit; the accepted value is the trimmed text |
| Schemas.AsrPrompt | server/src/validation/schemas.ts:20 | the ASR prompt is trimmed and accepted up to 100 characters |
| Schemas.LlmPrompt | server/src/validation/schemas.ts:42-45 | the LLM prompt is trimmed and accepted up to 1500 characters |
| Schemas.InRange | server/src/validation/schemas.ts:37-50 | a number is accepted exactly within the closed range and kept as it is |
| Schemas.LlmTemperature | server/src/validation/schemas.ts:37-40 | a temperature is accepted exactly between 0 and 2 |
| Schemas.NoSpeechThreshold | server/src/validation/schemas.ts:47-50 | a no-speech threshold is accepted exactly between 0 and 1 |
| Schemas.TrimAll | server/src/validation/schemas.ts:70 | each comma-separated piece is trimmed |
| Schemas.Vocabulary | server/src/validation/schemas.ts:61-82 | rejected exactly when the trimmed list is longer than 5000 characters; an empty list gives no words; otherwise the pieces split on commas, trimmed, non-empty, the first 500 of them, that are valid words |
| Schemas.TrimmedWordLength | server/src/validation/schemas.ts:53-57 | a valid vocabulary word has 1 to 100 characters |
| Schemas.TrimmedWordChars | server/src/validation/schemas.ts:58 | a valid vocabulary word uses only the allowed characters |
| Schemas.VocabularyWordsAreValid | server/src/validation/schemas.ts:61-82 | an accepted vocabulary has at most 500 words, each trimmed, 1 to 100 characters of allowed characters |
| ClientErrors.ProviderToPb | server/src/clients/errors.ts:36-47 | only the cerebras provider maps to the protobuf cerebras value; every other provider, cartesia and unknown ones included, maps to groq |
| ClientErrors.ErrorTypeToPb | server/src/clients/errors.ts:52-65 | each of the four error types maps to its own protobuf type, one to one |
| ClientErrors.DetailsMap | server/src/clients/errors.ts:71-78 | the detail map has exactly the keys of the error's details |
| ClientErrors.DetailsMapValues | server/src/clients/errors.ts:74-77 | every detail value is stored as its string form under its own key |
| ClientErrors.StringifyDetails | server/src/clients/errors.ts:71-78 | the loop over the detail entries builds the map with exactly their keys, each holding the value's string form |
| ClientErrors.ToProtobuf | server/src/clients/errors.ts:70-87 | the protobuf error carries the error class's code, message, mapped type and mapped provider; no details give an empty map, otherwise the map has the details' keys. The same code is at server/src/clients/errors.ts:108-211. |
| ClientErrors.ErrorToProtobuf | server/src/clients/errors.ts:235-251 | a client error is converted as it is; anything else becomes a CLIENT_API_ERROR of type api with the thrown error's message, or "An unknown error occurred" for a non-error, reported under the given provider |
| ClientErrors.GenericErrorDetails | server/src/clients/errors.ts:200-210 | a plain error becomes details holding its message as originalError and the string "undefined" as statusCode. The same code is at server/src/clients/errors.ts:244-250. |
| ClientErrors.GeminiReportedAsGroq | server/src/clients/errors.ts:36-47 | any client error raised by the gemini provider is reported as a groq error |
| ProviderUtils.GetAsrProvider | server/src/clients/providerUtils.ts:8-23 | succeeds exactly for groq or gemini when that client is available, returning that client; otherwise fails with the unavailable error naming the requested provider |
| ProviderUtils.GetLlmProvider | server/src/clients/providerUtils.ts:25-45 | succeeds exactly for groq, cerebras or gemini when that client is available, returning that client; otherwise fails with the unavailable error naming the requested provider |
| ProviderUtils.GetAvailableAsrProviders | server/src/clients/providerUtils.ts:47-56 | the list holds exactly the providers GetAsrProvider accepts, groq before gemini |
| ProviderUtils.GetAvailableLlmProviders | server/src/clients/providerUtils.ts:58-70 | the list holds exactly the providers GetLlmProvider accepts, in the order groq, cerebras, gemini |
| ProviderUtils.AsrProviderIsLlmProvider | server/src/clients/providerUtils.ts:8-45 | a provider usable for speech recognition gives the same client when asked for as a language model |
| ProviderUtils.CerebrasIsNotAnAsrProvider | server/src/clients/providerUtils.ts:8-23 | cerebras is never returned as a speech-recognition provider |
| SupabaseJwt.OrElse | server/src/auth/supabaseJwt.ts:55 | the falsy fallback of JavaScript on optional strings: a non-empty left side wins, otherwise the right side |
| SupabaseJwt.GetUserFromRequest | server/src/auth/supabaseJwt.ts:35-46 | no header, or one not starting with "Bearer ", gives no user; otherwise the result is what verification of the text after the seven-character prefix gives, a failed verification giving none |
| SupabaseJwt.BearerTokenRoundTrip | server/src/auth/supabaseJwt.ts:37-42 | a header built as "Bearer " plus a token verifies exactly that token |
| SupabaseJwt.LowerCaseSchemeRefused | server/src/auth/supabaseJwt.ts:37 | the scheme is matched case-sensitively: "bearer " is refused |
| SupabaseJwt.GetUserIdFromRequest | server/src/auth/supabaseJwt.ts:48-50 | the id is present exactly when there is a user with a non-empty subject, and is that subject |
| SupabaseJwt.GetUserInfoFromJwt | server/src/auth/supabaseJwt.ts:52-57 | the email is the token's email or empty; the name is the first non-empty of full name, name and email |
| SupabaseJwt.EmptyNameOnlyWithoutSources | server/src/auth/supabaseJwt.ts:55 | the name is empty exactly when full name, name and email are all missing or empty |
| Trial.ComputeStatus | server/src/services/trial.ts:98-120 | trialDays is always 14 and the stored start and completion are kept; days left are never negative, at most 14 once the start has passed, and 0 without a start or after completion; the trial is active exactly when started, not completed and with days left |
| Trial.Max | server/src/services/trial.ts:79-107 | `Math.max`: at least both arguments and equal to one of them |
| Trial.ElapsedBelow | server/src/services/trial.ts:78-106 | fewer than d whole days have elapsed exactly when fewer than d days' worth of milliseconds have passed |
| Trial.TrialActiveIffWithinFourteenDays | server/src/services/trial.ts:98-120 | a started trial is active exactly when it is not completed and less than 14 days have passed since its start |
| Trial.CompletedTrialStatus | server/src/services/trial.ts:105-118 | a completed row gives no days left, is not active and reports completion |
| Trial.TrialEndMs | server/src/services/trial.ts:66-68 | a missing trial end and an end of 0 both give no end; otherwise the end in milliseconds is the seconds times 1000 |
| Trial.ComputeStatusFromStripe | server/src/services/trial.ts:57-96 | a start exists exactly when an end does and lies 14 days before it; days left are never negative and positive only while Stripe says trialing; active exactly when days are left; completed exactly for the active, past_due and canceled statuses |
| Trial.StripeTrialActiveIffBeforeEnd | server/src/services/trial.ts:69-81 | a Stripe trial with an end is active exactly when it is trialing and the end lies in the future |
| Trial.RouteUserId | server/src/services/trial.ts:143 | the route has a user exactly when authentication is required and the token carries a non-empty subject, which is the id. The same code is at server/src/services/trial.ts:266. |
| Trial.ServerError | server/src/services/trial.ts:256-277 | a failure is answered with status 500 |
| Trial.FindRunningTrial | server/src/services/trial.ts:198-209 | no index exactly when no subscription is a trialing or active one for the price; otherwise the first such index |
| Trial.TrialStart | server/src/services/trial.ts:139-262 | no user gives 401 "Unauthorized" and no write; no Stripe client gives 500 "Stripe not configured"; a trials-table read that throws answers 500 with its message; a stored trial with a non-empty Stripe id is re-read from Stripe, a Stripe failure answering 500, and otherwise the status and row derived from that subscription are written; a completed trial without such an id (none or empty) is answered from ComputeStatus and nothing is written; a row is written only with a status reply, only for the route's own user, and only when the repository accepts it |
| Trial.ReplyAfterUpsert | server/src/services/trial.ts:164-173 | a successful write answers with the status and records the row; a failed write answers 500 with the thrown message (or "Server error") and records nothing. The same code is at server/src/services/trial.ts:216-224 and server/src/services/trial.ts:246-262. |
| Trial.RunningTrialIsReused | server/src/services/trial.ts:198-226 | a user with a running trial subscription for the price never gets a second subscription created: a written row belongs to a running subscription at or before it in Stripe's list, a failed write answers 500, and with a working repository the row is always written |
| Trial.TrialComplete | server/src/services/trial.ts:264-278 | no user gives 401 and leaves the rows alone; a repository failure answers 500 with its message and leaves the rows alone; otherwise the reply is a status, and a status reply always shows a completed, inactive trial with no days left |
| Billing.CeilDays | server/src/services/billing.ts:284-287 | `Math.ceil` of milliseconds over a day: the least whole number of days covering the span. The same code is at server/src/services/billing.ts:327. |
| Billing.EscapeQuotes | server/src/services/billing.ts:19 | the escaped URL contains no double quote, an URL without one is unchanged, and each quote grows the text by five characters (`&quot;`) |
| Billing.QuoteClosesAfter | server/src/services/billing.ts:20-24 | in a page built as head, escaped text and a tail starting with a quote, the first quote after the head is the one right after the escaped text |
| Billing.HrefAttributeIsClosedByThePage | server/src/services/billing.ts:18-25 | whatever the target URL, the page's href attribute is closed by the page's own quote right after the escaped URL and contains no quote before it |
| Billing.TrialLength | server/src/services/billing.ts:280-288 | trialDays is the ceiling of the days between start and end when both exist, otherwise 14 |
| Billing.BillingStatus | server/src/services/billing.ts:253-353 | free mode is active pro with a completed empty trial; no user is 401; a subscriptions-table or trials-table read that throws answers 500 with a non-empty message (the thrown one, else "Server error"); with both rows read the reply is StatusFromRows |
| Billing.StatusFromRows | server/src/services/billing.ts:279-347 | a subscription gives active pro, a completed trial block with no days left, and cancellation scheduled exactly when its end lies in the future; without one the trial is active exactly when its end lies ahead and it is not completed, days left are then the ceiling of the days remaining, and the plan is free trial exactly when the trial is active |
| Billing.FourteenDayTrialOnItsFirstDay | server/src/services/billing.ts:280-343 | a 14-day trial on its first day reports the free-trial plan with 14 trial days and 14 days left |
| Billing.FailureMessage | server/src/services/billing.ts:248 | the reply's error text is never empty: it is the thrown message when that is not empty and "Server error" otherwise |
| Billing.Cancel | server/src/services/billing.ts:187-251 | free mode succeeds without action; no user is 401; a subscriptions-table read that throws answers 500; a subscription with a non-empty Stripe id is scheduled for cancellation first and, when Stripe answers, its end is recorded as `cancel_at` times 1000 (none when Stripe gives none), the reply succeeding exactly when that write does and otherwise answering 500, while a Stripe failure answers 500 and records no end; otherwise a trials-table read that throws answers 500, and "No active subscription found" comes exactly when the trial was read and is missing or completed, with no action; an uncompleted trial without a Stripe id (none or empty) is completed, one with a Stripe id is cancelled at Stripe first and completed only when that succeeds, a Stripe failure answering 500 and leaving the trial uncompleted; the reply after a completion is success exactly when the completion is written; a completion is attempted only for a trial that was read and not completed |
| Billing.CancelOutcomes | server/src/services/billing.ts:200-250 | outside free mode a successful cancel has written either the subscription's end or the trial's completion, and a failed one has written neither |
| Billing.ScheduledButNotRecorded | server/src/services/billing.ts:201-218 | when Stripe accepts the scheduled cancellation but writing its end date fails, the route answers 500 although the Stripe cancellation was already made |
| Billing.SubscriptionWithoutStripeIdCannotBeCancelled | server/src/services/billing.ts:201-241 | a subscription row without a Stripe id, or with an empty one, shows as active pro in the status yet, with a completed trial, cancel finds nothing to cancel. The same code is at server/src/services/billing.ts:291-306. |
| ServerRepo.InsertPos | server/src/db/repo.ts:55 | the insertion point of a row in a list ordered by update time: every row before it is older, the row at it is not. The same code is at server/src/db/repo.ts:153 and server/src/db/repo.ts:226. |
| ServerRepo.InsertByUpdatedAt | server/src/db/repo.ts:55 | inserting a row adds exactly that row and keeps every other one. The same code is at server/src/db/repo.ts:153 and server/src/db/repo.ts:226. |
| ServerRepo.InsertKeepsOrder | server/src/db/repo.ts:55 | inserting into a list ordered by update time keeps it ordered (`ORDER BY updated_at ASC`). The same code is at server/src/db/repo.ts:153 and server/src/db/repo.ts:226. |
| ServerRepo.InsertKeepsIdsDistinct | server/src/db/repo.ts:46-59 | inserting a row with a new id into a list without repeated ids keeps the ids distinct |
| ServerRepo.SyncTable.Create | server/src/db/repo.ts:22-37 | an id already present is refused (primary key) and nothing changes; otherwise the row is stored with the given user and payload, created and updated now and not deleted. The same code is at server/src/db/repo.ts:101-122 and server/src/db/repo.ts:202-212. |
| ServerRepo.SyncTable.FindById | server/src/db/repo.ts:39-44 | a row is found exactly when its id is stored, deleted or not, and is the stored row |
| ServerRepo.SyncTable.FindLiveById | server/src/db/repo.ts:124-138 | a row is found exactly when its id is stored and it is not deleted |
| ServerRepo.SyncTable.FindByUserId | server/src/db/repo.ts:46-59 | the result holds exactly the user's rows, filtered when `since` is given to those updated or deleted after it, ordered by update time, each row once. The same code is at server/src/db/repo.ts:140-157 and server/src/db/repo.ts:214-230. |
| ServerRepo.SyncTable.Update | server/src/db/repo.ts:61-70 | a row is updated exactly when it exists (and, for interactions and dictionary items, is not deleted): its payload is edited and its update time set; otherwise nothing changes. The same code is at server/src/db/repo.ts:159-170 and server/src/db/repo.ts:232-243. |
| ServerRepo.SyncTable.SoftDelete | server/src/db/repo.ts:72-80 | true exactly when the row exists; then only its deletion time is set, deleted rows included. The same code is at server/src/db/repo.ts:172-180 and server/src/db/repo.ts:245-253. |
| ServerRepo.SyncTable.DeleteAllUserData | server/src/db/repo.ts:82-90 | true exactly when the user owns some row; every row of the user gets the deletion time and no other row changes. The same code is at server/src/db/repo.ts:182-190 and server/src/db/repo.ts:255-263. |
| ServerRepo.SyncTable.HardDeleteAllUserData | server/src/db/repo.ts:92-97 | exactly the user's rows are removed, and the count is how many they were. The same code is at server/src/db/repo.ts:192-198 and server/src/db/repo.ts:265-271. |
| ServerRepo.SoftDeletedFor | server/src/db/repo.ts:82-90 | the same ids; the user's rows get the deletion time, the others are unchanged |
| ServerRepo.SoftDeletedRowsAreDelivered | server/src/db/repo.ts:51-90 | a row soft-deleted after a client's last sync is still returned to that client's `since` query, so the deletion reaches it |
| ServerRepo.OrZero | server/src/db/repo.ts:340-344 | the falsy fallback to 0.0: a present value is kept (zero stays zero), a missing one is zero |
| ServerRepo.SettingsValues | server/src/db/repo.ts:333-345 | the written ASR model is never empty: the requested one when given, else whisper-large-v3; without a request every column takes its empty or zero default |
| ServerRepo.AdvancedSettingsTable.FindByUserId | server/src/db/repo.ts:275-306 | settings are found exactly when the user has a row, and are that row |
| ServerRepo.AdvancedSettingsTable.Upsert | server/src/db/repo.ts:308-368 | an existing row keeps its id and creation time and gets every column rewritten; a new user gets a fresh row; only the user's row changes |
| ServerRepo.AdvancedSettingsTable.HardDeleteByUserId | server/src/db/repo.ts:370-376 | the user's row is removed and the count is 1 when there was one, else 0 |
| ServerRepo.SettingsUpsertStable | server/src/db/repo.ts:308-368 | upserting the same request again leaves the same settings except the update time |
| ServerRepo.Unexpired | server/src/db/repo.ts:379-384 | cleanup keeps exactly the candidates whose expiry is not yet past |
| ServerRepo.IpLinkTable.CleanupExpired | server/src/db/repo.ts:379-384 | expired candidates are deleted and the count is how many were |
| ServerRepo.IpLinkTable.RegisterCandidate | server/src/db/repo.ts:386-397 | after cleanup, one candidate for the IP hash and website id is added, expiring one hour from now |
| ServerRepo.IpLinkTable.ConsumeLatestForIp | server/src/db/repo.ts:398-412 | after cleanup, nothing is returned exactly when no candidate of the IP hash expires strictly after now; otherwise the one expiring last is removed and its website id returned |
| ServerRepo.ExpiringNowIsStranded | server/src/db/repo.ts:381-404 | a candidate expiring exactly now survives cleanup yet cannot be consumed, because one test is `<` and the other `>` |
| ServerRepo.StartTrialSpec | server/src/db/repo.ts:464-493 | a missing row is inserted, started and not completed; a completed or started row is returned unchanged; otherwise only the start and update time are set |
| ServerRepo.CompleteTrialSpec | server/src/db/repo.ts:495-515 | the user's row, existing or inserted, ends completed with no start |
| ServerRepo.StartTrialIdempotent | server/src/db/repo.ts:464-493 | a second start returns the same row and leaves the same table as the first |
| ServerRepo.CompletedTrialCannotRestart | server/src/db/repo.ts:477-515 | after completing a trial, starting it again returns the completed row without a start |
| ServerRepo.TrialsTable.GetByUserId | server/src/db/repo.ts:416-422 | a row is found exactly when the user has one |
| ServerRepo.TrialsTable.GetByStripeSubscriptionId | server/src/db/repo.ts:424-432 | none exactly when no row records the subscription; otherwise a stored row recording it |
| ServerRepo.TrialsTable.UpsertFromStripeSubscription | server/src/db/repo.ts:434-462 | the user's row becomes exactly the Stripe-derived values; no other row changes |
| ServerRepo.TrialsTable.StartTrial | server/src/db/repo.ts:464-493 | the table and the returned row are those of StartTrialSpec |
| ServerRepo.TrialsTable.CompleteTrial | server/src/db/repo.ts:495-515 | the table and the returned row are those of CompleteTrialSpec |
| ServerRepo.SubscriptionsTable.GetByUserId | server/src/db/repo.ts:519-527 | a subscription is found exactly when the user has one |
| ServerRepo.SubscriptionsTable.UpsertActive | server/src/db/repo.ts:529-551 | the user's row becomes exactly the given values; no other row changes |
| ServerRepo.SubscriptionsTable.UpdateSubscriptionEndAt | server/src/db/repo.ts:553-565 | with a row, only its end and update time change; without one, nothing is returned and nothing changes |
| ServerRepo.SubscriptionsTable.DeleteByStripeSubscriptionId | server/src/db/repo.ts:567-575 | exactly the rows recording the subscription are removed, and true exactly when there was one |
| AppTargetUtils.CollapseRuns | lib/utils/appTargetUtils.ts:4 | every maximal run of characters other than letters and digits becomes one underscore: only letters, digits and single underscores remain, the letters and digits are kept in order, and the result starts with an underscore exactly when the text did not start with a letter or digit |
| AppTargetUtils.StripUnderscores | lib/utils/appTargetUtils.ts:5 | removing the leading and trailing underscores keeps the letters and digits in order |
| AppTargetUtils.StripMakesCanonical | lib/utils/appTargetUtils.ts:5 | stripping a text of letters, digits and single underscores leaves a canonical id: no underscore at either end and none doubled |
| AppTargetUtils.Sanitize | lib/utils/appTargetUtils.ts:3-6 | the sanitized text is a canonical id holding exactly the name's letters and digits in order |
| AppTargetUtils.SquashIsRedundant | lib/utils/appTargetUtils.ts:6 | the third replacement never changes anything, since the first two leave no doubled underscore |
| AppTargetUtils.SanitizeCanonical | lib/utils/appTargetUtils.ts:3-6 | a canonical id sanitizes to itself |
| AppTargetUtils.NormalizeAppTargetId | lib/utils/appTargetUtils.ts:1-13 | when the trimmed, lower-cased name keeps a letter or digit, the id is its sanitized form, canonical and with the same letters and digits; otherwise it is `app_target_` followed by the UUID without its dashes |
| AppTargetUtils.EmptyIdIffNoIdChars | lib/utils/appTargetUtils.ts:8-10 | the fallback id is used exactly when the name has no letter or digit |
| AppTargetUtils.CanonicalOpensWithIdChar | lib/utils/appTargetUtils.ts:3-6 | a non-empty canonical id starts with a letter or digit |
| AppTargetUtils.TrimToLower | lib/utils/appTargetUtils.ts:2 | trimming and lower-casing commute |
| AppTargetUtils.NormalizeIgnoresCase | lib/utils/appTargetUtils.ts:1-13 | names that differ only in letter case get the same id |
| AppTargetUtils.NormalizeIgnoresSurroundingSpace | lib/utils/appTargetUtils.ts:1-13 | a space around a name does not change its id |
| AppTargetUtils.NormalizeIdempotent | lib/utils/appTargetUtils.ts:1-13 | normalizing an id that did not fall back gives it back, so stored ids are stable |
| AppTargetUtils.CanonicalIsFixed | lib/utils/appTargetUtils.ts:2-6 | a canonical id is unchanged by trimming, lower-casing and sanitizing |
| KvStore.Lookup | lib/main/store.ts:200-211 | a key the object does not hold reads undefined |
| KvStore.SetField | lib/main/store.ts:209-212 | after the spread write the object holds the key |
| KvStore.LookupSetSame | lib/main/store.ts:209-212 | the key written reads back the value written |
| KvStore.LookupSetOther | lib/main/store.ts:209-212 | every other key reads as before |
| KvStore.SetFieldTwice | lib/main/store.ts:209-212 | writing a key twice is writing it once with the second value |
| KvStore.SetFieldSame | lib/main/store.ts:209-212 | writing back the value a key holds changes nothing |
| KvStore.DeepGet | lib/main/store.ts:198-203 | a non-empty path below null or undefined reads undefined |
| KvStore.DeepGetAppend | lib/main/store.ts:198-203 | reading along a path is reading along its two halves in turn |
| KvStore.DeepGetStopsAtNullish | lib/main/store.ts:198-203 | once a null or undefined is met, every longer path reads undefined |
| KvStore.DeepSet | lib/main/store.ts:205-213 | the empty path gives the new value; any other path gives an object |
| KvStore.DeepGetSet | lib/main/store.ts:198-213 | reading a non-empty path after writing it gives the value written |
| KvStore.DeepSetSiblings | lib/main/store.ts:208-212 | every sibling key of an object target keeps its value; a non-object target is replaced by an empty object |
| KvStore.DeepSetTwice | lib/main/store.ts:205-213 | writing a path twice keeps the second value |
| KvStore.DeepGetBelowNonObject | lib/main/store.ts:198-203 | below anything that is not an object, every non-empty path reads undefined |
| KvStore.SplitAtDot | lib/main/store.ts:229-238 | a dotted path splits into at least two pieces, the first being its top-level key |
| KvStore.SetIn | lib/main/store.ts:235-246 | the empty path is ignored; otherwise only the top-level key of the path is added or rewritten |
| KvStore.SetThenGet | lib/main/store.ts:226-246 | `set` then `get` on the same non-empty path, dotted or not, gives the value back |
| KvStore.SetLeavesOtherKeys | lib/main/store.ts:235-246 | a write leaves every other top-level key as it was |
| KvStore.PlainKey | lib/main/store.ts:233-244 | a path without a dot reads and writes the top-level key itself |
| KvStore.Store.Set | lib/main/store.ts:235-246 | the cache becomes SetIn of the old cache, and the top-level key is persisted once, nothing for the empty path |
| KvStore.Store.Delete | lib/main/store.ts:247-253 | the empty key is ignored; otherwise the key leaves the cache and one delete reaches the table |
| KvStore.Store.RunMigrations | lib/main/store.ts:287-301 | the runner fails, changing nothing, exactly when the stored applied value is not iterable; otherwise the cache and writes are those of running the migrations in order from the stored applied ids, followed by writing the applied list back |
| KvStore.Store.EnsureDefaultsDeep | lib/main/store.ts:303-333 | the cache becomes the defaults filled in at the base path, and nothing is written when nothing was missing |
| KvStore.Store.EnsureDefault | lib/main/store.ts:312-331 | one entry: a leaf default fills only an undefined value, an object default replaces any value that is not an object and recurses into one that is; a complete entry writes nothing |
| KvStore.FillFrom | lib/main/store.ts:312-332 | filling below an object gives an object |
| KvStore.FillFromStep | lib/main/store.ts:312-332 | the walk over the defaults is its first entry, then the rest; complete means the first entry and the rest are complete |
| KvStore.FillEntry | lib/main/store.ts:313-331 | an excluded key keeps its value; every other default key ends up holding its filled value: a defined value under a leaf default is kept, a non-object under an object default is replaced, an object is filled |
| KvStore.FillKeepsOtherKeys | lib/main/store.ts:312-332 | keys no default names keep their values |
| KvStore.FillOfComplete | lib/main/store.ts:312-332 | filling an object that lacks nothing changes nothing |
| KvStore.FillCompletes | lib/main/store.ts:312-332 | after filling, nothing is left to fill |
| KvStore.FillIdempotent | lib/main/store.ts:312-332 | filling twice is filling once, so a second start-up writes nothing |
| KvStore.FillTopEntry | lib/main/store.ts:313-331 | at the top level, an excluded key keeps its value and every other default key holds its filled value |
| KvStore.FillTopKeepsOtherKeys | lib/main/store.ts:312-332 | top-level keys no default names keep their values |
| KvStore.FillTopCompletes | lib/main/store.ts:312-332 | after filling the cache, nothing is left to fill |
| KvStore.FillTopIdempotent | lib/main/store.ts:312-332 | filling the cache twice is filling it once |
| KvStore.Dedup | lib/main/store.ts:288-300 | `Array.from(new Set(xs))` holds the same items, each once |
| KvStore.AppliedFrom | lib/main/store.ts:288 | a falsy stored value gives no applied ids, an array its distinct items; the value is rejected exactly when it is truthy and neither an array nor a string |
| KvStore.ReadBackApplied | lib/main/store.ts:288-300 | the list the runner writes back reads back as itself on the next start |
| KvStore.MigrateRecordsOnlySuccesses | lib/main/store.ts:289-299 | the applied ids only grow, by exactly the ids of the migrations that finished, in the order they ran; a throwing migration is not recorded |
| KvStore.MigrateRunsOnlyPending | lib/main/store.ts:289-299 | only migrations whose id is not applied are run, and none that finished runs twice |
| KvStore.MigrateKeepsAppliedDistinct | lib/main/store.ts:288-300 | the applied list never holds an id twice |
| KvStore.RemoveKey | lib/main/store.ts:279 | `delete obj[k]` leaves no entry for the key and every other key as it was |
| KvStore.ShortcutRenameAsWritten | lib/main/store.ts:259-283 | settings that are not an object are left alone and nothing is written |
| KvStore.ShortcutRenameAsWrittenLosesConversion | lib/main/store.ts:262-281 | as written, settings that need converting end with the shortcut list they had before and without the legacy key: the conversion is lost |
| KvStore.ShortcutRenameAsWrittenExample | lib/main/store.ts:259-283 | a legacy shortcut beside an empty list leaves the user with no shortcut at all |
| KvStore.ShortcutRename | lib/main/store.ts:259-283 | the corrected rename leaves settings that are not an object alone and writes nothing |
| KvStore.ShortcutRenameConverts | lib/main/store.ts:264-281 | converting settings holds the one transcribe shortcut built from the legacy keys, without the legacy key, with every other setting and top-level key kept |
| KvStore.ShortcutRenameOnlyDropsLegacy | lib/main/store.ts:278-281 | settings that need no conversion lose only the legacy key, and nothing is written when there is none |
| KvStore.ShortcutRenameIdempotent | lib/main/store.ts:259-283 | running the rename on its own result changes nothing and writes nothing |
| KvStore.Migrations | lib/main/store.ts:258-284 | the store runs one migration, the corrected shortcut rename `ShortcutRename` (the code as written is `ShortcutRenameAsWritten`, listed under Findings) |
| AuthEvents.IsTokenExpired | lib/auth/events.ts:22-34 | a token that does not decode, or has no or a zero `exp`, is expired; otherwise it is expired exactly when `exp` is below the current whole second |
| AuthEvents.ShouldRefreshToken | lib/auth/events.ts:140-143 | a refresh is due exactly when the expiry is at most five minutes away |
| AuthEvents.RefreshStaysDue | lib/auth/events.ts:140-143 | once a refresh is due it stays due as time passes |
| AuthEvents.EnsureValidTokens | lib/auth/events.ts:146-163 | no tokens or no access token fails with "No access token available" and does nothing else; success returns the stored tokens with no effect; any other failure means a set expiry is within five minutes, and the window is told exactly when it is open; a token whose refresh is not due succeeds |
| AuthEvents.DropSessionInSteps | lib/auth/events.ts:70-72 | dropping the session removes the profile, id token and access token, one delete each, in that order. The same code is at lib/auth/events.ts:131-133. |
| AuthEvents.ValidateWithoutTokens | lib/auth/events.ts:45-47 | with no access token in either place, validation succeeds and changes nothing. The same code is at lib/auth/events.ts:100. |
| AuthEvents.ValidateExpiredClearsSession | lib/auth/events.ts:57-78 | if either stored access token is expired, validation fails, clears the auth tokens, deletes the profile and both tokens, unsets the gRPC token and stops sync, and leaves every other key alone |
| AuthEvents.ValidateMirrorsToken | lib/auth/events.ts:79-97 | when a stored token exists and validation succeeds, the access token is present in both places and each existing copy is kept |
| AuthEvents.ValidateTwice | lib/auth/events.ts:37-105 | validating again after a successful validation changes nothing and has no effect |
| AuthEvents.ValidateStoredTokens | lib/auth/events.ts:37-105 | the store and the effects after the call are those ValidateStoredTokensSpec gives for the old store |
| AuthEvents.EndStoredSession | lib/auth/events.ts:57-78 | the store and the effects are those of EndSession on the old store |
| AuthEvents.LoginStoresGivenTokens | lib/auth/events.ts:107-127 | the profile is stored, each token only when given, sync starts exactly when an access token is given, and other keys are untouched |
| AuthEvents.LogoutUndoesLogin | lib/auth/events.ts:107-137 | logging out after logging in leaves no profile or tokens and the cache as before the login less those keys |
| AuthEvents.HandleLogin | lib/auth/events.ts:107-127 | the store and effects are those of LoginSpec |
| AuthEvents.HandleLogout | lib/auth/events.ts:129-137 | the store and effects are those of LogoutSpec |
| AudioStream.DurationMs | lib/main/audio/AudioStreamManager.ts:114-123 | the duration is the whole milliseconds of 16-bit mono samples at the rate, rounded down, never negative |
| AudioStream.DurationMonotone | lib/main/audio/AudioStreamManager.ts:114-123 | more audio never gives a shorter duration |
| AudioStream.WholeSeconds | lib/main/audio/AudioStreamManager.ts:114-123 | at any sample rate, two bytes a sample make `2 * rate * k` bytes last exactly `k` seconds; at the default rate of 16000 (lib/main/audio/AudioStreamManager.ts:11) that is 32000 bytes a second |
| AudioStream.EffectiveRate | lib/main/audio/AudioStreamManager.ts:68-76 | the output rate when non-zero, else the sample rate when non-zero, else 16000; never zero |
| AudioStream.AudioStreamManager.Initialize | lib/main/audio/AudioStreamManager.ts:35-40 | streaming starts with both queues empty and the listeners attached |
| AudioStream.AudioStreamManager.StopStreaming | lib/main/audio/AudioStreamManager.ts:42-50 | streaming stops, a waiting consumer is released, listeners are removed and the pending queue is emptied; the interaction's audio is kept |
| AudioStream.AudioStreamManager.AddAudioChunk | lib/main/audio/AudioStreamManager.ts:78-90 | while streaming, the chunk is appended to both the pending queue and the interaction's audio and a waiting consumer is woken; otherwise nothing changes |
| AudioStream.AudioStreamManager.InteractionAudioBuffer | lib/main/audio/AudioStreamManager.ts:92-94 | the interaction's audio is its chunks concatenated, as long as their lengths together |
| AudioStream.AudioStreamManager.SetAudioConfig | lib/main/audio/AudioStreamManager.ts:96-100 | a positive rate replaces the current one; anything else leaves it |
| AudioStream.AudioStreamManager.HandleAudioConfig | lib/main/audio/AudioStreamManager.ts:68-76 | the rate becomes EffectiveRate of the event when that is positive |
| AudioStream.AudioStreamManager.ClearInteractionAudio | lib/main/audio/AudioStreamManager.ts:110-112 | only the interaction's audio is emptied |
| AudioStream.AudioStreamManager.GetAudioDurationMs | lib/main/audio/AudioStreamManager.ts:114-123 | the duration of the interaction's audio at the current rate |
| AudioStream.AudioStreamManager.PumpStream | lib/main/audio/AudioStreamManager.ts:13-33 | one pass of the generator yields the whole pending queue in order and empties it; the stream finishes exactly when streaming has stopped and nothing is pending; with nothing pending while streaming, the consumer waits |
| ItoStreamController.ModeOnlyConfig | lib/main/itoStreamController.ts:116-135 | the mode update is a config whose context carries only the new mode |
| ItoStreamController.ModeUpdateKeepsContext | lib/main/itoStreamController.ts:119-123 | merged on the server, a mode-only update changes the mode and keeps every other setting of the stream as it was |
| ItoStreamController.BuildStreamConfig | lib/main/itoStreamController.ts:212-249 | the config carries the current mode, the window title, app name and context text, the browser URL and tone prompt (empty when missing), the LLM settings and vocabulary, and the current interaction id (empty when none) |
| ItoStreamController.TimingEventFor | lib/main/itoStreamController.ts:66-69 | the gRPC call is timed as server editing exactly in edit mode, otherwise as server dictation |
| ItoStreamController.ConfigMessages | lib/main/itoStreamController.ts:187-209 | each queued config becomes one message |
| ItoStreamController.ConfigMessagesAppend | lib/main/itoStreamController.ts:187-191 | sending two queues in turn sends their concatenation |
| ItoStreamController.SentAppend | lib/main/itoStreamController.ts:172-210 | the audio and the configs sent by two message runs in turn are those of each run, concatenated |
| ItoStreamController.ConfigMessagesCarry | lib/main/itoStreamController.ts:187-191 | the config messages carry exactly the queued configs in order and no audio |
| ItoStreamController.RoundCarries | lib/main/itoStreamController.ts:186-199 | one round sends its queued configs in order and then its one audio chunk |
| ItoStreamController.StreamCarriesEverything | lib/main/itoStreamController.ts:172-210 | the whole stream sends every audio chunk in order and every queued config in order, none lost or repeated |
| ItoStreamController.RoundEndsWithChunk | lib/main/itoStreamController.ts:186-199 | in a round every queued config precedes the audio chunk, which comes last |
| ItoStreamController.ConfigMessagesAt | lib/main/itoStreamController.ts:187-191 | the i-th config message carries the i-th queued config |
| ItoStreamController.ItoStreamController.Initialize | lib/main/itoStreamController.ts:30-46 | refused exactly while a stream is running, changing nothing; otherwise the mode is set, the flags, queue and abort controller are reset and audio streaming starts with empty queues |
| ItoStreamController.ItoStreamController.StartGrpcStream | lib/main/itoStreamController.ts:52-86 | a second start fails with "Stream already started"; the first arms the abort controller and names the mode's timing event |
| ItoStreamController.ItoStreamController.CompleteGrpcStream | lib/main/itoStreamController.ts:71-85 | a failing streamed call propagates its error; a response comes back with every audio chunk recorded for the interaction, joined in order, and the current (positive) sample rate |
| ItoStreamController.ItoStreamController.SetMode | lib/main/itoStreamController.ts:92-103 | without a running stream nothing changes; otherwise the mode is set and a mode-only config is queued |
| ItoStreamController.ItoStreamController.ScheduleConfigUpdate | lib/main/itoStreamController.ts:105-114 | without a running stream nothing is queued; otherwise the config built from the context and current mode is queued |
| ItoStreamController.ItoStreamController.EndInteraction | lib/main/itoStreamController.ts:137-145 | streaming stops and the pending audio is dropped, the interaction's audio kept |
| ItoStreamController.ItoStreamController.CancelTranscription | lib/main/itoStreamController.ts:147-158 | without a running stream nothing changes; otherwise the stream is marked cancelled, an armed abort controller is aborted and streaming stops |
| ItoStreamController.ItoStreamController.GetAudioDurationMs | lib/main/itoStreamController.ts:160-162 | the duration of the interaction's audio at the current rate |
| ItoStreamController.ItoStreamController.DrainConfigs | lib/main/itoStreamController.ts:187-191 | the queued configs are sent in order and the queue is emptied |
| ItoStreamController.ItoStreamController.OnAudioChunk | lib/main/itoStreamController.ts:178-199 | a cancelled stream stops and sends nothing; otherwise the queued configs go out, then the chunk, and the queue is emptied |
| ItoStreamController.ItoStreamController.FinishStream | lib/main/itoStreamController.ts:202-209 | the remaining configs are sent in order, with no audio, and the queue is emptied |
| Timing.ResolveId | lib/main/timing/TimingCollector.ts:72-96 | the given id when non-empty, else the current interaction's id when non-empty, else none; a resolved id is never empty |
| Timing.FindEvent | lib/main/timing/TimingCollector.ts:132-171 | a found event has the name and is among the events; none is found exactly when no event has the name |
| Timing.PutEvent | lib/main/timing/TimingCollector.ts:110 | after `Map.set` the name finds the event just put |
| Timing.PutEventOthers | lib/main/timing/TimingCollector.ts:110 | putting an event leaves every other name's event as it was |
| Timing.PutEventMembers | lib/main/timing/TimingCollector.ts:110 | putting an event adds no event but that one |
| Timing.PutEventDistinct | lib/main/timing/TimingCollector.ts:35 | the events stay keyed by name: no name appears twice. The same code is at lib/main/timing/TimingCollector.ts:110. |
| Timing.EndEvent | lib/main/timing/TimingCollector.ts:132-141 | an unknown event leaves the events as they are; a known one gets its end and its duration from its start, and every other event is unchanged |
| Timing.EndEventDistinct | lib/main/timing/TimingCollector.ts:132-141 | ending an event keeps the names distinct |
| Timing.LatestEnd | lib/main/timing/TimingCollector.ts:172-176 | the latest end (the end, or the start of an unended event) is at least every event's and is one of them |
| Timing.ReduceLatest | lib/main/timing/TimingCollector.ts:172-176 | the reduce returns an event ending no earlier than its seed and every event, taken from the seed or the events |
| Timing.ReduceIsLatest | lib/main/timing/TimingCollector.ts:172-176 | the reduce seeded with the first event finds the latest end |
| Timing.TotalDuration | lib/main/timing/TimingCollector.ts:170-180 | without an interaction-active event the total is 0; otherwise it is the latest end minus that event's start |
| Timing.TotalIsActiveDuration | lib/main/timing/TimingCollector.ts:170-180 | when the interaction-active event ends last, the total is its own duration |
| Timing.KeepNewest | lib/main/timing/TimingCollector.ts:199-205 | at most 100 reports are kept, the newest ones in order; fewer are kept as they are |
| Timing.FlushCount | lib/main/timing/TimingCollector.ts:239-242 | a flush takes every report when flushing all, otherwise up to 10, fewer only when fewer are queued |
| Timing.AfterFlush | lib/main/timing/TimingCollector.ts:234-259 | a failed submission puts the reports back in front, leaving the queue as it was; a successful one drops the reports sent |
| Timing.FlushTwice | lib/main/timing/TimingCollector.ts:234-259 | two successful batch flushes drop the first two batches |
| Timing.TimingsAfterStart | lib/main/timing/TimingCollector.ts:87-111 | when collecting, the resolved known interaction's event is (re)started now and every other interaction is untouched; no interaction is added; without analytics nothing changes |
| Timing.TimingsAfterEnd | lib/main/timing/TimingCollector.ts:113-142 | when collecting, the resolved known interaction's event is ended now as EndEvent says and every other interaction is untouched; without analytics nothing changes |
| Timing.StartEndKeepKeyed | lib/main/timing/TimingCollector.ts:106-141 | starting or ending an event keeps every interaction's events keyed by name |
| Timing.TimedEventIsEnded | lib/main/timing/TimingCollector.ts:298-311 | a timed call whose id resolves the same at both ends leaves its event holding the start, the end and their difference |
| Timing.SwitchedInteractionLeavesEventOpen | lib/main/timing/TimingCollector.ts:303-309 | when no id is given and the current interaction changes during the awaited call, the event started for the earlier interaction is never ended |
| Timing.PendingSnoc | lib/main/timing/TimingCollector.ts:239-242 | a batch joining those in flight adds exactly its reports |
| Timing.PendingRemove | lib/main/timing/TimingCollector.ts:248-257 | a batch leaving those in flight, wherever it stands, takes exactly its reports with it |
| Timing.EnqueueHeld | lib/main/timing/TimingCollector.ts:195-205 | a finalised report joins the queue as its newest entry; the queue then holds at most 100, and the reports held are the old ones plus the new one minus exactly the overflow dropped |
| Timing.TakeHeld | lib/main/timing/TimingCollector.ts:234-246 | starting a flush loses no report and invents none; the batch in flight is the oldest reports of the queue |
| Timing.AnswerHeld | lib/main/timing/TimingCollector.ts:248-258 | an accepted batch leaves the outbox and nothing else does; a refused batch is held again, in the queue |
| Timing.ImmediateAnswer | lib/main/timing/TimingCollector.ts:234-259 | a flush answered before anything else happens leaves the queue as AfterFlush says |
| Timing.LateRefusalsReorder | lib/main/timing/TimingCollector.ts:254-258 | two batch flushes in flight that both fail, answered in the order they started, leave the second batch ahead of the first: the queue's order is no longer the finalisation order |
| Timing.RefusalCanOverflow | lib/main/timing/TimingCollector.ts:199-205 | a refused batch put back on a full queue is not cut again, so the queue then holds more than 100 reports |
| Timing.TimingCollector.StartInteraction | lib/main/timing/TimingCollector.ts:67-85 | when collecting and an id resolves, that interaction starts afresh with no events; otherwise nothing changes |
| Timing.TimingCollector.StartTiming | lib/main/timing/TimingCollector.ts:87-111 | the active timings become TimingsAfterStart of the old ones; the outbox is untouched |
| Timing.TimingCollector.EndTiming | lib/main/timing/TimingCollector.ts:113-142 | the active timings become TimingsAfterEnd of the old ones; the outbox is untouched |
| Timing.TimingCollector.FinalizeInteraction | lib/main/timing/TimingCollector.ts:148-215 | for an unknown interaction or when not collecting nothing changes; otherwise the interaction leaves the active set and its report (user "unknown" when none, its events, TotalDuration) is Enqueued with each event name at most once, as the source's map keyed by event name ensures, and ten or more queued reports start a batch flush (Taken) without waiting for its answer |
| Timing.TimingCollector.ClearInteraction | lib/main/timing/TimingCollector.ts:221-229 | the resolved interaction is dropped without a report, whether or not analytics are on |
| Timing.TimingCollector.StartFlush | lib/main/timing/TimingCollector.ts:234-247 | the outbox becomes Taken of the old one: ten reports, or all, leave the queue as a new batch in flight; an empty queue starts nothing |
| Timing.TimingCollector.FinishFlush | lib/main/timing/TimingCollector.ts:248-258 | the answer for one batch in flight: the outbox becomes Answered of the old one, and an accepted batch is recorded as submitted |
| Timing.TimingCollector.TimerFired | lib/main/timing/TimingCollector.ts:264-270 | every five seconds while the timer is set, one batch flush starts; after shutdown nothing happens |
| Timing.TimingCollector.Shutdown | lib/main/timing/TimingCollector.ts:275-285 | the timer is cleared and the whole queue leaves as one batch in flight, whose answer is a FinishFlush |
| Timing.TimingCollector.TimeAsync | lib/main/timing/TimingCollector.ts:298-311 | the wrapped outcome, success or failure, is returned unchanged; the event is started with the analytics flag and interaction read before the call and ended with those read after it |
| SyncService.EnvNamespace | lib/main/syncService.ts:18-26 | The namespace is never empty: the parsed host of the base URL when there is one, else the base URL itself, else `unknown`. |
| SyncService.CursorKey | lib/main/syncService.ts:28-31 | The cursor key starts with `lastSyncedAt:` and ends with `:` followed by the user id. |
| SyncService.CursorKeyPerUser | lib/main/syncService.ts:28-31 | Within one environment, two users never share a cursor key. |
| SyncService.CursorKeyPerEnvironment | lib/main/syncService.ts:28-31 | For one user, two environments never share a cursor key. |
| SyncService.Classify | lib/main/syncService.ts:126-132 | A row created after the cursor is created on the server, even if it has since been deleted. Otherwise a deleted row is deleted, and any other row is updated. The three cases are exhaustive and exclusive. |
| SyncService.PushCalls | lib/main/syncService.ts:120-180 | One push per listed row, in listing order. Each push carries that row and its classified operation. |
| SyncService.PushCallsSnoc | lib/main/syncService.ts:123-137 | Pushing one more row appends exactly its call to the calls already made. |
| SyncService.PushesIgnoreFailures | lib/main/syncService.ts:133-135 | A rejected push does not stop the loop. Which rows are pushed, and with which operations, does not depend on which pushes fail. |
| SyncService.OrNull | lib/main/syncService.ts:193 | An empty string becomes null, and only an empty string does. |
| SyncService.ToLocal | lib/main/syncService.ts:190-198 | A live pulled row keeps its id and timestamps and is not deleted. Empty optional strings become null. The JSON column is decoded, empty audio becomes null, a missing duration becomes 0 and the sample rate is unknown. Interaction and dictionary rows are converted at lib/main/syncService.ts:228-245 and lib/main/syncService.ts:260-268. |
| SyncService.PullOne | lib/main/syncService.ts:185-199 | A row the server has deleted is soft-deleted locally and never upserted. Any other row is upserted as its local form. |
| SyncService.PullIntoStep | lib/main/syncService.ts:184-200 | Pulling the first i+1 rows is pulling the first i rows, then applying row i. |
| SyncService.PullAddsOnlyLiveRows | lib/main/syncService.ts:186-189 | Every id present after a pull was either present before or belongs to a row the server lists as live. A row deleted on the server is never created locally. |
| SyncService.PullLeavesOthers | lib/main/syncService.ts:182-203 | Pulling rows with other ids leaves a local row unchanged. |
| SyncService.PullAt | lib/main/syncService.ts:182-203 | With distinct ids in the listing, the final row under the i-th row's id is what applying that row to the outcome of the earlier rows gives. |
| SyncService.PulledNoteLands | lib/main/syncService.ts:182-203 | With distinct ids, a live pulled note ends up locally with the pulled content. A deleted one that exists locally ends up soft-deleted at `now`. |
| SyncService.PullSplit | lib/main/syncService.ts:184-200 | Pulling a listing split in two is pulling the first part, then the second. |
| SyncService.SyncedSettings | lib/main/syncService.ts:275-356 | Missing settings change nothing. Otherwise the server defaults always replace the local ones, and the LLM fields are taken only when the server copy is newer than the cursor. The local-only switches survive, as false when unset. |
| SyncService.SyncedSettingsIdempotent | lib/main/syncService.ts:275-356 | Syncing the same server settings a second time changes nothing. |
| SyncService.QueryOrder | lib/main/sqlite/repo.ts:279-283 | A query result holds each matching row exactly once, in an order SQLite leaves unspecified. |
| SyncService.QueryResultPushed | lib/main/syncService.ts:120-139 | Every row of a query result is pushed, with its classified operation. |
| SyncService.CycleLogPushesEveryRow | lib/main/syncService.ts:85-112 | The calls of a cycle that gets through hold one push per locally modified row of each table, all before the listings, and end with the settings fetch; the log is four calls longer than the number of pending rows. |
| SyncService.Sync.Stop | lib/main/syncService.ts:60-66 | The timer is cleared and the in-progress flag is reset. Cursors, calls and settings are unchanged. |
| SyncService.Sync.PushTable | lib/main/syncService.ts:120-139 | Every row modified since the cursor is pushed exactly once, whatever pushes fail. The returned count is the number of rows listed. Local rows are not changed, and a calls log holding only pushes from a given position on still does after the table's pushes. |
| SyncService.Sync.PullRow | lib/main/syncService.ts:185-199 | The table after one pulled row is `PullOne` of the table before. |
| SyncService.Sync.PullTable | lib/main/syncService.ts:182-203 | The table after the loop is the whole listing applied in order (`PullInto`). The count is the length of the listing. |
| SyncService.Sync.PushAll | lib/main/syncService.ts:92-95 | Notes, interactions and dictionary items are pushed in that order: on success the calls log grows by exactly `PushLog(p)`, the pushes of each table in the order its query returned the modified rows, and `p` holds each modified row of each table exactly once. A local listing that throws ends the cycle with `ok` false, after which only pushes were made. Pushing never changes the local tables. |
| SyncService.Sync.PullAll | lib/main/syncService.ts:100-102 | Each table gets the server listing for it, in the same table order, and the log grows by the three listings. A remote listing that throws stops the pull; the log only ever grows. |
| SyncService.Sync.Cycle | lib/main/syncService.ts:85-112 | A failure to list local changes ends the cycle before anything is pulled: only pushes happen and no table, setting or cursor changes. Otherwise every modified row is pushed, table by table, before anything else. A cycle that gets through makes exactly the calls `CycleLog(p)`: the pushes, the three listings, then the settings fetch. It pulls everything listed and syncs the settings. The cursor moves to `now` exactly when something was pushed or pulled and the cursor write succeeds. |
| SyncService.Sync.BeginSync | lib/main/syncService.ts:68-88 | while a cycle is running (the flag is raised) nothing at all changes and no cycle starts; otherwise a cycle starts exactly when a user id is present and the cursor can be read, and it raises the flag, which every later `runSync` sees until FinishSync; a missing cursor is the epoch; no call is made and no cursor is written |
| SyncService.Sync.FinishSync | lib/main/syncService.ts:90-117 | The cycle runs as for `Cycle`, with the same calls log (`CycleLog(p)` when it gets through), and the flag is lowered however it ends: pushes only when listing local changes fails, the pulled rows and synced settings otherwise. The cursor moves to now exactly when the cycle got through and processed something. |
| SyncService.Sync.RunSync | lib/main/syncService.ts:68-118 | BeginSync followed, when it started a cycle, by FinishSync with nothing in between. Nothing happens while a cycle is running, without a user id, or when the cursor cannot be read. Otherwise a cycle that gets through makes exactly the calls `CycleLog(p)` with `p` the rows modified since the stored cursor, pulls, syncs the settings and moves the cursor as for `Cycle`; the flag ends as it was on entry. |
| SyncService.Sync.Start | lib/main/syncService.ts:49-58 | Runs one immediate cycle, with exactly the effect `RunSync` states (calls log, rows, settings and cursor), then the interval timer is active. |
| ContextGrabber.EffectiveUser | lib/main/context/ContextGrabber.ts:27 | The user id is never empty: the current user when signed in, else `local-user`. The same code is at lib/main/context/ContextGrabber.ts:123. |
| ContextGrabber.Active | lib/main/context/ContextGrabber.ts:158-160 | Only items that are not soft-deleted are kept, and each kept item comes from the listing. |
| ContextGrabber.Contribution | lib/main/context/ContextGrabber.ts:165-173 | An item adds its word, followed by its pronunciation exactly when the pronunciation is non-empty. |
| ContextGrabber.VocabularyAndReplacements | lib/main/context/ContextGrabber.ts:151-180 | The loop yields the vocabulary and replacements of the active items in listing order. A failed read yields two empty lists. |
| ContextGrabber.VocabularyCount | lib/main/context/ContextGrabber.ts:162-173 | The vocabulary has one word per active item, plus one more per replacement. |
| ContextGrabber.ReplacementsInVocabulary | lib/main/context/ContextGrabber.ts:166-169 | Both sides of every replacement are in the vocabulary, and no replacement maps to the empty string. |
| ContextGrabber.VocabularyFromItems | lib/main/context/ContextGrabber.ts:165-173 | Every vocabulary word is the word or the pronunciation of some active item. |
| ContextGrabber.DeletedItemsIgnored | lib/main/context/ContextGrabber.ts:157-173 | Every word sent comes from a dictionary item that is not deleted. |
| ContextGrabber.ToneIdFor | lib/main/context/ContextGrabber.ts:236 | The tone id is never empty: the target's non-empty tone id, else the default tone. |
| ContextGrabber.ToneForCurrentApp | lib/main/context/ContextGrabber.ts:199-245 | No app name, or a table read that throws, gives no target and no tone. A target registered for the browser domain and this user wins. Otherwise the target is the app-id lookup on the normalized app name. The tone is the one stored under the target's tone id, else under the default id. |
| ContextGrabber.InfoItems | lib/main/context/ContextGrabber.ts:140-143 | One item per additional-info row, in order, keeping each row's key and value. |
| ContextGrabber.UserDetails | lib/main/context/ContextGrabber.ts:121-149 | There are no details exactly when a table read throws, when the user has no profile row, or when the row has neither a name nor an occupation. Otherwise the details are the profile plus every additional-info row of the user, once each, in sort order. |
| ContextGrabber.ContextText | lib/main/context/ContextGrabber.ts:247-299 | Outside EDIT mode the text is empty. A non-empty accessibility reading is returned trimmed. Otherwise the keyboard reading is returned untrimmed when it is not blank, else the empty string. |
| ContextGrabber.GatherContext | lib/main/context/ContextGrabber.ts:63-119 | The vocabulary and the replacements come from the active dictionary items, or are both empty when the read failed. Details are absent exactly when a profile read throws or there is no usable profile, and otherwise are that profile with its additional-info rows in the table's sort order. Missing window fields become empty strings. The URL and domain are passed through. The stored advanced settings are passed through unchanged. No app name, or a tone read that throws, means no tone; otherwise the tone is the one of the target registered for the browser's domain when there is one, else of the target registered for the application, else the default tone. The selected-text context is the reading chosen by the mode. |
| InteractionManager.Title | lib/main/interactions/InteractionManager.ts:74-77 | A transcript over 50 characters is cut to its first 50 followed by `...`. An empty one becomes `Voice interaction`. Any other is kept as is. |
| InteractionManager.TitleBounded | lib/main/interactions/InteractionManager.ts:74-77 | A title is never empty, is at most 53 characters long, and begins like the transcript. |
| InteractionManager.NullIfEmpty | lib/main/interactions/InteractionManager.ts:67-68 | Absent exactly when the text is empty; otherwise the text itself. |
| InteractionManager.Duration | lib/main/interactions/InteractionManager.ts:58-61 | The time since a truthy start, or 0 when there is no start or it is 0. |
| InteractionManager.BuildInteraction | lib/main/interactions/InteractionManager.ts:63-94 | The record carries the current id, the user, the derived title, the audio byte count and the error fields. Audio is null exactly when empty. An LLM error is present exactly when there is an error message. Both timestamps are `now`. |
| InteractionManager.ToRow | lib/main/interactions/InteractionManager.ts:81-96 | The row written carries the record's id, user, title, JSON-encoded outputs, audio, duration and sample rate. It is created and updated at the same instant and is not deleted. |
| InteractionManager.Manager.Initialize | lib/main/interactions/InteractionManager.ts:13-17 | A fresh id becomes current, starts now and is returned. |
| InteractionManager.Manager.Adopt | lib/main/interactions/InteractionManager.ts:27-30 | The given id becomes current and starts now. |
| InteractionManager.Manager.Clear | lib/main/interactions/InteractionManager.ts:124-127 | There is no current id and no start time. |
| InteractionManager.Manager.CreateInteraction | lib/main/interactions/InteractionManager.ts:32-122 | Without a current id or a signed-in user nothing is written. Otherwise exactly the built record is upserted under the current id. The current id and start time are left unchanged. |
| InteractionManager.SavedInteractionListed | lib/main/interactions/InteractionManager.ts:79-96 | After the upsert, the saved interaction is listed among its user's rows and titled from its transcript, whether or not the id existed before. |
| SonioxKeys.GetKeyStep | lib/main/soniox/SonioxTempKeyManager.ts:8-36 | The server is asked exactly when no key is usable, meaning none is cached or it is within five minutes of expiring. A usable key is returned with the cache unchanged. A failed answer or one without a key gives the failure message and leaves the cache unchanged. A good answer caches the key until `now` plus its lifetime and returns it. |
| SonioxKeys.ReusedUntilMargin | lib/main/soniox/SonioxTempKeyManager.ts:9-28 | A key fetched at t is handed out again, with no request, on every call made before five minutes ahead of its expiry. |
| SonioxKeys.RefetchedFromMargin | lib/main/soniox/SonioxTempKeyManager.ts:9-14 | From the refresh margin on, the next call asks the server again. |
| SonioxKeys.FailureRetried | lib/main/soniox/SonioxTempKeyManager.ts:21-25 | After a failed request the cache is still unusable, so the next call asks again. |
| SonioxKeys.TempKeyManager.constructor | lib/main/soniox/SonioxTempKeyManager.ts:4-5 | No key is cached and the expiry is 0. |
| SonioxKeys.TempKeyManager.GetKey | lib/main/soniox/SonioxTempKeyManager.ts:8-36 | The result, whether the server was asked, and the new cache are those of `GetKeyStep` on the old cache. |
| SonioxKeys.TempKeyManager.Invalidate | lib/main/soniox/SonioxTempKeyManager.ts:38-41 | The cache is emptied, so no key is usable at any time and the next call fetches. |
| Logger.ElectronLevel | lib/main/logger.ts:190-206 | `verbose`, `silly` and `debug` map to debug, `warn` to warn and `error` to error. Everything else, including `info` and `log`, maps to info. |
| Logger.ConsoleLevel | lib/main/logger.ts:148-187 | The console methods `log`, `info`, `warn` and `error` are forwarded with their own levels, and no other method is. |
| Logger.Pushed | lib/main/logger.ts:150-151 | After a push the event is last and at most 5000 events remain. The result is a suffix of the old queue plus the event: nothing is dropped below the bound, and exactly 5000 events remain once the bound is reached. The same code is at lib/main/logger.ts:207-208. |
| Logger.BatchLength | lib/main/logger.ts:64 | A batch has at most 50 events and never more than the queue holds. It is non-empty for a non-empty queue and exactly 50 when the queue holds at least 50. |
| Logger.Flushed | lib/main/logger.ts:61-93 | An accepted send (ok, or status 204) drops exactly the batch from the head of the queue. Any other outcome, including a missing base URL, leaves the queue unchanged. |
| Logger.FlushesDrain | lib/main/logger.ts:95-105 | When every send is accepted, ceil(length/50) flushes empty the queue. |
| Logger.RemoteLog.constructor | lib/main/logger.ts:50-59 | The queue starts from the stored events, not cut to the bound. Nothing is sending, and a flush is scheduled exactly when the queue is non-empty. The same code is at lib/main/logger.ts:222-225. |
| Logger.RemoteLog.Enqueue | lib/main/logger.ts:148-152 | The queue becomes `Pushed` of the old queue, so it stays within 5000 events, and a flush is scheduled. The same code is at lib/main/logger.ts:204-209. |
| Logger.RemoteLog.StartFlush | lib/main/logger.ts:61-65 | Nothing happens while a send is in flight or when the queue is empty. Otherwise the first min(50, length) events are taken as the batch and sending begins. |
| Logger.RemoteLog.FinishFlush | lib/main/logger.ts:83-92 | On an accepted response, exactly the taken events are removed and the rest is persisted. Otherwise the queue and the stored copy are unchanged. Sending is over either way. |
| Logger.RemoteLog.TimerFired | lib/main/logger.ts:97-104 | With no send in flight, the queue becomes `Flushed` of the old queue. Another flush is scheduled exactly while events remain. |
| Logger.RemoteLog.PersistTick | lib/main/logger.ts:136-140 | A non-empty queue is written to the store, and an empty one is not. |
| Logger.PushKeepsBatch | lib/main/logger.ts:61-93 | Logging during a send below the bound leaves the batch at the head of the queue, so the completion removes the events that were sent. The same code is at lib/main/logger.ts:150-151. |
| LocalRepo.DictionaryConstraintFailure | lib/main/sqlite/repo.ts:10-40 | Always a failure. It is DUPLICATE, naming the word, exactly when the error is a unique-constraint error (the code, the message text, or errno 19). Otherwise it is UNKNOWN, with the driver's message or the stock one when that is empty. |
| LocalRepo.WordIndexViolationIsDuplicate | lib/main/sqlite/repo.ts:24-34 | A write that violates the word index is reported as `"<word>" already exists in your dictionary`, with type DUPLICATE. |
| LocalRepo.ParseJsonField | lib/main/sqlite/repo.ts:43-59 | Falsy and non-string values come back unchanged. A string that fails to parse gives null. |
| LocalRepo.ParseOfEncoded | lib/main/sqlite/repo.ts:43-54 | A non-string value stored once as JSON text reads back as itself. |
| LocalRepo.ParseOfDoubleEncoded | lib/main/sqlite/repo.ts:48-54 | A value whose JSON text was encoded a second time also reads back as itself: exactly one extra layer is removed. |
| LocalRepo.FindAll | lib/main/sqlite/repo.ts:125-133 | Only rows of the table that are not soft-deleted are returned. The same code is at lib/main/sqlite/repo.ts:236-245 and lib/main/sqlite/repo.ts:358-367. |
| LocalRepo.FindModifiedSince | lib/main/sqlite/repo.ts:151-158 | Only rows of the table are returned, deleted ones included. The same code is at lib/main/sqlite/repo.ts:279-283 and lib/main/sqlite/repo.ts:398-403. |
| LocalRepo.SoftDeleted | lib/main/sqlite/repo.ts:135-139 | Only the row with that id changes, gaining `deleted_at` and `updated_at` equal to now. The key set is unchanged, and an unknown id changes nothing. The same code is at lib/main/sqlite/repo.ts:263-267 and lib/main/sqlite/repo.ts:384-389. |
| LocalRepo.DeletedAllOf | lib/main/sqlite/repo.ts:141-149 | Every row the user owns is soft-deleted at now. Every other row is unchanged. The same code is at lib/main/sqlite/repo.ts:269-277 and lib/main/sqlite/repo.ts:391-396. |
| LocalRepo.MergeCols | lib/main/sqlite/repo.ts:164-172 | An interaction update keeps the existing `raw_audio_id` and takes the other listed columns. Every other kind takes the incoming columns. The same code is at lib/main/sqlite/repo.ts:289-297 and lib/main/sqlite/repo.ts:409-413. |
| LocalRepo.Inserted | lib/main/sqlite/repo.ts:160-189 | A new row keeps every field, except that an interaction's `raw_audio_id`, which is not in the insert column list, starts null. |
| LocalRepo.Upserted | lib/main/sqlite/repo.ts:160-189 | The key set gains the id and other rows are unchanged. An existing row keeps its id, owner and creation time, and takes the listed columns plus the new `updated_at` and `deleted_at`. A new id gets the inserted row. The same code is at lib/main/sqlite/repo.ts:285-318 and lib/main/sqlite/repo.ts:405-430. |
| LocalRepo.SoftDeleteHides | lib/main/sqlite/repo.ts:125-139 | After a soft delete, the row drops out of `findAll` and every other listed row stays listed. |
| LocalRepo.SoftDeleteIsModified | lib/main/sqlite/repo.ts:135-158 | A soft delete shows up in the next `findModifiedSince` of any earlier instant. |
| LocalRepo.UpsertShows | lib/main/sqlite/repo.ts:125-133 | After upserting a live row the user owns, `findAll` lists a row with that id and the new `updated_at`. The same code is at lib/main/sqlite/repo.ts:160-189. |
| LocalRepo.Table.constructor | lib/main/sqlite/repo.ts:81 | The table has the given kind and no rows. The same code is at lib/main/sqlite/repo.ts:201 and lib/main/sqlite/repo.ts:320. |
| LocalRepo.Table.Insert | lib/main/sqlite/repo.ts:82-116 | A row is added under the fresh id with both timestamps equal to now and no deletion. It is returned, and nothing else changes. The same code is at lib/main/sqlite/repo.ts:202-230. |
| LocalRepo.Table.InsertWord | lib/main/sqlite/repo.ts:321-356 | If a live row already holds the word, the result is DUPLICATE and the table is unchanged. Otherwise the new row is added and returned. The call never throws. |
| LocalRepo.Table.FindById | lib/main/sqlite/repo.ts:117-123 | The row exactly when the id is present. The same code is at lib/main/sqlite/repo.ts:232-234. |
| LocalRepo.Table.UpdateContent | lib/main/sqlite/repo.ts:254-261 | Only that note's content and `updated_at` change, and an unknown id changes nothing. |
| LocalRepo.Table.UpdateWord | lib/main/sqlite/repo.ts:369-382 | It fails exactly when the item is live and another live row holds the word. That failure is DUPLICATE and leaves the table unchanged. Otherwise only that item's word, pronunciation and `updated_at` change. |
| LocalRepo.Table.SoftDelete | lib/main/sqlite/repo.ts:135-139 | The table becomes `SoftDeleted` of the old one. The same code is at lib/main/sqlite/repo.ts:263-267 and lib/main/sqlite/repo.ts:384-389. |
| LocalRepo.Table.DeleteAllUserData | lib/main/sqlite/repo.ts:141-149 | The table becomes `DeletedAllOf` of the old one. The same code is at lib/main/sqlite/repo.ts:269-277 and lib/main/sqlite/repo.ts:391-396. |
| LocalRepo.Table.Upsert | lib/main/sqlite/repo.ts:160-189 | The table becomes `Upserted` of the old one. The same code is at lib/main/sqlite/repo.ts:285-318. |
| LocalRepo.Table.UpsertWord | lib/main/sqlite/repo.ts:405-430 | It fails as DUPLICATE, leaving the table unchanged, exactly when the row is live and its word is held by another live row. Otherwise the table becomes `Upserted` of the old one. The call never throws. |
| LocalRepo.KeyValueStore.constructor | lib/main/sqlite/repo.ts:437 | The store starts empty. |
| LocalRepo.KeyValueStore.Set | lib/main/sqlite/repo.ts:438-445 | The key maps to the value, whether it was present or not. |
| LocalRepo.KeyValueStore.Get | lib/main/sqlite/repo.ts:447-453 | The value exactly when the key is present. |
| LocalRepo.KeyValueStore.Delete | lib/main/sqlite/repo.ts:455-457 | The key is removed and nothing else changes. |
| LocalRepo.SetColumns | lib/main/sqlite/repo.ts:564-587 | A column is set exactly when the update gives it, in the fixed column order. |
| LocalRepo.Clauses | lib/main/sqlite/repo.ts:561-587 | One `column = ?` clause per set column, in the same order. |
| LocalRepo.Params | lib/main/sqlite/repo.ts:562-587 | One parameter per set column, in the same order, each being the given value. |
| LocalRepo.BuildMetadataUpdate | lib/main/sqlite/repo.ts:557-596 | The clauses are one per given column in the fixed order, then `updated_at = ?`. The parameters line up with them, followed by the time and then the user id last. |
| LocalRepo.SetColumnsAppend | lib/main/sqlite/repo.ts:564-587 | Selecting the set columns of two lists joined is joining their selections. |
| LocalRepo.MetadataUpdateShape | lib/main/sqlite/repo.ts:557-596 | A column's SET clause appears exactly when the update gives that key, and `updated_at = ?` is always the last clause. |
| LocalRepo.GivenColumnHasClause | lib/main/sqlite/repo.ts:564-587 | Every given key gets its SET clause. |
| LocalRepo.ClauseOnlyIfGiven | lib/main/sqlite/repo.ts:564-589 | A SET clause appears only for a given key. |
| LocalRepo.ClauseInjective | lib/main/sqlite/repo.ts:564-587 | Different columns have different SET clauses. |
| AppTargetRepo.ToAppTarget | lib/main/sqlite/appTargetRepo.ts:55-68 | Every column is copied, and an empty match type reads as `app`, so the match type is never empty. |
| AppTargetRepo.ToTone | lib/main/sqlite/appTargetRepo.ts:70-82 | Every column is copied, and `isSystem` holds exactly when the stored flag is not 0. |
| AppTargetRepo.FindTarget | lib/main/sqlite/appTargetRepo.ts:95-103 | The row stored under (id, user) is found exactly when it exists and is not soft-deleted. |
| AppTargetRepo.ListTargets | lib/main/sqlite/appTargetRepo.ts:85-93 | Only live targets of that user are listed. |
| AppTargetRepo.UpsertedTarget | lib/main/sqlite/appTargetRepo.ts:116-149 | Name, match type (default `app`) and domain come from the input. A given tone or icon replaces the old one, and an absent one keeps it. `updated_at` is now, `deleted_at` is cleared, and `created_at` is kept, or is now for a new key. |
| AppTargetRepo.UpsertThenFind | lib/main/sqlite/appTargetRepo.ts:151-155 | Reading back the upserted key always finds the written row, so `Failed to upsert app target` cannot be thrown. |
| AppTargetRepo.UpsertRevives | lib/main/sqlite/appTargetRepo.ts:130-137 | A soft-deleted target is invisible before the upsert and found after it. |
| AppTargetRepo.UpsertKeepsChosenTone | lib/main/sqlite/appTargetRepo.ts:134 | Re-registering an app without a tone keeps the tone already chosen. |
| AppTargetRepo.AppTargetTable.constructor | lib/main/sqlite/appTargetRepo.ts:84 | The table starts empty. |
| AppTargetRepo.AppTargetTable.FindById | lib/main/sqlite/appTargetRepo.ts:95-103 | A found target has that id and user and is live. It is absent exactly when the key is missing or soft-deleted. |
| AppTargetRepo.AppTargetTable.FindAll | lib/main/sqlite/appTargetRepo.ts:85-93 | A target is listed exactly when it is the mapped form of a live row of that user. |
| AppTargetRepo.AppTargetTable.FindByDomain | lib/main/sqlite/appTargetRepo.ts:105-114 | None exactly when no live `domain` row of that user has that domain. Otherwise the result is the mapped form of one such row. |
| AppTargetRepo.AppTargetTable.Upsert | lib/main/sqlite/appTargetRepo.ts:116-156 | The row under (id, user) becomes `UpsertedTarget`, and the returned target is what `findById` then reads: live, and carrying the input's name. |
| AppTargetRepo.AppTargetTable.UpdateTone | lib/main/sqlite/appTargetRepo.ts:158-169 | Only that row's tone and `updated_at` change, soft-deleted or not. A missing key changes nothing. |
| AppTargetRepo.AppTargetTable.Delete | lib/main/sqlite/appTargetRepo.ts:171-178 | Only that row's `deleted_at` is stamped, and `updated_at` is left alone. It is then not found. A missing key changes nothing. |
| AppTargetRepo.AppTargetTable.DeleteAllUserData | lib/main/sqlite/appTargetRepo.ts:180-182 | Every row of the user is removed outright, other users' rows stay, and the user then has no targets. |
| AppTargetRepo.ToneTable.constructor | lib/main/sqlite/appTargetRepo.ts:185 | The table starts empty. |
| AppTargetRepo.ToneTable.FindAll | lib/main/sqlite/appTargetRepo.ts:186-197 | Exactly the built-in tones and the user's own live tones, ordered by `sort_order`. |
| AppTargetRepo.ToneTable.FindById | lib/main/sqlite/appTargetRepo.ts:199-208 | The tone stored under the id, whoever owns it and even if soft-deleted. |
| AppTargetRepo.ToneTable.DeleteAllUserData | lib/main/sqlite/appTargetRepo.ts:210-212 | The user's own tones are removed, and the built-in tones with no owner remain. |
| UserDetailsRepo.NullIfEmpty | lib/main/sqlite/userDetailsRepo.ts:35-41 | Absent exactly when the text is absent or empty. Otherwise the text is kept. |
| UserDetailsRepo.StoredDetails | lib/main/sqlite/userDetailsRepo.ts:11-45 | The stored row has the user id, name and occupation as given. The optional fields are empty-to-null. `updated_at` is now, and `created_at` is kept for an existing profile or is now for a new one. |
| UserDetailsRepo.UpsertTwice | lib/main/sqlite/userDetailsRepo.ts:16-44 | Saving the same profile twice changes nothing but `updated_at`. |
| UserDetailsRepo.KeptRows | lib/main/sqlite/userDetailsRepo.ts:70-77 | Every inserted row is stored under its own id and belongs to the user. |
| UserDetailsRepo.KeptList | lib/main/sqlite/userDetailsRepo.ts:70-77 | Every inserted row's `sort_order` is the position of an item already visited. |
| UserDetailsRepo.KeptListIncreasing | lib/main/sqlite/userDetailsRepo.ts:70-77 | With skipped items leaving gaps, the inserted rows are in strictly increasing `sort_order`. |
| UserDetailsRepo.KeptRowsKeys | lib/main/sqlite/userDetailsRepo.ts:70-77 | The first n items insert rows only under the first n fresh ids. |
| UserDetailsRepo.KeptRowsMatchList | lib/main/sqlite/userDetailsRepo.ts:70-77 | A row is among those inserted exactly when it is in the ordered list of kept rows. |
| UserDetailsRepo.KeptRowsStep | lib/main/sqlite/userDetailsRepo.ts:70-77 | One more item inserts its row over what is stored. An item whose key and value are both blank inserts nothing. |
| UserDetailsRepo.ProfileTables.constructor | lib/main/sqlite/userDetailsRepo.ts:5 | Both tables start empty. The same code is at lib/main/sqlite/userDetailsRepo.ts:57. |
| UserDetailsRepo.ProfileTables.FindByUserId | lib/main/sqlite/userDetailsRepo.ts:6-9 | The profile exactly when the user has one, and it belongs to that user. |
| UserDetailsRepo.ProfileTables.Upsert | lib/main/sqlite/userDetailsRepo.ts:11-45 | The user's row becomes `StoredDetails` of the old row, and the other profiles are unchanged. |
| UserDetailsRepo.ProfileTables.InfoOf | lib/main/sqlite/userDetailsRepo.ts:58-62 | Exactly the stored additional-info rows of that user. |
| UserDetailsRepo.ProfileTables.FindAllByUserId | lib/main/sqlite/userDetailsRepo.ts:58-62 | Each of the user's rows exactly once, ordered by `sort_order`. |
| UserDetailsRepo.ProfileTables.DeleteByUserId | lib/main/sqlite/userDetailsRepo.ts:47-54 | The user's additional-info rows and profile are removed, and other users' rows are unchanged. The user then has neither. |
| UserDetailsRepo.ProfileTables.ReplaceAll | lib/main/sqlite/userDetailsRepo.ts:64-78 | The user's old rows are gone and other users' rows are unchanged. Each item whose key or value is not blank is inserted under a fresh id, with its position as `sort_order`. |
| UserDetailsRepo.ListingAfterReplace | lib/main/sqlite/userDetailsRepo.ts:58-78 | After `replaceAll`, listing the user's rows gives back exactly the kept items in the order given. |
| UserDetailsRepo.DistinctRowsDistinctOrder | lib/main/sqlite/userDetailsRepo.ts:60 | In a listing strictly ordered by `sort_order`, different rows have different orders. |
| Migrations.PendingMembers | lib/main/sqlite/db.ts:20-44 | A migration is pending exactly when the code declares it (the initial schema first) and its id has not been applied. |
| Migrations.PendingInOrder | lib/main/sqlite/db.ts:42-44 | Pending migrations keep declaration order. Declaring one more appends it, when it is unapplied, after all the others. |
| Migrations.ApplyExtends | lib/main/sqlite/db.ts:56-75 | Applying only appends: the rows recorded before are kept as they were. |
| Migrations.ApplyKeepsUnique | lib/main/sqlite/db.ts:56-75 | Recorded ids stay unique. |
| Migrations.ApplyRecordsAll | lib/main/sqlite/db.ts:56-68 | Without a failure, the applied ids are the old ones plus every pending migration. |
| Migrations.ApplyRecordsUntil | lib/main/sqlite/db.ts:56-75 | With a failure, exactly the migrations before the failing one are recorded. The failing one is rolled back and not recorded, and no later one runs. |
| Migrations.MigrationTable.constructor | lib/main/sqlite/db.ts:16-18 | The migrations table starts empty. |
| Migrations.MigrationTable.RunMigrations | lib/main/sqlite/db.ts:14-76 | The table becomes the outcome of applying the pending migrations in order. The result is the number applied, or `Migration <id> failed.` for the first failure. With nothing pending, nothing changes and the count is 0. |
| Migrations.MigrationTable.ApplyAll | lib/main/sqlite/db.ts:56-75 | The loop leaves the table and failure that the specification `Apply` gives for the pending list. |
| Migrations.ApplyAt | lib/main/sqlite/db.ts:56-75 | One loop step: a migration whose `up` succeeds is recorded with its time, then the rest follow. Otherwise the loop stops at it. |
| Migrations.RunTwiceNoop | lib/main/sqlite/db.ts:20-49 | After a run without failure, a second run finds nothing pending. |
| Migrations.LatestCandidates | lib/main/sqlite/db.ts:80-82 | Any id the query `ORDER BY applied_at DESC LIMIT 1` may return is a recorded id. |
| Migrations.LastApplied | lib/main/sqlite/db.ts:80-82 | The chosen row is recorded and has the latest stamp. Among equal stamps it is the last one recorded. |
| Migrations.LastAppliedIsNewest | lib/main/sqlite/db.ts:63-82 | When stamps never decrease along the table, the last row recorded is the one reverted. |
| Migrations.RemoveId | lib/main/sqlite/db.ts:124 | Exactly the rows with other ids remain. |
| Migrations.RevertChosen | lib/main/sqlite/db.ts:84-134 | A revert succeeds exactly when the chosen id is declared, is not the initial schema and its `down` script succeeds; it then removes just that id. An unknown id and the initial schema give their own errors, and every failure leaves the table unchanged. |
| Migrations.RevertLastMigrationAsWritten | lib/main/sqlite/db.ts:78-135 | With no rows nothing is reverted. Otherwise the outcome is `RevertChosen` for some row carrying the latest stamp, whichever one the query returns. |
| Migrations.TiedStampsMayPickInitial | lib/main/sqlite/db.ts:63-66 | With the initial schema and a later migration sharing one stamp, the query may return the initial schema. The revert then refuses, though the last migration applied was the other one. The same code is at lib/main/sqlite/db.ts:80-117. |
| Migrations.RevertLastMigration | lib/main/sqlite/db.ts:78-135 | With no rows nothing is reverted. Otherwise the outcome is `RevertChosen` for the migration recorded last. A successful revert removes exactly that id from the applied set. |
| Migrations.RemoveIdIds | lib/main/sqlite/db.ts:124 | Removing an id takes just that id out of the applied set. |
| Migrations.RemoveIdUnique | lib/main/sqlite/db.ts:124 | Removing an id keeps the remaining ids unique. |
| Onboarding.CategoryOf | app/store/useOnboardingStore.ts:59-64 | Steps below 3 are sign-up and step 3 is permissions. Steps 4 to 6 are set-up, and 7 onward are try-it. Each step has exactly one category. |
| Onboarding.CategoryIndex | app/store/useOnboardingStore.ts:66-73 | The index is at most 3: sign-up is exactly 0 and try-it exactly 3. |
| Onboarding.CategoryMonotone | app/store/useOnboardingStore.ts:59-73 | A later step never has an earlier category in the progress bar. |
| Onboarding.StepName | app/store/useOnboardingStore.ts:46-77 | A step within the flow has its name from the step list. Any other step is `unknown`. The name is never empty. |
| Onboarding.OnboardingStore.constructor | app/store/useOnboardingStore.ts:80-115 | The step and completion flag come from the stored record, or are 0 and false when absent. The category follows the step, and there is no referral source. |
| Onboarding.OnboardingStore.SyncStep | app/store/useOnboardingStore.ts:92-104 | The stored record gets the new step and keeps its completion flag. |
| Onboarding.OnboardingStore.Increment | app/store/useOnboardingStore.ts:116-149 | The step moves one forward but never past the end of the flow, and the category follows it. Only the step is persisted. |
| Onboarding.OnboardingStore.Decrement | app/store/useOnboardingStore.ts:150-169 | The step moves one back but never below 0, and the category follows it. Only the step is persisted. |
| Onboarding.OnboardingStore.SetCompleted | app/store/useOnboardingStore.ts:170-196 | Only the completion flag changes, and it is persisted as true. |
| Onboarding.OnboardingStore.Reset | app/store/useOnboardingStore.ts:197-205 | The step becomes 0 and the flow not completed, and both are persisted. The category and referral source are left as they were. |
| Onboarding.OnboardingStore.SetReferralSource | app/store/useOnboardingStore.ts:206-214 | Only the referral source changes, and nothing is persisted. |
| Onboarding.IncrementsStayInRange | app/store/useOnboardingStore.ts:118-121 | Increments from any step in range never leave the range, and enough of them reach the end of the flow. |
| Settings.FlagOr | app/store/useSettingsStore.ts:53-58 | The stored flag when the record has one under that key, else the default. |
| Settings.TextOr | app/store/useSettingsStore.ts:59-60 | The stored text when the record has one under that key, else the default. |
| Settings.ModeShortcuts | app/store/useSettingsStore.ts:240-243 | Every listed shortcut is of that mode and comes from the list, and every shortcut of that mode is listed. |
| Settings.WithoutId | app/store/useSettingsStore.ts:219-221 | Exactly the shortcuts with other ids remain, and the list never grows. |
| Settings.WithKeys | app/store/useSettingsStore.ts:286-288 | The list keeps its length, ids and modes. Only shortcuts carrying the id take the new keys. |
| Settings.FindById | app/store/useSettingsStore.ts:251 | None exactly when no shortcut carries the id. Otherwise a listed shortcut with that id. |
| Settings.SettingsStore.constructor | app/store/useSettingsStore.ts:49-77 | Each flag and text is the stored value or its default (`true` for the four display flags, `false` for the two sound flags, `default` and `Default Microphone` for the microphone). Without stored shortcuts there is one per mode with the default keys. The first name, last name and email are the stored texts or empty. |
| Settings.SettingsStore.Sync | app/store/useSettingsStore.ts:82-93 | The partial state is laid over the persisted record, and other keys keep their values. |
| Settings.SettingsStore.SetMicrophone | app/store/useSettingsStore.ts:175-189 | The device id and name change together and are persisted. No other field of the store changes. |
| Settings.SettingsStore.SetLaunchAtLogin | app/store/useSettingsStore.ts:137-151 | The flag is set and persisted. No other field of the store changes. |
| Settings.SettingsStore.CreateShortcut | app/store/useSettingsStore.ts:190-218 | A keyless shortcut of that mode with a fresh id is appended and persisted, and the call always succeeds. No other field changes. |
| Settings.SettingsStore.RemoveShortcut | app/store/useSettingsStore.ts:219-239 | The list keeps exactly the shortcuts with other ids and is persisted. No other field changes. |
| Settings.SettingsStore.UpdateShortcut | app/store/useSettingsStore.ts:244-308 | An unknown id gives not-found. The update succeeds exactly when the id is known, the normalised chord is not reserved and it duplicates no other shortcut. On success only that shortcut's keys change, to the normalised chord, and the list is persisted. Any failure changes nothing. |
| Settings.RemoveUndoesCreate | app/store/useSettingsStore.ts:190-239 | Creating a shortcut with an unused id and removing it again gives back the original list. |
| Settings.CreatedListedLast | app/store/useSettingsStore.ts:199 | A created shortcut is listed last among its mode's shortcuts. The same code is at app/store/useSettingsStore.ts:240-243. |
| Settings.UpdateKeepsModeCounts | app/store/useSettingsStore.ts:286-288 | Updating keys never moves a shortcut between modes: every mode keeps its count. |
| DictionaryStore.ToEntry | app/store/useDictionaryStore.ts:40-59 | The id and timestamps are kept. An item is a plain entry exactly when its pronunciation is missing or empty, and then its content is the word. Otherwise it is a replacement from the word to the pronunciation. |
| DictionaryStore.ToFields | app/store/useDictionaryStore.ts:127-136 | A plain entry saves its content with no pronunciation. A replacement saves its `from` as the word and its `to` as the pronunciation. |
| DictionaryStore.FieldsRoundTrip | app/store/useDictionaryStore.ts:40-59 | Reading an item and saving its entry's fields gives back the word, with an empty pronunciation read as none. The same code is at app/store/useDictionaryStore.ts:127-136. |
| DictionaryStore.EntryRoundTrip | app/store/useDictionaryStore.ts:40-59 | Saving an entry's fields and reading the item back gives the same entry, when a replacement's `to` is not empty. The same code is at app/store/useDictionaryStore.ts:127-136. |
| DictionaryStore.Patched | app/store/useDictionaryStore.ts:125 | The id and kind are kept, and each field the patch gives replaces the old one. |
| DictionaryStore.FindEntry | app/store/useDictionaryStore.ts:121 | None exactly when no entry has the id. Otherwise a listed entry with that id. |
| DictionaryStore.ToEntries | app/store/useDictionaryStore.ts:69 | One entry per item, in order, each mapped by `ToEntry`. |
| DictionaryStore.DictionaryStore.constructor | app/store/useDictionaryStore.ts:62 | The list starts empty. |
| DictionaryStore.DictionaryStore.Load | app/store/useDictionaryStore.ts:64-74 | The list becomes the mapped items. A failed read leaves it unchanged. |
| DictionaryStore.DictionaryStore.Add | app/store/useDictionaryStore.ts:76-96 | Without a user nothing is sent, nothing changes and nothing is raised. Otherwise the item is sent. A failure raises its error and changes nothing. Success puts the stored item's entry first. The same code is at app/store/useDictionaryStore.ts:98-118. |
| DictionaryStore.DictionaryStore.AddEntry | app/store/useDictionaryStore.ts:76-96 | The trimmed word is sent with no pronunciation. On success its entry is put first, and a failure changes nothing. |
| DictionaryStore.DictionaryStore.AddReplacement | app/store/useDictionaryStore.ts:98-118 | Both trimmed sides are sent. On success the entry is put first, and a failure changes nothing. |
| DictionaryStore.DictionaryStore.UpdateEntry | app/store/useDictionaryStore.ts:120-143 | An unknown id sends nothing and changes nothing. Otherwise the patched entry's fields are sent. A failed save raises and changes nothing. A successful one reloads the list. |
| DictionaryStore.DictionaryStore.DeleteEntry | app/store/useDictionaryStore.ts:145-152 | On success exactly the entries with that id go. A failure is swallowed and changes nothing. |
| DictionaryStore.AddedReplacementShape | app/store/useDictionaryStore.ts:105-117 | A replacement stored as sent becomes a replacement of the trimmed texts. When the trimmed `to` is empty it becomes a plain entry instead. |
| DictionaryStore.PlainStaysPlain | app/store/useDictionaryStore.ts:130-132 | Any patch on a plain entry saves it with no pronunciation. |
| NotesStore.WithoutNote | app/store/useNotesStore.ts:70-72 | Exactly the notes with other ids remain. |
| NotesStore.NotesStore.constructor | app/store/useNotesStore.ts:22 | The list starts empty. |
| NotesStore.NotesStore.Load | app/store/useNotesStore.ts:24-33 | The list is replaced wholesale by the fetched notes. A failed read leaves it unchanged. |
| NotesStore.NotesStore.AddNote | app/store/useNotesStore.ts:35-54 | Without a user nothing is sent and nothing changes. Otherwise the trimmed content is sent. A stored note is put first, and a failed call changes nothing. |
| NotesStore.NotesStore.UpdateNote | app/store/useNotesStore.ts:56-65 | The content is sent as given. After a successful save the list is reloaded. A failed save changes nothing. |
| NotesStore.NotesStore.DeleteNote | app/store/useNotesStore.ts:67-76 | On success the list becomes `WithoutNote` of the old one. A failure changes nothing. |
| NotesStore.DeleteUndoesAdd | app/store/useNotesStore.ts:50-72 | Deleting a note just added with a fresh id gives back the list from before the add. |
| NotesStore.DeleteIdempotent | app/store/useNotesStore.ts:70-72 | Deleting twice is deleting once. |
| UserDetailsStore.With | app/store/useUserDetailsStore.ts:64-65 | The named field takes the value, and every other field is unchanged. |
| UserDetailsStore.UndefinedIfEmpty | app/store/useUserDetailsStore.ts:133-139 | Absent exactly when the text is empty. Otherwise the text. |
| UserDetailsStore.EmptyIfNull | app/store/useUserDetailsStore.ts:98-106 | The stored text, or the empty string for null. |
| UserDetailsStore.ToInput | app/store/useUserDetailsStore.ts:129-140 | The name and occupation are sent as they are. Each other field is left out when empty. |
| UserDetailsStore.FromDetails | app/store/useUserDetailsStore.ts:96-108 | The name and occupation are filled as stored. Each null field reads as the empty string. |
| UserDetailsStore.SaveThenLoad | app/store/useUserDetailsStore.ts:96-108 | Saving the form and loading it back gives the same fields: a field stored as NULL because it was empty reads back as `""`. The same code is at app/store/useUserDetailsStore.ts:129-140 and lib/main/sqlite/userDetailsRepo.ts:35-41. |
| UserDetailsStore.SentRows | app/store/useUserDetailsStore.ts:141-143 | Exactly the rows with a non-blank key or value are sent, in form order. |
| UserDetailsStore.SentRowsAllKept | app/store/useUserDetailsStore.ts:141-143 | The main process's own filter drops none of the rows the form sends. The same code is at lib/main/sqlite/userDetailsRepo.ts:72. |
| UserDetailsStore.RemoveAt | app/store/useUserDetailsStore.ts:77-83 | The row at an index in range goes and the others keep their order. Any other index removes nothing. |
| UserDetailsStore.UserDetailsForm.constructor | app/store/useUserDetailsStore.ts:48-62 | All fields are empty, there are no rows, and the form is neither loading, saving nor dirty, with no error. |
| UserDetailsStore.UserDetailsForm.SetField | app/store/useUserDetailsStore.ts:64-65 | Only that field changes. The form becomes dirty and the save error is cleared. |
| UserDetailsStore.UserDetailsForm.SetAdditionalInfo | app/store/useUserDetailsStore.ts:67 | The rows are replaced and the form becomes dirty. |
| UserDetailsStore.UserDetailsForm.AddRow | app/store/useUserDetailsStore.ts:69-75 | One empty row is appended and the form becomes dirty. |
| UserDetailsStore.UserDetailsForm.RemoveRow | app/store/useUserDetailsStore.ts:77-83 | The rows become `RemoveAt` of the old ones and the form becomes dirty. |
| UserDetailsStore.UserDetailsForm.UpdateRow | app/store/useUserDetailsStore.ts:85-90 | For an index in range, only that field of that row changes, and the form becomes dirty. |
| UserDetailsStore.UserDetailsForm.Load | app/store/useUserDetailsStore.ts:92-123 | Stored details fill the fields. Stored rows replace the list only when there are any. A successful load leaves the form clean, and a failed one changes nothing. Loading is over either way. |
| UserDetailsStore.UserDetailsForm.Save | app/store/useUserDetailsStore.ts:125-154 | The details and the non-blank rows are sent. Success leaves the form clean with no error. Failure keeps the changes and shows `Failed to save. Please try again.`. Saving is over either way. |
| UserDetailsStore.RemoveUndoesAdd | app/store/useUserDetailsStore.ts:69-83 | Adding a row and then removing the last one gives back the list. |
| UserDetailsStore.EmptyRowNotSent | app/store/useUserDetailsStore.ts:69-75 | An added empty row is never sent. The same code is at app/store/useUserDetailsStore.ts:141-143. |
| AuthStore.Synced | app/store/useAuthStore.ts:52-80 | Each key present in the update (user, tokens, state, self-hosted flag) overwrites the stored one, and each absent key is kept. |
| AuthStore.ExpiresAt | app/store/useAuthStore.ts:90-92 | The given truthy `expires_at`. Otherwise now plus `expires_in` seconds when that is truthy. Otherwise none. |
| AuthStore.SelfHostedUser | app/store/useAuthStore.ts:174-178 | The user has id `self-hosted`, provider `self-hosted`, and signed in at the current time. |
| AuthStore.PatchedUser | app/store/useAuthStore.ts:150 | Each field the patch gives, the id included, replaces the user's; every other field is kept. |
| AuthStore.PatchUserIdempotent | app/store/useAuthStore.ts:150 | Spreading the same patch twice is spreading it once, and an empty patch leaves the user unchanged. |
| AuthStore.PatchedState | app/store/useAuthStore.ts:168 | Each PKCE field the patch gives replaces the old one, and the others are kept. |
| AuthStore.AuthSession.constructor | app/store/useAuthStore.ts:32-49 | The session starts from the stored entry, or an empty one. It is signed in exactly when a truthy access token is stored or the self-hosted flag is set. It is not loading and has no error. |
| AuthStore.AuthSession.Sync | app/store/useAuthStore.ts:52-80 | The stored entry becomes `Synced` of the old one. |
| AuthStore.AuthSession.SetAuthData | app/store/useAuthStore.ts:88-115 | The session is signed in with no error. The tokens get their expiry filled in, and the user is stamped with the provider and sign-in time. The PKCE state is kept. Only the tokens and user are persisted. |
| AuthStore.AuthSession.ClearAuth | app/store/useAuthStore.ts:117-136 | The session is signed out and not self-hosted, with no tokens, state or error. The user is kept only when asked. The same is persisted. |
| AuthStore.AuthSession.SetLoading | app/store/useAuthStore.ts:138-140 | Only the loading flag changes. |
| AuthStore.AuthSession.SetError | app/store/useAuthStore.ts:142-144 | Only the error changes. |
| AuthStore.AuthSession.UpdateUser | app/store/useAuthStore.ts:146-153 | Without a user nothing changes. Otherwise the patched user is set and persisted. |
| AuthStore.AuthSession.SetName | app/store/useAuthStore.ts:155-162 | Without a user nothing changes. Otherwise only the user's name changes, and the user is persisted. |
| AuthStore.AuthSession.UpdateState | app/store/useAuthStore.ts:164-171 | Without a PKCE state nothing changes. Otherwise the patched state is set and persisted. |
| AuthStore.AuthSession.SetSelfHostedMode | app/store/useAuthStore.ts:173-190 | The session is signed in, self-hosted, with no tokens and no error, as the self-hosted user. Only the user and the flag are persisted. |
| AuthStore.RestartAfterClear | app/store/useAuthStore.ts:32-49 | After signing out, the next start is signed out, with the user kept exactly when asked, and with no PKCE state. The same code is at app/store/useAuthStore.ts:117-136. |
| AuthStore.RestartAfterSignIn | app/store/useAuthStore.ts:32-49 | After signing in with a truthy access token, the next start is signed in with the same user and tokens. The same code is at app/store/useAuthStore.ts:88-115. |
| AuthStore.RestartAfterSelfHosted | app/store/useAuthStore.ts:32-49 | After entering self-hosted mode, the next start is signed in and self-hosted. The stored tokens are left as they were. The same code is at app/store/useAuthStore.ts:173-190. |
| AuthStore.EmptySyncKeeps | app/store/useAuthStore.ts:52-80 | A sync with no keys changes nothing. |
| AppStylingStore.ById | app/store/useAppStylingStore.ts:49-55 | Every id of the list, and no other, is a key of the record. |
| AppStylingStore.ByIdLastWins | app/store/useAppStylingStore.ts:49-55 | The element kept under an id is the last one in the list that carries it. |
| AppStylingStore.AppStyling.constructor | app/store/useAppStylingStore.ts:39-42 | The store starts with no app targets, no tones, and not loading. |
| AppStylingStore.AppStyling.LoadAppTargets | app/store/useAppStylingStore.ts:44-62 | A listed answer replaces the targets with the list keyed by id. A failed call keeps them. Loading is over either way, and the tones are kept. |
| AppStylingStore.AppStyling.LoadTones | app/store/useAppStylingStore.ts:64-76 | A listed answer replaces the tones with the list keyed by id. A failed call keeps them. Nothing else changes. |
| AppStylingStore.AppStyling.RegisterCurrentApp | app/store/useAppStylingStore.ts:78-91 | The target the main process answers with is returned. If there is one, it is stored under its id. A failed call or no target returns none and stores nothing. |
| AppStylingStore.AppStyling.UpdateAppTone | app/store/useAppStylingStore.ts:93-109 | After a successful call, a known target takes the new tone. An unknown id or a failed call changes nothing. |
| AppStylingStore.AppStyling.DeleteAppTarget | app/store/useAppStylingStore.ts:111-121 | After a successful call, that id is no longer a key. A failed call changes nothing. |
| AppStylingStore.ToneUpdateIsLocal | app/store/useAppStylingStore.ts:96-105 | Changing one target's tone keeps the set of keys, every other target, and every other field of that target. |
| AppStylingStore.DeleteUndoesRegister | app/store/useAppStylingStore.ts:78-91 | Registering a target that was not listed and then deleting it gives back the original targets. The same code is at app/store/useAppStylingStore.ts:111-121. |
| AudioStore.AudioState.constructor | app/store/useAudioStore.ts:11-13 | The store starts stopped, with the shortcut enabled and no messages sent. |
| AudioStore.AudioState.SetShortcutEnabled | app/store/useAudioStore.ts:15-17 | Only the shortcut flag changes, and starts and stops still alternate. |
| AudioStore.AudioState.StartRecording | app/store/useAudioStore.ts:19-27 | While recording, or with the shortcut disabled, nothing changes. Otherwise recording starts and exactly one start message is sent. Starts and stops keep alternating. |
| AudioStore.AudioState.StopRecording | app/store/useAudioStore.ts:29-37 | When not recording nothing changes. Otherwise exactly one stop message is sent and recording ends. |
| AudioStore.AlternatesPush | app/store/useAudioStore.ts:19-37 | Sending the message whose turn it is keeps starts at even positions and stops at odd ones. |
| AudioStore.StartThenStop | app/store/useAudioStore.ts:19-37 | An example sequence, not an operation of the store: from a stopped store with the shortcut enabled, a start then a stop sends exactly one start and one stop, and ends stopped. |
| PerformanceStore.PerformanceState.constructor | app/store/usePerformanceStore.ts:24-46 | With no stored entry the user choice is `auto`, the detected and active tiers are `balanced`, the settings are the balanced ones, and there is no hardware information. A stored entry supplies each field it has, and the others take those defaults. |
| PerformanceStore.PerformanceState.SetTier | app/store/usePerformanceStore.ts:93-102 | The choice is recorded. The tier in force is the detected tier under `auto` and the chosen one otherwise, and its settings are applied. The detected tier and hardware are kept. Exactly the choice, tier and settings are sent for persisting. Under `auto` the tier in force never exceeds the detected one. |
| PerformanceStore.PerformanceState.AutoAdjustTier | app/store/usePerformanceStore.ts:104-111 | The given tier and its settings are put in force. The user choice, detected tier and hardware are kept. Exactly the tier and settings are sent for persisting. |
| PerformanceStore.PerformanceState.Initialize | app/store/usePerformanceStore.ts:113-124 | The hardware is recorded and classified as the detected tier. The user choice is kept and resolved against the new detected tier, and its settings are applied. All five fields are sent for persisting. |
| PerformanceStore.ResolveChoices | app/store/usePerformanceStore.ts:95-117 | `auto` resolves to the detected tier, and a fixed choice resolves to itself whatever the hardware. |
| PerformanceEngine.Index | app/performance/performance.config.ts:1 | The tiers are numbered 0 to 3 in the order low, balanced, high, ultra. Low is 0 and ultra is 3. |
| PerformanceEngine.TierAt | app/performance/performance.config.ts:1 | The tier at a position has that position. |
| PerformanceEngine.IndexInjective | app/performance/performance.config.ts:1 | Two tiers have the same position exactly when they are the same tier. |
| PerformanceEngine.ConfigMonotone | app/performance/performance.config.ts:25-78 | A higher tier has at least the frame cap, audio sample rate and worker threads of a lower one. Particles and blur, once enabled, stay enabled in every higher tier. |
| PerformanceEngine.ClassifyTier | app/performance/performance.engine.ts:62-74 | Memory of 6 GB or less, two or fewer cores, or a GPU score under 30 give `low`. The result is `ultra` exactly when memory exceeds 16 GB with more than two cores and a score of 70 or more. It is `balanced` exactly when memory is over 6 GB and at most 8 GB, with more than two cores and a score from 30 to under 60. |
| PerformanceEngine.ClassifyMonotoneInRam | app/performance/performance.engine.ts:62-74 | More memory never gives a lower tier. |
| PerformanceEngine.ClassifyMonotoneInGpu | app/performance/performance.engine.ts:62-74 | A higher GPU score never gives a lower tier. |
| PerformanceEngine.ClassifyMonotoneInCores | app/performance/performance.engine.ts:62-74 | More cores never give a lower tier. |
| PerformanceEngine.Resolve | app/store/usePerformanceStore.ts:95-117 | A fixed choice gives its own tier, and `auto` gives the detected tier. |
| Autotune.Window | app/performance/performance.autotune.ts:48-49 | The new sample is last. The window grows by it while shorter than five samples. Otherwise the oldest sample is dropped, so a window of at most five stays at most five. |
| Autotune.Decide | app/performance/performance.autotune.ts:55-76 | A step moves exactly one tier. It moves down exactly when the average frame rate is under 20 or memory is over 600 MB, and the tier is not already `low`. A step up never goes above the detected tier. |
| Autotune.DecideKeepsBound | app/performance/performance.autotune.ts:58-76 | A tier in force at or below the detected tier stays at or below it after a step. |
| Autotune.FastStepsUp | app/performance/performance.autotune.ts:70-76 | With no memory pressure, an average over 50 below the detected tier steps up exactly one tier. |
| Autotune.OneStepPerSample | app/performance/performance.autotune.ts:58-76 | A step never leaves the tier where it was and never moves it by more than one. |
| Autotune.Autotuner.constructor | app/performance/performance.autotune.ts:14-16 | The tuner starts with no samples and no tier change so far. |
| Autotune.Autotuner.Reset | app/performance/performance.autotune.ts:19-42 | Starting or stopping forgets the samples. |
| Autotune.Autotuner.VisibilityChanged | app/performance/performance.autotune.ts:23-27 | Becoming visible forgets the samples. Becoming hidden keeps them. |
| Autotune.Autotuner.OnMetrics | app/performance/performance.autotune.ts:44-77 | Under a fixed user choice nothing changes. Under `auto` the sample joins the window. With fewer than five samples, or within 15 seconds of the last change, the tier is kept. Otherwise a step the window calls for is put in force, the samples are forgotten and the time is recorded. Without a step, the tier is kept. The user choice and detected tier never change. Under `auto`, the tier in force stays at or below the detected one. |
| DebouncedSync.FlushOne | app/utils/debouncedStoreSync.ts:37-45 | With no pending fields the store is unchanged. Otherwise the key holds its stored record (empty when missing) with the pending fields laid over it. Every other key keeps its record. |
| DebouncedSync.SyncQueue.constructor | app/utils/debouncedStoreSync.ts:8 | The queue starts with no per-key state, over the given persisted store. |
| DebouncedSync.SyncQueue.Flush | app/utils/debouncedStoreSync.ts:37-45 | The persisted store becomes `FlushOne` of the key's pending fields. The key's timer is cleared and its pending fields are forgotten. |
| DebouncedSync.SyncQueue.Debounced | app/utils/debouncedStoreSync.ts:12-35 | The update is merged into the key's pending fields, and later fields win. An immediate update is written at once and leaves nothing pending. Otherwise the timer is armed and nothing is written. Every other key's state is kept. |
| DebouncedSync.SyncQueue.FlushAll | app/utils/debouncedStoreSync.ts:47-52 | Every key ends with no timer and nothing pending. Each key that had pending fields holds them laid over its own record. Every other record is unchanged. |
| DebouncedSync.FlushedKeysStep | app/utils/debouncedStoreSync.ts:47-52 | Flushing one more key extends the set of flushed keys and leaves the records of the others as they were. |
| DebouncedSync.EmptyFlushWritesNothing | app/utils/debouncedStoreSync.ts:39 | A flush with nothing pending writes nothing. |
| DebouncedSync.UpdatesCoalesce | app/utils/debouncedStoreSync.ts:23-42 | Two updates before one flush write the same record as laying them over the stored record one after the other. |
| Microphone.Available | app/media/microphone.ts:13-29 | A missing bridge or a failed call gives no devices. Otherwise there is one device per reported name, in order, with the name as both its id and its label. |
| Microphone.ToRender | app/media/microphone.ts:74-97 | A lower-cased label containing `default -` shows as Auto-detect with the Bluetooth warning. Otherwise one containing `built-in` or `macbook pro microphone` shows as the recommended built-in mic. Any other device shows its own label, with no description. |
| Microphone.DefaultWinsOverBuiltIn | app/media/microphone.ts:74-91 | Any label that starts with `Default - ` shows as Auto-detect, even when the rest names the built-in MacBook microphone. |
| Microphone.RenderIgnoresCase | app/media/microphone.ts:75 | Two labels that differ only in case render the same, or else each shows as its own label. |
| Microphone.VerifyStoredMicrophone | app/media/microphone.ts:35-72 | The automatic choice is never checked, and a missing bridge or failed call changes nothing. A device still in the reported list is kept. A chosen device missing from the list is replaced by `default`, shown as Auto-detect, and both fields are persisted; no other setting changes. |
| ShortcutEditor.Rows | app/components/ui/multi-shortcut-editor.tsx:45-48 | Without a mode filter every shortcut is shown. With one, exactly the shortcuts of that mode are shown, in list order. |
| ShortcutEditor.KeyName | app/components/ui/multi-shortcut-editor.tsx:138 | A key with a non-empty entry in the name table takes that name. Any other key is lower-cased. |
| ShortcutEditor.Toggle | app/components/ui/multi-shortcut-editor.tsx:141-170 | A key already in the draft is taken out, and every other key stays. A new key is appended when the draft has fewer than five keys. A full draft is left as it is. |
| ShortcutEditor.HandleKey | app/components/ui/multi-shortcut-editor.tsx:135-173 | When no row is being edited, for any event but key-down, and for `fn_fast`, nothing changes. Otherwise the draft is toggled by the key. The row being edited never changes. |
| ShortcutEditor.FilterKeepsDistinct | app/components/ui/multi-shortcut-editor.tsx:144 | Removing a key from a draft with no repeated key leaves none repeated. |
| ShortcutEditor.HandleKeyKeepsWellFormed | app/components/ui/multi-shortcut-editor.tsx:27 | Key presses never make a draft longer than five keys or repeat a key. The same code is at app/components/ui/multi-shortcut-editor.tsx:135-173. |
| ShortcutEditor.ToggleTwice | app/components/ui/multi-shortcut-editor.tsx:141-170 | Pressing a new key twice on a draft with room gives back the draft. |
| ShortcutEditor.BeginEdit | app/components/ui/multi-shortcut-editor.tsx:61-76 | With the editing lock, the row is edited from an empty draft with no errors. Without it, only the error `Finish editing the other shortcut set first.` is set. |
| ShortcutEditor.SaveEdit | app/components/ui/multi-shortcut-editor.tsx:78-91 | An empty draft changes nothing and sends nothing. Otherwise the draft is sent. A failure shows its message and keeps editing. Success ends the edit. The same code is at app/components/ui/multi-shortcut-editor.tsx:101-132. |
| SortedQuery.InsertBy | lib/main/sqlite/userDetailsRepo.ts:60 | Inserting a row into a listing ordered by the key keeps it ordered. The listing grows by one and holds the row and the old rows. |
| SortedQuery.InsertByDistinct | lib/main/sqlite/userDetailsRepo.ts:60 | Inserting a new row into a listing without repeats keeps it without repeats. |
| SortedQuery.OrderBy | lib/main/sqlite/userDetailsRepo.ts:60 | The listing holds every selected row exactly once and nothing else, with keys ascending. The same code is at lib/main/sqlite/appTargetRepo.ts:193. |
| SortedQuery.SortedDistinctKeys | lib/main/sqlite/userDetailsRepo.ts:60 | An ordered listing whose keys are pairwise distinct is strictly ordered. |
| SortedQuery.StrictlySortedUnique | lib/main/sqlite/userDetailsRepo.ts:60 | Two strictly ordered listings of the same rows are equal, so with distinct keys the query's order is fully determined. |
| HomeContent.UnitDays | app/components/home/contents/HomeContent.tsx:275-283 | A streak is counted in days, weeks of 7 days, or months of 30 days. |
| HomeContent.StreakTextIsPluralised | app/components/home/contents/HomeContent.tsx:275-283 | The caption is the number of whole units in the streak followed by the unit, with a plural `s` exactly when the number is not one. |
| HomeContent.StreakInDays | app/components/home/contents/HomeContent.tsx:276-278 | Below a week, the caption counts days. |
| HomeContent.StreakInWeeks | app/components/home/contents/HomeContent.tsx:279-280 | From a week to under 30 days, the caption counts whole weeks. |
| HomeContent.StreakInMonths | app/components/home/contents/HomeContent.tsx:281-282 | From 30 days on, the caption counts whole months. |
| HomeContent.StreakCountRoundsDown | app/components/home/contents/HomeContent.tsx:280-282 | The number shown is the streak rounded down to whole units, and is at least one for any streak of a day or more. |
| HomeContent.TranscriptWords | app/components/home/contents/HomeContent.tsx:234-240 | An interaction without a transcript, or whose transcript trims to nothing, has no words. Otherwise it has the number of whitespace-separated words of its trimmed transcript. |
| HomeContent.TotalWordsAppend | app/components/home/contents/HomeContent.tsx:232-242 | The total over two stretches of history is the sum of their totals. |
| HomeContent.TotalWordsIgnoresSilent | app/components/home/contents/HomeContent.tsx:235-240 | Dropping the interactions without text leaves the total unchanged. |
| HomeContent.TextHasAWord | app/components/home/contents/HomeContent.tsx:235-238 | An interaction with text has at least one word. |
| HomeContent.Stats | app/components/home/contents/HomeContent.tsx:175-193 | An empty history gives a zero streak, total and speed. Otherwise the total is the word total over the history, beside the given streak and speed. |
| HomeContent.EveryTextCounts | app/components/home/contents/HomeContent.tsx:175-193 | When every interaction has text, the total is at least the number of interactions. The same code is at app/components/home/contents/HomeContent.tsx:232-242. |
| HomeContent.DisplayText | app/components/home/contents/HomeContent.tsx:408-455 | An error is shown exactly when the interaction has an error or no text, and then with a tooltip. The quality error code shows `Audio quality too low`. A no-speech or unable-to-transcribe message shows `Audio is silent`. Any other error shows `Transcription failed` with the error as tooltip. No error and no text shows `Audio is silent.`. Otherwise the trimmed transcript is shown with no tooltip. |
| HomeContent.ShownTranscriptCounts | app/components/home/contents/HomeContent.tsx:439-454 | A transcript shown as such is non-empty and trimmed, and counts at least one word towards the total. The same code is at app/components/home/contents/HomeContent.tsx:232-242. |
| HomeContent.ErrorHidesTranscript | app/components/home/contents/HomeContent.tsx:410-436 | When there is an error, the transcript does not change what is shown. |
| HomeContent.AudioCache.constructor | app/components/home/contents/HomeContent.tsx:328-329 | The cache starts empty, with nothing released. |
| HomeContent.AudioCache.Insert | app/components/home/contents/HomeContent.tsx:519 | A new id is cached last. An id already cached keeps its place. |
| HomeContent.AudioCache.EvictOldest | app/components/home/contents/HomeContent.tsx:346-362 | With at most five players, or when the oldest id is empty, nothing changes. Otherwise the oldest player is released and dropped. |
| HomeContent.AudioCache.CachePlayer | app/components/home/contents/HomeContent.tsx:519-520 | After caching a new player and evicting, the new id is cached and only it was added. A cache of at most five non-empty ids stays at most five. |
| HomeContent.AudioCache.Clear | app/components/home/contents/HomeContent.tsx:328-344 | The unmount cleanup releases every cached player, oldest first, and leaves the cache empty. |
| NotesContent.Truncate | app/components/home/contents/NotesContent.tsx:67-72 | A note within the limit is shown whole. A longer note shows its first `maxLength` characters and an ellipsis, so the result is never longer than the limit plus three. |
| NotesContent.Matching | app/components/home/contents/NotesContent.tsx:135-140 | A blank query shows every note. Otherwise exactly the notes whose lower-cased content contains the lower-cased query are shown. |
| NotesContent.MatchingIgnoresCase | app/components/home/contents/NotesContent.tsx:138-139 | A query matches the same notes whatever its letter case. |
| NotesContent.BlankLower | app/components/home/contents/NotesContent.tsx:136-139 | Lower-casing a query keeps it blank or not blank. |
| NotesContent.Submission | app/components/home/contents/NotesContent.tsx:142-145 | Blank text submits nothing. Other text submits its trimmed form, which is non-empty and trimmed. |
| NotesContent.EditSubmission | app/components/home/contents/NotesContent.tsx:195-198 | An edit is submitted exactly when a note is being edited and the text is not blank. It then submits that note's id with the trimmed text. |
| NotesContent.ToggleView | app/components/home/contents/NotesContent.tsx:117-119 | Toggling always changes the view. |
| NotesContent.ToggleDropdown | app/components/home/contents/NotesContent.tsx:227-230 | The open menu of a card closes when that card is toggled. Any other toggle opens that card's menu. |

## Left out

- Operating-system services (Win32 foreground window and process queries, UI Automation, `osascript`) are oracle parameters of the browser probes. The process-argument handling and resource embedding of the Rust helper are not modelled.
- Network clients are not modelled: gRPC, Groq, Gemini, Cerebras, Soniox, Cartesia, Stripe and Supabase. Each answer the modelled code reads is a parameter, and each request it sends is a recorded effect.
- Library semantics are parameters and are not re-implemented: `JSON.parse`, `jwtDecode`, JOSE signature checks, base64, `crypto.randomUUID`, and the chord normalisation and reserved or duplicate checks of the keyboard helper module. The keyboard helper module is not part of this model.
- `LlmUtils.ApplyReplacements` and the leaked-line filters take each regular-expression replacement as a parameter. Whole-word matching with `\b` and the `gi` flags is not modelled.
- InteractionManager.Title: lengths and cuts count characters of the model's strings. JavaScript's `length` and `slice` count UTF-16 code units, so text outside the Basic Multilingual Plane is cut at a different place.
- NotesContent.Truncate: lengths and cuts count characters, not UTF-16 code units, for the same reason.
- TranscriptionPrompt.CreateTranscriptionPrompt: the 886-character budget, the cut and the token estimate count characters of the model's strings. `length` and `substring` count UTF-16 code units, so a vocabulary holding text outside the Basic Multilingual Plane is cut at a different place, and the source may cut it inside a surrogate pair.
- Lower-casing covers ASCII letters only, and trimming and word splitting use ASCII whitespace only. The source uses full Unicode rules.
- Floating point is not modelled. Times and durations are integer milliseconds, and the average speed on the home page is an input.
- Clocks are parameters everywhere: `Date.now`, `new Date().toISOString()`, `performance.now`, SQL `current_timestamp` and `NOW()`.
- Timers are flags or explicit calls. This covers the debounce timer of the store writer, the logger's flush timer, the sync interval, and the frame-rate monitor subscription and page-visibility listener of the autotuner.
- TranscribeStream.ProcessV1: `getAdvancedSettingsHeaders` (server/src/services/ito/helpers.ts:52-155) is not modelled. Its outcome is the `headerSettings` input: the settings the handler uses, or the error a header validator throws. The validators belong to a header-validator module that is not part of this model.
- TranscribeStreamV2: `prepareAudioForTranscription` (the WAV preparation of the joined audio) is the `prepareAudio` parameter; its code is not part of this model. The server timing wrappers around the audio preparation, the ASR call and the LLM call are not modelled.
- Trial: `getOrCreateStripeCustomer` and the Stripe subscription calls of `/trial/start` are parameters.
- Billing: the `/billing/checkout`, `/billing/confirm` and `/billing/reactivate` routes and the success and cancel page routing are not modelled.
- ServerRepo: tables are maps keyed by their primary key. `findByUserId` orders by update time, and rows with equal update times may come out in any order.
- KvStore.Member: a dotted key that passes through an array or a primitive reads undefined. JavaScript would read an array element, a `length` or a string character there; those reads are not modelled.
- KvStore: `initializeStore` is not modelled, neither the load from SQLite nor the migration from the legacy electron-store file. Persistence is a log of the top-level keys written.
- AuthEvents: the gRPC client, sync service and window calls are recorded effects. The `try`/`catch` around `validateStoredTokens` is not modelled.
- ItoStreamController.ItoStreamController.StartGrpcStream: the streamed call itself is not modelled. StartGrpcStream is the part before the await and CompleteGrpcStream the part after it; calls made while the stream is open are the other methods of the class.
- AudioStream: the async generator is modelled as single pump steps, and the recorder's event listeners are a flag.
- Timing: whether analytics are shared, the current interaction and user, the clock and the machine fields of a report (ReportOrigin) are parameters.
- Timing.TimingCollector.TimeAsync: the wrapped call is given only as its outcome, so what that call itself does to the collector while it is awaited is not modelled.
- Logger: free-form event fields, the host name and the app version are omitted. A queue overflow while a batch is in flight is modelled by the two-step send but is not examined further.
- InteractionManager: the sync-service notification, the `interaction-created` window broadcast and the clearing of timings on error are not modelled.
- SyncService: the interval timer is the `intervalActive` flag, and each of its ticks is a `runSync`. The cycle after the cursor read (FinishSync) is one step: the awaits inside it are not points where other calls interleave, and `start` runs its first cycle without interleaving.
- SyncService.ToLocal: `JSON.parse` of a pulled interaction's outputs is the total `decode` parameter. A parse failure throws and ends the cycle in the `catch`, and that path is not modelled.
- SyncService: the `advanced-settings-updated` message sent to the main window after the settings are synced is not modelled.
- ContextGrabber: `getCursorContextForGrammar` is not modelled. The window, browser and accessibility readers are inputs.
- AppTargetRepo.AppTargetTable.FindAll: returns the set of the user's targets. The `ORDER BY name` of the query is not modelled.
- LocalRepo: only the statement builder of `UserMetadataTable.update` is modelled. Its insert, find, upsert and delete are not. The `ORDER BY created_at` of `findAll` is not modelled, and neither is `NotesTable.findByInteractionId`. The `ORDER BY word` of the dictionary listing is not modelled either: the listing is an input in whatever order it comes.
- Migrations: `wipeDatabase`, `deleteUserData` and `deleteCompleteUserData` in `lib/main/sqlite/db.ts` are not modelled. The SQL of each migration is not modelled, and whether its script succeeds is an input.
- Settings.SettingsStore.UpdateShortcut: one atomic step. The source reads the shortcut list before awaiting the platform name, so a change made to the list during that await is overwritten by the update; that interleaving is not modelled.
- Settings: among the preference flag setters only `setLaunchAtLogin` is modelled. The analytics, login-item, dock and hotkey-registration effects are not, and neither is the start-up login-item and dock synchronisation.
- Onboarding: analytics calls and `initializeOnboarding` are not modelled.
- SonioxKeys: the HTTP request for a new key is a response parameter.
- DictionaryStore: adding an entry with no signed-in user returns `Ok(None)` and changes nothing.
- UserDetailsStore.UserDetailsForm.UpdateRow: an index out of range leaves the rows unchanged. The source writes a one-field row at that index, which extends the array.
- AuthStore: self-hosted mode does not clear the tokens already persisted, and the model keeps them, as the source does.
- PerformanceStore: applying a tier to the page (CSS variables, classes, the monitor's sampling interval) and hardware detection are not modelled.
- HomeContent: `calculateStreak` and `calculateAverageWPM` are inputs, since they rest on locale date strings and floating point. The trial dialog effects and the rest of the page are not modelled.
- UI components other than the pure helpers of the shortcut editor, the home page and the notes page are not modelled.
- DebouncedSync.SyncQueue.FlushAll: keys are flushed in an unspecified order, which is weaker than the source's insertion order. The result does not depend on the order.

## Findings

| source | as written | input that shows it | evidently intended | confidence | as-written member | corrected member |
|---|---|---|---|---|---|---|
| lib/main/store.ts:262-281 | The settings object read before the new shortcut list is written goes back to the store without its legacy key, and overwrites that list | settings holding `keyboardShortcut: ["fn"]` and `keyboardShortcuts: []` | The legacy shortcut becomes one transcribe shortcut and only the legacy key is dropped | high, not executed | KvStore.ShortcutRenameAsWritten, KvStore.ShortcutRenameAsWrittenExample, KvStore.ShortcutRenameAsWrittenLosesConversion | KvStore.ShortcutRename, KvStore.ShortcutRenameConverts |
| lib/main/sqlite/db.ts:63-82 | The last migration is the one with the latest `applied_at` text, and migrations applied within the same millisecond tie | `0000_initial_schema` and a later migration stamped with the same millisecond. The query may return the initial schema, and the revert refuses | The migration recorded last is reverted | low, not executed | Migrations.RevertLastMigrationAsWritten, Migrations.TiedStampsMayPickInitial | Migrations.RevertLastMigration |
