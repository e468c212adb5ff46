/** The messages the client and the server exchange (the generated
    protocol-buffer types), as far as the modelled code reads them. */
module Protocol {
  import opened Common
  import ClientErrors

  /** One byte of audio. */
  type Byte = b: int | 0 <= b < 256

  /** The dictation mode. Codes outside the enum can arrive from a header
      or the wire and are kept as they are. */
  datatype ItoMode = Transcribe | Edit | OtherMode(code: int)

  /** One dictionary replacement: whole-word `fromText` becomes `toText`. */
  datatype ReplacementEntry = ReplacementEntry(fromText: string, toText: string)

  /** The window context sent with a stream; `mode` is the only optional
      scalar, the strings default to the empty string. */
  datatype ContextInfo = ContextInfo(
    mode: Option<ItoMode>,
    windowTitle: string,
    appName: string,
    contextText: string,
    browserUrl: string,
    browserDomain: string,
    tonePrompt: string)

  /** The user's profile details sent with a stream. */
  datatype UserDetailsInfo = UserDetailsInfo(
    fullName: string,
    occupation: string,
    companyName: string,
    role: string,
    email: string,
    phoneNumber: string,
    businessAddress: string,
    website: string,
    linkedin: string,
    additionalInfo: seq<string>)

  /** The advanced LLM/ASR settings of a stream: only the fields that were
      set are present, each in its textual form. */
  type LlmSettings = map<string, string>

  /** The configuration of a stream, as accumulated from its config messages. */
  datatype StreamConfig = StreamConfig(
    context: Option<ContextInfo>,
    llmSettings: Option<LlmSettings>,
    vocabulary: seq<string>,
    replacements: seq<ReplacementEntry>,
    interactionId: string,
    userDetails: Option<UserDetailsInfo>)

  /** Why a step of the processing failed: a cancelled or rejected RPC
      (a `ConnectError`), or any other error with its message. */
  datatype Failure = RpcError(message: string) | OtherError(message: string)

  /** The options an LLM adjustment is called with: the temperature and
      model settings and the system prompt. */
  datatype LlmOptions = LlmOptions(temperature: string, model: string, prompt: string)

  /** A client error thrown inside a handler: not an RPC error, and it
      carries the message its class passes on. */
  function ClientFailure(e: ClientErrors.ClientError): (f: Failure)
    ensures f.OtherError? && f.message == ClientErrors.Message(e.kind)
  {
    OtherError(ClientErrors.Message(e.kind))
  }

  /** What the client receives: a transcript, a response carrying an error
      (with an empty transcript), or the RPC error itself. */
  datatype Outcome =
    | Transcript(text: string)
    | ErrorResponse(failure: Failure, provider: string)
    | Rethrown(rpc: Failure)
}
