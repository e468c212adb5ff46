/** The errors raised by the ASR and LLM clients and their conversion into
    the protocol's error message. */
module ClientErrors {
  import opened Common

  /** Provider names as the server spells them. */
  const GROQ := "groq"
  const CEREBRAS := "cerebras"
  const GEMINI := "gemini"
  const CARTESIA := "cartesia"

  /** The error categories. */
  datatype ErrorType = Configuration | Availability | Audio | Api

  /** The protocol's provider and error-type enums. */
  datatype ProviderPb = ProviderGroq | ProviderCerebras
  datatype ErrorTypePb = TypeConfiguration | TypeAvailability | TypeAudio | TypeApi

  /** A detail value before it is turned into text: `String(value)`. */
  datatype DetailValue = Text(text: string) | Numeric(decimal: string) | Undefined

  function Stringify(v: DetailValue): string {
    match v
    case Text(t) => t
    case Numeric(d) => d
    case Undefined => "undefined"
  }

  /** The concrete client error classes. */
  datatype ClientErrorKind =
    | ApiKeyError
    | ModelError
    | UnavailableError
    | NoSpeechError(noSpeechProbability: DetailValue)
    | TranscriptionQualityError(averageLogProbability: DetailValue)
    | AudioTooShortError
    | ApiError(message: string, originalErrorMessage: DetailValue, statusCode: DetailValue)

  /** A client error: its class and the provider that raised it. */
  datatype ClientError = ClientError(kind: ClientErrorKind, provider: string)

  /** The fixed code of each class. */
  function Code(k: ClientErrorKind): string {
    match k
    case ApiKeyError => "CLIENT_API_KEY_ERROR"
    case ModelError => "CLIENT_MODEL_ERROR"
    case UnavailableError => "CLIENT_UNAVAILABLE"
    case NoSpeechError(_) => "CLIENT_NO_SPEECH_DETECTED"
    case TranscriptionQualityError(_) => "CLIENT_TRANSCRIPTION_QUALITY_ERROR"
    case AudioTooShortError => "CLIENT_AUDIO_TOO_SHORT"
    case ApiError(_, _, _) => "CLIENT_API_ERROR"
  }

  /** The fixed type of each class. */
  function TypeOf(k: ClientErrorKind): ErrorType {
    match k
    case ApiKeyError => Configuration
    case ModelError => Configuration
    case UnavailableError => Availability
    case NoSpeechError(_) => Audio
    case TranscriptionQualityError(_) => Audio
    case AudioTooShortError => Audio
    case ApiError(_, _, _) => Api
  }

  /** The message each constructor passes on. */
  function Message(k: ClientErrorKind): string {
    match k
    case ApiKeyError => "API key is required."
    case ModelError => "ASR model is required for transcription."
    case UnavailableError => "Client is not available. Check API key."
    case NoSpeechError(_) => "No speech detected in audio."
    case TranscriptionQualityError(_) => "Unable to transcribe audio."
    case AudioTooShortError => "Audio file is too short for transcription."
    case ApiError(m, _, _) => m
  }

  /** The details each constructor records, in insertion order; the
      configuration and availability errors record none. */
  function Details(k: ClientErrorKind): Option<seq<(string, DetailValue)>> {
    match k
    case ApiKeyError => None
    case ModelError => None
    case UnavailableError => None
    case NoSpeechError(p) => Some([("noSpeechProbability", p)])
    case TranscriptionQualityError(a) => Some([("averageLogProbability", a)])
    case AudioTooShortError => Some([])
    case ApiError(_, o, s) => Some([("originalError", o), ("statusCode", s)])
  }

  /** `mapProviderToProtobuf`: only cerebras has its own value; groq,
      cartesia and every other name (gemini included) map to GROQ. */
  function ProviderToPb(provider: string): (r: ProviderPb)
    ensures r == ProviderCerebras <==> provider == CEREBRAS
  {
    if provider == GROQ then ProviderGroq
    else if provider == CEREBRAS then ProviderCerebras
    else if provider == CARTESIA then ProviderGroq
    else ProviderGroq
  }

  /** `mapErrorTypeToProtobuf`: each type to its namesake. */
  function ErrorTypeToPb(t: ErrorType): (r: ErrorTypePb)
    ensures t == Configuration <==> r == TypeConfiguration
    ensures t == Availability <==> r == TypeAvailability
    ensures t == Audio <==> r == TypeAudio
    ensures t == Api <==> r == TypeApi
  {
    match t
    case Configuration => TypeConfiguration
    case Availability => TypeAvailability
    case Audio => TypeAudio
    case Api => TypeApi
  }

  /** The protocol's error message. */
  datatype ClientErrorPb = ClientErrorPb(
    code: string, errorType: ErrorTypePb, message: string, provider: ProviderPb, details: map<string, string>)

  /** The keys of a list of entries. */
  function Keys(entries: seq<(string, DetailValue)>): set<string> {
    set i | 0 <= i < |entries| :: entries[i].0
  }

  predicate DistinctKeys(entries: seq<(string, DetailValue)>) {
    forall i, j :: 0 <= i < j < |entries| ==> entries[i].0 != entries[j].0
  }

  /** The details as a string map, as the loop leaves them. */
  function DetailsMap(entries: seq<(string, DetailValue)>): (m: map<string, string>)
    ensures m.Keys == Keys(entries)
    decreases |entries|
  {
    if |entries| == 0 then map[]
    else
      var last := entries[|entries| - 1];
      assert Keys(entries) == Keys(entries[..|entries| - 1]) + {last.0} by {
        assert forall i :: 0 <= i < |entries| - 1 ==> entries[..|entries| - 1][i] == entries[i];
      }
      DetailsMap(entries[..|entries| - 1])[last.0 := Stringify(last.1)]
  }

  /** With distinct keys, every detail keeps its own value as text. */
  lemma {:induction false} DetailsMapValues(entries: seq<(string, DetailValue)>)
    requires DistinctKeys(entries)
    ensures forall i :: 0 <= i < |entries| ==> DetailsMap(entries)[entries[i].0] == Stringify(entries[i].1)
    decreases |entries|
  {
    if |entries| > 0 {
      var init := entries[..|entries| - 1];
      DetailsMapValues(init);
      forall i | 0 <= i < |entries|
        ensures DetailsMap(entries)[entries[i].0] == Stringify(entries[i].1)
      {
        if i < |entries| - 1 {
          assert init[i] == entries[i];
        }
      }
    }
  }

  /** The loop of `toProtobuf` that copies the details into a string map. */
  method StringifyDetails(entries: seq<(string, DetailValue)>) returns (details: map<string, string>)
    requires DistinctKeys(entries)
    ensures details.Keys == Keys(entries)
    ensures forall i :: 0 <= i < |entries| ==> details[entries[i].0] == Stringify(entries[i].1)
    ensures details == DetailsMap(entries)
  {
    details := map[];
    var n := 0;
    while n < |entries|
      invariant 0 <= n <= |entries|
      invariant details == DetailsMap(entries[..n])
    {
      var (key, value) := entries[n];
      details := details[key := Stringify(value)];
      assert entries[..n + 1][..n] == entries[..n];
      n := n + 1;
    }
    assert entries[..|entries|] == entries;
    DetailsMapValues(entries);
  }

  /** `ClientError.toProtobuf`. */
  function ToProtobuf(e: ClientError): (r: ClientErrorPb)
    ensures r.code == Code(e.kind) && r.message == Message(e.kind)
    ensures r.errorType == ErrorTypeToPb(TypeOf(e.kind)) && r.provider == ProviderToPb(e.provider)
    ensures Details(e.kind).None? ==> r.details == map[]
    ensures Details(e.kind).Some? ==> r.details.Keys == Keys(Details(e.kind).value)
  {
    var d := Details(e.kind);
    ClientErrorPb(Code(e.kind), ErrorTypeToPb(TypeOf(e.kind)), Message(e.kind), ProviderToPb(e.provider),
                  if d.Some? then DetailsMap(d.value) else map[])
  }

  /** Something thrown: a client error, another `Error` with its message,
      or a value that is not an `Error` at all. */
  datatype Thrown = ClientErr(error: ClientError) | PlainError(message: string) | NotAnError

  /** `errorToProtobuf`: a client error converts itself; anything else
      becomes a generic API error for the given provider. */
  function ErrorToProtobuf(error: Thrown, provider: string := GROQ): (r: ClientErrorPb)
    ensures error.ClientErr? ==> r == ToProtobuf(error.error)
    ensures !error.ClientErr? ==> r.code == "CLIENT_API_ERROR" && r.errorType == TypeApi
    ensures error.PlainError? ==> r.message == error.message
    ensures error.NotAnError? ==> r.message == "An unknown error occurred"
    ensures !error.ClientErr? ==> r.provider == ProviderToPb(provider)
  {
    match error
    case ClientErr(e) => ToProtobuf(e)
    case PlainError(m) => ToProtobuf(ClientError(ApiError(m, Text(m), Undefined), provider))
    case NotAnError => ToProtobuf(ClientError(ApiError("An unknown error occurred", Undefined, Undefined), provider))
  }

  /** A generic error records its original message and an undefined status
      code, both as text. */
  lemma GenericErrorDetails(message: string, provider: string)
    ensures ErrorToProtobuf(PlainError(message), provider).details
         == map["originalError" := message, "statusCode" := "undefined"]
  {
    var entries := [("originalError", Text(message)), ("statusCode", Undefined)];
    assert entries[..1] == [("originalError", Text(message))];
    assert entries[..1][..0] == [];
    assert DetailsMap(entries[..1]) == map["originalError" := message];
    assert DetailsMap(entries) == DetailsMap(entries[..1])["statusCode" := "undefined"];
  }

  /** Gemini errors are reported under the GROQ provider. */
  lemma GeminiReportedAsGroq(k: ClientErrorKind)
    ensures ToProtobuf(ClientError(k, GEMINI)).provider == ProviderGroq
  {
  }
}
