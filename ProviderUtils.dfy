/** Choosing the ASR or LLM client by provider name, given which clients
    are configured and available. */
module ProviderUtils {
  import opened Common
  import opened ClientErrors

  /** Which clients exist and report themselves available. */
  datatype Availability = Availability(groq: bool, cerebras: bool, gemini: bool)

  /** The client objects. */
  datatype Client = GroqClient | CerebrasClient | GeminiClient

  /** The unavailable-client error for a provider name. */
  function Unavailable(name: string): ClientError {
    ClientError(UnavailableError, name)
  }

  /** `getAsrProvider`: groq or gemini when that client is available;
      anything else fails with `ClientUnavailableError`. */
  function GetAsrProvider(name: string, a: Availability): (r: Result<Client, ClientError>)
    ensures r.Ok? <==> (name == GROQ && a.groq) || (name == GEMINI && a.gemini)
    ensures r.Ok? ==> (r.value == GroqClient <==> name == GROQ)
    ensures r.Err? ==> r.error == Unavailable(name)
  {
    if name == GROQ then (if a.groq then Ok(GroqClient) else Err(Unavailable(GROQ)))
    else if name == GEMINI then (if a.gemini then Ok(GeminiClient) else Err(Unavailable(GEMINI)))
    else Err(Unavailable(name))
  }

  /** `getLlmProvider`: groq, cerebras or gemini when that client is
      available; anything else fails with `ClientUnavailableError`. */
  function GetLlmProvider(name: string, a: Availability): (r: Result<Client, ClientError>)
    ensures r.Ok? <==> (name == GROQ && a.groq) || (name == CEREBRAS && a.cerebras) || (name == GEMINI && a.gemini)
    ensures r.Ok? ==> (r.value == GroqClient <==> name == GROQ) && (r.value == CerebrasClient <==> name == CEREBRAS)
    ensures r.Err? ==> r.error == Unavailable(name)
  {
    if name == GROQ then (if a.groq then Ok(GroqClient) else Err(Unavailable(GROQ)))
    else if name == CEREBRAS then (if a.cerebras then Ok(CerebrasClient) else Err(Unavailable(CEREBRAS)))
    else if name == GEMINI then (if a.gemini then Ok(GeminiClient) else Err(Unavailable(GEMINI)))
    else Err(Unavailable(name))
  }

  /** `getAvailableAsrProviders`: the available ones among groq and
      gemini, in that order. */
  method GetAvailableAsrProviders(a: Availability) returns (providers: seq<string>)
    ensures forall p :: p in providers <==> GetAsrProvider(p, a).Ok?
    ensures providers == (if a.groq then [GROQ] else []) + (if a.gemini then [GEMINI] else [])
  {
    providers := [];
    if a.groq {
      providers := providers + [GROQ];
    }
    if a.gemini {
      providers := providers + [GEMINI];
    }
  }

  /** `getAvailableLlmProviders`: the available ones among groq, cerebras
      and gemini, in that order. */
  method GetAvailableLlmProviders(a: Availability) returns (providers: seq<string>)
    ensures forall p :: p in providers <==> GetLlmProvider(p, a).Ok?
    ensures providers == (if a.groq then [GROQ] else []) + (if a.cerebras then [CEREBRAS] else [])
                         + (if a.gemini then [GEMINI] else [])
  {
    providers := [];
    if a.groq {
      providers := providers + [GROQ];
    }
    if a.cerebras {
      providers := providers + [CEREBRAS];
    }
    if a.gemini {
      providers := providers + [GEMINI];
    }
  }

  /** Every ASR provider is also usable as an LLM provider. */
  lemma AsrProviderIsLlmProvider(name: string, a: Availability)
    requires GetAsrProvider(name, a).Ok?
    ensures GetLlmProvider(name, a) == GetAsrProvider(name, a)
  {
  }

  /** Cerebras serves language models only. */
  lemma CerebrasIsNotAnAsrProvider(a: Availability)
    ensures GetAsrProvider(CEREBRAS, a).Err?
  {
  }
}
