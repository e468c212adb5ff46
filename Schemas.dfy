/** The request-validation schemas of the server: model names, providers,
    prompts, numeric ranges and the vocabulary header. Each schema either
    yields the cleaned value or an error message. */
module Schemas {
  import opened Common

  // ---------------------------------------------------------------------
  // Character classes
  // ---------------------------------------------------------------------

  predicate IsAsciiAlnum(c: char) {
    'a' <= c <= 'z' || 'A' <= c <= 'Z' || '0' <= c <= '9'
  }

  /** `[a-zA-Z0-9\-_.]`. */
  predicate IsModelChar(c: char) {
    IsAsciiAlnum(c) || c == '-' || c == '_' || c == '.'
  }

  /** `[a-zA-Z0-9\-_./]`. */
  predicate IsLlmModelChar(c: char) {
    IsModelChar(c) || c == '/'
  }

  /** `[a-zA-Z0-9\-_.\s']`. */
  predicate IsVocabularyChar(c: char) {
    IsModelChar(c) || IsSpace(c) || c == '\''
  }

  // ---------------------------------------------------------------------
  // Model names
  // ---------------------------------------------------------------------

  /** A model name: trimmed, 1 to 100 characters, all from the class. */
  function ModelName(value: string, isAllowed: char -> bool, what: string): (r: Result<string, string>)
    ensures r.Ok? <==> 0 < |Trim(value)| <= 100 && forall i :: 0 <= i < |Trim(value)| ==> isAllowed(Trim(value)[i])
    ensures r.Ok? ==> r.value == Trim(value)
  {
    var t := Trim(value);
    if |t| == 0 then Err(what + " cannot be empty")
    else if |t| > 100 then Err(what + " too long")
    else if !(forall i :: 0 <= i < |t| ==> isAllowed(t[i])) then Err(what + " contains invalid characters")
    else Ok(t)
  }

  /** `AsrModelSchema`. */
  function AsrModel(value: string): (r: Result<string, string>)
    ensures r.Ok? ==> 0 < |r.value| <= 100 && IsTrimmed(r.value)
    ensures r.Ok? ==> forall i :: 0 <= i < |r.value| ==> IsModelChar(r.value[i])
    ensures r.Ok? <==> ModelName(value, IsModelChar, "ASR model").Ok?
  {
    ModelName(value, IsModelChar, "ASR model")
  }

  /** `LlmModelSchema`: the ASR rule with `/` also allowed. */
  function LlmModel(value: string): (r: Result<string, string>)
    ensures r.Ok? ==> 0 < |r.value| <= 100 && IsTrimmed(r.value)
    ensures r.Ok? ==> forall i :: 0 <= i < |r.value| ==> IsLlmModelChar(r.value[i])
    ensures r.Ok? <==> ModelName(value, IsLlmModelChar, "LLM model").Ok?
  {
    ModelName(value, IsLlmModelChar, "LLM model")
  }

  /** Every valid ASR model name is a valid LLM model name. */
  lemma AsrModelIsLlmModel(value: string)
    requires AsrModel(value).Ok?
    ensures LlmModel(value) == AsrModel(value)
  {
    var t := Trim(value);
    assert forall i :: 0 <= i < |t| ==> IsModelChar(t[i]);
    assert forall i :: 0 <= i < |t| ==> IsLlmModelChar(t[i]);
  }

  /** A model path with a `/` is an LLM model but never an ASR model. */
  lemma SlashOnlyInLlmModels(value: string, k: nat)
    requires k < |Trim(value)| && Trim(value)[k] == '/'
    ensures AsrModel(value).Err?
  {
    assert !IsModelChar(Trim(value)[k]);
  }

  // ---------------------------------------------------------------------
  // Providers
  // ---------------------------------------------------------------------

  const GROQ := "groq"
  const CEREBRAS := "cerebras"
  const GEMINI := "gemini"

  /** `AsrProviderSchema`: the trimmed name must be groq or gemini. */
  function AsrProvider(value: string): (r: Result<string, string>)
    ensures r.Ok? <==> Trim(value) == GROQ || Trim(value) == GEMINI
    ensures r.Ok? ==> r.value == Trim(value)
  {
    var t := Trim(value);
    if t == GROQ || t == GEMINI then Ok(t) else Err("Invalid enum value")
  }

  /** `LlmProviderSchema`: the trimmed name must be groq, cerebras or gemini. */
  function LlmProvider(value: string): (r: Result<string, string>)
    ensures r.Ok? <==> Trim(value) == GROQ || Trim(value) == CEREBRAS || Trim(value) == GEMINI
    ensures r.Ok? ==> r.value == Trim(value)
  {
    var t := Trim(value);
    if t == GROQ || t == CEREBRAS || t == GEMINI then Ok(t) else Err("Invalid enum value")
  }

  // ---------------------------------------------------------------------
  // Prompts and numbers
  // ---------------------------------------------------------------------

  /** A trimmed prompt of at most `max` characters. */
  function BoundedPrompt(value: string, max: nat, message: string): (r: Result<string, string>)
    ensures r.Ok? <==> |Trim(value)| <= max
    ensures r.Ok? ==> r.value == Trim(value) && |r.value| <= max
  {
    var t := Trim(value);
    if |t| <= max then Ok(t) else Err(message)
  }

  /** `AsrPromptSchema`. */
  function AsrPrompt(value: string): (r: Result<string, string>)
    ensures r.Ok? ==> |r.value| <= 100 && IsTrimmed(r.value)
    ensures |Trim(value)| <= 100 ==> r == Ok(Trim(value))
  {
    BoundedPrompt(value, 100, "ASR prompt too long")
  }

  /** `LlmPromptSchema`. */
  function LlmPrompt(value: string): (r: Result<string, string>)
    ensures r.Ok? ==> |r.value| <= 1500 && IsTrimmed(r.value)
    ensures |Trim(value)| <= 1500 ==> r == Ok(Trim(value))
  {
    BoundedPrompt(value, 1500, "LLM prompt too long")
  }

  /** A number within [lo, hi]. */
  function InRange(value: real, lo: real, hi: real, below: string, above: string): (r: Result<real, string>)
    ensures r.Ok? <==> lo <= value <= hi
    ensures r.Ok? ==> r.value == value
  {
    if value < lo then Err(below) else if value > hi then Err(above) else Ok(value)
  }

  /** `LLMTemperatureSchema`: a temperature in [0, 2]. */
  function LlmTemperature(value: real): (r: Result<real, string>)
    ensures r.Ok? <==> 0.0 <= value <= 2.0
  {
    InRange(value, 0.0, 2.0, "Temperature must be at least 0", "Temperature cannot exceed 2")
  }

  /** `NoSpeechThresholdSchema`: a probability in [0, 1]. */
  function NoSpeechThreshold(value: real): (r: Result<real, string>)
    ensures r.Ok? <==> 0.0 <= value <= 1.0
  {
    InRange(value, 0.0, 1.0, "No speech probability must be at least 0", "No speech probability cannot exceed 1")
  }

  // ---------------------------------------------------------------------
  // Vocabulary
  // ---------------------------------------------------------------------

  /** `VocabularyWordSchema`, as a test: 1 to 100 characters after trimming,
      all from the vocabulary class. */
  predicate IsVocabularyWord(word: string) {
    var t := Trim(word);
    0 < |t| <= 100 && forall i :: 0 <= i < |t| ==> IsVocabularyChar(t[i])
  }

  predicate IsNonEmpty(word: string) {
    |word| > 0
  }

  /** Every piece trimmed. */
  function TrimAll(pieces: seq<string>): (r: seq<string>)
    ensures |r| == |pieces|
    ensures forall i :: 0 <= i < |r| ==> r[i] == Trim(pieces[i])
  {
    seq(|pieces|, i requires 0 <= i < |pieces| => Trim(pieces[i]))
  }

  /** The words of a non-empty list: split at commas, trimmed, empties
      dropped, the first 500 kept, invalid words dropped. */
  function VocabularyWords(list: string): seq<string> {
    Filter(Take(Filter(TrimAll(Split(list, ',')), IsNonEmpty), 500), IsVocabularyWord)
  }

  /** `VocabularySchema`. */
  function Vocabulary(value: string): (r: Result<seq<string>, string>)
    ensures |Trim(value)| > 5000 <==> r.Err?
    ensures Trim(value) == "" ==> r == Ok([])
    ensures r.Ok? && Trim(value) != "" ==> r.value == VocabularyWords(Trim(value))
  {
    var t := Trim(value);
    if |t| > 5000 then Err("Vocabulary list too long")
    else if t == "" then Ok([])
    else Ok(VocabularyWords(t))
  }

  /** A trimmed text passing the word test is 1 to 100 characters long. */
  lemma TrimmedWordLength(u: string)
    requires IsTrimmed(u) && IsVocabularyWord(u)
    ensures 0 < |u| <= 100
  {
    TrimOfTrimmedAt(u);
  }

  /** A trimmed text passing the word test is made of vocabulary characters. */
  lemma TrimmedWordChars(u: string)
    requires IsTrimmed(u) && IsVocabularyWord(u)
    ensures forall j :: 0 <= j < |u| ==> IsVocabularyChar(u[j])
  {
    TrimOfTrimmedAt(u);
  }

  /** Every word of a parsed vocabulary is a trimmed, valid word of 1 to 100
      characters, and there are at most 500 of them. */
  lemma VocabularyWordsAreValid(value: string)
    requires Vocabulary(value).Ok?
    ensures var words := Vocabulary(value).value;
      && |words| <= 500
      && forall i :: 0 <= i < |words| ==>
           && IsTrimmed(words[i]) && 0 < |words[i]| <= 100
           && forall j :: 0 <= j < |words[i]| ==> IsVocabularyChar(words[i][j])
  {
    var t := Trim(value);
    if t != "" {
      var trimmed := TrimAll(Split(t, ','));
      var nonEmpty := Filter(trimmed, IsNonEmpty);
      var kept := Take(nonEmpty, 500);
      var words := Filter(kept, IsVocabularyWord);
      assert Vocabulary(value).value == words;
      assert forall w :: w in kept ==> w in trimmed by {
        assert forall w :: w in kept ==> w in nonEmpty;
      }
      var pieces := Split(t, ',');
      forall i | 0 <= i < |words|
        ensures IsTrimmed(words[i]) && 0 < |words[i]| <= 100
        ensures forall j :: 0 <= j < |words[i]| ==> IsVocabularyChar(words[i][j])
      {
        var k :| 0 <= k < |trimmed| && trimmed[k] == words[i];
        TrimmedWordLength(words[i]);
        TrimmedWordChars(words[i]);
      }
    }
  }
}
