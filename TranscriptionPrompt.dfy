/** The Whisper conditioning prompt built from the user's vocabulary: the
    words as a comma-separated list, cut to fit the model's prompt budget. */
module TranscriptionPrompt {
  import opened Common

  /** The prompt budget in tokens. */
  const MaxTokens := 224

  /** The characters available for the list: four per token, less a margin
      of ten. */
  const AvailableChars := MaxTokens * 4 - 10

  /** `estimateTokenCount`: one token per four characters, rounded up. */
  function EstimateTokenCount(text: string): (n: nat)
    ensures 4 * n >= |text| && 4 * n < |text| + 4
  {
    (|text| + 3) / 4
  }

  /** The position of the last comma, if there is one. */
  function LastComma(s: string): (r: Option<nat>)
    ensures r.None? <==> ',' !in s
    ensures r.Some? ==> r.value < |s| && s[r.value] == ',' && ',' !in s[r.value + 1..]
    decreases |s|
  {
    if |s| == 0 then None
    else if s[|s| - 1] == ',' then Some(|s| - 1)
    else
      var r := LastComma(s[..|s| - 1]);
      assert s == s[..|s| - 1] + [s[|s| - 1]];
      if r.Some? then
        assert s[r.value + 1..] == s[..|s| - 1][r.value + 1..] + [s[|s| - 1]];
        r
      else r
  }

  /** `replace(/,\s*[^,]*$/, '')`: the pattern can only match at the last
      comma (nothing after its match may be a comma), so everything from
      the last comma on is removed; text without a comma is kept. */
  function DropLastTerm(s: string): (r: string)
    ensures ',' !in s ==> r == s
    ensures ',' in s ==> |r| < |s| && s[|r|] == ',' && ',' !in s[|r| + 1..]
    ensures r == s[..|r|]
  {
    var i := LastComma(s);
    if i.None? then s else s[..i.value]
  }

  /** `createTranscriptionPrompt`. */
  function CreateTranscriptionPrompt(vocabulary: seq<string>): (r: string)
    ensures vocabulary == [] ==> r == ""
    ensures StartsWith(Join(vocabulary, ", "), r)
    ensures |r| <= AvailableChars
    ensures EstimateTokenCount(r) <= MaxTokens
    ensures r == "" || Trim(r) != ""
    ensures |Join(vocabulary, ", ")| <= AvailableChars && Trim(Join(vocabulary, ", ")) != "" ==>
      r == Join(vocabulary, ", ")
  {
    if |vocabulary| == 0 then ""
    else
      var joined := Join(vocabulary, ", ");
      var cut := if |joined| > AvailableChars then DropLastTerm(joined[..AvailableChars]) else joined;
      assert joined[..|cut|] == cut;
      if Trim(cut) == "" then "" else cut
  }

  /** When the list is too long, the result is the part of the list before
      the last comma within the budget (or the whole budget when that part
      has no comma), unless that is blank. */
  lemma TruncatedPromptEndsBeforeLastComma(vocabulary: seq<string>)
    requires |Join(vocabulary, ", ")| > AvailableChars
    ensures var cut := Join(vocabulary, ", ")[..AvailableChars];
      var r := CreateTranscriptionPrompt(vocabulary);
      && (r == "" || r == DropLastTerm(cut))
      && (',' in cut && r != "" ==> cut[|r|] == ',' && ',' !in cut[|r| + 1..])
  {
  }

  /** A single word longer than the budget is cut in the middle: there is
      no comma for the pattern to remove. */
  lemma LongSingleWordIsCutMidWord(word: string)
    requires |word| > AvailableChars && ',' !in word && Trim(word[..AvailableChars]) != ""
    ensures CreateTranscriptionPrompt([word]) == word[..AvailableChars]
  {
    assert Join([word], ", ") == word;
    assert ',' !in word[..AvailableChars] by {
      forall k | 0 <= k < AvailableChars ensures word[..AvailableChars][k] != ',' {
        assert word[k] in word;
      }
    }
  }
}
