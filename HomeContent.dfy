/** The helpers behind the home page: the streak caption, the word total
    over the interaction history, the zero statistics of an empty history,
    the text shown for one interaction, and the small cache of audio
    players kept while replaying recordings. */
module HomeContent {
  import opened Common

  /** The parts of an interaction the home page reads. `None` stands for
      a missing `asr_output` or a missing field inside it. */
  datatype HomeInteraction = HomeInteraction(
    id: string,
    transcript: Option<string>,
    error: Option<string>,
    errorCode: Option<string>,
    durationMs: Option<int>)

  // ---------------------------------------------------------------------
  // Streak caption
  // ---------------------------------------------------------------------

  /** `formatStreakText`. */
  function StreakText(days: nat): string {
    if days == 0 then "0 days"
    else if days == 1 then "1 day"
    else if days < 7 then NatToString(days) + " days"
    else if days < 14 then "1 week"
    else if days < 30 then NatToString(days / 7) + " weeks"
    else if days < 60 then "1 month"
    else NatToString(days / 30) + " months"
  }

  /** The unit a streak is counted in: days below a week, weeks below a
      month of 30 days, months after that. */
  function UnitDays(days: nat): (u: nat)
    ensures u == 1 || u == 7 || u == 30
  {
    if days < 7 then 1 else if days < 30 then 7 else 30
  }

  function UnitName(u: nat): string {
    if u == 1 then "day" else if u == 7 then "week" else "month"
  }

  /** The number of whole units in a streak. */
  function StreakCount(days: nat): nat {
    if days < 7 then days else if days < 30 then days / 7 else days / 30
  }

  /** `n unit`, with the plural `s` exactly when n is not one. */
  function Pluralised(n: nat, unit: string): string {
    NatToString(n) + " " + unit + (if n == 1 then "" else "s")
  }

  /** The caption is the number of whole units in the streak, pluralised
      correctly: never "1 weeks" and never "2 week". */
  lemma StreakTextIsPluralised(days: nat)
    ensures StreakText(days) == Pluralised(StreakCount(days), UnitName(UnitDays(days)))
  {
    if days < 7 {
      StreakInDays(days);
    } else if days < 30 {
      StreakInWeeks(days);
    } else {
      StreakInMonths(days);
    }
  }

  lemma StreakInDays(days: nat)
    requires days < 7
    ensures StreakText(days) == Pluralised(days, "day")
  {
    assert NatToString(0) == "0";
    assert NatToString(1) == "1";
  }

  lemma StreakInWeeks(days: nat)
    requires 7 <= days < 30
    ensures StreakText(days) == Pluralised(days / 7, "week")
  {
    assert NatToString(1) == "1";
    assert days < 14 <==> days / 7 == 1;
  }

  lemma StreakInMonths(days: nat)
    requires 30 <= days
    ensures StreakText(days) == Pluralised(days / 30, "month")
  {
    assert NatToString(1) == "1";
    assert days < 60 <==> days / 30 == 1;
  }

  /** The count shown rounds the streak down to whole units, and is at
      least one for any non-empty streak. */
  lemma StreakCountRoundsDown(days: nat)
    ensures StreakCount(days) * UnitDays(days) <= days < (StreakCount(days) + 1) * UnitDays(days)
    ensures days > 0 ==> StreakCount(days) >= 1
  {
  }

  // ---------------------------------------------------------------------
  // Word totals and statistics
  // ---------------------------------------------------------------------

  /** The trimmed transcript, if there is one. */
  function TrimmedTranscript(i: HomeInteraction): Option<string> {
    if i.transcript.Some? then Some(Trim(i.transcript.value)) else None
  }

  /** The trimmed transcript is present and not empty (JavaScript truth). */
  predicate HasText(i: HomeInteraction) {
    TrimmedTranscript(i).Some? && TrimmedTranscript(i).value != ""
  }

  /** The words of one interaction: the whitespace-separated pieces of the
      trimmed transcript, or none without one. */
  function TranscriptWords(i: HomeInteraction): (n: nat)
    ensures !HasText(i) ==> n == 0
    ensures HasText(i) ==> n == |Words(TrimmedTranscript(i).value)|
  {
    if HasText(i) then |Words(TrimmedTranscript(i).value)| else 0
  }

  /** `calculateTotalWords`: the `reduce` over the history, in order. */
  function TotalWords(xs: seq<HomeInteraction>): nat {
    if xs == [] then 0 else TotalWords(xs[..|xs| - 1]) + TranscriptWords(xs[|xs| - 1])
  }

  /** The total over two stretches of history is the sum of their totals. */
  lemma {:induction false} TotalWordsAppend(xs: seq<HomeInteraction>, ys: seq<HomeInteraction>)
    ensures TotalWords(xs + ys) == TotalWords(xs) + TotalWords(ys)
    decreases |ys|
  {
    if ys == [] {
      assert xs + ys == xs;
    } else {
      var init := ys[..|ys| - 1];
      assert (xs + ys)[..|xs + ys| - 1] == xs + init;
      TotalWordsAppend(xs, init);
    }
  }

  /** Interactions without text add nothing to the total. */
  lemma {:induction false} TotalWordsIgnoresSilent(xs: seq<HomeInteraction>)
    ensures TotalWords(Filter(xs, HasText)) == TotalWords(xs)
    decreases |xs|
  {
    if xs != [] {
      var rest := xs[1..];
      TotalWordsIgnoresSilent(rest);
      assert xs == [xs[0]] + rest;
      TotalWordsAppend([xs[0]], rest);
      assert TotalWords([xs[0]]) == TranscriptWords(xs[0]) by {
        assert [xs[0]][..0] == [];
      }
      var kept := Filter(rest, HasText);
      if HasText(xs[0]) {
        assert Filter(xs, HasText) == [xs[0]] + kept;
        TotalWordsAppend([xs[0]], kept);
      } else {
        assert Filter(xs, HasText) == kept;
      }
    }
  }

  /** An interaction with text has at least one word. */
  lemma TextHasAWord(i: HomeInteraction)
    requires HasText(i)
    ensures TranscriptWords(i) >= 1
  {
    var t := TrimmedTranscript(i).value;
    TrimStartOfNonSpace(t);
  }

  /** The three figures of the statistics cards. */
  datatype InteractionStats = InteractionStats(streakDays: nat, totalWords: nat, averageWpm: nat)

  /** `calculateStats`: an empty history gives zeros; otherwise the word
      total over the history, beside the streak and the average speed,
      which are computed from dates and durations outside this model and
      passed in. */
  function Stats(xs: seq<HomeInteraction>, streakDays: nat, averageWpm: nat): (r: InteractionStats)
    ensures xs == [] ==> r == InteractionStats(0, 0, 0)
    ensures xs != [] ==> r.totalWords == TotalWords(xs) && r.streakDays == streakDays && r.averageWpm == averageWpm
  {
    if xs == [] then InteractionStats(0, 0, 0) else InteractionStats(streakDays, TotalWords(xs), averageWpm)
  }

  /** A history of interactions that all have text shows at least one word
      per interaction. */
  lemma {:induction false} EveryTextCounts(xs: seq<HomeInteraction>, streakDays: nat, averageWpm: nat)
    requires forall k :: 0 <= k < |xs| ==> HasText(xs[k])
    ensures Stats(xs, streakDays, averageWpm).totalWords >= |xs|
    decreases |xs|
  {
    if xs != [] {
      var init := xs[..|xs| - 1];
      EveryTextCounts(init, streakDays, averageWpm);
      TextHasAWord(xs[|xs| - 1]);
    }
  }

  // ---------------------------------------------------------------------
  // The text shown for one interaction
  // ---------------------------------------------------------------------

  datatype Display = Display(text: string, isError: bool, tooltip: Option<string>)

  const QualityErrorCode := "CLIENT_TRANSCRIPTION_QUALITY_ERROR"
  const NoSpeech := "No speech detected in audio."
  const Unable := "Unable to transcribe audio."
  const SilentTooltip := "Ito didn't detect any words so the transcript is empty"

  /** The error is present and not empty (JavaScript truth). */
  predicate HasError(i: HomeInteraction) {
    i.error.Some? && i.error.value != ""
  }

  /** `getDisplayText`: errors first (the quality code, then the
      no-speech messages, then any other failure with the error as its
      tooltip), then a transcript that trims to nothing, and otherwise the
      trimmed transcript itself. */
  function DisplayText(i: HomeInteraction): (r: Display)
    ensures r.isError <==> HasError(i) || !HasText(i)
    ensures r.isError <==> r.tooltip.Some?
    ensures !r.isError ==> r.text == TrimmedTranscript(i).value
    ensures HasError(i) && i.errorCode == Some(QualityErrorCode) ==> r.text == "Audio quality too low"
    ensures HasError(i) && i.errorCode != Some(QualityErrorCode) &&
            (Contains(i.error.value, NoSpeech) || Contains(i.error.value, Unable)) ==>
      r == Display("Audio is silent", true, Some(SilentTooltip))
    ensures HasError(i) && i.errorCode != Some(QualityErrorCode) &&
            !Contains(i.error.value, NoSpeech) && !Contains(i.error.value, Unable) ==>
      r == Display("Transcription failed", true, i.error)
    ensures !HasError(i) && !HasText(i) ==> r == Display("Audio is silent.", true, Some(SilentTooltip))
  {
    if HasError(i) then
      if i.errorCode == Some(QualityErrorCode) then
        Display("Audio quality too low", true, Some("Audio quality was too low to generate a reliable transcript"))
      else if Contains(i.error.value, NoSpeech) || Contains(i.error.value, Unable) then
        Display("Audio is silent", true, Some(SilentTooltip))
      else
        Display("Transcription failed", true, i.error)
    else if !HasText(i) then
      Display("Audio is silent.", true, Some(SilentTooltip))
    else
      Display(TrimmedTranscript(i).value, false, None)
  }

  /** A transcript shown as such is non-empty, trimmed, and counts towards
      the word total. */
  lemma ShownTranscriptCounts(i: HomeInteraction)
    requires !DisplayText(i).isError
    ensures DisplayText(i).text != "" && IsTrimmed(DisplayText(i).text)
    ensures TranscriptWords(i) >= 1
  {
    TextHasAWord(i);
  }

  /** An error hides the transcript, whatever it says. */
  lemma ErrorHidesTranscript(i: HomeInteraction, t: Option<string>)
    requires HasError(i)
    ensures DisplayText(i.(transcript := t)) == DisplayText(i)
  {
  }

  // ---------------------------------------------------------------------
  // The audio player cache
  // ---------------------------------------------------------------------

  const MaxAudioCache := 5

  /** The interaction ids with a cached audio player, oldest first (the
      insertion order of the `Map`), and the ids whose player eviction
      has paused and released. */
  class AudioCache {
    var order: seq<string>
    var released: seq<string>

    ghost predicate Valid()
      reads this
    {
      Distinct(order)
    }

    constructor()
      ensures Valid() && order == [] && released == []
    {
      order, released := [], [];
    }

    /** `Map.set`: a new id goes last; an id already cached keeps its
        place. */
    method Insert(id: string)
      requires Valid()
      modifies this`order
      ensures Valid()
      ensures id in old(order) ==> order == old(order)
      ensures id !in old(order) ==> order == old(order) + [id]
    {
      if id !in order {
        DistinctAppend(order, id);
        order := order + [id];
      }
    }

    /** `evictOldestAudio`: past five players, the oldest one (when its id
        is not empty) is released and dropped; otherwise nothing changes. */
    method EvictOldest()
      requires Valid()
      modifies this
      ensures Valid()
      ensures |old(order)| <= MaxAudioCache || old(order)[0] == "" ==>
        order == old(order) && released == old(released)
      ensures |old(order)| > MaxAudioCache && old(order)[0] != "" ==>
        order == old(order)[1..] && released == old(released) + [old(order)[0]]
    {
      if |order| <= MaxAudioCache {
        return;
      }
      var oldest := order[0];
      if oldest != "" {
        released := released + [oldest];
        order := order[1..];
      }
    }

    /** Caching a newly built player and then evicting, as the playback
        handler does: the new id stays cached, and a cache of at most five
        stays at most five when ids are never empty. */
    method CachePlayer(id: string)
      requires Valid() && id !in order
      modifies this
      ensures Valid() && id in order
      ensures (forall k :: 0 <= k < |old(order)| ==> old(order)[k] != "") && |old(order)| <= MaxAudioCache ==>
        |order| <= MaxAudioCache
      ensures forall x :: x in order ==> x in old(order) || x == id
    {
      Insert(id);
      assert order[|order| - 1] == id;
      EvictOldest();
    }

    /** The unmount cleanup releases every cached player, oldest first, and
        forgets them all. */
    method Clear()
      modifies this
      ensures Valid() && order == []
      ensures released == old(released) + old(order)
    {
      released := released + order;
      order := [];
    }
  }
}
