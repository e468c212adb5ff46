/** Post-processing of transcripts: dictionary replacements, and the
    removal of prompt markers and context lines that the LLM echoed back. */
module LlmUtils {
  import opened Common
  import opened Protocol

  // ---------------------------------------------------------------------
  // Replacements
  // ---------------------------------------------------------------------

  /** Whole-word, case-insensitive replacement of every occurrence of
      `from` by `to` (a regular expression built from the escaped `from`
      between word boundaries); the regular-expression engine is not part of
      this model, so callers pass it in. */
  type WholeWordReplacer = (string, string, string) -> string

  /** Entries that are skipped: an empty side, or both sides equal when
      lower-cased. */
  predicate IsSkipped(e: ReplacementEntry) {
    e.fromText == "" || e.toText == "" || EqualsIgnoreCase(e.fromText, e.toText)
  }

  /** One entry applied to the text. */
  function ApplyOne(text: string, e: ReplacementEntry, replaceWord: WholeWordReplacer): string {
    if IsSkipped(e) then text else replaceWord(text, e.fromText, e.toText)
  }

  /** The entries applied one after the other, each to the result of the
      previous ones. */
  function ApplyAll(text: string, entries: seq<ReplacementEntry>, replaceWord: WholeWordReplacer): string
    decreases |entries|
  {
    if |entries| == 0 then text else ApplyAll(ApplyOne(text, entries[0], replaceWord), entries[1..], replaceWord)
  }

  /** `applyReplacements`: fold the entries over the transcript in list
      order. */
  method ApplyReplacements(transcript: string, replacements: seq<ReplacementEntry>, replaceWord: WholeWordReplacer)
    returns (result: string)
    ensures result == ApplyAll(transcript, replacements, replaceWord)
    ensures replacements == [] ==> result == transcript
  {
    if |replacements| == 0 {
      return transcript;
    }
    result := transcript;
    var i := 0;
    while i < |replacements|
      invariant 0 <= i <= |replacements|
      invariant ApplyAll(result, replacements[i..], replaceWord) == ApplyAll(transcript, replacements, replaceWord)
    {
      var e := replacements[i];
      assert replacements[i..][1..] == replacements[i + 1..];
      if e.fromText != "" && e.toText != "" && ToLower(e.fromText) != ToLower(e.toText) {
        result := replaceWord(result, e.fromText, e.toText);
      }
      i := i + 1;
    }
    assert replacements[i..] == [];
  }

  /** Applying a list is applying its first part, then the rest. */
  lemma {:induction false} ApplyAllAppend(text: string, xs: seq<ReplacementEntry>, ys: seq<ReplacementEntry>, replaceWord: WholeWordReplacer)
    ensures ApplyAll(text, xs + ys, replaceWord) == ApplyAll(ApplyAll(text, xs, replaceWord), ys, replaceWord)
    decreases |xs|
  {
    if |xs| == 0 {
      assert xs + ys == ys;
    } else {
      assert (xs + ys)[1..] == xs[1..] + ys;
      ApplyAllAppend(ApplyOne(text, xs[0], replaceWord), xs[1..], ys, replaceWord);
    }
  }

  /** A list made only of skipped entries leaves the text alone, whatever
      the replacer does. */
  lemma {:induction false} SkippedEntriesChangeNothing(text: string, entries: seq<ReplacementEntry>, replaceWord: WholeWordReplacer)
    requires forall i :: 0 <= i < |entries| ==> IsSkipped(entries[i])
    ensures ApplyAll(text, entries, replaceWord) == text
    decreases |entries|
  {
    if |entries| > 0 {
      assert ApplyOne(text, entries[0], replaceWord) == text;
      SkippedEntriesChangeNothing(text, entries[1..], replaceWord);
    }
  }

  // ---------------------------------------------------------------------
  // Leaked-context filter
  // ---------------------------------------------------------------------

  /** The prompt markers the filter deletes, in the order it deletes them. */
  const PromptMarkers: seq<string> := [
    "{START_USER_DETAILS_MARKER}", "{END_USER_DETAILS_MARKER}",
    "{START_WINDOW_TITLE_MARKER}", "{END_WINDOW_TITLE_MARKER}",
    "{START_APP_NAME_MARKER}", "{END_APP_NAME_MARKER}",
    "{START_BROWSER_URL_MARKER}", "{END_BROWSER_URL_MARKER}",
    "{START_BROWSER_DOMAIN_MARKER}", "{END_BROWSER_DOMAIN_MARKER}",
    "{START_CONTEXT_MARKER}", "{END_CONTEXT_MARKER}",
    "{START_USER_COMMAND_MARKER}", "{END_USER_COMMAND_MARKER}"]

  /** `text.split(marker).join('')`: every occurrence deleted (splitting on
      the empty string cuts between characters, so it changes nothing). */
  function DeleteAll(text: string, marker: string): string {
    if marker == [] then text else ReplaceAll(text, marker, "")
  }

  /** Every marker deleted, in list order. */
  function StripMarkers(text: string, markers: seq<string>): string
    decreases |markers|
  {
    if |markers| == 0 then text else StripMarkers(DeleteAll(text, markers[0]), markers[1..])
  }

  /** Text with none of the markers passes the marker phase unchanged. */
  lemma {:induction false} StripMarkersAbsent(text: string, markers: seq<string>)
    requires forall i :: 0 <= i < |markers| ==> !Contains(text, markers[i])
    ensures StripMarkers(text, markers) == text
    decreases |markers|
  {
    if |markers| > 0 {
      if markers[0] != [] {
        ReplaceAllAbsent(text, markers[0], "");
      }
      StripMarkersAbsent(text, markers[1..]);
    }
  }

  /** The leaked-line patterns: each removes the lines that start with a
      context label (`Name:`, `Email:`, `URL:` ...); the multi-line
      regular expressions are not part of this model, so each pattern is a
      given text transform. */
  type LinePattern = string -> string

  /** The patterns applied in list order. */
  function ApplyPatterns(text: string, patterns: seq<LinePattern>): string
    decreases |patterns|
  {
    if |patterns| == 0 then text else ApplyPatterns(patterns[0](text), patterns[1..])
  }

  /** The length of the leading run of c. */
  function LeadingRun(s: string, c: char): (k: nat)
    ensures k <= |s|
    ensures forall i :: 0 <= i < k ==> s[i] == c
    ensures k < |s| ==> s[k] != c
  {
    if |s| == 0 || s[0] != c then 0 else 1 + LeadingRun(s[1..], c)
  }

  /** No three consecutive line feeds. */
  predicate NoTripleNewline(s: string) {
    forall i :: 0 <= i < |s| - 2 ==> !(s[i] == '\n' && s[i + 1] == '\n' && s[i + 2] == '\n')
  }

  /** A short run of line feeds before text that does not start with one. */
  lemma NoTripleAfterShortRun(head: string, tail: string)
    requires |head| <= 2 && forall i :: 0 <= i < |head| ==> head[i] == '\n'
    requires NoTripleNewline(tail) && (tail == [] || tail[0] != '\n')
    ensures NoTripleNewline(head + tail)
  {
    var r := head + tail;
    forall i | 0 <= i < |r| - 2
      ensures !(r[i] == '\n' && r[i + 1] == '\n' && r[i + 2] == '\n')
    {
      if i >= |head| {
        assert r[i] == tail[i - |head|] && r[i + 1] == tail[i - |head| + 1] && r[i + 2] == tail[i - |head| + 2];
      } else {
        assert r[|head|] == tail[0];
      }
    }
  }

  /** A character other than a line feed in front. */
  lemma NoTripleAfterChar(c: char, tail: string)
    requires c != '\n' && NoTripleNewline(tail)
    ensures NoTripleNewline([c] + tail)
  {
    var r := [c] + tail;
    forall i | 1 <= i < |r| - 2
      ensures !(r[i] == '\n' && r[i + 1] == '\n' && r[i + 2] == '\n')
    {
      assert r[i] == tail[i - 1] && r[i + 1] == tail[i] && r[i + 2] == tail[i + 1];
    }
  }

  /** Suffixes inherit the property. */
  lemma NoTripleSuffix(s: string, k: nat)
    requires k <= |s| && NoTripleNewline(s)
    ensures NoTripleNewline(s[k..])
  {
    forall j | 0 <= j < |s[k..]| - 2
      ensures !(s[k..][j] == '\n' && s[k..][j + 1] == '\n' && s[k..][j + 2] == '\n')
    {
      assert s[k..][j] == s[k + j] && s[k..][j + 1] == s[k + j + 1] && s[k..][j + 2] == s[k + j + 2];
    }
  }

  /** `replace(/\n{3,}/g, '\n\n')`: every run of three or more line feeds
      becomes exactly two; the properties are the lemmas below. */
  function CollapseNewlines(s: string): string
    decreases |s|
  {
    if |s| == 0 then ""
    else if s[0] == '\n' then
      var k := LeadingRun(s, '\n');
      (if k >= 3 then "\n\n" else s[..k]) + CollapseNewlines(s[k..])
    else [s[0]] + CollapseNewlines(s[1..])
  }

  /** The result has no run of three line feeds, and a text that does not
      open with a line feed keeps its first character. */
  lemma {:induction false} CollapseLeavesNoTriple(s: string)
    ensures NoTripleNewline(CollapseNewlines(s))
    ensures s != [] && s[0] != '\n' ==> CollapseNewlines(s) != [] && CollapseNewlines(s)[0] == s[0]
    decreases |s|
  {
    if |s| > 0 {
      if s[0] == '\n' {
        var k := LeadingRun(s, '\n');
        var head := if k >= 3 then "\n\n" else s[..k];
        CollapseLeavesNoTriple(s[k..]);
        NoTripleAfterShortRun(head, CollapseNewlines(s[k..]));
      } else {
        CollapseLeavesNoTriple(s[1..]);
        NoTripleAfterChar(s[0], CollapseNewlines(s[1..]));
      }
    }
  }

  /** A text that does not end with a line feed keeps its last character. */
  lemma {:induction false} CollapseKeepsLast(s: string)
    requires s != [] && s[|s| - 1] != '\n'
    ensures CollapseNewlines(s) != [] && CollapseNewlines(s)[|CollapseNewlines(s)| - 1] == s[|s| - 1]
    decreases |s|
  {
    if s[0] == '\n' {
      var k := LeadingRun(s, '\n');
      assert k < |s| && s[k..][|s[k..]| - 1] == s[|s| - 1];
      CollapseKeepsLast(s[k..]);
    } else if |s| > 1 {
      assert s[1..][|s| - 2] == s[|s| - 1];
      CollapseKeepsLast(s[1..]);
    }
  }

  /** Text without a run of three line feeds is left as it is. */
  lemma {:induction false} CollapseOfNoTriple(s: string)
    requires NoTripleNewline(s)
    ensures CollapseNewlines(s) == s
    decreases |s|
  {
    if |s| > 0 {
      if s[0] == '\n' {
        var k := LeadingRun(s, '\n');
        assert |s| >= 3 ==> !(s[0] == '\n' && s[1] == '\n' && s[2] == '\n');
        NoTripleSuffix(s, k);
        CollapseOfNoTriple(s[k..]);
        assert s == s[..k] + s[k..];
      } else {
        NoTripleSuffix(s, 1);
        CollapseOfNoTriple(s[1..]);
        assert s == [s[0]] + s[1..];
      }
    }
  }

  /** The marker loop of `filterLeakedContext`. */
  method RemoveMarkers(text: string, markers: seq<string>) returns (filtered: string)
    ensures filtered == StripMarkers(text, markers)
  {
    filtered := text;
    var i := 0;
    while i < |markers|
      invariant 0 <= i <= |markers|
      invariant StripMarkers(filtered, markers[i..]) == StripMarkers(text, markers)
    {
      assert markers[i..][1..] == markers[i + 1..];
      filtered := if markers[i] == [] then filtered else ReplaceAll(filtered, markers[i], "");
      i := i + 1;
    }
    assert markers[i..] == [];
  }

  /** The leaked-line loop of `filterLeakedContext`. */
  method RemoveLeakedLines(text: string, patterns: seq<LinePattern>) returns (filtered: string)
    ensures filtered == ApplyPatterns(text, patterns)
  {
    filtered := text;
    var j := 0;
    while j < |patterns|
      invariant 0 <= j <= |patterns|
      invariant ApplyPatterns(filtered, patterns[j..]) == ApplyPatterns(text, patterns)
    {
      assert patterns[j..][1..] == patterns[j + 1..];
      filtered := patterns[j](filtered);
      j := j + 1;
    }
    assert patterns[j..] == [];
  }

  /** `filterLeakedContext`: empty for blank input; otherwise markers are
      deleted, the leaked-line patterns applied, the text trimmed and runs
      of blank lines collapsed. */
  method FilterLeakedContext(text: string, patterns: seq<LinePattern>) returns (filtered: string)
    ensures Trim(text) == "" ==> filtered == ""
    ensures Trim(text) != "" ==>
      filtered == CollapseNewlines(Trim(ApplyPatterns(StripMarkers(text, PromptMarkers), patterns)))
    ensures IsTrimmed(filtered)
    ensures NoTripleNewline(filtered)
  {
    if text == "" || Trim(text) == "" {
      return "";
    }
    filtered := RemoveMarkers(text, PromptMarkers);
    filtered := RemoveLeakedLines(filtered, patterns);
    var trimmed := Trim(filtered);
    filtered := CollapseNewlines(trimmed);
    CollapseKeepsTrimmed(trimmed);
    CollapseLeavesNoTriple(trimmed);
  }

  /** Collapsing the line feeds of a trimmed text keeps it trimmed. */
  lemma CollapseKeepsTrimmed(s: string)
    requires IsTrimmed(s)
    ensures IsTrimmed(CollapseNewlines(s))
  {
    if s != [] {
      assert s[0] != '\n' && s[|s| - 1] != '\n';
      CollapseLeavesNoTriple(s);
      CollapseKeepsLast(s);
    }
  }

  /** Filtering is idempotent on text that no marker, no pattern, no
      surrounding space and no blank-line run would change. */
  lemma FilterFixedPoint(text: string, patterns: seq<LinePattern>)
    requires IsTrimmed(text) && text != [] && NoTripleNewline(text)
    requires forall i :: 0 <= i < |PromptMarkers| ==> !Contains(text, PromptMarkers[i])
    requires ApplyPatterns(text, patterns) == text
    ensures CollapseNewlines(Trim(ApplyPatterns(StripMarkers(text, PromptMarkers), patterns))) == text
  {
    StripMarkersAbsent(text, PromptMarkers);
    TrimOfTrimmed(text);
    CollapseOfNoTriple(text);
  }
}
