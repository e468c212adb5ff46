/** The server's prompt helpers: wake-phrase mode detection, the choice of
    the system prompt for a mode, and the user prompt that wraps a
    transcript in its window context. */
module ItoHelpers {
  import opened Common
  import opened Protocol

  // ---------------------------------------------------------------------
  // Wake-phrase mode detection
  // ---------------------------------------------------------------------

  /** The phrases that switch a dictation into EDIT mode. */
  const WakePhrases: seq<string> := ["salut arka", "bonjour arka", "bonsoir arka", "hey arka", "hey ito"]

  /** The first five words of the transcript joined by single spaces,
      lower-cased. */
  function FirstFiveWords(transcript: string): string {
    ToLower(Join(Take(Words(transcript), 5), " "))
  }

  predicate HasWakePhrase(s: string) {
    exists i :: 0 <= i < |WakePhrases| && Contains(s, WakePhrases[i])
  }

  /** `detectItoMode`. */
  function DetectItoMode(transcript: string): (m: ItoMode)
    ensures m == Edit || m == Transcribe
  {
    if HasWakePhrase(FirstFiveWords(transcript)) then Edit else Transcribe
  }

  /** Only the first five words matter: two transcripts that agree on them
      get the same mode, whatever follows the fifth word. */
  lemma DetectSeesOnlyFirstFiveWords(a: string, b: string)
    requires Take(Words(a), 5) == Take(Words(b), 5)
    ensures DetectItoMode(a) == DetectItoMode(b)
  {
  }

  /** The first five words, joined again, split back into themselves. */
  lemma WordsOfFirstFive(transcript: string)
    ensures Words(Join(Take(Words(transcript), 5), " ")) == Take(Words(transcript), 5)
  {
    var five := Take(Words(transcript), 5);
    WordsAreWords(transcript);
    forall i | 0 <= i < |five|
      ensures IsWord(five[i])
    {
      assert five[i] == Words(transcript)[i];
    }
    WordsOfJoin(five);
  }

  /** The mode of a transcript is the mode of its first five words alone. */
  lemma DetectOfFirstFiveWords(transcript: string)
    ensures DetectItoMode(Join(Take(Words(transcript), 5), " ")) == DetectItoMode(transcript)
  {
    var five := Take(Words(transcript), 5);
    WordsOfFirstFive(transcript);
    assert FirstFiveWords(Join(five, " ")) == FirstFiveWords(transcript) by {
      assert Take(five, 5) == five;
    }
  }

  /** Joined words start with the first two, separated by a space. */
  lemma JoinStartsWithFirstTwo(ws: seq<string>)
    requires |ws| >= 2
    ensures StartsWith(Join(ws, " "), ws[0] + " " + ws[1])
  {
    var tail := Join(ws[1..], " ");
    assert Join(ws, " ") == ws[0] + " " + tail;
    assert StartsWith(tail, ws[1]) by {
      if |ws| > 2 {
        assert tail == ws[1] + " " + Join(ws[2..], " ") by { assert ws[1..][1..] == ws[2..]; }
      }
    }
    var p := ws[0] + " " + ws[1];
    assert (ws[0] + " " + tail)[..|p|] == p;
  }

  /** The lower-cased first five words start with the first two. */
  lemma FirstFiveStartsWithFirstTwo(ws: seq<string>)
    requires |ws| >= 2
    ensures StartsWith(ToLower(Join(Take(ws, 5), " ")), ToLower(ws[0] + " " + ws[1]))
  {
    var five := Take(ws, 5);
    assert five[0] == ws[0] && five[1] == ws[1];
    JoinStartsWithFirstTwo(five);
    ToLowerPrefix(Join(five, " "), ws[0] + " " + ws[1]);
  }

  /** Two words that lower-case to "hey" and "ito". */
  lemma LowerHeyIto(a: string, b: string)
    requires ToLower(a) == "hey" && ToLower(b) == "ito"
    ensures ToLower(a + " " + b) == "hey ito"
  {
    ToLowerAppend(a + " ", b);
    ToLowerAppend(a, " ");
    assert ToLower(" ") == " ";
  }

  /** A transcript opening with the words "hey ito", in any letter case,
      is an EDIT command. */
  lemma DetectHeyIto(transcript: string)
    requires |Words(transcript)| >= 2
    requires ToLower(Words(transcript)[0]) == "hey" && ToLower(Words(transcript)[1]) == "ito"
    ensures DetectItoMode(transcript) == Edit
  {
    var ws := Words(transcript);
    var low := FirstFiveWords(transcript);
    FirstFiveStartsWithFirstTwo(ws);
    LowerHeyIto(ws[0], ws[1]);
    HeyItoIsWake(low);
  }

  /** Text opening with "hey ito" holds a wake phrase. */
  lemma HeyItoIsWake(s: string)
    requires StartsWith(s, "hey ito")
    ensures HasWakePhrase(s)
  {
    ContainsAt(s, "hey ito", 0);
    assert WakePhrases[4] == "hey ito";
  }

  // ---------------------------------------------------------------------
  // System prompt for a mode
  // ---------------------------------------------------------------------

  /** The built-in prompt of each mode. */
  datatype ModePrompts = ModePrompts(transcribe: string, edit: string)

  /** The switch of `getPromptForMode`: EDIT takes the built-in editing
      prompt, TRANSCRIBE the configured transcription prompt unless it is
      empty, any other code the built-in transcription prompt. */
  function BasePromptForMode(mode: ItoMode, transcriptionPrompt: string, prompts: ModePrompts): (r: string)
    ensures mode == Edit ==> r == prompts.edit
    ensures mode != Edit && transcriptionPrompt == "" ==> r == prompts.transcribe
    ensures r == transcriptionPrompt || r == prompts.transcribe || r == prompts.edit
  {
    match mode
    case Edit => prompts.edit
    case Transcribe => if transcriptionPrompt != "" then transcriptionPrompt else prompts.transcribe
    case OtherMode(_) => prompts.transcribe
  }

  /** The configured transcription prompt is used in TRANSCRIBE mode and
      in no other. */
  lemma ConfiguredPromptOnlyForTranscribe(mode: ItoMode, transcriptionPrompt: string, prompts: ModePrompts)
    requires transcriptionPrompt != "" && transcriptionPrompt != prompts.transcribe && transcriptionPrompt != prompts.edit
    ensures BasePromptForMode(mode, transcriptionPrompt, prompts) == transcriptionPrompt <==> mode == Transcribe
  {
  }

  /** A tone prompt counts when it is present and not blank. */
  predicate HasToneText(tonePrompt: Option<string>) {
    tonePrompt.Some? && Trim(tonePrompt.value) != ""
  }

  /** `getPromptForMode`: the base prompt, headed by the tone prompt and a
      blank line when there is a tone. */
  function GetPromptForMode(mode: ItoMode, transcriptionPrompt: string, prompts: ModePrompts, tonePrompt: Option<string>): (r: string)
    ensures !HasToneText(tonePrompt) ==> r == BasePromptForMode(mode, transcriptionPrompt, prompts)
    ensures HasToneText(tonePrompt) ==>
      && StartsWith(r, tonePrompt.value + "\n\n")
      && EndsWith(r, BasePromptForMode(mode, transcriptionPrompt, prompts))
      && |r| == |tonePrompt.value| + 2 + |BasePromptForMode(mode, transcriptionPrompt, prompts)|
  {
    var base := BasePromptForMode(mode, transcriptionPrompt, prompts);
    if HasToneText(tonePrompt) then
      var r := tonePrompt.value + "\n\n" + base;
      assert r[..|tonePrompt.value| + 2] == tonePrompt.value + "\n\n";
      r
    else base
  }

  // ---------------------------------------------------------------------
  // User prompt with context
  // ---------------------------------------------------------------------

  /** The window context the server hands to the LLM. */
  datatype ItoContext = ItoContext(
    windowTitle: string,
    appName: string,
    contextText: string,
    browserUrl: string,
    browserDomain: string,
    tonePrompt: string,
    userDetailsContext: string)

  /** The delimiter strings around each part of the user prompt (their text
      lives in a constants file that is not part of this model). */
  datatype Markers = Markers(
    startWindowTitle: string, endWindowTitle: string,
    startAppName: string, endAppName: string,
    startBrowserUrl: string, endBrowserUrl: string,
    startBrowserDomain: string, endBrowserDomain: string,
    startContext: string, endContext: string,
    startUserCommand: string, endUserCommand: string)

  /** The line break and indentation between the lines of the prompt
      template. */
  const Indent := "\n    "

  /** One context block: the value between its markers, or nothing for an
      empty value. */
  function Block(start: string, value: string, end: string): (r: string)
    ensures r == "" <==> value == ""
    ensures value != "" ==> StartsWith(r, "\n" + start + "\n" + value) && EndsWith(r, "\n" + end)
  {
    if value == "" then ""
    else
      var r := "\n" + start + "\n" + value + "\n" + end;
      assert r[..|"\n" + start + "\n" + value|] == "\n" + start + "\n" + value;
      r
  }

  /** The blocks for window title, app name, URL and domain, in that order. */
  function ContextBlocks(c: ItoContext, m: Markers): string {
    Block(m.startWindowTitle, c.windowTitle, m.endWindowTitle)
    + Block(m.startAppName, c.appName, m.endAppName)
    + Block(m.startBrowserUrl, c.browserUrl, m.endBrowserUrl)
    + Block(m.startBrowserDomain, c.browserDomain, m.endBrowserDomain)
  }

  /** The context blocks vanish exactly when all four fields are empty, and
      the first present field opens them. */
  lemma ContextBlocksShape(c: ItoContext, m: Markers)
    ensures ContextBlocks(c, m) == "" <==>
      c.windowTitle == "" && c.appName == "" && c.browserUrl == "" && c.browserDomain == ""
    ensures c.windowTitle != "" ==> StartsWith(ContextBlocks(c, m), "\n" + m.startWindowTitle + "\n" + c.windowTitle)
    ensures c.windowTitle == "" && c.appName != "" ==> StartsWith(ContextBlocks(c, m), "\n" + m.startAppName + "\n" + c.appName)
  {
    var b1 := Block(m.startWindowTitle, c.windowTitle, m.endWindowTitle);
    var b2 := Block(m.startAppName, c.appName, m.endAppName);
    var b3 := Block(m.startBrowserUrl, c.browserUrl, m.endBrowserUrl);
    var b4 := Block(m.startBrowserDomain, c.browserDomain, m.endBrowserDomain);
    assert |ContextBlocks(c, m)| == |b1| + |b2| + |b3| + |b4|;
    if c.windowTitle != "" {
      StartsWithAppend(b1, b2 + b3 + b4, "\n" + m.startWindowTitle + "\n" + c.windowTitle);
      assert ContextBlocks(c, m) == b1 + (b2 + b3 + b4);
    } else if c.appName != "" {
      StartsWithAppend(b2, b3 + b4, "\n" + m.startAppName + "\n" + c.appName);
      assert ContextBlocks(c, m) == b2 + (b3 + b4);
    }
  }

  /** The closing part of every user prompt: the transcript between the
      user-command markers. */
  function CommandSection(transcript: string, m: Markers): string {
    m.startUserCommand + Indent + transcript + Indent + m.endUserCommand + "\n  "
  }

  /** `createUserPromptWithContext`. */
  function CreateUserPromptWithContext(transcript: string, context: Option<ItoContext>, m: Markers): (r: string)
    ensures EndsWith(r, CommandSection(transcript, m))
    ensures context.Some? ==> StartsWith(r, Indent + ContextBlocks(context.value, m))
    ensures context.None? ==> r == Indent + Indent + m.startContext + Indent + Indent + m.endContext + Indent + CommandSection(transcript, m)
  {
    var blocks := if context.Some? then ContextBlocks(context.value, m) else "";
    var text := if context.Some? then context.value.contextText else "";
    var head := Indent + blocks;
    var r := head + (if text != "" then "\n" else "") + Indent + m.startContext + Indent + text
      + Indent + m.endContext + Indent + CommandSection(transcript, m);
    assert r[..|head|] == head;
    r
  }
}
