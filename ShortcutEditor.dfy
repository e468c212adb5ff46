/** The editor for the shortcuts of one mode: which rows it shows, the
    limits on adding and removing rows, and the draft chord that key
    presses build while a row is edited. The component's state is a value
    here and each handler a function from the old state to the new. */
module ShortcutEditor {
  import opened Common
  import opened Protocol
  import Settings

  const MaxKeysPerShortcut := 5
  const DefaultMaxShortcutsPerMode := 5
  const FnFast := "fn_fast"

  /** The rows shown: every shortcut without a mode filter, else those of
      the mode, in list order. */
  function Rows(shortcuts: seq<Settings.Shortcut>, mode: Option<ItoMode>): (r: seq<Settings.Shortcut>)
    ensures mode.None? ==> r == shortcuts
    ensures mode.Some? ==> r == Settings.ModeShortcuts(shortcuts, mode.value)
  {
    if mode.None? then shortcuts else Settings.ModeShortcuts(shortcuts, mode.value)
  }

  /** No more rows may be added once the mode has its maximum. */
  predicate IsAtLimit(rows: seq<Settings.Shortcut>, maxPerMode: int) {
    |rows| >= maxPerMode
  }

  /** The last row of a mode may not be removed. */
  predicate IsMinimum(rows: seq<Settings.Shortcut>) {
    |rows| <= 1
  }

  /** The editor's state: the row being edited (if any), the draft keys,
      the error shown and the temporary "too many keys" notice. */
  datatype EditorState = EditorState(editingId: Option<string>, draftKeys: seq<string>, error: string, temporaryError: string)

  const Idle := EditorState(None, [], "", "")

  /** A draft is well formed: at most five keys, none twice. */
  predicate WellFormed(draft: seq<string>) {
    |draft| <= MaxKeysPerShortcut && Distinct(draft)
  }

  /** The key name of a raw key: the name table's entry, else the key
      lower-cased. */
  function KeyName(names: map<string, string>, raw: string): (k: string)
    ensures raw in names && names[raw] != "" ==> k == names[raw]
    ensures !(raw in names && names[raw] != "") ==> k == ToLower(raw)
  {
    if raw in names && names[raw] != "" then names[raw] else ToLower(raw)
  }

  /** The draft after one key press: a key already there is taken out
      (toggle); a full draft stays as it is; any other key is appended. */
  function Toggle(draft: seq<string>, key: string): (r: seq<string>)
    ensures key in draft ==> key !in r && forall k :: k in r <==> k in draft && k != key
    ensures key !in draft && |draft| >= MaxKeysPerShortcut ==> r == draft
    ensures key !in draft && |draft| < MaxKeysPerShortcut ==> r == draft + [key]
  {
    if key in draft then Filter(draft, (k: string) => k != key)
    else if |draft| >= MaxKeysPerShortcut then draft
    else draft + [key]
  }

  /** `handleKeyEvent`: only key-down events while a row is edited count,
      and the `fn_fast` key never does. Adding a key clears both errors;
      a full draft shows the temporary notice. */
  function HandleKey(s: EditorState, eventType: string, key: string): (r: EditorState)
    ensures s.editingId.None? || eventType != "keydown" || key == FnFast ==> r == s
    ensures r.editingId == s.editingId
    ensures s.editingId.Some? && eventType == "keydown" && key != FnFast ==> r.draftKeys == Toggle(s.draftKeys, key)
  {
    if s.editingId.None? || eventType != "keydown" || key == FnFast then s
    else if key in s.draftKeys then s.(draftKeys := Toggle(s.draftKeys, key))
    else if |s.draftKeys| >= MaxKeysPerShortcut then s.(temporaryError := "Maximum 5 keys allowed")
    else s.(draftKeys := s.draftKeys + [key], error := "", temporaryError := "")
  }

  /** A filter of a duplicate-free list is duplicate-free. */
  lemma {:induction false} FilterKeepsDistinct(xs: seq<string>, key: string)
    requires Distinct(xs)
    ensures Distinct(Filter(xs, (k: string) => k != key))
    decreases |xs|
  {
    var p := (k: string) => k != key;
    if xs != [] {
      DistinctTail(xs);
      FilterKeepsDistinct(xs[1..], key);
      var rest := Filter(xs[1..], p);
      assert xs[0] !in rest;
      if p(xs[0]) {
        DistinctCons(xs[0], rest);
        assert Filter(xs, p) == [xs[0]] + rest;
      } else {
        assert Filter(xs, p) == rest;
      }
    }
  }

  /** Key presses never make a draft longer than five keys or repeat a
      key. */
  lemma HandleKeyKeepsWellFormed(s: EditorState, eventType: string, key: string)
    requires WellFormed(s.draftKeys)
    ensures WellFormed(HandleKey(s, eventType, key).draftKeys)
  {
    if s.editingId.Some? && eventType == "keydown" && key != FnFast {
      if key in s.draftKeys {
        FilterKeepsDistinct(s.draftKeys, key);
      } else if |s.draftKeys| < MaxKeysPerShortcut {
        DistinctAppend(s.draftKeys, key);
      }
    }
  }

  /** Pressing a new key twice gives back the draft. */
  lemma ToggleTwice(draft: seq<string>, key: string)
    requires WellFormed(draft) && key !in draft && |draft| < MaxKeysPerShortcut
    ensures Toggle(Toggle(draft, key), key) == draft
  {
    var p := (k: string) => k != key;
    FilterAppend(draft, [key], p);
    FilterAll(draft, p);
    FilterNone([key], p);
  }

  /** `beginEditExisting`: with the editing lock, the row is edited from
      an empty draft; without it, only the error is shown. */
  function BeginEdit(s: EditorState, rowId: string, lockAcquired: bool): (r: EditorState)
    ensures lockAcquired ==> r == EditorState(Some(rowId), [], "", "")
    ensures !lockAcquired ==> r == s.(error := "Finish editing the other shortcut set first.")
  {
    if lockAcquired then EditorState(Some(rowId), [], "", "")
    else s.(error := "Finish editing the other shortcut set first.")
  }

  /** `getErrorMessage` for a failed update. */
  function ErrorMessage(result: Settings.ShortcutResult): string {
    match result
    case Success => "An unknown error occurred."
    case NotFound => "The specified shortcut was not found."
    case ReservedCombination(reason) =>
      if reason != "" then reason else "This key combination is reserved and cannot be used."
    case Duplicate(code) =>
      if code == "duplicate-key-same-mode" then "This key combination is already in use for this mode."
      else if code == "duplicate-key-diff-mode" then "This key combination is already in use for a different mode."
      else "An unknown error occurred."
  }

  /** `saveEdit`: an empty draft does nothing and sends nothing; otherwise
      the draft is sent, a failure shows its message and keeps editing,
      and success ends the edit. */
  function SaveEdit(s: EditorState, result: Settings.ShortcutResult): (r: (EditorState, Option<seq<string>>))
    ensures s.draftKeys == [] ==> r == (s, None)
    ensures s.draftKeys != [] ==> r.1 == Some(s.draftKeys)
    ensures s.draftKeys != [] && result.Success? ==> r.0 == Idle
    ensures s.draftKeys != [] && !result.Success? ==>
      r.0 == s.(error := ErrorMessage(result)) && r.0.editingId == s.editingId
  {
    if s.draftKeys == [] then (s, None)
    else if !result.Success? then (s.(error := ErrorMessage(result)), Some(s.draftKeys))
    else (Idle, Some(s.draftKeys))
  }
}
