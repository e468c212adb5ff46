/** The pure parts of the notes page: how a note is shortened in a card,
    which notes the search box shows, when the add and save buttons act,
    and the view and menu toggles. */
module NotesContent {
  import opened Common
  import NotesStore

  const DefaultPreview := 100

  /** `truncateContent`: a note longer than `maxLength` shows its first
      `maxLength` characters and an ellipsis. */
  function Truncate(content: string, maxLength: nat): (r: string)
    ensures |content| <= maxLength ==> r == content
    ensures |content| > maxLength ==> r == content[..maxLength] + "..." && |r| == maxLength + 3
    ensures |r| <= maxLength + 3
  {
    if |content| <= maxLength then content else content[..maxLength] + "..."
  }

  /** The notes the search shows: all of them for a blank query, else those
      whose lower-cased content contains the lower-cased query (the query
      is not trimmed), in list order. */
  function Matching(notes: seq<NotesStore.Note>, query: string): (r: seq<NotesStore.Note>)
    ensures IsBlank(query) ==> r == notes
    ensures !IsBlank(query) ==> forall n :: n in r <==> n in notes && Contains(ToLower(n.content), ToLower(query))
  {
    if Trim(query) == "" then
      TrimEmptyIffBlank(query);
      notes
    else
      TrimEmptyIffBlank(query);
      Filter(notes, (n: NotesStore.Note) => Contains(ToLower(n.content), ToLower(query)))
  }

  /** A query is matched regardless of letter case. */
  lemma MatchingIgnoresCase(notes: seq<NotesStore.Note>, query: string)
    ensures Matching(notes, ToLower(query)) == Matching(notes, query)
  {
    ToLowerIdempotent(query);
    TrimEmptyIffBlank(query);
    TrimEmptyIffBlank(ToLower(query));
    BlankLower(query);
  }

  /** Lower-casing keeps a text blank or not blank. */
  lemma BlankLower(s: string)
    ensures IsBlank(ToLower(s)) <==> IsBlank(s)
  {
    forall i | 0 <= i < |s| ensures IsSpace(ToLower(s)[i]) <==> IsSpace(s[i]) {
    }
  }

  /** `handleAddNote` and `handleSaveEdit`: the text submitted, if any;
      blank text submits nothing. */
  function Submission(text: string): (r: Option<string>)
    ensures r.None? <==> IsBlank(text)
    ensures r.Some? ==> r.value == Trim(text) && r.value != "" && IsTrimmed(r.value)
  {
    TrimEmptyIffBlank(text);
    if Trim(text) == "" then None else Some(Trim(text))
  }

  /** `handleSaveEdit` also needs a note being edited. */
  function EditSubmission(editing: Option<string>, text: string): (r: Option<(string, string)>)
    ensures r.Some? <==> editing.Some? && !IsBlank(text)
    ensures r.Some? ==> r.value == (editing.value, Trim(text))
  {
    if editing.Some? && Submission(text).Some? then Some((editing.value, Submission(text).value)) else None
  }

  datatype ViewMode = Grid | List

  function ToggleView(v: ViewMode): (r: ViewMode)
    ensures r != v
  {
    if v == Grid then List else Grid
  }

  /** `toggleDropdown(i)`: closes the menu of card `i` if it is open, else
      opens it (closing any other). */
  function ToggleDropdown(open: Option<int>, i: int): (r: Option<int>)
    ensures open == Some(i) ==> r.None?
    ensures open != Some(i) ==> r == Some(i)
  {
    if open == Some(i) then None else Some(i)
  }
}
