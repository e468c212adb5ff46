/** The renderer's notes store: the list of the user's notes, kept in step
    with the local database through the notes API of the main process.
    Failures of that API are logged and change nothing. */
module NotesStore {
  import opened Common

  datatype Note = Note(id: string, content: string, userId: string, interactionId: Option<string>,
                       createdAt: string, updatedAt: string)

  /** What `notes.add` is asked to store. */
  datatype NewNote = NewNote(content: string, userId: string)

  /** The notes without those carrying `id`, in their order. */
  function WithoutNote(notes: seq<Note>, id: string): (r: seq<Note>)
    ensures forall n :: n in r <==> n in notes && n.id != id
  {
    Filter(notes, (n: Note) => n.id != id)
  }

  class NotesStore {
    var notes: seq<Note>

    constructor()
      ensures notes == []
    {
      notes := [];
    }

    /** `loadNotes`: the list is replaced wholesale; a failed read
        (`None`) leaves it as it is. */
    method Load(fetched: Option<seq<Note>>)
      modifies this
      ensures fetched.Some? ==> notes == fetched.value
      ensures fetched.None? ==> notes == old(notes)
    {
      if fetched.Some? {
        notes := fetched.value;
      }
    }

    /** `addNote`: without a signed-in user nothing is sent; otherwise the
        trimmed content is sent and the stored note (`None` when the call
        failed) is put first. */
    method AddNote(user: Option<string>, content: string, stored: Option<Note>) returns (sent: Option<NewNote>)
      modifies this
      ensures user.None? ==> sent.None? && notes == old(notes)
      ensures user.Some? ==> sent == Some(NewNote(Trim(content), user.value))
      ensures user.Some? && stored.Some? ==> notes == [stored.value] + old(notes)
      ensures stored.None? ==> notes == old(notes)
    {
      if user.None? {
        return None;
      }
      sent := Some(NewNote(Trim(content), user.value));
      if stored.Some? {
        notes := [stored.value] + notes;
      }
    }

    /** `updateNote`: the content is saved as given, then the list is
        reloaded; a failed save changes nothing. */
    method UpdateNote(id: string, content: string, saved: bool, reloaded: Option<seq<Note>>)
      returns (sent: (string, string))
      modifies this
      ensures sent == (id, content)
      ensures saved && reloaded.Some? ==> notes == reloaded.value
      ensures !saved || reloaded.None? ==> notes == old(notes)
    {
      sent := (id, content);
      if saved {
        Load(reloaded);
      }
    }

    /** `deleteNote`: on success only the notes with that id go. */
    method DeleteNote(id: string, deleted: bool)
      modifies this
      ensures deleted ==> notes == WithoutNote(old(notes), id)
      ensures !deleted ==> notes == old(notes)
    {
      if deleted {
        notes := WithoutNote(notes, id);
      }
    }
  }

  /** Deleting a note that was just added with a fresh id gives back the
      list from before the add. */
  lemma DeleteUndoesAdd(notes: seq<Note>, added: Note)
    requires forall n :: n in notes ==> n.id != added.id
    ensures WithoutNote([added] + notes, added.id) == notes
  {
    var p := (n: Note) => n.id != added.id;
    FilterAppend([added], notes, p);
    FilterNone([added], p);
    FilterAll(notes, p);
  }

  /** Deleting twice is deleting once. */
  lemma DeleteIdempotent(notes: seq<Note>, id: string)
    ensures WithoutNote(WithoutNote(notes, id), id) == WithoutNote(notes, id)
  {
    var r := WithoutNote(notes, id);
    FilterAll(r, (n: Note) => n.id != id);
  }
}
