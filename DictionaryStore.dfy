/** The renderer's dictionary store: the list of dictionary entries shown
    to the user, kept in step with the local database through the
    dictionary API of the main process. A database item with a
    pronunciation is a replacement (`from` → `to`); one without is a plain
    vocabulary word. */
module DictionaryStore {
  import opened Common

  /** A dictionary item as the database returns it. */
  datatype Item = Item(id: string, userId: string, word: string, pronunciation: Option<string>,
                       createdAt: string, updatedAt: string)

  datatype Entry =
    | Normal(id: string, content: string, createdAt: string, updatedAt: string)
    | Replacement(id: string, fromText: string, toText: string, createdAt: string, updatedAt: string)

  /** `mapItemToEntry`: a missing or empty pronunciation makes a plain
      entry. */
  function ToEntry(item: Item): (e: Entry)
    ensures e.id == item.id && e.createdAt == item.createdAt && e.updatedAt == item.updatedAt
    ensures e.Normal? <==> item.pronunciation.None? || item.pronunciation.value == ""
    ensures e.Normal? ==> e.content == item.word
    ensures e.Replacement? ==> e.fromText == item.word && e.toText == item.pronunciation.value
  {
    if item.pronunciation.None? || item.pronunciation.value == "" then
      Normal(item.id, item.word, item.createdAt, item.updatedAt)
    else
      Replacement(item.id, item.word, item.pronunciation.value, item.createdAt, item.updatedAt)
  }

  /** The word and pronunciation `updateEntry` saves for an entry. */
  function ToFields(e: Entry): (f: (string, Option<string>))
    ensures e.Normal? ==> f == (e.content, None)
    ensures e.Replacement? ==> f == (e.fromText, Some(e.toText))
  {
    match e
    case Normal(_, content, _, _) => (content, None)
    case Replacement(_, from, to, _, _) => (from, Some(to))
  }

  /** Saving an entry's fields and reading the item back gives the same
      entry: an empty pronunciation is read as none. */
  lemma FieldsRoundTrip(item: Item)
    ensures var f := ToFields(ToEntry(item));
      f.0 == item.word &&
      f.1 == (if item.pronunciation.None? || item.pronunciation.value == "" then None else item.pronunciation)
  {
  }

  lemma EntryRoundTrip(e: Entry, userId: string)
    requires e.Replacement? ==> e.toText != ""
    ensures ToEntry(Item(e.id, userId, ToFields(e).0, ToFields(e).1, e.createdAt, e.updatedAt)) == e
  {
  }

  /** What `dictionary.add` is asked to store. */
  datatype NewItem = NewItem(userId: string, word: string, pronunciation: Option<string>)

  /** The answer of a database call: the stored item, or an error. */
  datatype AddResult = Added(data: Item) | AddFailed(error: string)

  /** Fields an `updateEntry` call overrides; absent ones keep the entry's
      values. A plain entry only takes `content`, a replacement only
      `from` and `to`. */
  datatype Patch = Patch(content: Option<string>, fromText: Option<string>, toText: Option<string>)

  function Patched(e: Entry, p: Patch): (r: Entry)
    ensures r.id == e.id && r.Normal? == e.Normal?
    ensures r.Normal? ==> r.content == p.content.GetOr(e.content)
    ensures r.Replacement? ==> r.fromText == p.fromText.GetOr(e.fromText) && r.toText == p.toText.GetOr(e.toText)
  {
    match e
    case Normal(id, content, c, u) => Normal(id, p.content.GetOr(content), c, u)
    case Replacement(id, from, to, c, u) => Replacement(id, p.fromText.GetOr(from), p.toText.GetOr(to), c, u)
  }

  function FindEntry(entries: seq<Entry>, id: string): (r: Option<Entry>)
    ensures r.None? <==> forall e :: e in entries ==> e.id != id
    ensures r.Some? ==> r.value in entries && r.value.id == id
  {
    if entries == [] then None
    else if entries[0].id == id then Some(entries[0])
    else FindEntry(entries[1..], id)
  }

  function ToEntries(items: seq<Item>): (r: seq<Entry>)
    ensures |r| == |items|
    ensures forall i :: 0 <= i < |items| ==> r[i] == ToEntry(items[i])
  {
    seq(|items|, i requires 0 <= i < |items| => ToEntry(items[i]))
  }

  class DictionaryStore {
    var entries: seq<Entry>

    constructor()
      ensures entries == []
    {
      entries := [];
    }

    /** `loadEntries`: the list is replaced by the mapped items; a failed
        read (`None`) leaves it as it is. */
    method Load(items: Option<seq<Item>>)
      modifies this
      ensures items.Some? ==> entries == ToEntries(items.value)
      ensures items.None? ==> entries == old(entries)
    {
      if items.Some? {
        entries := ToEntries(items.value);
      }
    }

    /** The part `addEntry` and `addReplacement` share: without a signed-in
        user nothing is sent and nothing is raised (`Ok(None)`); otherwise
        `item` is sent, a failure is raised and changes nothing, and the
        stored item is put first. */
    method Add(user: Option<string>, item: NewItem, response: AddResult) returns (sent: Option<NewItem>, r: Result<Option<Entry>, string>)
      modifies this
      ensures user.None? ==> sent.None? && entries == old(entries) && r == Ok(None)
      ensures user.Some? ==> sent == Some(item)
      ensures user.Some? && response.AddFailed? ==> r == Err(response.error) && entries == old(entries)
      ensures user.Some? && response.Added? ==>
        r == Ok(Some(ToEntry(response.data))) && entries == [ToEntry(response.data)] + old(entries)
    {
      if user.None? {
        return None, Ok(None);
      }
      sent := Some(item);
      if response.AddFailed? {
        return sent, Err(response.error);
      }
      var e := ToEntry(response.data);
      entries := [e] + entries;
      r := Ok(Some(e));
    }

    /** `addEntry`: the trimmed word, with no pronunciation. */
    method AddEntry(user: Option<string>, content: string, response: AddResult) returns (sent: Option<NewItem>, r: Result<Option<Entry>, string>)
      modifies this
      ensures user.None? ==> sent.None? && entries == old(entries)
      ensures user.Some? ==> sent == Some(NewItem(user.value, Trim(content), None))
      ensures user.Some? && response.AddFailed? ==> r.Err? && entries == old(entries)
      ensures user.Some? && response.Added? ==> entries == [ToEntry(response.data)] + old(entries)
    {
      var item := NewItem(if user.Some? then user.value else "", Trim(content), None);
      sent, r := Add(user, item, response);
    }

    /** `addReplacement`: both sides trimmed. */
    method AddReplacement(user: Option<string>, from: string, to: string, response: AddResult)
      returns (sent: Option<NewItem>, r: Result<Option<Entry>, string>)
      modifies this
      ensures user.None? ==> sent.None? && entries == old(entries)
      ensures user.Some? ==> sent == Some(NewItem(user.value, Trim(from), Some(Trim(to))))
      ensures user.Some? && response.AddFailed? ==> r.Err? && entries == old(entries)
      ensures user.Some? && response.Added? ==> entries == [ToEntry(response.data)] + old(entries)
    {
      var item := NewItem(if user.Some? then user.value else "", Trim(from), Some(Trim(to)));
      sent, r := Add(user, item, response);
    }

    /** `updateEntry`: an unknown id does nothing; otherwise the patched
        entry's word and pronunciation are saved, a failure is raised, and
        on success the list is reloaded from `reloaded`. */
    method UpdateEntry(id: string, patch: Patch, saved: bool, reloaded: Option<seq<Item>>)
      returns (sent: Option<(string, Option<string>)>, r: Result<(), string>)
      modifies this
      ensures FindEntry(old(entries), id).None? ==> sent.None? && r.Ok? && entries == old(entries)
      ensures FindEntry(old(entries), id).Some? ==>
        sent == Some(ToFields(Patched(FindEntry(old(entries), id).value, patch)))
      ensures sent.Some? && !saved ==> r.Err? && entries == old(entries)
      ensures sent.Some? && saved ==>
        r.Ok? && entries == (if reloaded.Some? then ToEntries(reloaded.value) else old(entries))
    {
      var original := FindEntry(entries, id);
      if original.None? {
        return None, Ok(());
      }
      sent := Some(ToFields(Patched(original.value, patch)));
      if !saved {
        return sent, Err("update failed");
      }
      Load(reloaded);
      r := Ok(());
    }

    /** `deleteEntry`: on success only the entries with that id go; a
        failure is logged and changes nothing. */
    method DeleteEntry(id: string, deleted: bool)
      modifies this
      ensures deleted ==> entries == Filter(old(entries), (e: Entry) => e.id != id)
      ensures !deleted ==> entries == old(entries)
    {
      if deleted {
        entries := Filter(entries, (e: Entry) => e.id != id);
      }
    }
  }

  /** When the database stores a replacement as sent, the new entry is a
      replacement of the trimmed texts, unless the trimmed `to` is empty,
      in which case it comes back as a plain word. */
  lemma AddedReplacementShape(user: string, from: string, to: string, data: Item)
    requires data.word == Trim(from) && data.pronunciation == Some(Trim(to))
    ensures Trim(to) != "" ==> ToEntry(data) == Replacement(data.id, Trim(from), Trim(to), data.createdAt, data.updatedAt)
    ensures Trim(to) == "" ==> ToEntry(data) == Normal(data.id, Trim(from), data.createdAt, data.updatedAt)
  {
  }

  /** A patch on a plain entry always saves it with no pronunciation. */
  lemma PlainStaysPlain(e: Entry, p: Patch)
    requires e.Normal?
    ensures ToFields(Patched(e, p)).1.None?
  {
  }
}
