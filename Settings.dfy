/** The renderer's settings store: preference flags, the chosen
    microphone and the list of keyboard shortcuts, each change mirrored
    into the persisted settings record. Chord normalisation and the
    reserved-combination and duplicate checks live in a keyboard helper
    module that is not part of this model; they are parameters here. */
module Settings {
  import opened Common
  import opened Protocol

  /** A keyboard shortcut: its keys, the mode it triggers, its id. */
  datatype Shortcut = Shortcut(keys: seq<string>, mode: ItoMode, id: string)

  /** A value in the persisted settings record. */
  datatype Setting = Flag(b: bool) | Text(s: string) | Shortcuts(list: seq<Shortcut>)

  type Record = map<string, Setting>

  const ShortcutsKey := "keyboardShortcuts"

  /** `stored?.key ?? default` for the record's three kinds of value. */
  function FlagOr(stored: Record, key: string, d: bool): (b: bool)
    ensures key in stored && stored[key].Flag? ==> b == stored[key].b
    ensures !(key in stored && stored[key].Flag?) ==> b == d
  {
    if key in stored && stored[key].Flag? then stored[key].b else d
  }

  function TextOr(stored: Record, key: string, d: string): (s: string)
    ensures key in stored && stored[key].Text? ==> s == stored[key].s
    ensures !(key in stored && stored[key].Text?) ==> s == d
  {
    if key in stored && stored[key].Text? then stored[key].s else d
  }

  /** The shortcuts of one mode, in list order. */
  function ModeShortcuts(list: seq<Shortcut>, mode: ItoMode): (r: seq<Shortcut>)
    ensures forall i :: 0 <= i < |r| ==> r[i].mode == mode && r[i] in list
    ensures forall s :: s in list && s.mode == mode ==> s in r
  {
    Filter(list, (s: Shortcut) => s.mode == mode)
  }

  /** The list without the shortcuts carrying `id`. */
  function WithoutId(list: seq<Shortcut>, id: string): (r: seq<Shortcut>)
    ensures forall s :: s in r <==> s in list && s.id != id
    ensures |r| <= |list|
  {
    Filter(list, (s: Shortcut) => s.id != id)
  }

  /** The list with the keys of every shortcut carrying `id` replaced. */
  function WithKeys(list: seq<Shortcut>, id: string, keys: seq<string>): (r: seq<Shortcut>)
    ensures |r| == |list|
    ensures forall i :: 0 <= i < |list| ==> r[i].id == list[i].id && r[i].mode == list[i].mode
    ensures forall i :: 0 <= i < |list| ==> r[i].keys == (if list[i].id == id then keys else list[i].keys)
  {
    seq(|list|, i requires 0 <= i < |list| => if list[i].id == id then list[i].(keys := keys) else list[i])
  }

  /** The first shortcut carrying `id`. */
  function FindById(list: seq<Shortcut>, id: string): (r: Option<Shortcut>)
    ensures r.None? <==> forall s :: s in list ==> s.id != id
    ensures r.Some? ==> r.value in list && r.value.id == id
  {
    if list == [] then None
    else if list[0].id == id then Some(list[0])
    else FindById(list[1..], id)
  }

  /** What an update of a shortcut's keys reports. */
  datatype ShortcutResult = Success | NotFound | ReservedCombination(reason: string) | Duplicate(error: string)

  class SettingsStore {
    var shareAnalytics: bool
    var launchAtLogin: bool
    var showItoBarAlways: bool
    var showAppInDock: bool
    var interactionSounds: bool
    var muteAudioWhenDictating: bool
    var microphoneDeviceId: string
    var microphoneName: string
    var shortcuts: seq<Shortcut>
    var firstName: string
    var lastName: string
    var email: string
    /** The persisted settings record. */
    var persisted: Record

    /** The initial state, read from the persisted record with its
        defaults; without stored shortcuts there is one per mode with the
        default keys (`editId`, `transcribeId` stand for fresh UUIDs). */
    constructor(stored: Record, editKeys: seq<string>, transcribeKeys: seq<string>, editId: string, transcribeId: string)
      ensures shareAnalytics == FlagOr(stored, "shareAnalytics", true)
      ensures launchAtLogin == FlagOr(stored, "launchAtLogin", true)
      ensures showItoBarAlways == FlagOr(stored, "showItoBarAlways", true)
      ensures showAppInDock == FlagOr(stored, "showAppInDock", true)
      ensures interactionSounds == FlagOr(stored, "interactionSounds", false)
      ensures muteAudioWhenDictating == FlagOr(stored, "muteAudioWhenDictating", false)
      ensures microphoneDeviceId == TextOr(stored, "microphoneDeviceId", "default")
      ensures microphoneName == TextOr(stored, "microphoneName", "Default Microphone")
      ensures ShortcutsKey in stored && stored[ShortcutsKey].Shortcuts? ==> shortcuts == stored[ShortcutsKey].list
      ensures !(ShortcutsKey in stored && stored[ShortcutsKey].Shortcuts?) ==>
        shortcuts == [Shortcut(editKeys, Edit, editId), Shortcut(transcribeKeys, Transcribe, transcribeId)]
      ensures firstName == TextOr(stored, "firstName", "")
      ensures lastName == TextOr(stored, "lastName", "")
      ensures email == TextOr(stored, "email", "")
      ensures persisted == stored
    {
      shareAnalytics := FlagOr(stored, "shareAnalytics", true);
      launchAtLogin := FlagOr(stored, "launchAtLogin", true);
      showItoBarAlways := FlagOr(stored, "showItoBarAlways", true);
      showAppInDock := FlagOr(stored, "showAppInDock", true);
      interactionSounds := FlagOr(stored, "interactionSounds", false);
      muteAudioWhenDictating := FlagOr(stored, "muteAudioWhenDictating", false);
      microphoneDeviceId := TextOr(stored, "microphoneDeviceId", "default");
      microphoneName := TextOr(stored, "microphoneName", "Default Microphone");
      shortcuts := if ShortcutsKey in stored && stored[ShortcutsKey].Shortcuts? then stored[ShortcutsKey].list
                   else [Shortcut(editKeys, Edit, editId), Shortcut(transcribeKeys, Transcribe, transcribeId)];
      firstName := TextOr(stored, "firstName", "");
      lastName := TextOr(stored, "lastName", "");
      email := TextOr(stored, "email", "");
      persisted := stored;
    }

    /** `syncToStore(partial)`: the partial state is laid over the
        persisted record. */
    method Sync(partial: Record)
      modifies this`persisted
      ensures persisted == Overlay(old(persisted), partial)
    {
      persisted := Overlay(persisted, partial);
    }

    /** `setMicrophoneDeviceId`: both fields change together. */
    method SetMicrophone(deviceId: string, name: string)
      modifies this`microphoneDeviceId, this`microphoneName, this`persisted
      ensures microphoneDeviceId == deviceId && microphoneName == name
      ensures shortcuts == old(shortcuts) && launchAtLogin == old(launchAtLogin)
      ensures persisted == Overlay(old(persisted), map["microphoneDeviceId" := Text(deviceId), "microphoneName" := Text(name)])
    {
      microphoneDeviceId, microphoneName := deviceId, name;
      Sync(map["microphoneDeviceId" := Text(deviceId), "microphoneName" := Text(name)]);
    }

    /** `setLaunchAtLogin` (the other flag setters have the same shape). */
    method SetLaunchAtLogin(launch: bool)
      modifies this`launchAtLogin, this`persisted
      ensures launchAtLogin == launch && shortcuts == old(shortcuts)
      ensures persisted == Overlay(old(persisted), map["launchAtLogin" := Flag(launch)])
    {
      launchAtLogin := launch;
      Sync(map["launchAtLogin" := Flag(launch)]);
    }

    /** `createKeyboardShortcut`: one shortcut with no keys is appended
        (`newId` stands for a fresh UUID). It always succeeds. */
    method CreateShortcut(mode: ItoMode, newId: string) returns (r: ShortcutResult)
      modifies this`shortcuts, this`persisted
      ensures r == Success
      ensures shortcuts == old(shortcuts) + [Shortcut([], mode, newId)]
      ensures persisted == Overlay(old(persisted), map[ShortcutsKey := Shortcuts(shortcuts)])
    {
      shortcuts := shortcuts + [Shortcut([], mode, newId)];
      Sync(map[ShortcutsKey := Shortcuts(shortcuts)]);
      r := Success;
    }

    /** `removeKeyboardShortcut`. */
    method RemoveShortcut(id: string)
      modifies this`shortcuts, this`persisted
      ensures shortcuts == WithoutId(old(shortcuts), id)
      ensures persisted == Overlay(old(persisted), map[ShortcutsKey := Shortcuts(shortcuts)])
    {
      shortcuts := WithoutId(shortcuts, id);
      Sync(map[ShortcutsKey := Shortcuts(shortcuts)]);
    }

    /** `updateKeyboardShortcut`: an unknown id, a reserved combination or
        a duplicate is reported and changes nothing; otherwise the
        shortcut's keys become the normalised chord. */
    method UpdateShortcut(id: string, keys: seq<string>, normalize: seq<string> -> seq<string>,
                          reserved: seq<string> -> Option<string>,
                          duplicate: (seq<Shortcut>, Shortcut, ItoMode) -> Option<string>)
      returns (r: ShortcutResult)
      modifies this`shortcuts, this`persisted
      ensures FindById(old(shortcuts), id).None? ==> r == NotFound
      ensures r != Success ==> shortcuts == old(shortcuts) && persisted == old(persisted)
      ensures r == Success <==>
        && FindById(old(shortcuts), id).Some?
        && reserved(normalize(keys)).None?
        && duplicate(old(shortcuts), FindById(old(shortcuts), id).value.(keys := normalize(keys)),
                     FindById(old(shortcuts), id).value.mode).None?
      ensures r == Success ==>
        shortcuts == WithKeys(old(shortcuts), id, normalize(keys)) &&
        persisted == Overlay(old(persisted), map[ShortcutsKey := Shortcuts(shortcuts)])
    {
      var found := FindById(shortcuts, id);
      if found.None? {
        return NotFound;
      }
      var normalized := normalize(keys);
      var reason := reserved(normalized);
      if reason.Some? {
        return ReservedCombination(reason.value);
      }
      var dup := duplicate(shortcuts, found.value.(keys := normalized), found.value.mode);
      if dup.Some? {
        return Duplicate(dup.value);
      }
      shortcuts := WithKeys(shortcuts, id, normalized);
      Sync(map[ShortcutsKey := Shortcuts(shortcuts)]);
      r := Success;
    }
  }

  /** Creating a shortcut with an unused id and removing it again gives
      back the original list. */
  lemma RemoveUndoesCreate(list: seq<Shortcut>, mode: ItoMode, newId: string)
    requires forall s :: s in list ==> s.id != newId
    ensures WithoutId(list + [Shortcut([], mode, newId)], newId) == list
  {
    var p := (s: Shortcut) => s.id != newId;
    FilterAppend(list, [Shortcut([], mode, newId)], p);
    FilterAll(list, p);
    FilterNone([Shortcut([], mode, newId)], p);
  }

  /** A created shortcut is listed last among its mode's shortcuts. */
  lemma CreatedListedLast(list: seq<Shortcut>, mode: ItoMode, newId: string)
    ensures ModeShortcuts(list + [Shortcut([], mode, newId)], mode) == ModeShortcuts(list, mode) + [Shortcut([], mode, newId)]
  {
    var p := (s: Shortcut) => s.mode == mode;
    FilterAppend(list, [Shortcut([], mode, newId)], p);
    assert Filter([Shortcut([], mode, newId)], p) == [Shortcut([], mode, newId)] + Filter([], p);
  }

  /** Updating keys never moves a shortcut between modes: every mode keeps
      as many shortcuts as before. */
  lemma {:induction false} UpdateKeepsModeCounts(list: seq<Shortcut>, id: string, keys: seq<string>, mode: ItoMode)
    ensures |ModeShortcuts(WithKeys(list, id, keys), mode)| == |ModeShortcuts(list, mode)|
    decreases |list|
  {
    if list != [] {
      UpdateKeepsModeCounts(list[1..], id, keys, mode);
      assert WithKeys(list, id, keys)[1..] == WithKeys(list[1..], id, keys);
    }
  }
}
