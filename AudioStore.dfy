/** The renderer's recording state: whether a recording is running and
    whether the recording shortcut is enabled. Starting and stopping send
    one message each to the main process; the messages sent are kept in
    order. */
module AudioStore {

  datatype Message = StartNativeRecording | StopNativeRecording

  class AudioState {
    var isRecording: bool
    var isShortcutEnabled: bool
    /** The messages sent to the main process so far. */
    var sent: seq<Message>

    /** A recording runs exactly when more starts than stops were sent,
        and the two alternate, starting with a start. */
    ghost predicate Valid()
      reads this
    {
      Alternates(sent) && (isRecording <==> |sent| % 2 == 1)
    }

    constructor()
      ensures Valid() && !isRecording && isShortcutEnabled && sent == []
    {
      isRecording, isShortcutEnabled, sent := false, true, [];
    }

    method SetShortcutEnabled(enabled: bool)
      requires Valid()
      modifies this`isShortcutEnabled
      ensures Valid() && isShortcutEnabled == enabled
    {
      isShortcutEnabled := enabled;
    }

    /** `startRecording`: nothing happens while recording or when the
        shortcut is disabled; otherwise recording starts and one start
        message is sent. */
    method StartRecording()
      requires Valid()
      modifies this
      ensures Valid() && isShortcutEnabled == old(isShortcutEnabled)
      ensures old(isRecording) || !old(isShortcutEnabled) ==> isRecording == old(isRecording) && sent == old(sent)
      ensures !old(isRecording) && old(isShortcutEnabled) ==> isRecording && sent == old(sent) + [StartNativeRecording]
    {
      if isRecording || !isShortcutEnabled {
        return;
      }
      isRecording := true;
      AlternatesPush(sent);
      sent := sent + [StartNativeRecording];
    }

    /** `stopRecording`: nothing happens unless recording; otherwise one
        stop message is sent and recording ends. */
    method StopRecording()
      requires Valid()
      modifies this
      ensures Valid() && isShortcutEnabled == old(isShortcutEnabled)
      ensures !old(isRecording) ==> !isRecording && sent == old(sent)
      ensures old(isRecording) ==> !isRecording && sent == old(sent) + [StopNativeRecording]
    {
      if !isRecording {
        return;
      }
      AlternatesPush(sent);
      sent := sent + [StopNativeRecording];
      isRecording := false;
    }
  }

  /** Starts at even positions, stops at odd ones. */
  predicate Alternates(msgs: seq<Message>) {
    forall i :: 0 <= i < |msgs| ==> (msgs[i] == StartNativeRecording <==> i % 2 == 0)
  }

  /** The next message of an alternating sequence keeps it alternating. */
  lemma AlternatesPush(msgs: seq<Message>)
    requires Alternates(msgs)
    ensures Alternates(msgs + [if |msgs| % 2 == 0 then StartNativeRecording else StopNativeRecording])
  {
  }

  /** Start then stop, from a stopped store with the shortcut enabled,
      sends exactly one start and one stop. */
  method StartThenStop(a: AudioState)
    requires a.Valid() && !a.isRecording && a.isShortcutEnabled
    modifies a
    ensures a.Valid() && !a.isRecording && a.sent == old(a.sent) + [StartNativeRecording, StopNativeRecording]
  {
    a.StartRecording();
    a.StopRecording();
  }
}
