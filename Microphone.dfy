/** The renderer's microphone helpers: the device list the main process
    reports, how a device is shown in the picker, and the start-up check
    that falls back to automatic selection when the chosen microphone is
    gone. */
module Microphone {
  import opened Common
  import Settings

  datatype Mic = Mic(deviceId: string, deviceLabel: string)

  /** What the picker shows for a device. */
  datatype Rendered = Rendered(title: string, description: Option<string>)

  const DefaultDeviceId := "default"
  const AutoDetectTitle := "Auto-detect"
  const BluetoothWarning := "May connect to Bluetooth earbuds, slowing transcription speed"
  const BuiltInTitle := "Built-in mic (recommended)"

  /** `getAvailableMicrophones`: each reported name is both id and label;
      a failed call or a missing bridge (`None`) gives no devices. */
  function Available(names: Option<seq<string>>): (r: seq<Mic>)
    ensures names.None? ==> r == []
    ensures names.Some? ==>
      |r| == |names.value| && forall i :: 0 <= i < |r| ==> r[i] == Mic(names.value[i], names.value[i])
  {
    if names.None? then [] else seq(|names.value|, i requires 0 <= i < |names.value| => Mic(names.value[i], names.value[i]))
  }

  /** `microphoneToRender`: the system default device first, then the
      built-in microphone, matched on the lower-cased label; any other
      device shows its own label. */
  function ToRender(m: Mic): (r: Rendered)
    ensures Contains(ToLower(m.deviceLabel), "default -") ==> r == Rendered(AutoDetectTitle, Some(BluetoothWarning))
    ensures !Contains(ToLower(m.deviceLabel), "default -") &&
            (Contains(ToLower(m.deviceLabel), "built-in") || Contains(ToLower(m.deviceLabel), "macbook pro microphone")) ==>
      r == Rendered(BuiltInTitle, None)
    ensures !Contains(ToLower(m.deviceLabel), "default -") && !Contains(ToLower(m.deviceLabel), "built-in") &&
            !Contains(ToLower(m.deviceLabel), "macbook pro microphone") ==>
      r == Rendered(m.deviceLabel, None)
  {
    var lower := ToLower(m.deviceLabel);
    if Contains(lower, "default -") then Rendered(AutoDetectTitle, Some(BluetoothWarning))
    else if Contains(lower, "built-in") || Contains(lower, "macbook pro microphone") then Rendered(BuiltInTitle, None)
    else Rendered(m.deviceLabel, None)
  }

  /** The default-device check wins over the built-in one: any system
      default, the built-in microphone included, shows as automatic. */
  lemma DefaultWinsOverBuiltIn(m: Mic, rest: string)
    requires m.deviceLabel == "Default - " + rest
    ensures ToRender(m).title == AutoDetectTitle
  {
    var lower := ToLower(m.deviceLabel);
    assert m.deviceLabel[0] == 'D' && ToLowerChar('D') == 'd';
    assert forall i :: 1 <= i < 9 ==> lower[i] == m.deviceLabel[i];
    assert lower[0..9] == "default -";
    ContainsAt(lower, "default -", 0);
  }

  /** Matching ignores case: two labels that differ only in case render
      alike, or each as itself. */
  lemma RenderIgnoresCase(m: Mic, other: string)
    requires ToLower(other) == ToLower(m.deviceLabel)
    ensures ToRender(Mic(m.deviceId, other)) == ToRender(m) ||
            (ToRender(m) == Rendered(m.deviceLabel, None) && ToRender(Mic(m.deviceId, other)) == Rendered(other, None))
  {
  }

  /** `verifyStoredMicrophone`: the automatic choice is never checked; a
      chosen device that the reported list (`None` when the call failed)
      does not contain is replaced by the automatic choice. */
  method VerifyStoredMicrophone(settings: Settings.SettingsStore, reported: Option<seq<string>>)
    modifies settings`microphoneDeviceId, settings`microphoneName, settings`persisted
    ensures old(settings.microphoneDeviceId) == DefaultDeviceId ==> unchanged(settings)
    ensures reported.None? ==> unchanged(settings)
    ensures reported.Some? && old(settings.microphoneDeviceId) in reported.value ==> unchanged(settings)
    ensures old(settings.microphoneDeviceId) != DefaultDeviceId && reported.Some? &&
            old(settings.microphoneDeviceId) !in reported.value ==>
      && settings.microphoneDeviceId == DefaultDeviceId && settings.microphoneName == AutoDetectTitle
      && settings.persisted == Overlay(old(settings.persisted),
                                       map["microphoneDeviceId" := Settings.Text(DefaultDeviceId),
                                           "microphoneName" := Settings.Text(AutoDetectTitle)])
  {
    if settings.microphoneDeviceId == DefaultDeviceId {
      return;
    }
    if reported.None? {
      return;
    }
    if settings.microphoneDeviceId !in reported.value {
      settings.SetMicrophone(DefaultDeviceId, AutoDetectTitle);
    }
  }
}
