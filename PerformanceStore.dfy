/** The renderer's performance store: the tier the user picked, the tier
    detected from the hardware, the tier in force and its settings. Each
    change hands its fields to the debounced settings sync; applying the
    settings to the page (CSS variables, classes, the monitor's sampling
    interval) is not modelled. */
module PerformanceStore {
  import opened Common
  import opened PerformanceEngine

  /** The persisted performance entry, and the fields one change sends to
      it; `None` is an absent field. */
  datatype PerfFields = PerfFields(
    userSelectedTier: Option<Choice>, detectedTier: Option<Tier>, activeTier: Option<Tier>,
    config: Option<Config>, hardwareInfo: Option<HardwareInfo>)

  class PerformanceState {
    var userSelectedTier: Choice
    var detectedTier: Tier
    var activeTier: Tier
    var config: Config
    var hardwareInfo: Option<HardwareInfo>

    /** Under `auto` the tier in force is never above the detected one. */
    ghost predicate AutoBounded()
      reads this
    {
      userSelectedTier.Auto? ==> Index(activeTier) <= Index(detectedTier)
    }

    /** The initial state: the stored fields, each defaulting as with no
        stored entry at all (`auto`, `balanced`, `balanced`, the balanced
        settings, no hardware information). */
    constructor(stored: Option<PerfFields>)
      ensures stored.None? ==>
        userSelectedTier == Auto && detectedTier == Balanced && activeTier == Balanced &&
        config == TierConfig(Balanced) && hardwareInfo.None?
      ensures stored.Some? ==>
        userSelectedTier == stored.value.userSelectedTier.GetOr(Auto) &&
        detectedTier == stored.value.detectedTier.GetOr(Balanced) &&
        activeTier == stored.value.activeTier.GetOr(Balanced) &&
        config == stored.value.config.GetOr(TierConfig(Balanced)) &&
        hardwareInfo == stored.value.hardwareInfo
    {
      var s := stored.GetOr(PerfFields(None, None, None, None, None));
      userSelectedTier := s.userSelectedTier.GetOr(Auto);
      detectedTier := s.detectedTier.GetOr(Balanced);
      activeTier := s.activeTier.GetOr(Balanced);
      config := s.config.GetOr(TierConfig(Balanced));
      hardwareInfo := s.hardwareInfo;
    }

    /** `setTier`: the choice is recorded and its tier put in force. */
    method SetTier(choice: Choice) returns (sent: PerfFields)
      modifies this
      ensures userSelectedTier == choice && activeTier == Resolve(choice, detectedTier)
      ensures config == TierConfig(activeTier) && AutoBounded()
      ensures detectedTier == old(detectedTier) && hardwareInfo == old(hardwareInfo)
      ensures sent == PerfFields(Some(choice), None, Some(activeTier), Some(config), None)
    {
      userSelectedTier := choice;
      activeTier := Resolve(choice, detectedTier);
      config := TierConfig(activeTier);
      sent := PerfFields(Some(choice), None, Some(activeTier), Some(config), None);
    }

    /** `_autoAdjustTier`: the auto-tuner puts a tier in force; the user's
        choice and the detected tier are kept. */
    method AutoAdjustTier(t: Tier) returns (sent: PerfFields)
      modifies this
      ensures activeTier == t && config == TierConfig(t)
      ensures userSelectedTier == old(userSelectedTier) && detectedTier == old(detectedTier)
      ensures hardwareInfo == old(hardwareInfo)
      ensures sent == PerfFields(None, None, Some(t), Some(config), None)
    {
      activeTier := t;
      config := TierConfig(t);
      sent := PerfFields(None, None, Some(t), Some(config), None);
    }

    /** `initialize`: the hardware is classified and the user's choice
        applied to the detected tier. */
    method Initialize(hw: HardwareInfo) returns (sent: PerfFields)
      modifies this
      ensures hardwareInfo == Some(hw) && detectedTier == ClassifyTier(hw)
      ensures activeTier == Resolve(userSelectedTier, detectedTier) && config == TierConfig(activeTier)
      ensures userSelectedTier == old(userSelectedTier) && AutoBounded()
      ensures sent == PerfFields(Some(userSelectedTier), Some(detectedTier), Some(activeTier), Some(config), Some(hw))
    {
      hardwareInfo := Some(hw);
      detectedTier := ClassifyTier(hw);
      activeTier := Resolve(userSelectedTier, detectedTier);
      config := TierConfig(activeTier);
      sent := PerfFields(Some(userSelectedTier), Some(detectedTier), Some(activeTier), Some(config), Some(hw));
    }
  }

  /** Picking `auto` after a fixed tier goes back to the detected tier,
      and picking a fixed tier is independent of the hardware. */
  lemma ResolveChoices(t: Tier, detected: Tier, other: Tier)
    ensures Resolve(Auto, detected) == detected
    ensures Resolve(Fixed(t), detected) == Resolve(Fixed(t), other)
  {
  }
}
