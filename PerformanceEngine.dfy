/** The renderer's performance tiers: the settings each tier stands for
    and the rule that picks a tier from the detected hardware. Measuring
    the hardware (device memory, WebGL benchmark, user agent) is not part
    of this model; its result is the input here. */
module PerformanceEngine {

  /** The concrete tiers, lowest first. */
  datatype Tier = Low | Balanced | High | Ultra

  /** A tier the user may pick: one of the tiers, or `auto`. */
  datatype Choice = Auto | Fixed(tier: Tier)

  /** The position of a tier in `low, balanced, high, ultra`. */
  function Index(t: Tier): (i: nat)
    ensures i <= 3
    ensures t == Low <==> i == 0
    ensures t == Ultra <==> i == 3
  {
    match t
    case Low => 0
    case Balanced => 1
    case High => 2
    case Ultra => 3
  }

  /** The tier at a position of that order. */
  function TierAt(i: nat): (t: Tier)
    requires i <= 3
    ensures Index(t) == i
  {
    if i == 0 then Low else if i == 1 then Balanced else if i == 2 then High else Ultra
  }

  lemma IndexInjective(a: Tier, b: Tier)
    ensures Index(a) == Index(b) <==> a == b
  {
  }

  /** The settings of a tier. */
  datatype Config = Config(
    fpsCap: int, animationDurationMultiplier: int, enableBlur: bool, enableShadows: bool,
    enableParticles: bool, enableBackdropBlur: bool, enableSpringAnimations: bool,
    imageQuality: string, audioSampleRate: int, lazyAggressiveness: string, workerThreads: int)

  /** `TIER_CONFIGS`. */
  function TierConfig(t: Tier): Config {
    match t
    case Low => Config(30, 0, false, false, false, false, false, "low", 16000, "aggressive", 1)
    case Balanced => Config(60, 1, true, true, false, true, true, "medium", 44100, "moderate", 2)
    case High => Config(60, 1, true, true, true, true, true, "high", 48000, "minimal", 4)
    case Ultra => Config(120, 1, true, true, true, true, true, "ultra", 48000, "minimal", 8)
  }

  /** A higher tier never asks for less: frame cap, sample rate and worker
      threads grow with the tier, and every effect a tier enables stays
      enabled above it. */
  lemma ConfigMonotone(a: Tier, b: Tier)
    requires Index(a) <= Index(b)
    ensures TierConfig(a).fpsCap <= TierConfig(b).fpsCap
    ensures TierConfig(a).audioSampleRate <= TierConfig(b).audioSampleRate
    ensures TierConfig(a).workerThreads <= TierConfig(b).workerThreads
    ensures TierConfig(a).enableParticles ==> TierConfig(b).enableParticles
    ensures TierConfig(a).enableBlur ==> TierConfig(b).enableBlur
  {
  }

  /** What hardware detection reports. */
  datatype HardwareInfo = HardwareInfo(ramGB: real, cpuCores: int, gpuScore: int, platform: string, cpuModel: string)

  /** `classifyTier`. */
  function ClassifyTier(hw: HardwareInfo): (t: Tier)
    ensures hw.ramGB <= 6.0 || hw.cpuCores <= 2 || hw.gpuScore < 30 ==> t == Low
    ensures t == Ultra <==> hw.ramGB > 16.0 && hw.cpuCores > 2 && hw.gpuScore >= 70
    ensures t == Balanced <==> 6.0 < hw.ramGB <= 8.0 && hw.cpuCores > 2 && 30 <= hw.gpuScore < 60
  {
    if hw.ramGB <= 4.0 || hw.cpuCores <= 2 then Low
    else if hw.ramGB <= 6.0 || hw.gpuScore < 30 then Low
    else if hw.ramGB <= 8.0 && hw.gpuScore < 60 then Balanced
    else if hw.ramGB <= 16.0 then High
    else if hw.ramGB > 16.0 && hw.gpuScore >= 70 then Ultra
    else High
  }

  /** More memory never lowers the tier. */
  lemma ClassifyMonotoneInRam(hw: HardwareInfo, ram: real)
    requires hw.ramGB <= ram
    ensures Index(ClassifyTier(hw)) <= Index(ClassifyTier(hw.(ramGB := ram)))
  {
  }

  /** A better GPU score never lowers the tier. */
  lemma ClassifyMonotoneInGpu(hw: HardwareInfo, gpu: int)
    requires hw.gpuScore <= gpu
    ensures Index(ClassifyTier(hw)) <= Index(ClassifyTier(hw.(gpuScore := gpu)))
  {
  }

  /** More cores never lower the tier. */
  lemma ClassifyMonotoneInCores(hw: HardwareInfo, cores: int)
    requires hw.cpuCores <= cores
    ensures Index(ClassifyTier(hw)) <= Index(ClassifyTier(hw.(cpuCores := cores)))
  {
  }

  /** The tier in force for a choice: the detected one under `auto`. */
  function Resolve(choice: Choice, detected: Tier): (t: Tier)
    ensures choice.Fixed? ==> t == choice.tier
    ensures choice.Auto? ==> t == detected
  {
    if choice.Auto? then detected else choice.tier
  }
}
