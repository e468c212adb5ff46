/** The FPS auto-tuner: while the user's choice is `auto` it keeps the last
    five frame-rate samples and moves the tier in force one step down when
    the page is slow or memory is high, or one step up (never above the
    detected tier) when it is fast, at most once every 15 seconds. The
    monitor subscription and the page visibility listener are modelled as
    explicit calls. */
module Autotune {
  import opened Common
  import opened PerformanceEngine
  import PerformanceStore

  const FpsLowThreshold := 20
  const FpsRecoveryThreshold := 50
  const SampleWindow := 5
  const MemoryHighThresholdMb := 600
  const CooldownMs := 15000

  /** The history after a sample: the sample is pushed and, past five, the
      oldest one shifted out. */
  function Window(history: seq<nat>, fps: nat): (w: seq<nat>)
    ensures |history| <= SampleWindow ==> |w| <= SampleWindow
    ensures w != [] && w[|w| - 1] == fps
    ensures |history| < SampleWindow ==> w == history + [fps]
    ensures |history| >= SampleWindow ==> w == history[1..] + [fps]
  {
    if |history| + 1 > SampleWindow then (history + [fps])[1..] else history + [fps]
  }

  /** The average of a full window. */
  function Average(w: seq<nat>): real
    requires w != []
  {
    (Sum(w) as real) / (|w| as real)
  }

  /** The step one full window calls for: down when slow or memory-heavy
      and not already lowest, else up when fast and below the detected
      tier, else none. */
  function Decide(w: seq<nat>, memoryMb: Option<int>, active: Tier, detected: Tier): (r: Option<Tier>)
    requires w != []
    ensures r.Some? ==> Index(r.value) == Index(active) - 1 || Index(r.value) == Index(active) + 1
    ensures r.Some? && Index(r.value) < Index(active) <==>
      (Average(w) < FpsLowThreshold as real || (memoryMb.Some? && memoryMb.value > MemoryHighThresholdMb)) && active != Low
    ensures r.Some? && Index(r.value) > Index(active) ==> Index(r.value) <= Index(detected)
  {
    var slow := Average(w) < FpsLowThreshold as real || (memoryMb.Some? && memoryMb.value > MemoryHighThresholdMb);
    if slow && Index(active) > 0 then Some(TierAt(Index(active) - 1))
    else if Average(w) > FpsRecoveryThreshold as real && Index(active) < Index(detected) then Some(TierAt(Index(active) + 1))
    else None
  }

  /** A tier in force at or below the detected tier stays there after a
      step. */
  lemma DecideKeepsBound(w: seq<nat>, memoryMb: Option<int>, active: Tier, detected: Tier)
    requires w != [] && Index(active) <= Index(detected)
    ensures var r := Decide(w, memoryMb, active, detected);
      r.Some? ==> Index(r.value) <= Index(detected)
  {
  }

  /** A fast window below the detected tier steps up. */
  lemma FastStepsUp(w: seq<nat>, active: Tier, detected: Tier)
    requires w != [] && Average(w) > FpsRecoveryThreshold as real && Index(active) < Index(detected)
    ensures Decide(w, None, active, detected) == Some(TierAt(Index(active) + 1))
  {
  }

  class Autotuner {
    var fpsHistory: seq<nat>
    var lastChangeTime: int

    ghost predicate Valid()
      reads this
    {
      |fpsHistory| <= SampleWindow
    }

    constructor()
      ensures Valid() && fpsHistory == [] && lastChangeTime == 0
    {
      fpsHistory, lastChangeTime := [], 0;
    }

    /** `start` and `stop` both forget the samples. */
    method Reset()
      modifies this`fpsHistory
      ensures Valid() && fpsHistory == []
    {
      fpsHistory := [];
    }

    /** The visibility handler: coming back into view forgets the samples
        taken while hidden. */
    method VisibilityChanged(hidden: bool)
      requires Valid()
      modifies this`fpsHistory
      ensures Valid()
      ensures !hidden ==> fpsHistory == []
      ensures hidden ==> fpsHistory == old(fpsHistory)
    {
      if !hidden {
        fpsHistory := [];
      }
    }

    /** `onMetrics`: one monitor sample taken at `now`. */
    method OnMetrics(store: PerformanceStore.PerformanceState, fps: nat, memoryMb: Option<int>, now: int)
      requires Valid()
      modifies this, store
      ensures Valid()
      ensures store.userSelectedTier == old(store.userSelectedTier) && store.detectedTier == old(store.detectedTier)
      ensures old(store.userSelectedTier) != Auto ==>
        fpsHistory == old(fpsHistory) && store.activeTier == old(store.activeTier) &&
        store.config == old(store.config) && lastChangeTime == old(lastChangeTime)
      ensures old(store.userSelectedTier) == Auto && |Window(old(fpsHistory), fps)| < SampleWindow ==>
        fpsHistory == Window(old(fpsHistory), fps) && store.activeTier == old(store.activeTier) &&
        lastChangeTime == old(lastChangeTime)
      ensures old(store.userSelectedTier) == Auto && now - old(lastChangeTime) < CooldownMs ==>
        fpsHistory == Window(old(fpsHistory), fps) && store.activeTier == old(store.activeTier) &&
        lastChangeTime == old(lastChangeTime)
      ensures old(store.userSelectedTier) == Auto && |Window(old(fpsHistory), fps)| == SampleWindow &&
              now - old(lastChangeTime) >= CooldownMs ==>
        var d := Decide(Window(old(fpsHistory), fps), memoryMb, old(store.activeTier), old(store.detectedTier));
        && (d.Some? ==> store.activeTier == d.value && store.config == TierConfig(d.value) &&
                        fpsHistory == [] && lastChangeTime == now)
        && (d.None? ==> store.activeTier == old(store.activeTier) &&
                        fpsHistory == Window(old(fpsHistory), fps) && lastChangeTime == old(lastChangeTime))
      ensures old(store.AutoBounded()) ==> store.AutoBounded()
    {
      if store.userSelectedTier != Auto {
        return;
      }
      fpsHistory := Window(fpsHistory, fps);
      if |fpsHistory| < SampleWindow {
        return;
      }
      if now - lastChangeTime < CooldownMs {
        return;
      }
      var d := Decide(fpsHistory, memoryMb, store.activeTier, store.detectedTier);
      if d.Some? {
        var _ := store.AutoAdjustTier(d.value);
        fpsHistory := [];
        lastChangeTime := now;
      }
    }
  }

  /** The tier never moves by more than one step per sample. */
  lemma OneStepPerSample(w: seq<nat>, memoryMb: Option<int>, active: Tier, detected: Tier)
    requires w != []
    ensures var r := Decide(w, memoryMb, active, detected);
      r.Some? ==> -1 <= Index(r.value) - Index(active) <= 1 && r.value != active
  {
  }
}
