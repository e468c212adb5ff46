/** The main process's audio stream manager: it collects the recorder's
    PCM chunks while a recording is streaming, hands them to the gRPC
    stream in arrival order, keeps every chunk of the interaction for
    later, and reports the recorded duration. The recorder's event
    listeners and the promise the generator waits on are flags. */
module AudioStream {
  import opened Common
  import opened Protocol
  import TranscribeStream

  const DefaultSampleRate := 16000

  /** `Math.floor((totalBytes / 2) / rate * 1000)` for 16-bit mono PCM,
      computed exactly: the largest whole millisecond count not above the
      recorded time. */
  function DurationMs(totalBytes: nat, rate: int): (ms: int)
    requires rate > 0
    ensures ms >= 0
    ensures ms * rate <= 500 * totalBytes < (ms + 1) * rate
  {
    (500 * totalBytes) / rate
  }

  /** More audio never reports a shorter duration. */
  lemma DurationMonotone(a: nat, b: nat, rate: int)
    requires rate > 0 && a <= b
    ensures DurationMs(a, rate) <= DurationMs(b, rate)
  {
    var x, y := DurationMs(a, rate), DurationMs(b, rate);
    if y < x {
      MulLe(y + 1, x, rate);
    }
  }

  lemma MulLe(x: int, y: int, r: int)
    requires x <= y && r > 0
    ensures x * r <= y * r
  {
    assert y * r - x * r == (y - x) * r;
  }

  /** At any rate, two bytes a sample make `2 * rate * k` bytes last
      exactly `k` seconds; at the default rate a second is 32000 bytes. */
  lemma WholeSeconds(k: nat, rate: int)
    requires rate > 0
    ensures DurationMs(2 * rate * k, rate) == 1000 * k
    ensures rate == DefaultSampleRate ==> DurationMs(32000 * k, rate) == 1000 * k
  {
    var bytes, m := 2 * rate * k, 1000 * k;
    var ms := DurationMs(bytes, rate);
    assert 500 * bytes == m * rate;
    if ms < m {
      MulLe(ms + 1, m, rate);
    } else if ms > m {
      MulLe(m + 1, ms, rate);
    }
    if rate == DefaultSampleRate {
      assert 32000 * k == bytes;
    }
  }

  /** The rate `handleAudioConfig` passes on: `outputSampleRate ||
      sampleRate || 16000`, where a missing or zero rate counts as absent. */
  function EffectiveRate(outputSampleRate: Option<int>, sampleRate: Option<int>): (r: int)
    ensures outputSampleRate.Some? && outputSampleRate.value != 0 ==> r == outputSampleRate.value
    ensures !(outputSampleRate.Some? && outputSampleRate.value != 0) && sampleRate.Some? && sampleRate.value != 0 ==> r == sampleRate.value
    ensures !(outputSampleRate.Some? && outputSampleRate.value != 0) && !(sampleRate.Some? && sampleRate.value != 0) ==> r == DefaultSampleRate
    ensures r != 0
  {
    if outputSampleRate.Some? && outputSampleRate.value != 0 then outputSampleRate.value
    else if sampleRate.Some? && sampleRate.value != 0 then sampleRate.value
    else DefaultSampleRate
  }

  class AudioStreamManager {
    var isStreaming: bool
    var audioChunkQueue: seq<seq<Byte>>
    var audioChunksForInteraction: seq<seq<Byte>>
    var currentSampleRate: int
    /** `resolveNewChunk !== null`: the generator waits for a chunk. */
    var consumerWaiting: bool
    /** The recorder's chunk and config listeners are attached. */
    var listening: bool

    /** The sample rate is always positive. */
    ghost predicate Valid()
      reads this
    {
      currentSampleRate > 0
    }

    constructor ()
      ensures Valid()
      ensures !isStreaming && audioChunkQueue == [] && audioChunksForInteraction == []
      ensures currentSampleRate == DefaultSampleRate && !consumerWaiting && !listening
    {
      isStreaming := false;
      audioChunkQueue := [];
      audioChunksForInteraction := [];
      currentSampleRate := DefaultSampleRate;
      consumerWaiting := false;
      listening := false;
    }

    /** `initialize`: streaming, with both chunk lists emptied. */
    method Initialize()
      requires Valid()
      modifies this
      ensures Valid()
      ensures isStreaming && audioChunkQueue == [] && audioChunksForInteraction == [] && listening
      ensures currentSampleRate == old(currentSampleRate) && consumerWaiting == old(consumerWaiting)
    {
      isStreaming := true;
      audioChunkQueue := [];
      audioChunksForInteraction := [];
      listening := true;
    }

    /** `stopStreaming`: not streaming, a waiting generator released, the
        pending queue dropped; the interaction's chunks are kept. */
    method StopStreaming()
      requires Valid()
      modifies this
      ensures Valid()
      ensures !isStreaming && !consumerWaiting && !listening && audioChunkQueue == []
      ensures audioChunksForInteraction == old(audioChunksForInteraction)
      ensures currentSampleRate == old(currentSampleRate)
    {
      isStreaming := false;
      if consumerWaiting {
        consumerWaiting := false;
      }
      listening := false;
      audioChunkQueue := [];
    }

    /** `addAudioChunk`: ignored unless streaming; otherwise the chunk goes
        to the back of the queue and of the interaction, and a waiting
        generator is released. */
    method AddAudioChunk(chunk: seq<Byte>)
      requires Valid()
      modifies this
      ensures Valid()
      ensures !old(isStreaming) ==>
        && audioChunkQueue == old(audioChunkQueue)
        && audioChunksForInteraction == old(audioChunksForInteraction)
        && consumerWaiting == old(consumerWaiting)
      ensures old(isStreaming) ==>
        && audioChunkQueue == old(audioChunkQueue) + [chunk]
        && audioChunksForInteraction == old(audioChunksForInteraction) + [chunk]
        && !consumerWaiting
      ensures isStreaming == old(isStreaming) && listening == old(listening)
      ensures currentSampleRate == old(currentSampleRate)
    {
      if !isStreaming {
        return;
      }
      audioChunkQueue := audioChunkQueue + [chunk];
      audioChunksForInteraction := audioChunksForInteraction + [chunk];
      if consumerWaiting {
        consumerWaiting := false;
      }
    }

    /** `getInteractionAudioBuffer`: the interaction's chunks in order. */
    function InteractionAudioBuffer(): (r: seq<Byte>)
      reads this
      ensures |r| == TranscribeStream.TotalLength(audioChunksForInteraction)
      ensures r == Flatten(audioChunksForInteraction)
    {
      TranscribeStream.FlattenLength(audioChunksForInteraction);
      Flatten(audioChunksForInteraction)
    }

    /** `setAudioConfig`: only a positive rate is taken. */
    method SetAudioConfig(sampleRate: Option<int>)
      requires Valid()
      modifies this
      ensures Valid()
      ensures currentSampleRate == if sampleRate.Some? && sampleRate.value > 0 then sampleRate.value else old(currentSampleRate)
      ensures isStreaming == old(isStreaming) && audioChunkQueue == old(audioChunkQueue)
      ensures audioChunksForInteraction == old(audioChunksForInteraction)
      ensures consumerWaiting == old(consumerWaiting) && listening == old(listening)
    {
      if sampleRate.Some? && sampleRate.value > 0 {
        currentSampleRate := sampleRate.value;
      }
    }

    /** The recorder's `audio-config` event. */
    method HandleAudioConfig(outputSampleRate: Option<int>, sampleRate: Option<int>)
      requires Valid()
      modifies this
      ensures Valid()
      ensures var r := EffectiveRate(outputSampleRate, sampleRate);
        currentSampleRate == if r > 0 then r else old(currentSampleRate)
      ensures isStreaming == old(isStreaming) && audioChunkQueue == old(audioChunkQueue)
      ensures audioChunksForInteraction == old(audioChunksForInteraction)
      ensures consumerWaiting == old(consumerWaiting) && listening == old(listening)
    {
      SetAudioConfig(Some(EffectiveRate(outputSampleRate, sampleRate)));
    }

    /** `clearInteractionAudio`. */
    method ClearInteractionAudio()
      requires Valid()
      modifies this
      ensures Valid()
      ensures audioChunksForInteraction == []
      ensures isStreaming == old(isStreaming) && audioChunkQueue == old(audioChunkQueue)
      ensures currentSampleRate == old(currentSampleRate)
      ensures consumerWaiting == old(consumerWaiting) && listening == old(listening)
    {
      audioChunksForInteraction := [];
    }

    /** `getAudioDurationMs`: the duration of the interaction's audio at
        the current rate. */
    method GetAudioDurationMs() returns (ms: int)
      requires Valid()
      ensures ms == DurationMs(TranscribeStream.TotalLength(audioChunksForInteraction), currentSampleRate)
    {
      var totalBytes := 0;
      var i := 0;
      while i < |audioChunksForInteraction|
        invariant 0 <= i <= |audioChunksForInteraction|
        invariant totalBytes == TranscribeStream.TotalLength(audioChunksForInteraction[..i])
      {
        TranscribeStream.PrefixStep(audioChunksForInteraction, i);
        totalBytes := totalBytes + |audioChunksForInteraction[i]|;
        i := i + 1;
      }
      assert audioChunksForInteraction[..i] == audioChunksForInteraction;
      ms := DurationMs(totalBytes, currentSampleRate);
    }

    /** One resumption of `streamAudioChunks`: it ends when streaming has
        stopped and nothing is queued; it waits when streaming with nothing
        queued; otherwise it yields the whole queue, oldest chunk first. */
    method PumpStream() returns (yielded: seq<seq<Byte>>, finished: bool)
      requires Valid()
      modifies this
      ensures Valid()
      ensures finished <==> !old(isStreaming) && old(audioChunkQueue) == []
      ensures yielded == old(audioChunkQueue) && audioChunkQueue == []
      ensures consumerWaiting == (old(consumerWaiting) || (old(isStreaming) && old(audioChunkQueue) == []))
      ensures isStreaming == old(isStreaming) && listening == old(listening)
      ensures audioChunksForInteraction == old(audioChunksForInteraction)
      ensures currentSampleRate == old(currentSampleRate)
    {
      yielded := [];
      if audioChunkQueue == [] {
        if isStreaming {
          consumerWaiting := true;
          return yielded, false;
        }
        return yielded, true;
      }
      ghost var queued := audioChunkQueue;
      while |audioChunkQueue| > 0
        invariant yielded + audioChunkQueue == queued
        invariant isStreaming == old(isStreaming) && listening == old(listening)
        invariant consumerWaiting == old(consumerWaiting) && currentSampleRate == old(currentSampleRate)
        invariant audioChunksForInteraction == old(audioChunksForInteraction)
        decreases |audioChunkQueue|
      {
        var chunk := audioChunkQueue[0];
        audioChunkQueue := audioChunkQueue[1..];
        yielded := yielded + [chunk];
      }
      assert yielded + [] == yielded;
      finished := false;
    }
  }
}
