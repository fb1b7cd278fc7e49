/**
 * The stand-alone recorder example: SDL pushes 16-bit chunks to a callback
 * that, while the recording flag is set, grows a global heap buffer with
 * `realloc` to exactly the samples needed and copies the chunk after the
 * samples recorded so far. The globals are the fields of `Recorder`.
 */
module TestWhisperRecorder {
  import opened SampleBuffer

  /** BUFFER_SIZE: samples per SDL chunk and of the initial allocation. */
  const BufferSize: nat := 4096

  class Recorder {
    var isRecording: bool
    var audioBuffer: array?<int>
    var audioBufferLength: nat
    var totalRecordedSamples: nat

    /** The recorded samples fit the buffer's logical length, which fits the
        allocation, and a recording always has a buffer. */
    ghost predicate Valid()
      reads this
    {
      && totalRecordedSamples <= audioBufferLength
      && (audioBuffer != null ==> audioBufferLength <= audioBuffer.Length)
      && (isRecording ==> audioBuffer != null)
    }

    /** The samples recorded so far. */
    ghost function Recorded(): seq<int>
      reads this, audioBuffer
      requires Valid()
    {
      if audioBuffer == null then [] else audioBuffer[..totalRecordedSamples]
    }

    /** The callback's growth test for a chunk of `n` samples. */
    predicate NeedsGrowth(n: nat)
      reads this
    {
      totalRecordedSamples + n > audioBufferLength
    }

    /** The globals' initial values. */
    constructor ()
      ensures Valid() && !isRecording && audioBuffer == null
      ensures audioBufferLength == 0 && totalRecordedSamples == 0
    {
      isRecording := false;
      audioBuffer := null;
      audioBufferLength := 0;
      totalRecordedSamples := 0;
    }

    /** `audio_callback` with the reallocation failure repaired: outside a
        recording nothing happens; a chunk that does not fit first grows the
        buffer to exactly `total + n` samples, keeping the recorded ones, and
        when that reallocation fails nothing changes at all; otherwise the
        chunk is copied at offset `total` and `total` grows by `n`. */
    method AudioCallback(stream: seq<int>, len: nat, reallocOk: bool)
      requires Valid()
      requires |stream| == SampleCount(len)
      modifies this, audioBuffer
      ensures Valid()
      ensures !old(isRecording) || (old(NeedsGrowth(|stream|)) && !reallocOk) ==>
                unchanged(this) && Recorded() == old(Recorded())
      ensures old(isRecording) && (!old(NeedsGrowth(|stream|)) || reallocOk) ==>
                && isRecording
                && totalRecordedSamples == old(totalRecordedSamples) + |stream|
                && Recorded() == old(Recorded()) + stream
                && audioBufferLength
                   == (if old(NeedsGrowth(|stream|)) then old(totalRecordedSamples) + |stream| else old(audioBufferLength))
                && (old(NeedsGrowth(|stream|)) ==> fresh(audioBuffer))
                && (!old(NeedsGrowth(|stream|)) ==> audioBuffer == old(audioBuffer))
    {
      if !isRecording {
        return;
      }
      var n := SampleCount(len);
      if totalRecordedSamples + n > audioBufferLength {
        if !reallocOk {
          return;
        }
        var newLength := totalRecordedSamples + n;
        var grown := Reallocate(audioBuffer, totalRecordedSamples, newLength);
        audioBuffer := grown;
        audioBufferLength := newLength;
      }
      var buf := audioBuffer;
      var total := totalRecordedSamples;
      CopyAt(buf, total, stream);
      assert buf[..total + |stream|] == buf[..total] + buf[total..total + |stream|];
      totalRecordedSamples := total + n;
    }

    /** `audio_callback` as the source writes it: the logical length is
        raised before `realloc` and the result of `realloc` overwrites the
        only pointer to the old buffer. When that reallocation fails the
        recording goes on without a buffer while the length already covers
        the chunk, so the invariant is lost and the next chunk of the same
        size passes the growth test and is copied through the null pointer. */
    method AudioCallbackAsWritten(stream: seq<int>, len: nat, reallocOk: bool)
      requires Valid()
      requires |stream| == SampleCount(len)
      modifies this, audioBuffer
      ensures old(isRecording) && old(NeedsGrowth(|stream|)) && !reallocOk ==>
                && isRecording && audioBuffer == null && !Valid()
                && totalRecordedSamples == old(totalRecordedSamples)
                && audioBufferLength == old(totalRecordedSamples) + |stream|
                && !NeedsGrowth(|stream|)
      ensures !(old(isRecording) && old(NeedsGrowth(|stream|)) && !reallocOk) ==>
                && Valid()
                && Recorded() == old(Recorded()) + (if old(isRecording) then stream else [])
    {
      if !isRecording {
        return;
      }
      var n := SampleCount(len);
      if totalRecordedSamples + n > audioBufferLength {
        audioBufferLength := totalRecordedSamples + n;
        if !reallocOk {
          audioBuffer := null;
          return;
        }
        var grown := Reallocate(audioBuffer, totalRecordedSamples, audioBufferLength);
        audioBuffer := grown;
      }
      var buf := audioBuffer;
      var total := totalRecordedSamples;
      CopyAt(buf, total, stream);
      assert buf[..total + |stream|] == buf[..total] + buf[total..total + |stream|];
      totalRecordedSamples := total + n;
    }

    /** The allocation in `startRecord`: `BufferSize` samples are allocated
        but the logical length stays 0, so every non-empty chunk that follows
        takes the growth path. */
    method AllocateAudioBuffer(mallocOk: bool) returns (ok: bool)
      requires audioBuffer == null && audioBufferLength == 0 && totalRecordedSamples == 0
      modifies this
      ensures ok == mallocOk
      ensures !ok ==> unchanged(this)
      ensures ok ==> && fresh(audioBuffer) && audioBuffer.Length == BufferSize
                     && audioBufferLength == 0 && totalRecordedSamples == 0 && isRecording == old(isRecording)
                     && forall n: nat :: NeedsGrowth(n) <==> n > 0
    {
      if !mallocOk {
        return false;
      }
      audioBuffer := new int[BufferSize](_ => 0);
      return true;
    }

    /** `startRecord` from the program's initial state: 1 when SDL, the
        device or the allocation fails, changing nothing; otherwise the
        chunks delivered while the flag is set are recorded and 0 is
        returned. Every chunk either fits or grows the buffer to exactly the
        recorded samples, so the logical length ends equal to the count. */
    method StartRecord(sdlOk: bool, deviceOk: bool, mallocOk: bool, chunks: seq<seq<int>>) returns (code: int)
      requires !isRecording && audioBuffer == null && audioBufferLength == 0 && totalRecordedSamples == 0
      modifies this
      ensures Valid()
      ensures !(sdlOk && deviceOk && mallocOk) ==> code == 1 && unchanged(this)
      ensures sdlOk && deviceOk && mallocOk ==>
                && code == 0 && !isRecording && audioBuffer != null
                && Recorded() == Flatten(chunks)
                && audioBufferLength == totalRecordedSamples == |Flatten(chunks)|
    {
      if !sdlOk {
        return 1;
      }
      if !deviceOk {
        return 1;
      }
      var ok := AllocateAudioBuffer(mallocOk);
      if !ok {
        return 1;
      }
      isRecording := true;
      var i := 0;
      while i < |chunks|
        invariant 0 <= i <= |chunks|
        invariant Valid() && isRecording && fresh(audioBuffer)
        invariant Recorded() == Flatten(chunks[..i])
        invariant audioBufferLength == totalRecordedSamples
      {
        FlattenSnoc(chunks[..i], chunks[i]);
        assert chunks[..i + 1] == chunks[..i] + [chunks[i]];
        AudioCallback(chunks[i], 2 * |chunks[i]|, true);
        i := i + 1;
      }
      assert chunks[..i] == chunks;
      isRecording := false;
      return 0;
    }
  }
}
