/**
 * The SDL/Qt worker (`SonantWorker`): a blocking record of a fixed duration
 * during which SDL pushes 16-bit sample chunks into a heap buffer that grows
 * by copying, followed by one whisper transcription whose segments are
 * appended to the worker's transcription list.
 *
 * SDL's callback runs while the recording call sleeps; the model delivers
 * the chunks of that interval one after the other. Device opening, library
 * initialisation and model loading are represented by their success flags,
 * whisper by the result it returns.
 */
module SonantWorker {
  import opened Whisper
  import opened SampleBuffer

  /** RECORD_BUFFER_SIZE: samples allocated when a recording starts. */
  const RecordBufferSize: nat := 81920
  const DefaultWhisperModel: string := "models/ggml-tiny.en.bin"

  /** The fields other than the sample buffer. */
  datatype Session = Session(
    initialized: bool,
    recording: bool,
    processing: bool,
    whisperCtx: Context,
    whisperModel: string,
    transcription: seq<string>)

  class Worker {
    var recordedBuffer: array?<int>
    var recordedSampleCount: nat
    var recordBufferSize: nat
    var initialized: bool
    var recording: bool
    var processing: bool
    var whisperCtx: Context
    var whisperModel: string
    var transcription: seq<string>

    /** The buffer is absent only before the first recording, and otherwise
        always has room for the recorded samples plus one. */
    ghost predicate Valid()
      reads this
    {
      && (recordedBuffer == null ==> recordBufferSize == 0 && recordedSampleCount == 0)
      && (recordedBuffer != null ==>
            recordBufferSize == recordedBuffer.Length && recordedSampleCount < recordBufferSize)
    }

    /** The samples recorded so far. */
    ghost function Recorded(): seq<int>
      reads this, recordedBuffer
      requires Valid()
    {
      if recordedBuffer == null then [] else recordedBuffer[..recordedSampleCount]
    }

    function Status(): Session
      reads this
    {
      Session(initialized, recording, processing, whisperCtx, whisperModel, transcription)
    }

    constructor ()
      ensures Valid() && recordedBuffer == null && recordedSampleCount == 0 && recordBufferSize == 0
      ensures Status() == Session(false, false, false, NoContext, "", [])
    {
      recordedBuffer := null;
      recordedSampleCount := 0;
      recordBufferSize := 0;
      initialized := false;
      recording := false;
      processing := false;
      whisperCtx := NoContext;
      whisperModel := "";
      transcription := [];
    }

    /** `initialize`: SDL must start (`sdlOk`), and when no context exists the
        default model must load (`loadOk`); only then is the worker marked
        initialised. The model name is not recorded. */
    method Initialize(sdlOk: bool, loadOk: bool)
      modifies this
      ensures initialized == (old(initialized) || (sdlOk && (old(whisperCtx) != NoContext || loadOk)))
      ensures whisperCtx == (if sdlOk && old(whisperCtx) == NoContext && loadOk then Loaded(DefaultWhisperModel)
                             else old(whisperCtx))
      ensures Status() == old(Status()).(initialized := initialized, whisperCtx := whisperCtx)
      ensures unchanged(this`recordedBuffer, this`recordedSampleCount, this`recordBufferSize)
    {
      if !sdlOk {
        return;
      }
      if whisperCtx == NoContext {
        if !loadOk {
          return;
        }
        whisperCtx := Loaded(DefaultWhisperModel);
      }
      initialized := true;
    }

    /** `setWhisperModel`: nothing while busy, nothing when a context exists
        and the path is the current one. Otherwise the path is taken before
        loading, and when loading fails the old context (possibly none) is
        kept, so the recorded path then names a model that is not loaded. */
    method SetWhisperModel(modelPath: string, loadOk: bool)
      modifies this
      ensures old(recording || processing || (whisperCtx != NoContext && modelPath == whisperModel)) ==>
                Status() == old(Status())
      ensures !old(recording || processing || (whisperCtx != NoContext && modelPath == whisperModel)) ==>
                && whisperModel == modelPath
                    && whisperCtx == (if loadOk then Loaded(modelPath) else old(whisperCtx))
                    && Status() == old(Status()).(whisperModel := whisperModel, whisperCtx := whisperCtx)
      ensures unchanged(this`recordedBuffer, this`recordedSampleCount, this`recordBufferSize)
    {
      if recording || processing {
        return;
      }
      if whisperCtx != NoContext && modelPath == whisperModel {
        return;
      }
      var oldContext := whisperCtx;
      whisperModel := modelPath;
      if loadOk {
        whisperCtx := Loaded(modelPath);
      } else {
        whisperCtx := oldContext;
      }
    }

    /** "Prepare memory" as the source writes it: a fresh zeroed buffer with
        its capacity, while the sample count of the previous recording is
        kept. The buffer invariant then survives only when that count is
        below the new capacity, and even then the samples counted as
        recorded are the zeros of the fresh buffer. */
    method PrepareMemoryAsWritten()
      modifies this
      ensures fresh(recordedBuffer) && recordedBuffer.Length == RecordBufferSize
      ensures recordBufferSize == RecordBufferSize
      ensures recordedSampleCount == old(recordedSampleCount)
      ensures Valid() <==> old(recordedSampleCount) < RecordBufferSize
      ensures Valid() ==> Recorded() == seq(old(recordedSampleCount), _ => 0)
      ensures Status() == old(Status())
    {
      recordedBuffer := new int[RecordBufferSize](_ => 0);
      recordBufferSize := RecordBufferSize;
    }

    /** "Prepare memory" with the sample count reset, so that a recording
        starts empty. */
    method PrepareMemory()
      modifies this
      ensures Valid() && fresh(recordedBuffer)
      ensures recordBufferSize == RecordBufferSize && Recorded() == []
      ensures Status() == old(Status())
    {
      recordedBuffer := new int[RecordBufferSize](_ => 0);
      recordBufferSize := RecordBufferSize;
      recordedSampleCount := 0;
    }

    /** The recording interval: while `startRecord` sleeps, SDL calls the
        callback with each chunk in turn. */
    method DeliverChunks(chunks: seq<seq<int>>)
      requires Valid() && recordedBuffer != null
      modifies this, recordedBuffer
      ensures Valid() && recordedBuffer != null
      ensures recordedBuffer == old(recordedBuffer) || fresh(recordedBuffer)
      ensures Recorded() == old(Recorded()) + Flatten(chunks)
      ensures Status() == old(Status())
    {
      var i := 0;
      while i < |chunks|
        invariant 0 <= i <= |chunks|
        invariant Valid() && recordedBuffer != null
        invariant recordedBuffer == old(recordedBuffer) || fresh(recordedBuffer)
        invariant Recorded() == old(Recorded()) + Flatten(chunks[..i])
        invariant Status() == old(Status())
      {
        FlattenSnoc(chunks[..i], chunks[i]);
        assert chunks[..i + 1] == chunks[..i] + [chunks[i]];
        AudioCallback(this, chunks[i], 2 * |chunks[i]|);
        i := i + 1;
      }
      assert chunks[..i] == chunks;
    }

    /** `startRecord` as the source writes it: 1 when not initialised and 2
        when recording or processing, changing nothing; otherwise a fresh
        buffer is prepared without resetting the count, 4 when the device
        does not open, and else the chunks pushed during the recording are
        appended, recording ends and the speech is processed, returning 0.
        The recorded samples are then as many zeros as the previous
        recordings held, followed by the new chunks. Once the count has
        reached the buffer's capacity the next recording copies past the
        fresh buffer, which is undefined behaviour and excluded. */
    method StartRecordAsWritten(deviceOk: bool, chunks: seq<seq<int>>, engine: Transcription) returns (code: int)
      requires Valid()
      requires initialized && !recording && !processing ==> recordedSampleCount < RecordBufferSize
      modifies this
      ensures Valid()
      ensures !old(initialized) ==> code == 1 && unchanged(this)
      ensures old(initialized) && (old(recording) || old(processing)) ==> code == 2 && unchanged(this)
      ensures old(initialized) && !old(recording) && !old(processing) ==>
                && fresh(recordedBuffer)
                && (!deviceOk ==> code == 4 && Recorded() == seq(old(recordedSampleCount), _ => 0)
                                  && recordBufferSize == RecordBufferSize && Status() == old(Status()))
                && (deviceOk ==> code == 0
                                 && Recorded() == seq(old(recordedSampleCount), _ => 0) + Flatten(chunks)
                                 && recordedSampleCount == old(recordedSampleCount) + |Flatten(chunks)|
                                 && !recording
                                 && transcription == old(transcription) + (if Succeeded(engine) then engine.segments else [])
                                 && processing == !Succeeded(engine)
                                 && Status() == old(Status()).(processing := processing, transcription := transcription))
    {
      if !initialized {
        return 1;
      }
      if recording || processing {
        return 2;
      }
      PrepareMemoryAsWritten();
      if !deviceOk {
        return 4;
      }
      recording := true;
      DeliverChunks(chunks);
      recording := false;
      var _ := ProcessSpeech(engine);
      return 0;
    }

    /** `startRecord` with the count reset by the corrected "prepare
        memory": the recorded samples are then exactly the chunks. */
    method StartRecord(deviceOk: bool, chunks: seq<seq<int>>, engine: Transcription) returns (code: int)
      requires Valid()
      modifies this
      ensures Valid()
      ensures !old(initialized) ==> code == 1 && unchanged(this)
      ensures old(initialized) && (old(recording) || old(processing)) ==> code == 2 && unchanged(this)
      ensures old(initialized) && !old(recording) && !old(processing) ==>
                && fresh(recordedBuffer)
                && (!deviceOk ==> code == 4 && Recorded() == [] && recordBufferSize == RecordBufferSize
                                  && Status() == old(Status()))
                && (deviceOk ==> code == 0 && Recorded() == Flatten(chunks) && !recording
                                 && transcription == old(transcription) + (if Succeeded(engine) then engine.segments else [])
                                 && processing == !Succeeded(engine)
                                 && Status() == old(Status()).(processing := processing, transcription := transcription))
    {
      if !initialized {
        return 1;
      }
      if recording || processing {
        return 2;
      }
      PrepareMemory();
      if !deviceOk {
        return 4;
      }
      recording := true;
      DeliverChunks(chunks);
      recording := false;
      var _ := ProcessSpeech(engine);
      return 0;
    }

    /** `processSpeech`: 1 when not initialised and 2 when busy, changing
        nothing; otherwise processing starts, a failed transcription returns
        2 and leaves the processing flag set, and a successful one appends
        every segment in order to the earlier transcription, clears the flag
        and returns 0. */
    method ProcessSpeech(engine: Transcription) returns (code: int)
      requires Valid()
      modifies this
      ensures unchanged(this`recordedBuffer, this`recordedSampleCount, this`recordBufferSize)
      ensures !old(initialized) ==> code == 1 && Status() == old(Status())
      ensures old(initialized) && (old(recording) || old(processing)) ==> code == 2 && Status() == old(Status())
      ensures old(initialized) && !old(recording) && !old(processing) ==>
                && (!Succeeded(engine) ==> code == 2 && Status() == old(Status()).(processing := true))
                && (Succeeded(engine) ==> code == 0
                                          && Status() == old(Status()).(transcription := old(transcription) + engine.segments))
    {
      if !initialized {
        return 1;
      }
      if recording || processing {
        return 2;
      }
      processing := true;
      var result := engine.code;
      if result != 0 {
        return 2;
      }
      var segmentsCount := |engine.segments|;
      for i := 0 to segmentsCount
        invariant transcription == old(transcription) + engine.segments[..i]
        invariant Status() == old(Status()).(processing := true, transcription := transcription)
        invariant unchanged(this`recordedBuffer, this`recordedSampleCount, this`recordBufferSize)
      {
        transcription := transcription + [engine.segments[i]];
      }
      assert engine.segments[..segmentsCount] == engine.segments;
      processing := false;
      return 0;
    }
  }

  /** `audio_callback` with the worker as user data and `stream` the
      `len / 2` samples of the chunk. Without a worker nothing happens;
      without a buffer (before the first recording) nothing happens; else
      the buffer is first replaced by a copy of exactly `count + n + 1`
      samples when `count + n + 1` exceeds the capacity, and the chunk is
      appended after the recorded samples. */
  method AudioCallback(userdata: Worker?, stream: seq<int>, len: nat)
    requires |stream| == SampleCount(len)
    requires userdata != null ==> userdata.Valid()
    modifies userdata, if userdata != null then userdata.recordedBuffer else null
    ensures userdata != null ==> userdata.Valid() && userdata.Status() == old(userdata.Status())
    ensures userdata != null && old(userdata.recordedBuffer) == null ==> unchanged(userdata)
    ensures userdata != null && old(userdata.recordedBuffer) != null ==>
              var grow := old(userdata.recordedSampleCount) + |stream| + 1 > old(userdata.recordBufferSize);
              && userdata.recordedSampleCount == old(userdata.recordedSampleCount) + |stream|
              && userdata.Recorded() == old(userdata.Recorded()) + stream
              && userdata.recordBufferSize
                 == (if grow then old(userdata.recordedSampleCount) + |stream| + 1 else old(userdata.recordBufferSize))
              && (grow ==> fresh(userdata.recordedBuffer))
              && (!grow ==> userdata.recordedBuffer == old(userdata.recordedBuffer))
  {
    if userdata == null {
      return;
    }
    var worker := userdata;
    var newSamplesLength := SampleCount(len);
    var newBufferSize := worker.recordedSampleCount + newSamplesLength + 1;
    if newBufferSize > worker.recordBufferSize {
      if worker.recordedBuffer == null {
        return;
      }
      var grown := Reallocate(worker.recordedBuffer, worker.recordedSampleCount, newBufferSize);
      worker.recordedBuffer := grown;
      worker.recordBufferSize := newBufferSize;
    }
    var buf := worker.recordedBuffer;
    var count := worker.recordedSampleCount;
    CopyAt(buf, count, stream);
    assert buf[..count + |stream|] == buf[..count] + buf[count..count + |stream|];
    worker.recordedSampleCount := count + newSamplesLength;
  }
}
