/**
 * The earlier SDL/Qt worker (old/sonantworker.cpp). It records and
 * transcribes like the current worker, with three observable differences:
 * `initialize` records the default model's name, a failed `setModel` keeps
 * both the context and the model name, and `processSpeech` replaces the
 * transcription instead of extending it. Requests arrive through slots
 * that take the worker's mutex; the model is sequential.
 */
module OldSonantWorker {
  import opened Whisper
  import opened SampleBuffer

  /** RECORD_BUFFER_SIZE: samples allocated when a recording starts (also
      the SDL chunk size). */
  const RecordBufferSize: nat := 16384
  const DefaultWhisperModel: string := "models/ggml-tiny.en.bin"

  /** The fields other than the sample buffer. */
  datatype Session = Session(
    initialized: bool,
    recording: bool,
    processing: bool,
    whisperCtx: Context,
    whisperModel: string,
    transcription: seq<string>)

  class Worker {
    var recordedBuffer: array?<int>
    var recordedSampleCount: nat
    var recordBufferSize: nat
    var initialized: bool
    var recording: bool
    var processing: bool
    var whisperCtx: Context
    var whisperModel: string
    var transcription: seq<string>

    /** The buffer is absent only before the first recording, and otherwise
        always has room for the recorded samples plus one. */
    ghost predicate Valid()
      reads this
    {
      && (recordedBuffer == null ==> recordBufferSize == 0 && recordedSampleCount == 0)
      && (recordedBuffer != null ==>
            recordBufferSize == recordedBuffer.Length && recordedSampleCount < recordBufferSize)
    }

    /** The samples recorded so far. */
    ghost function Recorded(): seq<int>
      reads this, recordedBuffer
      requires Valid()
    {
      if recordedBuffer == null then [] else recordedBuffer[..recordedSampleCount]
    }

    function Status(): Session
      reads this
    {
      Session(initialized, recording, processing, whisperCtx, whisperModel, transcription)
    }

    constructor ()
      ensures Valid() && recordedBuffer == null && recordedSampleCount == 0 && recordBufferSize == 0
      ensures Status() == Session(false, false, false, NoContext, "", [])
    {
      recordedBuffer := null;
      recordedSampleCount := 0;
      recordBufferSize := 0;
      initialized := false;
      recording := false;
      processing := false;
      whisperCtx := NoContext;
      whisperModel := "";
      transcription := [];
    }

    /** `initialize`: SDL must start (`sdlOk`); an existing context is kept
        with its model name, otherwise the default model must load
        (`loadOk`) and its name is recorded; only when every step succeeds
        is the worker marked initialised. */
    method Initialize(sdlOk: bool, loadOk: bool)
      modifies this
      ensures initialized == (old(initialized) || (sdlOk && (old(whisperCtx) != NoContext || loadOk)))
      ensures var loads := sdlOk && old(whisperCtx) == NoContext && loadOk;
              && whisperCtx == (if loads then Loaded(DefaultWhisperModel) else old(whisperCtx))
              && whisperModel == (if loads then DefaultWhisperModel else old(whisperModel))
      ensures Status() == old(Status()).(initialized := initialized, whisperCtx := whisperCtx, whisperModel := whisperModel)
      ensures unchanged(this`recordedBuffer, this`recordedSampleCount, this`recordBufferSize)
    {
      if !sdlOk {
        return;
      }
      if whisperCtx == NoContext {
        if !loadOk {
          return;
        }
        whisperCtx := Loaded(DefaultWhisperModel);
        whisperModel := DefaultWhisperModel;
      }
      initialized := true;
    }

    /** `setModel`: nothing while busy, nothing when a context exists and the
        path is the current one; otherwise a successful load replaces both
        the context and the model name, and a failed one changes neither. */
    method SetModel(modelPath: string, loadOk: bool)
      modifies this
      ensures old(recording || processing || (whisperCtx != NoContext && modelPath == whisperModel)) || !loadOk ==>
                Status() == old(Status())
      ensures !old(recording || processing || (whisperCtx != NoContext && modelPath == whisperModel)) && loadOk ==>
                Status() == old(Status()).(whisperCtx := Loaded(modelPath), whisperModel := modelPath)
      ensures unchanged(this`recordedBuffer, this`recordedSampleCount, this`recordBufferSize)
    {
      if recording || processing {
        return;
      }
      if whisperCtx != NoContext && modelPath == whisperModel {
        return;
      }
      var oldContext := whisperCtx;
      if loadOk {
        whisperCtx := Loaded(modelPath);
        whisperModel := modelPath;
      } else {
        whisperCtx := oldContext;
      }
    }

    /** "Prepare memory" as the source writes it: a fresh zeroed buffer with
        its capacity, while the sample count of the previous recording is
        kept. The buffer invariant then survives only when that count is
        below the new capacity, and even then the samples counted as
        recorded are the zeros of the fresh buffer. */
    method PrepareMemoryAsWritten()
      modifies this
      ensures fresh(recordedBuffer) && recordedBuffer.Length == RecordBufferSize
      ensures recordBufferSize == RecordBufferSize
      ensures recordedSampleCount == old(recordedSampleCount)
      ensures Valid() <==> old(recordedSampleCount) < RecordBufferSize
      ensures Valid() ==> Recorded() == seq(old(recordedSampleCount), _ => 0)
      ensures Status() == old(Status())
    {
      recordedBuffer := new int[RecordBufferSize](_ => 0);
      recordBufferSize := RecordBufferSize;
    }

    /** "Prepare memory" with the sample count reset, so that a recording
        starts empty. */
    method PrepareMemory()
      modifies this
      ensures Valid() && fresh(recordedBuffer)
      ensures recordBufferSize == RecordBufferSize && Recorded() == []
      ensures Status() == old(Status())
    {
      recordedBuffer := new int[RecordBufferSize](_ => 0);
      recordBufferSize := RecordBufferSize;
      recordedSampleCount := 0;
    }

    /** `onRequestRecord`: ignored when not initialised or busy, otherwise a
        full `record` as the source writes it. */
    method OnRequestRecord(deviceOk: bool, chunks: seq<seq<int>>, engine: Transcription)
      requires Valid()
      requires initialized && !recording && !processing ==> recordedSampleCount < RecordBufferSize
      modifies this
      ensures Valid()
      ensures !old(initialized) || old(recording) || old(processing) ==> unchanged(this)
      ensures old(initialized) && !old(recording) && !old(processing) ==>
                && fresh(recordedBuffer)
                && (!deviceOk ==> Recorded() == seq(old(recordedSampleCount), _ => 0) && Status() == old(Status()))
                && (deviceOk ==> Recorded() == seq(old(recordedSampleCount), _ => 0) + Flatten(chunks)
                                 && !recording
                                 && transcription == (if Succeeded(engine) then engine.segments else old(transcription))
                                 && processing == !Succeeded(engine)
                                 && Status() == old(Status()).(processing := processing, transcription := transcription))
    {
      if !initialized {
        return;
      }
      if recording || processing {
        return;
      }
      var _ := RecordAsWritten(deviceOk, chunks, engine);
    }

    /** The recording interval: while `record` sleeps, SDL calls the
        callback with each chunk in turn. */
    method DeliverChunks(chunks: seq<seq<int>>)
      requires Valid() && recordedBuffer != null
      modifies this, recordedBuffer
      ensures Valid() && recordedBuffer != null
      ensures recordedBuffer == old(recordedBuffer) || fresh(recordedBuffer)
      ensures Recorded() == old(Recorded()) + Flatten(chunks)
      ensures Status() == old(Status())
    {
      var i := 0;
      while i < |chunks|
        invariant 0 <= i <= |chunks|
        invariant Valid() && recordedBuffer != null
        invariant recordedBuffer == old(recordedBuffer) || fresh(recordedBuffer)
        invariant Recorded() == old(Recorded()) + Flatten(chunks[..i])
        invariant Status() == old(Status())
      {
        FlattenSnoc(chunks[..i], chunks[i]);
        assert chunks[..i + 1] == chunks[..i] + [chunks[i]];
        AudioCallback(this, chunks[i], 2 * |chunks[i]|);
        i := i + 1;
      }
      assert chunks[..i] == chunks;
    }

    /** `record` as the source writes it: 1 when not initialised and 2 when
        recording or processing, changing nothing; otherwise a fresh buffer
        of RECORD_BUFFER_SIZE samples is prepared without resetting the
        count, 4 when the device does not open, and else the chunks pushed
        during the recording are appended after as many zeros as the
        previous recordings held, recording ends and the speech is
        processed, returning 0. The count keeps growing, so after a
        recording of RECORD_BUFFER_SIZE samples or more the next `record`
        copies past its fresh buffer, which is undefined behaviour and
        excluded. */
    method RecordAsWritten(deviceOk: bool, chunks: seq<seq<int>>, engine: Transcription) returns (code: int)
      requires Valid()
      requires initialized && !recording && !processing ==> recordedSampleCount < RecordBufferSize
      modifies this
      ensures Valid()
      ensures !old(initialized) ==> code == 1 && unchanged(this)
      ensures old(initialized) && (old(recording) || old(processing)) ==> code == 2 && unchanged(this)
      ensures old(initialized) && !old(recording) && !old(processing) ==>
                && fresh(recordedBuffer)
                && (!deviceOk ==> code == 4 && Recorded() == seq(old(recordedSampleCount), _ => 0)
                                  && recordBufferSize == RecordBufferSize && Status() == old(Status()))
                && (deviceOk ==> code == 0
                                 && Recorded() == seq(old(recordedSampleCount), _ => 0) + Flatten(chunks)
                                 && recordedSampleCount == old(recordedSampleCount) + |Flatten(chunks)|
                                 && !recording
                                 && transcription == (if Succeeded(engine) then engine.segments else old(transcription))
                                 && processing == !Succeeded(engine)
                                 && Status() == old(Status()).(processing := processing, transcription := transcription))
    {
      if !initialized {
        return 1;
      }
      if recording || processing {
        return 2;
      }
      PrepareMemoryAsWritten();
      if !deviceOk {
        return 4;
      }
      recording := true;
      DeliverChunks(chunks);
      recording := false;
      var _ := ProcessSpeech(engine);
      return 0;
    }

    /** `record` with the count reset by the corrected "prepare memory": the
        recorded samples are then exactly the chunks. */
    method Record(deviceOk: bool, chunks: seq<seq<int>>, engine: Transcription) returns (code: int)
      requires Valid()
      modifies this
      ensures Valid()
      ensures !old(initialized) ==> code == 1 && unchanged(this)
      ensures old(initialized) && (old(recording) || old(processing)) ==> code == 2 && unchanged(this)
      ensures old(initialized) && !old(recording) && !old(processing) ==>
                && fresh(recordedBuffer)
                && (!deviceOk ==> code == 4 && Recorded() == [] && recordBufferSize == RecordBufferSize
                                  && Status() == old(Status()))
                && (deviceOk ==> code == 0 && Recorded() == Flatten(chunks) && !recording
                                 && transcription == (if Succeeded(engine) then engine.segments else old(transcription))
                                 && processing == !Succeeded(engine)
                                 && Status() == old(Status()).(processing := processing, transcription := transcription))
    {
      if !initialized {
        return 1;
      }
      if recording || processing {
        return 2;
      }
      PrepareMemory();
      if !deviceOk {
        return 4;
      }
      recording := true;
      DeliverChunks(chunks);
      recording := false;
      var _ := ProcessSpeech(engine);
      return 0;
    }

    /** `processSpeech`: 1 when not initialised and 2 when busy, changing
        nothing; otherwise processing starts, a failed transcription returns
        2 and leaves the processing flag set, and a successful one clears the
        transcription, fills it with the segments in order, clears the flag
        and returns 0. */
    method ProcessSpeech(engine: Transcription) returns (code: int)
      requires Valid()
      modifies this
      ensures unchanged(this`recordedBuffer, this`recordedSampleCount, this`recordBufferSize)
      ensures !old(initialized) ==> code == 1 && Status() == old(Status())
      ensures old(initialized) && (old(recording) || old(processing)) ==> code == 2 && Status() == old(Status())
      ensures old(initialized) && !old(recording) && !old(processing) ==>
                && (!Succeeded(engine) ==> code == 2 && Status() == old(Status()).(processing := true))
                && (Succeeded(engine) ==> code == 0 && Status() == old(Status()).(transcription := engine.segments))
    {
      if !initialized {
        return 1;
      }
      if recording || processing {
        return 2;
      }
      processing := true;
      var result := engine.code;
      if result != 0 {
        return 2;
      }
      transcription := [];
      var segmentsCount := |engine.segments|;
      for i := 0 to segmentsCount
        invariant transcription == engine.segments[..i]
        invariant Status() == old(Status()).(processing := true, transcription := transcription)
        invariant unchanged(this`recordedBuffer, this`recordedSampleCount, this`recordBufferSize)
      {
        transcription := transcription + [engine.segments[i]];
      }
      assert engine.segments[..segmentsCount] == engine.segments;
      processing := false;
      return 0;
    }
  }

  /** `audio_callback`, the same growth rule as the current worker: without
      a worker or without a buffer nothing happens; else the buffer is first
      replaced by a copy of exactly `count + n + 1` samples when that exceeds
      the capacity, and the chunk is appended after the recorded samples. */
  method AudioCallback(userdata: Worker?, stream: seq<int>, len: nat)
    requires |stream| == SampleCount(len)
    requires userdata != null ==> userdata.Valid()
    modifies userdata, if userdata != null then userdata.recordedBuffer else null
    ensures userdata != null ==> userdata.Valid() && userdata.Status() == old(userdata.Status())
    ensures userdata != null && old(userdata.recordedBuffer) == null ==> unchanged(userdata)
    ensures userdata != null && old(userdata.recordedBuffer) != null ==>
              var grow := old(userdata.recordedSampleCount) + |stream| + 1 > old(userdata.recordBufferSize);
              && userdata.recordedSampleCount == old(userdata.recordedSampleCount) + |stream|
              && userdata.Recorded() == old(userdata.Recorded()) + stream
              && userdata.recordBufferSize
                 == (if grow then old(userdata.recordedSampleCount) + |stream| + 1 else old(userdata.recordBufferSize))
              && (grow ==> fresh(userdata.recordedBuffer))
              && (!grow ==> userdata.recordedBuffer == old(userdata.recordedBuffer))
  {
    if userdata == null {
      return;
    }
    var worker := userdata;
    var newSamplesLength := SampleCount(len);
    var newBufferSize := worker.recordedSampleCount + newSamplesLength + 1;
    if newBufferSize > worker.recordBufferSize {
      if worker.recordedBuffer == null {
        return;
      }
      var grown := Reallocate(worker.recordedBuffer, worker.recordedSampleCount, newBufferSize);
      worker.recordedBuffer := grown;
      worker.recordBufferSize := newBufferSize;
    }
    var buf := worker.recordedBuffer;
    var count := worker.recordedSampleCount;
    CopyAt(buf, count, stream);
    assert buf[..count + |stream|] == buf[..count] + buf[count..count + |stream|];
    worker.recordedSampleCount := count + newSamplesLength;
  }
}
