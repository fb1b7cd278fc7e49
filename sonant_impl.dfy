/**
 * The ALSA capture engine (`SonantImpl`): a recorder loop that reads frames of
 * 256 float samples, decides whether each frame belongs to an utterance (some
 * sample louder than the threshold, or still inside the trailing delay after
 * the last loud frame), accumulates the utterance, and once the delay has
 * passed hands the buffer to whisper and the first segment to the
 * transcription callback.
 *
 * The device and the engine are foreign: a read is the pair of return values
 * of `snd_pcm_readi` / `snd_pcm_recover` with the frame buffer they filled, a
 * transcription is the code and segments `whisper_full` produced. The clock is
 * an integer millisecond timestamp. The callback is recorded as the sequence
 * of strings it has been called with, and the buffers handed to whisper as
 * the sequence of buffers submitted.
 */
module Sonant {
  import opened Whisper

  /** SONANT_RECORD_SAMPLE_PER_FRAME: samples requested per read. */
  const SamplesPerFrame: nat := 256
  /** Defaults of the member initialisers in the class declaration. */
  const DefaultRecordThreshold: real := 0.25
  const DefaultStopRecordDelay: int := 1500
  /** What the callback receives when whisper returns no segment. */
  const Undetected: string := "[UNDETECTED]"

  /** The public configuration record. */
  datatype SonantParams = SonantParams(recordThreshold: real, pauseRecorderDelay: nat, sonantThreadCount: nat)

  // ---------------------------------------------------------------- reads

  /** One capture attempt: what `snd_pcm_readi` returned, what
      `snd_pcm_recover` returns if it is consulted, and the frame buffer. */
  datatype PcmRead = PcmRead(result: int, recovery: int, frame: seq<real>)

  /** The device never reports more frames than were requested. */
  predicate WellFormed(r: PcmRead) {
    |r.frame| == SamplesPerFrame && r.result <= SamplesPerFrame && r.recovery <= SamplesPerFrame
  }

  /** The frame count after recovery; negative means the read failed. */
  function FrameCount(r: PcmRead): int {
    if r.result < 0 then r.recovery else r.result
  }

  /** The samples a successful read delivered. */
  function Samples(r: PcmRead): seq<real>
    requires WellFormed(r) && FrameCount(r) >= 0
  {
    r.frame[..FrameCount(r)]
  }

  // ---------------------------------------------------------------- activity

  function Abs(x: real): real {
    if x < 0.0 then -x else x
  }

  predicate Loud(sample: real, threshold: real) {
    Abs(sample) > threshold
  }

  /** The `find_if` over the frame: the index of the first sample louder than
      the threshold, or the frame length when there is none. */
  function FirstLoud(frame: seq<real>, threshold: real): (k: nat)
    ensures k <= |frame|
    ensures forall j :: 0 <= j < k ==> !Loud(frame[j], threshold)
    ensures k < |frame| ==> Loud(frame[k], threshold)
  {
    if |frame| == 0 then 0
    else if Loud(frame[0], threshold) then 0
    else 1 + FirstLoud(frame[1..], threshold)
  }

  /** `has_input`: the search stopped before the end of the frame. */
  function HasInput(frame: seq<real>, threshold: real): (active: bool)
    ensures active <==> exists i :: 0 <= i < |frame| && Loud(frame[i], threshold)
  {
    FirstLoud(frame, threshold) < |frame|
  }

  // ---------------------------------------------------------------- accumulator

  datatype Config = Config(recordThreshold: real, stopRecordDelay: int)

  /** The part of the recorder the capture step changes. */
  datatype Accumulator = Accumulator(
    recordBuffer: seq<real>,
    lastInputTime: int,
    whisperProcessing: bool,
    submitted: seq<seq<real>>,
    delivered: seq<string>)

  /** The string the callback is given for a successful transcription. */
  function Transcript(e: Transcription): string {
    if |e.segments| > 0 then e.segments[0] else Undetected
  }

  /** `processRecordBuffer`. */
  function Drain(a: Accumulator, e: Transcription): Accumulator {
    if a.recordBuffer == [] then a
    else if !Succeeded(e) then
      a.(recordBuffer := [], whisperProcessing := true, submitted := a.submitted + [a.recordBuffer])
    else
      a.(recordBuffer := [], whisperProcessing := false, submitted := a.submitted + [a.recordBuffer],
         delivered := a.delivered + [Transcript(e)])
  }

  /** `alsaCaptureHandle`, with `now` sampled before the read. */
  function Capture(a: Accumulator, c: Config, now: int, r: PcmRead, e: Transcription): Accumulator
    requires WellFormed(r)
  {
    if FrameCount(r) < 0 then a
    else
      var samples := Samples(r);
      var hasInput := HasInput(samples, c.recordThreshold);
      if hasInput || now - a.lastInputTime < c.stopRecordDelay then
        a.(recordBuffer := a.recordBuffer + samples,
           lastInputTime := if hasInput then now else a.lastInputTime)
      else
        Drain(a, e)
  }

  /** The inputs of one iteration of the recorder loop. */
  datatype Tick = Tick(now: int, read: PcmRead, engine: Transcription)

  predicate AllWellFormed(ts: seq<Tick>) {
    forall k :: 0 <= k < |ts| ==> WellFormed(ts[k].read)
  }

  /** Capture steps applied to the ticks in order. */
  function Run(a: Accumulator, c: Config, ts: seq<Tick>): Accumulator
    requires AllWellFormed(ts)
    decreases |ts|
  {
    if ts == [] then a
    else
      var t := ts[|ts| - 1];
      Capture(Run(a, c, ts[..|ts| - 1]), c, t.now, t.read, t.engine)
  }

  /** A successful read whose frame has no loud sample. */
  predicate Silent(t: Tick, c: Config) {
    WellFormed(t.read) && FrameCount(t.read) >= 0 && !HasInput(Samples(t.read), c.recordThreshold)
  }

  predicate AllRead(ts: seq<Tick>) {
    forall k :: 0 <= k < |ts| ==> WellFormed(ts[k].read) && FrameCount(ts[k].read) >= 0
  }

  /** The samples of consecutive successful reads. */
  function Frames(ts: seq<Tick>): seq<real>
    requires AllRead(ts)
    decreases |ts|
  {
    if ts == [] then [] else Frames(ts[..|ts| - 1]) + Samples(ts[|ts| - 1].read)
  }

  // ---------------------------------------------------------------- lemmas

  /** The buffers handed to whisper, joined in order. */
  function Joined(bufs: seq<seq<real>>): seq<real>
    decreases |bufs|
  {
    if bufs == [] then [] else Joined(bufs[..|bufs| - 1]) + bufs[|bufs| - 1]
  }

  /** All the audio the recorder has kept: what went to whisper, then the
      buffer being accumulated. */
  function Audio(a: Accumulator): seq<real> {
    Joined(a.submitted) + a.recordBuffer
  }

  /** No empty buffer was ever handed to whisper. */
  predicate NoEmptyDispatch(a: Accumulator) {
    forall k :: 0 <= k < |a.submitted| ==> a.submitted[k] != []
  }

  /** `b` is a later state than `a`: both logs are only extended, the
      callback fired at most once per buffer handed to whisper, and the kept
      audio is only extended (no sample is reordered or taken back). */
  predicate Extends(a: Accumulator, b: Accumulator) {
    && a.submitted <= b.submitted
    && a.delivered <= b.delivered
    && |b.delivered| - |a.delivered| <= |b.submitted| - |a.submitted|
    && Audio(a) <= Audio(b)
  }

  lemma ExtendsTransitive(a: Accumulator, b: Accumulator, d: Accumulator)
    requires Extends(a, b) && Extends(b, d)
    ensures Extends(a, d)
  {
  }

  /** One capture step keeps every buffer handed to whisper non-empty and
      yields a later state. */
  lemma CaptureExtends(a: Accumulator, c: Config, now: int, r: PcmRead, e: Transcription)
    requires WellFormed(r)
    ensures Extends(a, Capture(a, c, now, r, e))
    ensures NoEmptyDispatch(a) ==> NoEmptyDispatch(Capture(a, c, now, r, e))
  {
  }

  /** Along any run of the recorder loop every buffer handed to whisper is
      non-empty, the logs and the kept audio are only extended, and the
      callback fires at most once per whisper call. */
  lemma {:induction false} RunExtends(a: Accumulator, c: Config, ts: seq<Tick>)
    requires AllWellFormed(ts)
    ensures Extends(a, Run(a, c, ts))
    ensures NoEmptyDispatch(a) ==> NoEmptyDispatch(Run(a, c, ts))
    decreases |ts|
  {
    if ts != [] {
      var p := ts[..|ts| - 1];
      var t := ts[|ts| - 1];
      RunExtends(a, c, p);
      CaptureExtends(Run(a, c, p), c, t.now, t.read, t.engine);
      ExtendsTransitive(a, Run(a, c, p), Run(a, c, ts));
    }
  }

  lemma {:induction false} RunConcat(a: Accumulator, c: Config, s: seq<Tick>, t: seq<Tick>)
    requires AllWellFormed(s) && AllWellFormed(t)
    ensures AllWellFormed(s + t)
    ensures Run(a, c, s + t) == Run(Run(a, c, s), c, t)
    decreases |t|
  {
    assert AllWellFormed(s + t) by {
      forall k | 0 <= k < |s + t| ensures WellFormed((s + t)[k].read) {
        if k < |s| { assert (s + t)[k] == s[k]; } else { assert (s + t)[k] == t[k - |s|]; }
      }
    }
    if t == [] {
      assert s + t == s;
    } else {
      var t' := t[..|t| - 1];
      RunConcat(a, c, s, t');
      assert (s + t)[..|s + t| - 1] == s + t';
    }
  }

  /** Inside the trailing delay every silent frame is kept: the buffer grows
      by exactly the frames read, and nothing is dispatched. */
  lemma {:induction false} GraceWindowKeepsFrames(a: Accumulator, c: Config, ts: seq<Tick>)
    requires forall k :: 0 <= k < |ts| ==> Silent(ts[k], c) && ts[k].now - a.lastInputTime < c.stopRecordDelay
    ensures AllWellFormed(ts) && AllRead(ts)
    ensures Run(a, c, ts) == a.(recordBuffer := a.recordBuffer + Frames(ts))
    decreases |ts|
  {
    if ts == [] {
      assert a.recordBuffer + [] == a.recordBuffer;
    } else {
      var p := ts[..|ts| - 1];
      var t := ts[|ts| - 1];
      assert forall k :: 0 <= k < |p| ==> p[k] == ts[k];
      GraceWindowKeepsFrames(a, c, p);
      assert a.recordBuffer + Frames(p) + Samples(t.read) == a.recordBuffer + (Frames(p) + Samples(t.read));
    }
  }

  /** Past the trailing delay, a run of silent frames dispatches only once:
      the first one drains the buffer, every later one finds it empty. */
  lemma {:induction false} SilenceDrainsOnce(a: Accumulator, c: Config, ts: seq<Tick>)
    requires |ts| > 0
    requires forall k :: 0 <= k < |ts| ==> Silent(ts[k], c) && ts[k].now - a.lastInputTime >= c.stopRecordDelay
    ensures AllWellFormed(ts)
    ensures Run(a, c, ts) == Drain(a, ts[0].engine)
    decreases |ts|
  {
    var p := ts[..|ts| - 1];
    if p == [] {
      assert Run(a, c, p) == a;
    } else {
      assert forall k :: 0 <= k < |p| ==> p[k] == ts[k];
      SilenceDrainsOnce(a, c, p);
    }
  }

  /** One utterance end to end: an active frame, silent frames inside the
      delay after it, then silent frames past the delay. The whole utterance
      reaches whisper exactly once, and the callback fires at most once. */
  lemma UtteranceDispatchedOnce(a: Accumulator, c: Config, first: Tick, window: seq<Tick>, after: seq<Tick>)
    requires WellFormed(first.read) && FrameCount(first.read) >= 0
    requires HasInput(Samples(first.read), c.recordThreshold)
    requires forall k :: 0 <= k < |window| ==> Silent(window[k], c) && window[k].now - first.now < c.stopRecordDelay
    requires |after| > 0
    requires forall k :: 0 <= k < |after| ==> Silent(after[k], c) && after[k].now - first.now >= c.stopRecordDelay
    ensures AllWellFormed([first] + window + after) && AllRead(window)
    ensures var b := Run(a, c, [first] + window + after);
            && b.recordBuffer == []
            && b.lastInputTime == first.now
            && b.submitted == a.submitted + [a.recordBuffer + Samples(first.read) + Frames(window)]
            && b.delivered == a.delivered + (if Succeeded(after[0].engine) then [Transcript(after[0].engine)] else [])
  {
    var a1 := Capture(a, c, first.now, first.read, first.engine);
    assert Run(a, c, [first]) == a1 by {
      assert [first][..0] == [];
    }
    GraceWindowKeepsFrames(a1, c, window);
    var a2 := a1.(recordBuffer := a1.recordBuffer + Frames(window));
    SilenceDrainsOnce(a2, c, after);
    RunConcat(a, c, [first], window);
    RunConcat(a, c, [first] + window, after);
    assert |Samples(first.read)| > 0;
  }

  /** The state after any prefix of a run lies between the initial and the
      final state. */
  lemma RunPrefix(a: Accumulator, c: Config, ts: seq<Tick>, k: nat)
    requires AllWellFormed(ts) && k <= |ts|
    ensures AllWellFormed(ts[..k])
    ensures Extends(a, Run(a, c, ts[..k])) && Extends(Run(a, c, ts[..k]), Run(a, c, ts))
  {
    assert ts == ts[..k] + ts[k..];
    assert AllWellFormed(ts[k..]) by {
      forall j | 0 <= j < |ts[k..]| ensures WellFormed(ts[k..][j].read) {
        assert ts[k..][j] == ts[k + j];
      }
    }
    RunConcat(a, c, ts[..k], ts[k..]);
    RunExtends(a, c, ts[..k]);
    RunExtends(Run(a, c, ts[..k]), c, ts[k..]);
  }

  // ---------------------------------------------------------------- recorder

  /** The flags and model state the capture step does not change. */
  datatype Control = Control(
    recording: bool,
    terminate: bool,
    recorderJoinable: bool,
    alsaInitOk: bool,
    whisperInitOk: bool,
    whisperCtx: Context,
    whisperModelPath: string,
    hasCallback: bool)

  /** What one pass of the `doRecordAudio` loop body did. */
  datatype Iteration = Exit | Slept | Captured

  /** `reloadModel` is a stub that accepts every path. */
  function ReloadModel(modelPath: string): bool {
    true
  }

  class SonantImpl {
    var recording: bool
    var terminate: bool
    var recordThreshold: real
    var recordBuffer: seq<real>
    /** `m_recorderThread` holds a thread that has not been joined. */
    var recorderJoinable: bool
    var alsaInitOk: bool
    var lastInputTime: int
    var stopRecordDelay: int
    var whisperInitOk: bool
    var whisperCtx: Context
    var whisperModelPath: string
    var whisperProcessing: bool
    var hasCallback: bool
    /** Every buffer handed to `whisper_full`, in order. */
    var submitted: seq<seq<real>>
    /** Every string the transcription callback was called with, in order. */
    var delivered: seq<string>

    function Acc(): Accumulator
      reads this
    {
      Accumulator(recordBuffer, lastInputTime, whisperProcessing, submitted, delivered)
    }

    function Cfg(): Config
      reads this
    {
      Config(recordThreshold, stopRecordDelay)
    }

    function Controls(): Control
      reads this
    {
      Control(recording, terminate, recorderJoinable, alsaInitOk, whisperInitOk, whisperCtx, whisperModelPath, hasCallback)
    }

    /** The loop reads a frame only while initialised, not terminated and recording. */
    predicate Capturing()
      reads this
    {
      alsaInitOk && !terminate && recording
    }

    /** The constructor takes the current time as the last input time. */
    constructor (now: int)
      ensures Acc() == Accumulator([], now, false, [], [])
      ensures Cfg() == Config(DefaultRecordThreshold, DefaultStopRecordDelay)
      ensures Controls() == Control(false, false, false, false, false, NoContext, "", false)
    {
      recording := false;
      terminate := false;
      recordThreshold := DefaultRecordThreshold;
      recordBuffer := [];
      recorderJoinable := false;
      alsaInitOk := false;
      lastInputTime := now;
      stopRecordDelay := DefaultStopRecordDelay;
      whisperInitOk := false;
      whisperCtx := NoContext;
      whisperModelPath := "";
      whisperProcessing := false;
      hasCallback := false;
      submitted := [];
      delivered := [];
    }

    /** `initialize`: opening the device (`deviceOk`) starts the recorder
        thread, applies the parameters and marks ALSA ready; then the whisper
        context is created (`contextOk`), and only if that succeeds is the
        model path taken and whisper marked ready. A call with a working
        device while the previous recorder thread has not been joined would
        assign over a joinable std::thread, which terminates the process. */
    method Initialize(modelPath: string, params: SonantParams, deviceOk: bool, contextOk: bool) returns (ok: bool)
      requires recorderJoinable ==> !deviceOk
      modifies this
      ensures ok == (deviceOk && contextOk)
      ensures !deviceOk ==> Controls() == old(Controls()) && Cfg() == old(Cfg())
      ensures deviceOk ==>
                && recorderJoinable && alsaInitOk
                && Cfg() == Config(params.recordThreshold, params.pauseRecorderDelay)
                && whisperCtx == (if contextOk then Loaded(modelPath) else NoContext)
                && whisperModelPath == (if contextOk then modelPath else old(whisperModelPath))
                && whisperInitOk == (contextOk || old(whisperInitOk))
      ensures recording == old(recording) && terminate == old(terminate) && hasCallback == old(hasCallback)
      ensures Acc() == old(Acc())
    {
      if !deviceOk {
        return false;
      }
      recorderJoinable := true;
      recordThreshold := params.recordThreshold;
      stopRecordDelay := params.pauseRecorderDelay;
      alsaInitOk := true;
      whisperCtx := if contextOk then Loaded(modelPath) else NoContext;
      if !contextOk {
        return false;
      }
      whisperModelPath := modelPath;
      whisperInitOk := true;
      return true;
    }

    /** `requestChangeModel`: the same path is accepted without reloading;
        another path is taken iff `reloadModel` accepts it, which it always
        does. The whisper context itself is never replaced. */
    method RequestChangeModel(modelPath: string) returns (ok: bool)
      modifies this
      ensures ok
      ensures whisperModelPath == modelPath
      ensures Controls() == old(Controls()).(whisperModelPath := modelPath)
      ensures Acc() == old(Acc()) && Cfg() == old(Cfg())
    {
      ok := true;
      if modelPath != whisperModelPath {
        ok := ReloadModel(modelPath);
        if ok {
          whisperModelPath := modelPath;
        }
      }
    }

    /** `startRecorder`: refused while no model path is set or ALSA is not
        initialised, with the flag left as it was; otherwise recording. */
    method StartRecorder() returns (ok: bool)
      modifies this
      ensures ok == (whisperModelPath != "" && alsaInitOk)
      ensures recording == (ok || old(recording))
      ensures Controls() == old(Controls()).(recording := recording)
      ensures Acc() == old(Acc()) && Cfg() == old(Cfg())
    {
      if whisperModelPath == "" {
        return false;
      }
      if !alsaInitOk {
        return false;
      }
      recording := true;
      return true;
    }

    /** `stopRecorder`: unconditional, hence idempotent; the buffer is kept. */
    method StopRecorder()
      modifies this
      ensures Controls() == old(Controls()).(recording := false)
      ensures Acc() == old(Acc()) && Cfg() == old(Cfg())
    {
      recording := false;
    }

    /** `terminate`: the flag only goes from false to true, and a joinable
        recorder thread is joined (it leaves its loop on the flag), so it is
        no longer joinable. */
    method Terminate()
      modifies this
      ensures Controls() == old(Controls()).(terminate := true, recorderJoinable := false)
      ensures Acc() == old(Acc()) && Cfg() == old(Cfg())
    {
      if !terminate {
        terminate := true;
      }
      if recorderJoinable {
        recorderJoinable := false;
      }
    }

    /** `setCallbackTranscriptionReady`: a callback is now registered. */
    method SetCallbackTranscriptionReady()
      modifies this
      ensures Controls() == old(Controls()).(hasCallback := true)
      ensures Acc() == old(Acc()) && Cfg() == old(Cfg())
    {
      hasCallback := true;
    }

    /** `processRecordBuffer`. The callback is called unchecked, so it must
        be registered whenever it would be called; and the context is passed
        to whisper unchecked, so one must exist whenever a buffer is
        dispatched. */
    method ProcessRecordBuffer(engine: Transcription)
      requires hasCallback || Drain(Acc(), engine).delivered == delivered
      requires whisperCtx == NoContext ==> recordBuffer == []
      modifies this
      ensures Acc() == Drain(old(Acc()), engine)
      ensures Controls() == old(Controls()) && Cfg() == old(Cfg())
    {
      if recordBuffer == [] {
        return;
      }
      whisperProcessing := true;
      var result := engine.code;
      submitted := submitted + [recordBuffer];
      recordBuffer := [];
      if result != 0 {
        return;
      }
      var transcript := Undetected;
      if |engine.segments| > 0 {
        transcript := engine.segments[0];
      }
      delivered := delivered + [transcript];
      whisperProcessing := false;
    }

    /** `alsaCaptureHandle`: `now` is the time taken before the read. */
    method AlsaCaptureHandle(now: int, read: PcmRead, engine: Transcription)
      requires WellFormed(read)
      requires hasCallback || Capture(Acc(), Cfg(), now, read, engine).delivered == delivered
      requires whisperCtx == NoContext ==> Capture(Acc(), Cfg(), now, read, engine).submitted == submitted
      modifies this
      ensures Acc() == Capture(old(Acc()), Cfg(), now, read, engine)
      ensures Controls() == old(Controls()) && Cfg() == old(Cfg())
    {
      var deltaTimeSinceLastInput := now - lastInputTime;
      var frames := read.result;
      if frames < 0 {
        frames := read.recovery;
      }
      if frames < 0 {
        return;
      }
      var hasInput := HasInput(read.frame[..frames], recordThreshold);
      if hasInput || deltaTimeSinceLastInput < stopRecordDelay {
        if hasInput {
          lastInputTime := now;
        }
        recordBuffer := recordBuffer + read.frame[..frames];
      } else {
        ProcessRecordBuffer(engine);
      }
    }

    /** One pass of the `doRecordAudio` loop body: it leaves when ALSA is not
        initialised or termination was requested (checked in that order,
        before the recording flag), sleeps without reading while not
        recording, and otherwise captures one frame. */
    method LoopIteration(t: Tick) returns (it: Iteration)
      requires WellFormed(t.read)
      requires Capturing() && !hasCallback ==> Capture(Acc(), Cfg(), t.now, t.read, t.engine).delivered == delivered
      requires Capturing() && whisperCtx == NoContext ==>
                 Capture(Acc(), Cfg(), t.now, t.read, t.engine).submitted == submitted
      modifies this
      ensures it == (if !alsaInitOk || terminate then Exit else if !recording then Slept else Captured)
      ensures Acc() == (if it == Captured then Capture(old(Acc()), Cfg(), t.now, t.read, t.engine) else old(Acc()))
      ensures Controls() == old(Controls()) && Cfg() == old(Cfg())
    {
      if !alsaInitOk {
        return Exit;
      }
      if terminate {
        return Exit;
      }
      if !recording {
        return Slept;
      }
      AlsaCaptureHandle(t.now, t.read, t.engine);
      return Captured;
    }

    /** `doRecordAudio` over a finite sequence of iterations: each iteration
        that does not leave the loop consumes one tick (a 100 ms sleep or one
        frame). No other thread acts between the iterations. */
    method DoRecordAudio(ticks: seq<Tick>) returns (iterations: nat)
      requires AllWellFormed(ticks)
      requires Capturing() && !hasCallback ==> Run(Acc(), Cfg(), ticks).delivered == delivered
      requires Capturing() && whisperCtx == NoContext ==> Run(Acc(), Cfg(), ticks).submitted == submitted
      modifies this
      ensures iterations == (if !alsaInitOk || terminate then 0 else |ticks|)
      ensures Acc() == (if Capturing() then Run(old(Acc()), Cfg(), ticks) else old(Acc()))
      ensures Controls() == old(Controls()) && Cfg() == old(Cfg())
    {
      iterations := 0;
      while iterations < |ticks|
        invariant iterations <= |ticks|
        invariant Controls() == old(Controls()) && Cfg() == old(Cfg())
        invariant !alsaInitOk || terminate ==> iterations == 0
        invariant AllWellFormed(ticks[..iterations])
        invariant Acc() == (if Capturing() then Run(old(Acc()), Cfg(), ticks[..iterations]) else old(Acc()))
      {
        ghost var before := Acc();
        var t := ticks[iterations];
        if Capturing() && (!hasCallback || whisperCtx == NoContext) {
          RunPrefix(old(Acc()), Cfg(), ticks, iterations + 1);
          RunPrefix(old(Acc()), Cfg(), ticks, iterations);
          assert ticks[..iterations + 1][..iterations] == ticks[..iterations];
        }
        var it := LoopIteration(t);
        if it == Exit {
          break;
        }
        assert ticks[..iterations + 1][..iterations] == ticks[..iterations];
        iterations := iterations + 1;
      }
      if iterations == |ticks| {
        assert ticks[..iterations] == ticks;
      }
    }
  }
}
