# Sonant: a verified model of the capture and transcription core

Sonant is a small speech-to-text library. A recorder captures 16 kHz mono
audio and cuts it into utterances by amplitude. It hands each utterance to
whisper and reports the recognised text. The library has two back ends:

- **`SonantImpl`** (module `Sonant`). An ALSA recorder thread reads frames
  of 256 float samples. A frame belongs to the current utterance when some
  sample is louder than the record threshold, or when it arrives within the
  stop delay after the last loud frame. Once the delay has passed, the
  accumulated buffer goes to whisper. On success, the first segment (or
  `[UNDETECTED]`) goes to the transcription callback.
- **`SonantWorker`** (modules `SonantWorker` and `OldSonantWorker`). A Qt
  worker records with SDL for a fixed duration. SDL's callback appends each
  16-bit chunk to a heap buffer that grows by copying. The whole recording is
  then transcribed. The current worker appends the segments to its
  transcription. The earlier worker, in `old/`, replaces the transcription.

Two example programs are modelled as well:

- **The stand-alone recorder** (module `TestWhisperRecorder`). It uses the
  same callback pattern on global state, with `realloc`.
- **The polling detector** (module `TestWhisperDetector`). It computes the
  integer mean amplitude of each chunk and compares it with THRESHOLD.

Shared pieces:

- Module `Whisper`: a transcription result (code and segments) and the
  model context.
- Module `SampleBuffer`: the byte-to-sample count, the new-buffer-and-copy
  growth step, and the `memcpy` into a buffer.

Stateful code is modelled by classes whose methods change their fields.
Each method's `ensures` ties the new state to pure specification functions,
or spells out the new state outright.

- For `SonantImpl`, the specification is the pure step `Sonant.Capture`, its
  fold `Sonant.Run`, and the dispatch `Sonant.Drain`. The behaviour of an
  utterance is proved as lemmas about them.
- The workers' recorded samples are the ghost view `Recorded()` of the heap
  buffer. Each callback is proved to append exactly its chunk. The workers
  never reset their sample count between recordings. So a recording as the
  source writes it (`StartRecordAsWritten`, `RecordAsWritten`) holds as many
  zeros as the earlier recordings did, followed by the new chunks. With the
  count reset (`StartRecord`, `Record`), a recording holds exactly the new
  chunks.

Outside inputs enter as parameters:

- **Devices, allocations and model loads:** their success flags.
- **A PCM read:** the values `snd_pcm_readi` and `snd_pcm_recover` return,
  with the frame they filled.
- **Whisper:** the result code and segment list it produced.
- **The clock:** an integer millisecond timestamp.
- **Chunks delivered during a recording:** a sequence of sample sequences.

The transcription callback is the sequence of strings it was called with,
and `whisper_full` is the sequence of buffers it was handed.

Where the documentation and the code disagree, the model follows the code:

- `requestChangeModel` only stores the new path. `reloadModel` is a stub
  that accepts every path, so the context is never swapped.
- `m_whisperProcessing` is used in sonant_impl.cpp but is not declared in
  sonant_impl.h. It is modelled as a plain flag.

## Model

| member | source | states |
|---|---|---|
| `Sonant.FirstLoud` | sonant_impl.cpp:191-196 | the `find_if` index is within the frame, every earlier sample is at or below the threshold, and the sample at the index (if any) is strictly louder |
| `Sonant.HasInput` | sonant_impl.cpp:191-198 | a frame is active iff some sample among the frames read has absolute value strictly above the threshold |
| `Sonant.CaptureExtends` | sonant_impl.cpp:179-253 | one capture step only extends the whisper and callback logs. It fires the callback at most as often as it calls whisper, never hands whisper an empty buffer, and only extends the audio kept (the buffers handed to whisper, then the current buffer) |
| `Sonant.RunConcat` | sonant_impl.cpp:146-165 | running the recorder loop over two consecutive stretches of input equals running it over their concatenation |
| `Sonant.GraceWindowKeepsFrames` | sonant_impl.cpp:200-208 | silent frames arriving within the stop delay are all kept: the buffer grows by exactly their samples and nothing is dispatched |
| `Sonant.SilenceDrainsOnce` | sonant_impl.cpp:209-219 | after the stop delay, a run of silent frames dispatches exactly once (the first drains, the rest find the buffer empty) |
| `Sonant.UtteranceDispatchedOnce` | sonant_impl.cpp:172-253 | an active frame, then silent frames within the delay, then silent frames past it: the whole utterance (earlier buffer, active frame, grace frames) reaches whisper exactly once, the buffer ends empty, and the callback fires at most once |
| `Sonant.RunExtends` | sonant_impl.cpp:140-253 | along any run of the recorder loop, no empty buffer reaches whisper. The whisper and callback logs and the kept audio are only extended, and there is at most one callback per whisper call |
| `Sonant.RunPrefix` | sonant_impl.cpp:146-165 | the state after any prefix of a run lies between the initial and the final state, in the sense of `RunExtends` |
| `Sonant.SonantImpl.constructor` | sonant_impl.h:40-60 | a new engine is idle, with an empty buffer, threshold 0.25, stop delay 1500 ms, no context, no model path, no callback, and the last input time the construction time |
| `Sonant.SonantImpl.Initialize` | sonant_impl.cpp:38-91 | a device failure changes nothing and returns false; otherwise the thread starts (and is joinable), the threshold and delay come from the parameters and ALSA is ready; then the context is created, and the path is taken and whisper marked ready only when that succeeds; returns true iff both succeed |
| `Sonant.SonantImpl.RequestChangeModel` | sonant_impl.cpp:93-103 | always succeeds and leaves the given path as the model path, with nothing else changed |
| `Sonant.SonantImpl.StartRecorder` | sonant_impl.cpp:105-120 | succeeds iff a model path is set and ALSA is ready, and then sets the recording flag; otherwise the flag is unchanged |
| `Sonant.SonantImpl.StopRecorder` | sonant_impl.cpp:122-124 | clears the recording flag and changes nothing else (the buffer is kept) |
| `Sonant.SonantImpl.Terminate` | sonant_impl.cpp:126-134 | sets the terminate flag and joins the recorder thread, so it is no longer joinable; changes nothing else |
| `Sonant.SonantImpl.SetCallbackTranscriptionReady` | sonant_impl.cpp:136-138 | registers the callback and changes nothing else |
| `Sonant.SonantImpl.ProcessRecordBuffer` | sonant_impl.cpp:215-261 | the new buffer, flag and logs are the dispatch `Drain` of the old ones; configuration and control flags unchanged; a non-empty buffer needs a registered callback and a context, which the source uses unchecked |
| `Sonant.SonantImpl.AlsaCaptureHandle` | sonant_impl.cpp:172-213 | the new buffer, last-input time, flag and logs are the step `Capture` of the old ones with the current time, read and transcription |
| `Sonant.SonantImpl.LoopIteration` | sonant_impl.cpp:146-164 | the loop body leaves when ALSA is not ready or termination was requested, sleeps when not recording, and otherwise performs one capture step |
| `Sonant.SonantImpl.DoRecordAudio` | sonant_impl.cpp:140-170 | over a finite sequence of iterations, the state ends as the fold `Run` of the capture step when capturing, and unchanged otherwise; the loop runs zero iterations when it would leave at once |
| `SampleBuffer.SampleCount` | sonantworker.cpp:27 | a chunk of `len` bytes holds `len / 2` whole 16-bit samples, dropping an odd trailing byte |
| `SampleBuffer.Reallocate` | sonantworker.cpp:30-50 | the grown buffer is new, has exactly the requested size, keeps the recorded samples and is zero beyond them |
| `SampleBuffer.CopyAt` | sonantworker.cpp:53-54 | the chunk lands at the given offset, with everything before and after it untouched |
| `SonantWorker.Worker.constructor` | sonantworker.cpp:58-71 | no buffer, zero count and capacity, not initialised, idle, no context, empty model name and transcription |
| `SonantWorker.Worker.Initialize` | sonantworker.cpp:82-108 | initialised iff SDL starts and either a context exists or the default model loads; the model name is not recorded; nothing else changes |
| `SonantWorker.Worker.SetWhisperModel` | sonantworker.cpp:110-138 | no change while busy or when the current model is requested; otherwise the path is recorded even when loading fails, and the old context is kept on failure |
| `SonantWorker.Worker.PrepareMemoryAsWritten` | sonantworker.cpp:156-162 | the buffer is replaced by a fresh one of 81920 samples while the count of the previous recording is kept: the buffer invariant survives iff that count is below 81920, and the samples then counted as recorded are that many zeros |
| `SonantWorker.Worker.PrepareMemory` | sonantworker.cpp:156-162 | a fresh buffer of 81920 samples, with nothing recorded |
| `SonantWorker.Worker.DeliverChunks` | sonantworker.cpp:173-180 | the chunks SDL pushes while the recording sleeps are appended in order to the recorded samples, and nothing else in the session changes |
| `SonantWorker.Worker.StartRecordAsWritten` | sonantworker.cpp:145-191 | 1 when not initialised and 2 when busy, changing nothing. Otherwise 4 when the device fails, with a fresh buffer holding the stale count of zeros. Else 0: the recorded samples are as many zeros as the previous count, then the concatenated chunks, and the count grows by their length. Recording is off, and the transcription is extended by the segments on success, or processing is left set on failure |
| `SonantWorker.Worker.StartRecord` | sonantworker.cpp:145-191 | the same with the count reset by the corrected "prepare memory": 4 leaves an empty fresh buffer, and 0 leaves exactly the concatenated chunks recorded |
| `SonantWorker.Worker.ProcessSpeech` | sonantworker.cpp:248-295 | 1 or 2 with no change when not initialised or busy; a failed transcription returns 2 and leaves processing set; on success the segments are appended in order and processing is cleared |
| `SonantWorker.AudioCallback` | sonantworker.cpp:15-56 | no change without a worker or a buffer; otherwise the chunk is appended after the recorded samples, and the capacity becomes exactly `count + n + 1` when that exceeds it; the buffer invariant is kept |
| `OldSonantWorker.Worker.constructor` | old/sonantworker.cpp:58-72 | no buffer, zero count and capacity, not initialised, idle, no context, empty model name and transcription |
| `OldSonantWorker.Worker.Initialize` | old/sonantworker.cpp:114-143 | initialised iff SDL starts and either a context exists or the default model loads; a fresh load records the default model's name |
| `OldSonantWorker.Worker.SetModel` | old/sonantworker.cpp:145-176 | no change while busy, when the current model is requested, or when loading fails; otherwise both context and model name become the new ones |
| `OldSonantWorker.Worker.PrepareMemoryAsWritten` | old/sonantworker.cpp:189-195 | the buffer is replaced by a fresh one of 16384 samples while the count of the previous recording is kept: the invariant survives iff that count is below 16384, and the samples then counted as recorded are that many zeros |
| `OldSonantWorker.Worker.PrepareMemory` | old/sonantworker.cpp:189-195 | a fresh buffer of 16384 samples, with nothing recorded |
| `OldSonantWorker.Worker.OnRequestRecord` | old/sonantworker.cpp:100-112 | no change when not initialised or busy. Otherwise a full record as written: the recorded samples are the stale count of zeros, then the chunks. The transcription is replaced by the segments on success, and initialisation, context and model name stay the same |
| `OldSonantWorker.Worker.DeliverChunks` | old/sonantworker.cpp:206-213 | the chunks SDL pushes while the recording sleeps are appended in order to the recorded samples, and nothing else in the session changes |
| `OldSonantWorker.Worker.RecordAsWritten` | old/sonantworker.cpp:178-223 | 1 or 2 with no change when not initialised or busy. Otherwise 4 when the device fails, with a fresh buffer holding the stale count of zeros. Else 0: the stale count of zeros, then the chunks, are recorded, and the count grows by the chunks' length; the speech is then processed |
| `OldSonantWorker.Worker.Record` | old/sonantworker.cpp:178-223 | the same with the count reset by the corrected "prepare memory": 4 leaves an empty fresh buffer, and 0 leaves exactly the chunks recorded |
| `OldSonantWorker.Worker.ProcessSpeech` | old/sonantworker.cpp:225-276 | 1 or 2 with no change when not initialised or busy; a failed transcription returns 2 with processing still set; on success the transcription becomes exactly the segments in order |
| `OldSonantWorker.AudioCallback` | old/sonantworker.cpp:15-56 | the same growth and append rule as the current worker's callback |
| `TestWhisperRecorder.Recorder.constructor` | examples/test-whisper/source.cpp:10-15 | not recording, no buffer, zero length and count |
| `TestWhisperRecorder.Recorder.AudioCallback` | examples/test-whisper/source.cpp:68-88 | outside a recording, or when the needed reallocation fails, nothing changes; otherwise the length becomes exactly `total + n` when the chunk does not fit, earlier samples are kept, the chunk sits at offset `total`, `total` grows by `n`, and `total <= length` is kept |
| `TestWhisperRecorder.Recorder.AudioCallbackAsWritten` | examples/test-whisper/source.cpp:71-87 | when `realloc` fails the recording continues with a null buffer and the length already raised to cover the chunk, so the invariant is lost and the next chunk of the same size skips the growth test |
| `TestWhisperRecorder.Recorder.AllocateAudioBuffer` | examples/test-whisper/source.cpp:124-130 | 4096 samples are allocated but the logical length stays 0, so a chunk takes the growth path iff it is non-empty |
| `TestWhisperRecorder.Recorder.StartRecord` | examples/test-whisper/source.cpp:98-152 | 1 with no change when SDL, the device or the allocation fails; else 0, not recording, with exactly the concatenated chunks recorded and the length equal to the count |
| `TestWhisperDetector.AbsSumAtMost` | examples/test-whisper/main.cpp:112-115 | a sum of magnitudes each at most `m` is between 0 and `m` times the sample count |
| `TestWhisperDetector.SumFitsInt32` | examples/test-whisper/main.cpp:102-115 | over at most 4096 16-bit samples the magnitude sum is at most 32768 · 4096, inside a 32-bit `int` |
| `TestWhisperDetector.DetectChunk` | examples/test-whisper/main.cpp:107-121 | no detection iff the dequeued length is not positive; otherwise the mean is the truncated quotient of the magnitude sum over the `len / 2` samples, and voice is reported iff it is strictly above 1000 |
| `TestWhisperDetector.MeanAboveImpliesLoudSample` | examples/test-whisper/main.cpp:117-118 | a mean above the threshold implies some sample above it |
| `TestWhisperDetector.LoudSampleNotVoice` | examples/test-whisper/main.cpp:117-118 | the converse fails: one sample above the threshold among quiet ones is not voice |

## Left out

- ALSA, SDL and whisper calls: foreign libraries. They are represented by their results (success flags, the read's counts and frame, the transcription code and segments).
- The recorder thread, its join, the atomics and the mutexes of `SonantImpl`, and the `QMutexLocker` slots of the earlier worker: concurrency. `DoRecordAudio` runs a finite sequence of loop iterations with no other call in between.
- The race in `initialize` (sonant_impl.cpp:62-67): the recorder thread starts before `m_alsaInitOk` is set, so its first pass can take the unreachable branch and end the thread. The model sets both in one step.
- An `initialize` with a working device while the previous recorder thread is still joinable (not yet joined by `terminate`) assigns over a joinable `std::thread`, which terminates the process. So `Sonant.SonantImpl.Initialize` requires that no joinable thread exists when the device opens.
- `Sonant.SonantImpl.ProcessRecordBuffer`: requires a context whenever a non-empty buffer is dispatched. The source passes the context to `whisper_full` unchecked (sonant_impl.cpp:231-247), and a null context there is not modelled. The state is reachable: `initialize` with a working device but a failed load (sonant_impl.cpp:72, 81-83), then `requestChangeModel` (which only stores the path), then `startRecorder` (which gates only on the path). `AlsaCaptureHandle`, `LoopIteration` and `DoRecordAudio` carry the same requirement for the dispatches they cause.
- `SonantWorker.Worker.StartRecordAsWritten`: requires the stale count to be below 81920 when a recording starts. Beyond that the next callback, or `processSpeech`, reads past the fresh buffer, which is undefined behaviour. `PrepareMemoryAsWritten` shows where the invariant is lost.
- `OldSonantWorker.Worker.RecordAsWritten`: requires the stale count to be below 16384 when a recording starts, for the same reason. A first recording of 16384 samples or more (5 s at 16 kHz is 80000) already makes the next `record` undefined.
- `OldSonantWorker.Worker.OnRequestRecord`: inherits that requirement from `RecordAsWritten`.
- `SonantWorker.Worker.StartRecord`: models the corrected reset of the count, not the source, which `StartRecordAsWritten` models.
- `OldSonantWorker.Worker.Record`: models the corrected reset of the count, not the source, which `RecordAsWritten` models.
- `steady_clock`: replaced by an integer millisecond `now`. In `DoRecordAudio`, each 100 ms idle sleep only consumes a tick.
- The int16-to-float normalisation by 32768 before `whisper_full`: floating point. Samples are exact integers, and the ALSA frames are exact reals.
- `writeRecordToFile`, `speechToTextFromFile`, `speechToTextFromBuffer` and the `AUDIO_DEBUG` dumps: file I/O and whisper calls whose results are only printed.
- Qt signals (`recordCompleted`, `transcriptionReady`) and logging: no state.
- The `nullptr` checks after `new T[n]{0}` (return code 3 and the callback's allocation branch): a throwing `new` never yields null, so these branches are dead.
- `SampleBuffer.CopyAt`: copies whole samples. `memcpy` of an odd byte count also writes half a sample past them, which is not modelled.
- `SonantWorker.AudioCallback`: does not model the 32-bit wrap-around of `Uint32` counts, because a wrap needs more than 2^31 recorded samples.
- `OldSonantWorker.AudioCallback`: does not model the 32-bit wrap-around of `Uint32` counts, for the same reason.
- `TestWhisperRecorder.Recorder.AudioCallback`: does not model the comparison of the unsigned count with the signed `int` length, because they differ only beyond 2^31 samples.
- `TestWhisperRecorder.Recorder.AudioCallback`: always returns a new array. `realloc` may instead grow the block in place, which is indistinguishable here.
- `TestWhisperRecorder.Recorder.StartRecord`: assumes every reallocation during the recording succeeds. Failure is modelled on the callback alone.
- `TestWhisperRecorder.Recorder.StartRecord`: leaves out the chunks SDL delivers between unpausing the device and setting the flag. The callback ignores them anyway.
- The detector's `while (isRunning)` loop: it runs until the SIGINT handler clears `isRunning` (examples/test-whisper/main.cpp:147-151). Signals are outside the model, which covers one pass of the body.
- `TestWhisperDetector.DetectChunk`: requires `len != 1`, because that length gives zero samples and the division by zero is undefined behaviour.
- The example mains, `sonant.cpp` (pImpl delegation), and the `SonantManager` Qt plumbing and headers: wrappers and declarations.
- `onRequestRecord`: declared in sonantworker.h but not defined in sonantworker.cpp. Only the earlier worker's definition is modelled.

## Findings

| source | as written | input that shows it | evidently intended | confidence | as-written member | corrected member |
|---|---|---|---|---|---|---|
| sonantworker.cpp:156-162 | "prepare memory" allocates a fresh zeroed buffer but never resets `recordedSampleCount` | a second `startRecord` after a first recording of 80000 samples: the new chunks land after 80000 stale zeros, which whisper then transcribes with them, and the count keeps growing | the count is reset to 0 with the new buffer | not executed | `SonantWorker.Worker.PrepareMemoryAsWritten` | `SonantWorker.Worker.PrepareMemory` |
| old/sonantworker.cpp:189-195 | "prepare memory" allocates 16384 fresh samples but keeps the previous `recordedSampleCount` | a second `record` after a first one of 80000 samples: the count exceeds the new capacity, so the next callback copies 80000 samples out of a 16384-sample buffer | the count is reset to 0 with the new buffer | not executed | `OldSonantWorker.Worker.PrepareMemoryAsWritten` | `OldSonantWorker.Worker.PrepareMemory` |
| examples/test-whisper/source.cpp:75-80 | the length is raised before `realloc`, and a failed `realloc` overwrites the only pointer to the buffer with null | a chunk of 4096 samples that needs growth while `realloc` fails, then another chunk of 4096 samples: the second passes the growth test and is copied through the null pointer | on failure the old buffer and length are kept and the chunk is dropped | not executed | `TestWhisperRecorder.Recorder.AudioCallbackAsWritten` | `TestWhisperRecorder.Recorder.AudioCallback` |
