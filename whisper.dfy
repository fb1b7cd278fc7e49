/**
 * The transcription engine (whisper.cpp) as seen by the recorders: it is a
 * foreign library, so a call to it is represented by the values it would
 * return rather than by its computation.
 */
module Whisper {

  /** The outcome of one `whisper_full` call: its return code (0 is success)
      and, on success, the texts that `whisper_full_get_segment_text` yields
      for segments 0 .. `whisper_full_n_segments` - 1, in order. */
  datatype Transcription = Transcription(code: int, segments: seq<string>)

  /** A `whisper_context *`: null, or a context loaded from a model file. */
  datatype Context = NoContext | Loaded(model: string)

  predicate Succeeded(t: Transcription) {
    t.code == 0
  }
}
