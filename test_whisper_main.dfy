/**
 * The polling voice detector of the SDL test program: each dequeued chunk
 * of 16-bit samples is reduced to the truncated mean of the samples'
 * absolute values, accumulated in a 32-bit `int`, and voice is reported
 * when that mean is strictly above THRESHOLD.
 */
module TestWhisperDetector {
  /** BUFFER_SIZE: the dequeue buffer holds this many 16-bit samples. */
  const BufferSize: nat := 4096
  /** THRESHOLD: the mean amplitude above which voice is reported. */
  const Threshold: int := 1000

  /** The C `int` the sum and the mean are held in. */
  newtype int32 = x: int | -0x8000_0000 <= x < 0x8000_0000

  predicate IsSample(x: int) {
    -32768 <= x <= 32767
  }

  function Abs(x: int): int {
    if x < 0 then -x else x
  }

  /** The sum of the absolute values of `s`. */
  function AbsSum(s: seq<int>): int {
    if |s| == 0 then 0 else AbsSum(s[..|s| - 1]) + Abs(s[|s| - 1])
  }

  /** A sum of magnitudes each at most `m` is at most `m` per sample. */
  lemma {:induction false} AbsSumAtMost(s: seq<int>, m: int)
    requires forall i :: 0 <= i < |s| ==> Abs(s[i]) <= m
    ensures 0 <= AbsSum(s) <= m * |s|
  {
    if |s| > 0 {
      var init := s[..|s| - 1];
      assert forall i :: 0 <= i < |init| ==> init[i] == s[i];
      AbsSumAtMost(init, m);
      assert Abs(s[|s| - 1]) <= m;
    }
  }

  /** Over at most BUFFER_SIZE samples the sum fits a 32-bit `int`. */
  lemma SumFitsInt32(s: seq<int>)
    requires |s| <= BufferSize
    requires forall i :: 0 <= i < |s| ==> IsSample(s[i])
    ensures 0 <= AbsSum(s) <= 32768 * BufferSize < 0x8000_0000
  {
    assert forall i :: 0 <= i < |s| ==> Abs(s[i]) <= 32768;
    AbsSumAtMost(s, 32768);
  }

  /** What one pass of the polling loop reports. */
  datatype Detection = NoData | Quiet(avg: int) | Voice(avg: int)

  /** The body of the polling loop for a dequeue of `len` bytes into
      `buffer`: nothing for an empty dequeue; otherwise the mean magnitude of
      the `len / 2` samples read, with voice reported exactly when it is
      above the threshold. A one-byte dequeue would divide by zero and is
      excluded. */
  method DetectChunk(buffer: seq<int>, len: int) returns (d: Detection)
    requires |buffer| == BufferSize
    requires forall i :: 0 <= i < |buffer| ==> IsSample(buffer[i])
    requires len <= 2 * BufferSize && len != 1
    ensures len <= 0 <==> d == NoData
    ensures len > 0 ==> d.avg == AbsSum(buffer[..len / 2]) / (len / 2)
    ensures len > 0 ==> (d.Voice? <==> d.avg > Threshold)
  {
    if len <= 0 {
      return NoData;
    }
    var numSamples: int32 := (len / 2) as int32;
    var sum: int32 := 0;
    var i: int32 := 0;
    while i < numSamples
      invariant 0 <= i <= numSamples
      invariant sum as int == AbsSum(buffer[..i])
    {
      assert buffer[..i + 1][..i] == buffer[..i];
      SumFitsInt32(buffer[..i + 1]);
      sum := sum + (Abs(buffer[i]) as int32);
      i := i + 1;
    }
    assert buffer[..i] == buffer[..len / 2];
    var avg := sum / numSamples;
    if avg as int > Threshold {
      d := Voice(avg as int);
    } else {
      d := Quiet(avg as int);
    }
  }

  /** When the mean is above the threshold some sample is louder than the
      threshold. */
  lemma MeanAboveImpliesLoudSample(s: seq<int>)
    requires |s| > 0 && AbsSum(s) / |s| > Threshold
    ensures exists i :: 0 <= i < |s| && Abs(s[i]) > Threshold
  {
    if forall i :: 0 <= i < |s| ==> Abs(s[i]) <= Threshold {
      AbsSumAtMost(s, Threshold);
    }
  }

  /** The converse fails: a single loud sample among quiet ones is not
      reported as voice. */
  lemma LoudSampleNotVoice()
    ensures var s := [1001, 0];
            Abs(s[0]) > Threshold && AbsSum(s) / |s| <= Threshold
  {
    var s := [1001, 0];
    assert s[..1] == [1001];
    assert [1001][..0] == [];
  }
}
