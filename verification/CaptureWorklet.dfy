/**
 The browser microphone worklet: resamples float render blocks, converts them to PCM16 and
 posts frames of a fixed number of samples. Float samples are exact reals here.
 */
module CaptureWorklet {
  import opened Sequences
  import opened Pcm16
  import opened Resampling

  /** The point a fraction num / den of the way from a to b. */
  function Lerp(a: real, b: real, num: nat, den: pos): real {
    a + (b - a) * (num as real / den as real)
  }

  /** The interpolated value at scaled position p of the stream s. */
  function ValueAt(s: seq<real>, p: nat, dst: pos): real
    requires p < (|s| - 1) * dst
  {
    PositionInBounds(p, dst, |s|);
    Lerp(s[p / dst], s[p / dst + 1], p % dst, dst)
  }

  function Clamp(x: real): real {
    if x < -1.0 then -1.0 else if x > 1.0 then 1.0 else x
  }

  function TruncReal(x: real): int {
    if x >= 0.0 then x.Floor else -((-x).Floor)
  }

  /** The PCM16 code of a float sample: clamped, scaled by its sign, truncated toward zero. */
  function Code(sample: real): int16 {
    var s := Clamp(sample);
    TruncReal(if s < 0.0 then s * 32768.0 else s * 32767.0)
  }

  /** Code k of the resampled stream. */
  function CodeAt(s: seq<real>, k: nat, src: pos, dst: pos): int16
    requires k < OutputCount(|s|, src, dst)
  {
    CeilDivMeaning((|s| - 1) * dst, src, k);
    Code(ValueAt(s, k * src, dst))
  }

  /** The codes of the first k resampled values of the stream s. */
  function Codes(s: seq<real>, k: nat, src: pos, dst: pos): (codes: seq<int16>)
    requires k <= OutputCount(|s|, src, dst)
    ensures |codes| == k
  {
    if k == 0 then [] else Codes(s, k - 1, src, dst) + [CodeAt(s, k - 1, src, dst)]
  }

  lemma {:induction false} CodesIndex(s: seq<real>, k: nat, src: pos, dst: pos, j: nat)
    requires j < k <= OutputCount(|s|, src, dst)
    ensures Codes(s, k, src, dst)[j] == CodeAt(s, j, src, dst)
  {
    if j < k - 1 {
      CodesIndex(s, k - 1, src, dst, j);
    }
  }

  lemma CodeAtStable(s: seq<real>, t: seq<real>, k: nat, src: pos, dst: pos)
    requires k < OutputCount(|s|, src, dst)
    ensures k < OutputCount(|s + t|, src, dst)
    ensures CodeAt(s, k, src, dst) == CodeAt(s + t, k, src, dst)
  {
    hide Lerp, Code;
    CountMono(|s|, |s + t|, src, dst);
    CeilDivMeaning((|s| - 1) * dst, src, k);
    PositionInBounds(k * src, dst, |s|);
  }

  lemma {:induction false} CodesStable(s: seq<real>, t: seq<real>, k: nat, src: pos, dst: pos)
    requires k <= OutputCount(|s|, src, dst)
    ensures k <= OutputCount(|s + t|, src, dst)
    ensures Codes(s, k, src, dst) == Codes(s + t, k, src, dst)
  {
    CountMono(|s|, |s + t|, src, dst);
    if k > 0 {
      CodesStable(s, t, k - 1, src, dst);
      CodeAtStable(s, t, k - 1, src, dst);
    }
  }

  /** A read at `at` in a block, -dst meaning the sample before it, is read k of the whole stream. */
  lemma BlockRead(heard: seq<real>, input: seq<real>, at: int, k: nat, src: pos, dst: pos)
    requires input != [] && 0 <= at + dst && at < (|input| - 1) * dst
    requires at + |heard| * dst == k * src
    ensures -1 <= at / dst < |input| - 1
    ensures at / dst < 0 ==> heard != []
    ensures k < OutputCount(|heard + input|, src, dst)
    ensures var a := if at / dst < 0 then heard[|heard| - 1] else input[at / dst];
            CodeAt(heard + input, k, src, dst)
            == Code(Lerp(a, input[at / dst + 1], at % dst, dst))
    ensures at + src + |heard| * dst == (k + 1) * src
  {
    hide Lerp, Code;
    var n := |heard|;
    MulMono(k, k, src);
    assert (n + (|input| - 1)) * dst == n * dst + (|input| - 1) * dst;
    CeilDivMeaning((|heard + input| - 1) * dst, src, k);
    PositionInBounds(k * src, dst, |heard + input|);
    DivShift(n, at, dst);
    FloorBetween(-1, |input| - 1, at, dst);
    if heard == [] {
      assert at == k * src;
    }
  }

  /** The loop over a block stops when every code of the stream so far has been produced. */
  lemma BlockEnd(heard: seq<real>, input: seq<real>, at: int, k: nat, src: pos, dst: pos)
    requires input != [] && (|input| - 1) * dst <= at
    requires at + |heard| * dst == k * src
    requires k <= OutputCount(|heard + input|, src, dst)
    ensures k == OutputCount(|heard + input|, src, dst)
    ensures at - |input| * dst + |heard + input| * dst == k * src
    ensures 0 <= at - |input| * dst + dst
  {
    assert (|heard| + (|input| - 1)) * dst == |heard| * dst + (|input| - 1) * dst;
    assert (|heard| + |input|) * dst == |heard| * dst + |input| * dst;
    CeilDivMeaning((|heard + input| - 1) * dst, src, k);
  }

  function SumSquares(samples: seq<real>): real {
    if samples == [] then 0.0
    else SumSquares(samples[..|samples| - 1]) + samples[|samples| - 1] * samples[|samples| - 1]
  }

  lemma SumSquaresSnoc(samples: seq<real>, s: real)
    ensures SumSquares(samples + [s]) == SumSquares(samples) + s * s
  {
    assert (samples + [s])[..|samples|] == samples;
  }

  lemma SumSquaresNone()
    ensures SumSquares([]) == 0.0
  {
  }

  /** A posted frame. The source posts the square root of `meanSquare`. */
  datatype FrameMessage = FrameMessage(pcm: seq<int16>, meanSquare: real)

  function PostedCodes(posted: seq<FrameMessage>): seq<int16> {
    if posted == [] then [] else PostedCodes(posted[..|posted| - 1]) + posted[|posted| - 1].pcm
  }

  lemma PostedSnoc(posted: seq<FrameMessage>, last: FrameMessage)
    ensures PostedCodes(posted + [last]) == PostedCodes(posted) + last.pcm
  {
    assert (posted + [last])[..|posted|] == posted;
  }

  class PcmCaptureProcessor {
    const src: pos           // the audio context's sample rate
    const dst: pos           // the target rate
    const frameSamples: pos
    var pos: int             // read position in the current block, scaled by dst; -dst is the previous block's last sample
    var prev: real
    var frame: array<int16>
    var filled: nat
    var sumSquares: real
    var running: bool
    var posted: seq<FrameMessage>
    ghost var heard: seq<real>    // every input sample of the blocks processed while running
    ghost var pending: seq<real>  // the clamped samples in the frame being filled

    /** The frame being filled is never full, and every posted frame is. */
    ghost predicate FrameValid()
      reads this
    {
      && frame.Length == frameSamples
      && filled == |pending| < frameSamples
      && sumSquares == SumSquares(pending)
      && forall i :: 0 <= i < |posted| ==> |posted[i].pcm| == frameSamples
    }

    /** Every code produced so far: the posted frames, then the frame being filled. */
    ghost function Produced(): seq<int16>
      requires FrameValid()
      reads this, frame
    {
      PostedCodes(posted) + frame[..filled]
    }

    /** What is carried between blocks; the read position is never before the previous block's last sample. */
    ghost predicate Carries()
      reads this
    {
      && 0 <= pos + dst
      && pos + |heard| * dst == OutputCount(|heard|, src, dst) * src
      && prev == if heard == [] then 0.0 else heard[|heard| - 1]
    }

    ghost predicate Valid()
      reads this, frame
    {
      && FrameValid()
      && Carries()
      && Produced() == Codes(heard, OutputCount(|heard|, src, dst), src, dst)
    }

    constructor (sampleRate: pos, targetRate: pos, samplesPerFrame: pos)
      ensures Valid() && fresh(frame) && running && posted == [] && heard == []
      ensures src == sampleRate && dst == targetRate && frameSamples == samplesPerFrame
    {
      SumSquaresNone();
      src, dst, frameSamples := sampleRate, targetRate, samplesPerFrame;
      pos, prev := 0, 0.0;
      frame := new int16[samplesPerFrame];
      filled, sumSquares, running := 0, 0.0, true;
      posted, heard, pending := [], [], [];
    }

    method Stop()
      requires Valid()
      modifies this`running
      ensures Valid() && !running
    {
      running := false;
    }

    method Emit(sample: real)
      requires FrameValid()
      modifies this`frame, this`filled, this`sumSquares, this`posted, this`pending, frame
      ensures FrameValid() && (frame == old(frame) || fresh(frame))
      ensures Produced() == old(Produced()) + [Code(sample)]
      ensures if |old(pending)| + 1 < frameSamples then
                posted == old(posted) && pending == old(pending) + [Clamp(sample)]
              else
                && pending == [] && |posted| == |old(posted)| + 1 && posted[..|old(posted)|] == old(posted)
                && posted[|old(posted)|].meanSquare == SumSquares(old(pending) + [Clamp(sample)]) / frameSamples as real
    {
      hide Code, Clamp, SumSquares, PostedCodes;
      var s := Clamp(sample);
      ghost var before := frame[..filled];
      frame[filled] := Code(sample);
      sumSquares := sumSquares + s * s;
      filled := filled + 1;
      SumSquaresSnoc(pending, s);
      pending := pending + [s];
      assert frame[..filled] == before + [Code(sample)];
      if filled == frameSamples {
        PostedSnoc(posted, FrameMessage(frame[..], sumSquares / frameSamples as real));
        posted := posted + [FrameMessage(frame[..], sumSquares / frameSamples as real)];
        frame := new int16[frameSamples];
        filled, sumSquares, pending := 0, 0.0, [];
        SumSquaresNone();
      }
    }

    /** Handles one render block, if there is one; false tells the browser to drop the processor. */
    method Process(inputs: Option<seq<real>>) returns (alive: bool)
      requires Valid()
      modifies this, frame
      ensures Valid() && (frame == old(frame) || fresh(frame))
      ensures alive == running == old(running)
      ensures heard == if running && inputs.Some? then old(heard) + inputs.value else old(heard)
      ensures |old(posted)| <= |posted| && posted[..|old(posted)|] == old(posted)
    {
      hide CodeAt, OutputCount, PostedCodes, SumSquares, Code, Lerp;
      if !running {
        return false;
      }
      if inputs == None || inputs.value == [] {
        assert inputs.Some? ==> heard + inputs.value == heard;
        return true;
      }
      var input := inputs.value;
      var n := |input|;
      ghost var k := OutputCount(|heard|, src, dst);
      ghost var whole := heard + input;
      CodesStable(heard, input, k, src, dst);
      var limit := (n - 1) * dst;
      while pos < limit
        invariant FrameValid() && (frame == old(frame) || fresh(frame))
        invariant 0 <= pos + dst && pos + |heard| * dst == k * src
        invariant prev == old(prev) && heard == old(heard) && running
        invariant k <= OutputCount(|whole|, src, dst)
        invariant Produced() == Codes(whole, k, src, dst)
        invariant |old(posted)| <= |posted| && posted[..|old(posted)|] == old(posted)
        decreases limit - pos
        modifies this, frame
      {
        BlockRead(heard, input, pos, k, src, dst);
        var i, frac := pos / dst, pos % dst;
        var a := if i < 0 then prev else input[i];
        var b := input[i + 1];
        Emit(Lerp(a, b, frac, dst));
        pos := pos + src;
        k := k + 1;
      }
      BlockEnd(heard, input, pos, k, src, dst);
      pos := pos - n * dst;
      prev := input[n - 1];
      heard := whole;
      return true;
    }
  }

  /**
   Block invariance: however the microphone stream is split into render blocks, the posted
   frames and the frame being filled hold the codes of the whole stream resampled at once,
   and every posted frame holds exactly `frameSamples` of them.
   */
  method CaptureInBlocks(blocks: seq<seq<real>>, src: pos, dst: pos, frameSamples: pos)
      returns (posted: seq<FrameMessage>, filling: seq<int16>)
    ensures PostedCodes(posted) + filling
         == Codes(Flatten(blocks), OutputCount(|Flatten(blocks)|, src, dst), src, dst)
    ensures forall i :: 0 <= i < |posted| ==> |posted[i].pcm| == frameSamples
    ensures |filling| < frameSamples
  {
    hide Codes, PostedCodes, OutputCount;
    var worklet := new PcmCaptureProcessor(src, dst, frameSamples);
    for b := 0 to |blocks|
      invariant fresh(worklet) && fresh(worklet.frame) && worklet.Valid() && worklet.running
      invariant worklet.src == src && worklet.dst == dst && worklet.frameSamples == frameSamples
      invariant worklet.heard == Flatten(blocks[..b])
    {
      FlattenTake(blocks, b);
      var _ := worklet.Process(Some(blocks[b]));
    }
    assert blocks[..|blocks|] == blocks;
    posted, filling := worklet.posted, worklet.frame[..worklet.filled];
  }

  function AsReals(s: seq<int>): (r: seq<real>)
    ensures |r| == |s|
  {
    seq(|s|, i requires 0 <= i < |s| => s[i] as real)
  }

  lemma FloorOfQuotient(v: int, d: pos)
    ensures (v as real / d as real).Floor == v / d
  {
    var q, r := v / d, v % d;
    assert v == q * d + r;
    assert (q * d) as real == q as real * d as real;
    assert v as real / d as real == q as real + r as real / d as real;
    assert 0.0 <= r as real / d as real < 1.0;
  }

  /**
   The worklet and the Python resampler carry different state between chunks (a position of
   -1 and the previous sample, against an inserted sample) yet read the same stream at the
   same positions: truncating what the worklet interpolates gives the resampler's output.
   */
  lemma SameAsResampler(s: seq<int>, k: nat, src: pos, dst: pos)
    requires k < OutputCount(|s|, src, dst)
    ensures k * src < (|s| - 1) * dst
    ensures TruncReal(ValueAt(AsReals(s), k * src, dst)) == OutputAt(s, k, src, dst)
  {
    CeilDivMeaning((|s| - 1) * dst, src, k);
    PositionInBounds(k * src, dst, |s|);
    var v := ScaledValue(s, k * src, dst);
    ExactValue(s, k * src, dst);
    FloorOfQuotient(v, dst);
    FloorOfQuotient(-v, dst);
    var x := ValueAt(AsReals(s), k * src, dst);
    assert -x == (-v) as real / dst as real;
    assert v >= 0 <==> x >= 0.0;
  }

  lemma ExactValue(s: seq<int>, p: nat, dst: pos)
    requires p < (|s| - 1) * dst
    ensures ValueAt(AsReals(s), p, dst) == ScaledValue(s, p, dst) as real / dst as real
  {
    PositionInBounds(p, dst, |s|);
    var a, b, f := s[p / dst], s[p / dst + 1], p % dst;
    assert (a * dst + (b - a) * f) as real == a as real * dst as real + (b - a) as real * f as real;
    assert (a as real * dst as real) / dst as real == a as real;
  }
}
