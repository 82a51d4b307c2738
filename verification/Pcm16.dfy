/** PCM16 little-endian audio as bytes: packing, unpacking and cutting into frames. */
module Pcm16 {
  import opened Sequences

  type byte = b: int | 0 <= b < 256
  type int16 = x: int | -0x8000 <= x <= 0x7fff

  /** One signed sample from its low and high byte (struct format "<h"). */
  function Sample(low: byte, high: byte): int16 {
    var u := high * 256 + low;
    if u < 0x8000 then u else u - 0x1_0000
  }

  function LowByte(x: int16): byte {
    (if x < 0 then x + 0x1_0000 else x) % 256
  }

  function HighByte(x: int16): byte {
    (if x < 0 then x + 0x1_0000 else x) / 256
  }

  /** The samples of an even number of bytes. */
  function Unpack(data: seq<byte>): (samples: seq<int16>)
    requires |data| % 2 == 0
    ensures |samples| == |data| / 2
  {
    seq(|data| / 2, i requires 0 <= i < |data| / 2 => Sample(data[2 * i], data[2 * i + 1]))
  }

  function Pack(samples: seq<int16>): (data: seq<byte>)
    ensures |data| == 2 * |samples|
  {
    seq(2 * |samples|, i requires 0 <= i < 2 * |samples| =>
      if i % 2 == 0 then LowByte(samples[i / 2]) else HighByte(samples[i / 2]))
  }

  lemma SampleOfBytes(x: int16)
    ensures Sample(LowByte(x), HighByte(x)) == x
  {
  }

  lemma PackedBytes(samples: seq<int16>, i: nat)
    requires i < |samples|
    ensures Pack(samples)[2 * i] == LowByte(samples[i]) && Pack(samples)[2 * i + 1] == HighByte(samples[i])
  {
    hide LowByte, HighByte;
  }

  lemma UnpackPack(samples: seq<int16>)
    ensures Unpack(Pack(samples)) == samples
  {
    hide Sample, LowByte, HighByte, Pack;
    forall i | 0 <= i < |samples|
      ensures Unpack(Pack(samples))[i] == samples[i]
    {
      PackedBytes(samples, i);
      SampleOfBytes(samples[i]);
    }
  }

  lemma BytesOfSample(low: byte, high: byte)
    ensures LowByte(Sample(low, high)) == low && HighByte(Sample(low, high)) == high
  {
  }

  lemma PackUnpack(data: seq<byte>)
    requires |data| % 2 == 0
    ensures Pack(Unpack(data)) == data
  {
    hide Sample, LowByte, HighByte;
    forall i | 0 <= i < |data|
      ensures Pack(Unpack(data))[i] == data[i]
    {
      var j := i / 2;
      assert i == 2 * j || i == 2 * j + 1;
      BytesOfSample(data[2 * j], data[2 * j + 1]);
      PackedBytes(Unpack(data), j);
    }
  }

  lemma UnpackConcat(a: seq<byte>, b: seq<byte>)
    requires |a| % 2 == 0 && |b| % 2 == 0
    ensures Unpack(a + b) == Unpack(a) + Unpack(b)
  {
  }

  lemma PackConcat(a: seq<int16>, b: seq<int16>)
    ensures Pack(a + b) == Pack(a) + Pack(b)
  {
    forall i | 0 <= i < |Pack(a + b)|
      ensures Pack(a + b)[i] == (Pack(a) + Pack(b))[i]
    {
      if |Pack(a)| <= i {
        var j := i - 2 * |a|;
        assert i / 2 == |a| + j / 2 && i % 2 == j % 2;
      }
    }
  }

  function Zeros(n: nat): (z: seq<byte>)
    ensures |z| == n
  {
    seq(n, i => 0)
  }

  /** The frames of a byte stream cut every frameBytes bytes, leaving out an incomplete last one. */
  function WholeFrames(data: seq<byte>, frameBytes: nat): (frames: seq<seq<byte>>)
    requires frameBytes > 0
    decreases |data|
  {
    if |data| < frameBytes then [] else [data[..frameBytes]] + WholeFrames(data[frameBytes..], frameBytes)
  }

  function Leftover(data: seq<byte>, frameBytes: nat): (rest: seq<byte>)
    requires frameBytes > 0
    decreases |data|
  {
    if |data| < frameBytes then data else Leftover(data[frameBytes..], frameBytes)
  }

  lemma NextFrame(data: seq<byte>, frameBytes: nat)
    requires 0 < frameBytes <= |data|
    ensures WholeFrames(data, frameBytes) == [data[..frameBytes]] + WholeFrames(data[frameBytes..], frameBytes)
    ensures Leftover(data, frameBytes) == Leftover(data[frameBytes..], frameBytes)
  {
  }

  /** Frames and leftover make up the stream, every frame is full, and the leftover is shorter than one. */
  lemma {:induction false} FramesAreTheData(data: seq<byte>, frameBytes: nat)
    requires frameBytes > 0
    ensures Flatten(WholeFrames(data, frameBytes)) + Leftover(data, frameBytes) == data
    ensures forall i :: 0 <= i < |WholeFrames(data, frameBytes)| ==> |WholeFrames(data, frameBytes)[i]| == frameBytes
    ensures |Leftover(data, frameBytes)| < frameBytes
    decreases |data|
  {
    if frameBytes <= |data| {
      NextFrame(data, frameBytes);
      hide Flatten, WholeFrames, Leftover;
      var head, tail := data[..frameBytes], data[frameBytes..];
      FramesAreTheData(tail, frameBytes);
      FullFrames(head, WholeFrames(tail, frameBytes));
      FlattenCons(head, WholeFrames(tail, frameBytes));
      ConcatAssociates(head, Flatten(WholeFrames(tail, frameBytes)), Leftover(tail, frameBytes));
      SplitAt(data, frameBytes);
    }
  }

  lemma FullFrames(head: seq<byte>, frames: seq<seq<byte>>)
    requires forall i :: 0 <= i < |frames| ==> |frames[i]| == |head|
    ensures forall i :: 0 <= i < |[head] + frames| ==> |([head] + frames)[i]| == |head|
  {
  }

  lemma SplitAt(data: seq<byte>, n: nat)
    requires n <= |data|
    ensures data[..n] + data[n..] == data
  {
  }

  /** How many bytes the frames hold; what is left over is shorter than one. */
  lemma {:induction false} FrameCount(data: seq<byte>, frameBytes: nat)
    requires frameBytes > 0
    ensures |data| == |WholeFrames(data, frameBytes)| * frameBytes + |Leftover(data, frameBytes)|
    ensures |Leftover(data, frameBytes)| < frameBytes
    decreases |data|
  {
    if frameBytes <= |data| {
      NextFrame(data, frameBytes);
      FrameCount(data[frameBytes..], frameBytes);
      hide WholeFrames, Leftover;
      var n := |WholeFrames(data[frameBytes..], frameBytes)|;
      assert (n + 1) * frameBytes == n * frameBytes + frameBytes;
    }
  }

  /** Cutting a stream that arrives in two parts: the leftover of the first part goes before the second. */
  lemma {:induction false} FramesConcat(a: seq<byte>, b: seq<byte>, frameBytes: nat)
    requires frameBytes > 0
    ensures WholeFrames(a + b, frameBytes)
         == WholeFrames(a, frameBytes) + WholeFrames(Leftover(a, frameBytes) + b, frameBytes)
    ensures Leftover(a + b, frameBytes) == Leftover(Leftover(a, frameBytes) + b, frameBytes)
    decreases |a|
  {
    if frameBytes <= |a| {
      FramesConcat(a[frameBytes..], b, frameBytes);
      assert (a + b)[frameBytes..] == a[frameBytes..] + b;
      assert (a + b)[..frameBytes] == a[..frameBytes];
    }
  }

  /**
   The cutting loop gives exactly WholeFrames and Leftover; a size that is not positive gives the
   data as one frame, and no frame for no data.
   */
  method ChunkPcmBytes(data: seq<byte>, frameBytes: int) returns (frames: seq<seq<byte>>, rest: seq<byte>)
    ensures frameBytes > 0 ==> frames == WholeFrames(data, frameBytes) && rest == Leftover(data, frameBytes)
    ensures frameBytes <= 0 ==> frames == (if data == [] then [] else [data]) && rest == []
  {
    if frameBytes <= 0 {
      return if data == [] then [] else [data], [];
    }
    frames := [];
    var idx := 0;
    assert data[idx..] == data;
    while idx + frameBytes <= |data|
      invariant 0 <= idx <= |data|
      invariant frames + WholeFrames(data[idx..], frameBytes) == WholeFrames(data, frameBytes)
      invariant Leftover(data[idx..], frameBytes) == Leftover(data, frameBytes)
    {
      var frame := data[idx..idx + frameBytes];
      assert data[idx..][..frameBytes] == frame;
      assert data[idx..][frameBytes..] == data[idx + frameBytes..];
      frames := frames + [frame];
      idx := idx + frameBytes;
    }
    rest := data[idx..];
  }
}
