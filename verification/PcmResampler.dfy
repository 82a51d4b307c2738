/** The streaming PCM16 resampler used for speech providers with a fixed output rate. */
module PcmResampler {
  import opened Sequences
  import opened Pcm16
  import opened Resampling

  /** The bytes of b that make up whole samples. */
  function Even(b: seq<byte>): (e: seq<byte>)
    ensures |e| % 2 == 0 && |b| - 1 <= |e| <= |b| && e == b[..|e|]
  {
    b[..|b| / 2 * 2]
  }

  /** Interpolated samples never leave the PCM16 range, so packing them cannot fail. */
  function ResampledSamples(s: seq<int16>, src: pos, dst: pos): (out: seq<int16>)
    ensures out == Resampled(s, src, dst)
  {
    var out := Resampled(s, src, dst);
    assert forall k :: 0 <= k < |out| ==> -0x8000 <= out[k] <= 0x7fff by {
      forall k | 0 <= k < |out|
        ensures -0x8000 <= out[k] <= 0x7fff
      {
        ResampledMeaning(s, src, dst, k);
        RangeKept(s, k, src, dst, -0x8000, 0x7fff);
      }
    }
    out
  }

  /** The whole byte stream resampled in one go. */
  function ResampledBytes(b: seq<byte>, src: pos, dst: pos): seq<byte> {
    if src == dst then Even(b) else Pack(ResampledSamples(Unpack(Even(b)), src, dst))
  }

  /** The outputs of the first n samples are the outputs the loop starts from. */
  lemma FirstRead(whole: seq<int16>, n: nat, base: nat, src: pos, dst: pos)
    requires n < |whole| && base == (if n == 0 then 0 else n - 1)
    ensures OutputCount(n, src, dst) <= OutputCount(|whole|, src, dst)
    ensures Resampled(whole[..n], src, dst) == OutputPrefix(whole, OutputCount(n, src, dst), src, dst)
    ensures OutputCount(n, src, dst) * src - base * dst >= 0
  {
    assert whole[..n] + whole[n..] == whole;
    OutputPrefixStable(whole[..n], whole[n..], OutputCount(n, src, dst), src, dst);
    if n > 0 {
      CarriedPosition(n, src, dst);
    }
  }

  /** A read at `at` in the current samples is read k of the whole stream. */
  lemma NextRead(samples: seq<int16>, whole: seq<int16>, base: nat, at: nat, k: nat, src: pos, dst: pos)
    requires base < |whole| && samples == whole[base..]
    requires at + base * dst == k * src && at < (|samples| - 1) * dst
    ensures k < OutputCount(|whole|, src, dst)
    ensures TruncDiv(ScaledValue(samples, at, dst), dst) == OutputAt(whole, k, src, dst)
    ensures -0x8000 <= OutputAt(whole, k, src, dst) <= 0x7fff
    ensures at + src + base * dst == (k + 1) * src
  {
    MulMono(k, k, src);
    assert (base + (|samples| - 1)) * dst == base * dst + (|samples| - 1) * dst;
    CeilDivMeaning((|whole| - 1) * dst, src, k);
    PositionInBounds(at, dst, |samples|);
    DivShift(base, at, dst);
    RangeKept(whole, k, src, dst, -0x8000, 0x7fff);
  }

  /** The loop stops exactly when every output of the whole stream has been computed. */
  lemma LastRead(samples: seq<int16>, whole: seq<int16>, base: nat, at: nat, k: nat, src: pos, dst: pos)
    requires base < |whole| && samples == whole[base..]
    requires at + base * dst == k * src && at >= (|samples| - 1) * dst
    requires k <= OutputCount(|whole|, src, dst)
    ensures k == OutputCount(|whole|, src, dst)
    ensures at - (|samples| - 1) * dst == k * src - (|whole| - 1) * dst
  {
    assert (base + (|samples| - 1)) * dst == base * dst + (|samples| - 1) * dst;
    CeilDivMeaning((|whole| - 1) * dst, src, k);
  }

  /**
   The interpolation loop of Process, reading from scaled position `start` of `samples`.
   `whole` is the stream so far; its first n samples were interpolated by earlier calls.
   */
  method Interpolate(samples: seq<int16>, start: nat, src: pos, dst: pos,
                     ghost whole: seq<int16>, ghost n: nat, ghost base: nat)
      returns (out: seq<int16>, carried: int)
    requires n < |whole| && base == (if n == 0 then 0 else n - 1) && samples == whole[base..]
    requires start + base * dst == OutputCount(n, src, dst) * src
    ensures Resampled(whole, src, dst) == Resampled(whole[..n], src, dst) + out
    ensures carried == OutputCount(|whole|, src, dst) * src - (|whole| - 1) * dst
  {
    out := [];
    var at: int := start;
    var limit := (|samples| - 1) * dst;
    ghost var k := OutputCount(n, src, dst);
    ghost var done := Resampled(whole[..n], src, dst);
    FirstRead(whole, n, base, src, dst);
    while at < limit
      invariant 0 <= at && at + base * dst == k * src
      invariant k <= OutputCount(|whole|, src, dst)
      invariant done + out == OutputPrefix(whole, k, src, dst)
      decreases limit - at
    {
      NextRead(samples, whole, base, at, k, src, dst);
      var value := TruncDiv(ScaledValue(samples, at, dst), dst);
      assert done + (out + [value]) == (done + out) + [value];
      out := out + [value];
      at := at + src;
      k := k + 1;
    }
    LastRead(samples, whole, base, at, k, src, dst);
    carried := at - limit;
  }

  /** The byte, if any, that does not make up a whole sample. */
  function Rest(b: seq<byte>): seq<byte> {
    b[|Even(b)|..]
  }

  /** A byte left over from earlier chunks joins the new chunk, so that whole samples stay whole. */
  lemma SplitBytes(fed: seq<byte>, chunk: seq<byte>)
    ensures Even(fed + chunk) == Even(fed) + Even(Rest(fed) + chunk)
    ensures Rest(fed + chunk) == Rest(Rest(fed) + chunk)
  {
    assert Even(fed) + (Rest(fed) + chunk) == fed + chunk;
    assert |fed + chunk| == |Even(fed)| + |Rest(fed) + chunk|;
  }

  /** Puts a trailing odd byte aside. */
  method TakeWhole(bytes: seq<byte>) returns (data: seq<byte>, odd: seq<byte>)
    ensures data == Even(bytes) && odd == Rest(bytes)
  {
    if |bytes| % 2 == 1 {
      data, odd := bytes[..|bytes| - 1], bytes[|bytes| - 1..];
    } else {
      data, odd := bytes, [];
    }
  }

  /** What is carried to the next call once the samples `seen` have been interpolated. */
  ghost predicate Carried(seen: seq<int16>, src: pos, dst: pos, position: int, last: Option<int16>) {
    && 0 <= position < src
    && last == (if seen == [] then None else Some(seen[|seen| - 1]))
    && position == OutputCount(|seen|, src, dst) * src - (if seen == [] then 0 else |seen| - 1) * dst
  }

  lemma CarriedStart(seen: seq<int16>, more: seq<int16>, src: pos, dst: pos, position: int, last: Option<int16>)
    requires Carried(seen, src, dst, position, last)
    ensures (seen + more)[..|seen|] == seen
    ensures (if last.Some? then [last.value] + more else more)
         == (seen + more)[if seen == [] then 0 else |seen| - 1..]
  {
  }

  lemma CarriedEnd(fed: seq<byte>, fed': seq<byte>, data: seq<byte>, src: pos, dst: pos, out: seq<int16>)
    requires src != dst && |data| % 2 == 0
    requires Even(fed') == Even(fed) + data
    requires Resampled(Unpack(Even(fed)) + Unpack(data), src, dst) == Resampled(Unpack(Even(fed)), src, dst) + out
    ensures Unpack(Even(fed')) == Unpack(Even(fed)) + Unpack(data)
    ensures ResampledBytes(fed', src, dst) == ResampledBytes(fed, src, dst) + Pack(out)
  {
    UnpackConcat(Even(fed), data);
    PackConcat(ResampledSamples(Unpack(Even(fed)), src, dst), out);
  }

  lemma PassedThrough(fed: seq<byte>, fed': seq<byte>, data: seq<byte>, src: pos, dst: pos)
    requires src == dst || data == []
    requires Even(fed') == Even(fed) + data
    ensures ResampledBytes(fed', src, dst) == ResampledBytes(fed, src, dst) + data
    ensures data == [] ==> Even(fed') == Even(fed)
  {
    if data == [] {
      assert Even(fed) + data == Even(fed);
    }
  }

  /** Interpolates the samples of one chunk; `seen` are the samples of all earlier chunks. */
  method ResampleSamples(chunk: seq<int16>, position: int, last: Option<int16>, src: pos, dst: pos,
                         ghost seen: seq<int16>)
      returns (out: seq<int16>, position': int, last': Option<int16>)
    requires chunk != [] && Carried(seen, src, dst, position, last)
    ensures Carried(seen + chunk, src, dst, position', last')
    ensures Resampled(seen + chunk, src, dst) == Resampled(seen, src, dst) + out
  {
    var samples := chunk;
    if last.Some? {
      samples := [last.value] + samples;
    }
    CarriedStart(seen, chunk, src, dst, position, last);
    out, position' := Interpolate(samples, position, src, dst, seen + chunk, |seen|, if seen == [] then 0 else |seen| - 1);
    last' := Some(samples[|samples| - 1]);
    CarriedPosition(|seen + chunk|, src, dst);
  }

  class Pcm16Resampler {
    const src: pos
    const dst: pos
    const same: bool
    var pos: int             // next read position, scaled by dst, counted from the last sample seen
    var last: Option<int16>  // the last of all samples so far, which the next chunk interpolates from
    var odd: seq<byte>       // Rest(fed): at most one byte
    ghost var fed: seq<byte> // every byte given to Process so far

    /** The state is a function of the bytes fed so far, however they were split. */
    ghost predicate Valid()
      reads this
    {
      && same == (src == dst)
      && odd == Rest(fed)
      && if same then pos == 0 && last == None else Carried(Unpack(Even(fed)), src, dst, pos, last)
    }

    /** Everything Process has returned so far. */
    ghost function Emitted(): seq<byte>
      reads this
    {
      ResampledBytes(fed, src, dst)
    }

    constructor (srcRate: pos, dstRate: pos)
      ensures Valid() && fed == [] && src == srcRate && dst == dstRate
    {
      src, dst, same := srcRate, dstRate, srcRate == dstRate;
      pos, last, odd, fed := 0, None, [], [];
    }

    /** What it returns is exactly what the longer stream resamples to beyond the shorter one. */
    method Process(chunk: seq<byte>) returns (result: seq<byte>)
      requires Valid()
      modifies this
      ensures Valid()
      ensures fed == old(fed) + chunk
      ensures Emitted() == old(Emitted()) + result
    {
      hide Carried, ResampledBytes, Resampled, Even, Rest;
      if chunk == [] {
        assert fed + chunk == fed;
        return [];
      }
      SplitBytes(fed, chunk);
      ghost var seen := Unpack(Even(fed));
      var data;
      data, odd := TakeWhole(odd + chunk);
      fed := fed + chunk;
      if same || data == [] {
        PassedThrough(old(fed), fed, data, src, dst);
        return data;
      }
      var out;
      out, pos, last := ResampleSamples(Unpack(data), pos, last, src, dst, seen);
      result := Pack(out);
      CarriedEnd(old(fed), fed, data, src, dst, out);
    }
  }

  /**
   Chunk invariance: however a byte stream is split into chunks (odd lengths and empty
   chunks included), the outputs joined together are the whole stream resampled at once.
   */
  method ResampleInChunks(chunks: seq<seq<byte>>, src: pos, dst: pos) returns (result: seq<byte>)
    ensures result == ResampledBytes(Flatten(chunks), src, dst)
  {
    hide Carried, ResampledBytes;
    var r := new Pcm16Resampler(src, dst);
    result := [];
    ResampledNothing(src, dst);
    for i := 0 to |chunks|
      invariant r.Valid() && fresh(r) && r.src == src && r.dst == dst
      invariant r.fed == Flatten(chunks[..i])
      invariant result == r.Emitted()
    {
      FlattenTake(chunks, i);
      var part := r.Process(chunks[i]);
      result := result + part;
    }
    assert chunks[..|chunks|] == chunks;
  }

  lemma ResampledNothing(src: pos, dst: pos)
    ensures ResampledBytes([], src, dst) == []
  {
  }

  lemma UnpackedOutput(b: seq<byte>, src: pos, dst: pos)
    requires src != dst
    ensures |ResampledBytes(b, src, dst)| % 2 == 0
    ensures Unpack(ResampledBytes(b, src, dst)) == Resampled(Unpack(Even(b)), src, dst)
    ensures |Unpack(Even(b))| == |b| / 2
  {
    hide Resampled, Unpack, Pack;
    UnpackPack(ResampledSamples(Unpack(Even(b)), src, dst));
  }

  /** One call on the whole stream gives the same bytes as any split of it. */
  lemma ResampledBytesMeaning(b: seq<byte>, src: pos, dst: pos, k: nat)
    requires src != dst
    ensures |ResampledBytes(b, src, dst)| % 2 == 0 && |Unpack(Even(b))| == |b| / 2
    ensures var s, out := Unpack(Even(b)), Unpack(ResampledBytes(b, src, dst));
            && |out| == OutputCount(|s|, src, dst)
            && (k < |out| ==> out[k] == OutputAt(s, k, src, dst))
  {
    UnpackedOutput(b, src, dst);
    hide ResampledBytes, Even, Unpack;
    ResampledMeaning(Unpack(Even(b)), src, dst, k);
    hide OutputCount, OutputAt;
  }
}
