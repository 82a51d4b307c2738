/** The audio framing loop of the OpenAI speech engine: HTTP body in, fixed-size PCM frames out. */
module OpenAiSpeech {
  import opened Sequences
  import opened Pcm16
  import opened PcmResampler
  import opened Resampling

  const OPENAI_PCM_SAMPLE_RATE: pos := 24000

  /** The frames a response body must give, whatever chunks it arrives in: the last one is zero-padded. */
  function SpeechFrames(body: seq<byte>, frameBytes: pos, sampleRate: pos): seq<seq<byte>> {
    var audio := ResampledBytes(body, OPENAI_PCM_SAMPLE_RATE, sampleRate);
    var tail := Leftover(audio, frameBytes);
    FramesAreTheData(audio, frameBytes);
    WholeFrames(audio, frameBytes) + if tail == [] then [] else [tail + Zeros(frameBytes - |tail|)]
  }

  /** Every frame is full, and together they are the resampled body followed by less than a frame of silence. */
  lemma SpeechFramesMeaning(body: seq<byte>, frameBytes: pos, sampleRate: pos)
    ensures forall i :: 0 <= i < |SpeechFrames(body, frameBytes, sampleRate)|
              ==> |SpeechFrames(body, frameBytes, sampleRate)[i]| == frameBytes
    ensures exists n :: 0 <= n < frameBytes
              && Flatten(SpeechFrames(body, frameBytes, sampleRate))
                 == ResampledBytes(body, OPENAI_PCM_SAMPLE_RATE, sampleRate) + Zeros(n)
  {
    var audio := ResampledBytes(body, OPENAI_PCM_SAMPLE_RATE, sampleRate);
    var whole, tail := WholeFrames(audio, frameBytes), Leftover(audio, frameBytes);
    FramesAreTheData(audio, frameBytes);
    hide ResampledBytes, WholeFrames, Leftover, Flatten;
    if tail == [] {
      assert whole + [] == whole && audio + Zeros(0) == audio;
      assert Flatten(whole) + [] == Flatten(whole);
    } else {
      var n := frameBytes - |tail|;
      FlattenSnoc(whole, tail + Zeros(n));
      ConcatAssociates(Flatten(whole), tail, Zeros(n));
    }
  }

  /** With the cutting switched off, the audio of a chunk is one frame, or none when there is no audio. */
  lemma OneFrame(sent: seq<seq<byte>>, audio: seq<byte>, frames: seq<seq<byte>>)
    requires frames == if audio == [] then [] else [audio]
    ensures Flatten(sent + frames) == Flatten(sent) + audio
  {
    if audio == [] {
      assert sent + frames == sent;
    } else {
      FlattenSnoc(sent, audio);
    }
  }

  /** What is left to send at the end of the body. */
  lemma LastFrame(body: seq<byte>, frameBytes: pos, sampleRate: pos)
    ensures var audio := ResampledBytes(body, OPENAI_PCM_SAMPLE_RATE, sampleRate);
            var tail := Leftover(audio, frameBytes);
            && |tail| < frameBytes
            && SpeechFrames(body, frameBytes, sampleRate)
               == if tail == [] then WholeFrames(audio, frameBytes)
                  else WholeFrames(audio, frameBytes) + [tail + Zeros(frameBytes - |tail|)]
  {
    FramesAreTheData(ResampledBytes(body, OPENAI_PCM_SAMPLE_RATE, sampleRate), frameBytes);
  }

  lemma NothingYet(frameBytes: int, sampleRate: pos)
    ensures ResampledBytes([], OPENAI_PCM_SAMPLE_RATE, sampleRate) == []
    ensures Flatten<byte>([]) == []
    ensures frameBytes > 0 ==> WholeFrames([], frameBytes) == [] && Leftover([], frameBytes) == []
  {
    ResampledNothing(OPENAI_PCM_SAMPLE_RATE, sampleRate);
  }

  /**
   The loop of `stream` over the chunks of the response body. With a positive frame size
   the frames depend on the body alone, not on how the connection cut it into chunks. A
   negative size switches the cutting off: each chunk's audio is passed on as it comes.
   */
  method StreamFrames(chunks: seq<seq<byte>>, frameBytes: int, sampleRate: pos) returns (sent: seq<seq<byte>>)
    ensures frameBytes > 0 ==> sent == SpeechFrames(Flatten(chunks), frameBytes, sampleRate)
    ensures frameBytes <= 0 ==> Flatten(sent) == ResampledBytes(Flatten(chunks), OPENAI_PCM_SAMPLE_RATE, sampleRate)
  {
    hide ResampledBytes, Carried, WholeFrames, Leftover, Flatten, SpeechFrames, Even, Rest;
    sent := [];
    var buffer := [];
    var resampler := new Pcm16Resampler(OPENAI_PCM_SAMPLE_RATE, sampleRate);
    NothingYet(frameBytes, sampleRate);
    for c := 0 to |chunks|
      invariant fresh(resampler) && resampler.Valid()
      invariant resampler.src == OPENAI_PCM_SAMPLE_RATE && resampler.dst == sampleRate
      invariant resampler.fed == Flatten(chunks[..c])
      invariant frameBytes > 0 ==> sent == WholeFrames(resampler.Emitted(), frameBytes)
      invariant frameBytes > 0 ==> buffer == Leftover(resampler.Emitted(), frameBytes)
      invariant frameBytes <= 0 ==> Flatten(sent) == resampler.Emitted() && buffer == []
    {
      FlattenTake(chunks, c);
      if chunks[c] == [] {
        assert resampler.fed + chunks[c] == resampler.fed;
        continue;
      }
      ghost var before := resampler.Emitted();
      var audio := resampler.Process(chunks[c]);
      var frames, remainder := ChunkPcmBytes(buffer + audio, frameBytes);
      if frameBytes > 0 {
        FramesConcat(before, audio, frameBytes);
      } else {
        assert buffer + audio == audio;
        OneFrame(sent, audio, frames);
      }
      buffer := remainder;
      sent := sent + frames;  // the engine yields them one by one
    }
    assert chunks[..|chunks|] == chunks;
    if frameBytes > 0 {
      LastFrame(Flatten(chunks), frameBytes, sampleRate);
    }
    if buffer != [] {
      sent := sent + [buffer + Zeros(frameBytes - |buffer|)];
    }
  }
}
