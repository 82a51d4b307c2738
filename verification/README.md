# Voice pipeline: streaming and turn-taking

A Dafny 4.11 model of the streaming core of a real-time voice assistant, with proofs. The
assistant receives a caller's audio frame by frame, recognises speech, decides when the caller
has finished a turn, streams a reply from a language model, cuts it into sentences, speaks them
and paces the audio to the client, and stops at once when the caller interrupts.

`dafny verify dfyconfig.toml` checks everything. One module per component:

| files | what they model |
|---|---|
| `Sequences`, `Words` | shared vocabulary: concatenation of pieces, the words of a text |
| `Resampling`, `Pcm16`, `PcmResampler`, `OpenAiSpeech`, `CaptureWorklet` | audio that arrives in arbitrary chunks, against the whole stream handled at once |
| `SentenceChunker`, `Tokenisation`, `SegmentTexts` | cutting a token stream into sentences, and exactly when the tokens do not matter |
| `Coroutines`, `LlmConsumer`, `GenerationTask` | one generation task: a step machine, and the coroutine body written as it runs |
| `ReplySystem`, `SpeechTask`, `ReplyConsumers`, `ReplySafety`, `OutputTrace`, `ReplyWitnesses` | speech tasks, generation tasks and the calls that stop and open replies, interleaved in every possible way |
| `Pacing` | how far the sent audio may run ahead of playback |
| `TurnTaking`, `Deepgram` | who speaks, which turn is held, which turns are answered; no spoken word is lost |
| `SessionReplies`, `SessionOverlap` | turn-taking and replies together: which tasks open replies, and exactly when two can be open at once |
| `AudioQueue`, `InboundPipeline` | the inbound frames: a drop-oldest queue, the dispatcher, a drop-newest queue |
| `RateLimiter`, `Vad` | the sliding-window limiter, the speech detector |
| `CallSteps`, `CallSafety`, `CallTrace` | the phone call: its steps, what every run keeps, what the caller is sent |
| `CallLock`, `CallRecovery`, `CallSession` | when the call's lock comes back, what recoveries come to, and the class |

Concurrency is modelled by atomic steps: a step is the code between two awaits that can really
suspend. Theorems about runs quantify over every schedule of such steps. Code that changes
objects is a class or a method with loops; each is proved against functions on values, and the
long-run properties are proved about those functions.

Positions and durations are exact: the resampler's position is an integer scaled by the
destination rate, and energies, times and browser samples are reals.

## What was found out about the code

- A generation that has failed and been superseded still calls `finish()` after its error message,
  which puts an end mark into the queue of the newest reply, if that is active then; exactly then
  (`ReplySafety.ForeignEndMarkIff`, with a run in `ReplyWitnesses.FailedReplyEndsTheNext`). Text
  segments never go astray (`ReplySafety.SegmentsStayWithTheirReply`).
- At most the newest speech task runs, exactly as long as no reply is opened over an active one
  (`OutputTrace.OneSpeaksIff`); then the output is well-formed (`OutputTrace.OutputIsWellFormed`),
  and without it audio can interleave (`ReplyWitnesses.OverlappingRepliesInterleave`).
- A voice session keeps to that with the holding of unfinished turns switched off, and not with it
  switched on: the hold timer and the transcript task can both be opening a reply
  (`SessionOverlap.SerialIffNotHolding`). A phone call always keeps to it
  (`CallSafety.BeginsNeverClash`), and its caller is sent one speech after the other, with nothing of
  a speech after the order to drop it (`CallTrace.CallerHearsInOrder`).
- A phone call that hears audio while listening goes to STREAMING and leaves it only by ending, so
  no later turn is answered (`CallSafety.StreamingIffHeard`, `CallSafety.AudioEndsTheTurns`).
- A recovery from a failure during a phone reply brings the call back to LISTENING exactly if it
  does not run in the newest generation's own task or the speech task, or no speech task is active
  (`CallRecovery.RecoveryOutcome`). The docstring of `_handle_pipeline_error` promises it always; the
  model follows the code. A task that asks for its own cancellation is cancelled at its next wait,
  and a task that waits for its own end waits for ever.
- The phone call's lock is kept for ever in three ways, and exactly then (`CallLock.StuckIff`): a send
  to the caller has failed, so that the speech task waits for its own end; the recogniser's last
  transcript, handled by the task that ends the call and keeps the lock, asks for the lock; or the
  recogniser's queue of 50 frames is full, with the loop at a frame, when its consumer is stopped or
  before the end mark is put: the loop leaves after that frame and nobody makes room
  (`CallRecovery.FullQueueIsStuck`). Otherwise the lock comes back in every run, by the time the
  holder and those it waits for have taken seven steps, none of which needs the lock
  (`CallLock.LockComesBack`, `CallLock.OwnStepExists`).
- `tts_end` can be sent before the client has played everything: exactly if less time has passed
  since the first send than the audio lasts (`Pacing.EndIsEarlyIff`, `Pacing.EarlyEnd`).
- Waiting `retry_after` seconds is enough exactly when the true wait is at most one second or a
  whole number of seconds (`RateLimiter.RetryAfterSuffices`). With a limit below one, `allow`
  raises (`RateLimiter.NothingAccepted`).
- Where sentences are cut depends on the tokens exactly when a prefix of the text still to be cut
  is cut elsewhere than the whole (`Tokenisation.TokenisationIndependent`). The texts of the segments
  depend on them exactly when some buffer is cut into another segment than the whole text's next
  (`SegmentTexts.SegmentsSettledIff`); without newlines the two conditions are the same.
- The energy of a frame can be over the documented 32767, exactly if it has more samples of -32768
  than the other samples are below 32767 in all (`Vad.EnergyOverRangeIff`).

## Model

| member | source | states |
|---|---|---|
| Resampling.ResampledMeaning | app/voice/audio.py:86-99 | which outputs exist (those read strictly before the last sample) and what each one is: the closed form of the loop |
| Resampling.CeilDivMeaning | app/voice/audio.py:91-97 | the output count ceil((N-1)*dst/src) means: output k exists iff k steps start before sample N-1 |
| Resampling.CarriedPosition | app/voice/audio.py:96-97 | after N samples the carried position lies in [0, step) |
| Resampling.OutputAtStable | app/voice/audio.py:92-96 | an output that could be computed is not changed by later samples |
| Resampling.OutputPrefixStable | app/voice/audio.py:86-99 | nor is any prefix of the output |
| Resampling.OutputBetweenNeighbours | app/voice/audio.py:92-96 | every output lies between the two source samples around its position, both of which exist |
| Resampling.RangeKept | app/voice/audio.py:95-99 | samples in a range give outputs in that range, so packing cannot overflow |
| Pcm16.UnpackPack | app/voice/audio.py:86-99 | unpacking packed samples gives the samples back |
| Pcm16.PackUnpack | app/voice/audio.py:86-99 | packing unpacked bytes gives the bytes back |
| Pcm16.FramesAreTheData | app/voice/audio.py:45-54 | frames and remainder joined are the data, every frame is full, the remainder is shorter than a frame |
| Pcm16.FramesConcat | app/voice/audio.py:45-54 | cutting is a streaming operation: the remainder put before the next data gives the frames of the whole |
| Pcm16.ChunkPcmBytes | app/voice/audio.py:45-54 | the loop gives exactly those frames and that remainder; a non-positive size means one frame or none |
| PcmResampler.Pcm16Resampler.constructor | app/voice/audio.py:66-73 | a fresh resampler has been fed nothing |
| PcmResampler.Pcm16Resampler.Process | app/voice/audio.py:75-99 | each call returns exactly what the whole stream so far gives beyond what was already returned |
| PcmResampler.TakeWhole | app/voice/audio.py:79-83 | an odd last byte is put aside, all others are whole samples |
| PcmResampler.Interpolate | app/voice/audio.py:89-97 | the loop adds the outputs between the old samples and the new end, and carries the position on |
| PcmResampler.ResampleSamples | app/voice/audio.py:86-98 | the same for one chunk with the inserted last sample of the chunk before |
| PcmResampler.ResampleInChunks | app/voice/audio.py:57-99 | chunk invariance: for every split of every byte stream the joined outputs are the whole stream resampled at once |
| PcmResampler.ResampledBytesMeaning | app/voice/audio.py:57-99 | every sample of the whole-stream result is the closed-form output of the source samples |
| OpenAiSpeech.StreamFrames | app/tts/providers/openai_tts_engine.py:73-92 | for every chunking of a body, the frames sent are those of the whole body |
| OpenAiSpeech.SpeechFramesMeaning | app/tts/providers/openai_tts_engine.py:73-92 | every frame is full, and joined they are the resampled body followed by less than a frame of zeros |
| CaptureWorklet.PcmCaptureProcessor.Emit | web/public/pcm-capture-worklet.js:38-52 | one sample is clamped, coded and put into the frame, which is posted exactly when it is full |
| CaptureWorklet.PcmCaptureProcessor.Process | web/public/pcm-capture-worklet.js:54-73 | after each block all codes of the stream so far are produced, and reads stay within the block and the sample before it |
| CaptureWorklet.BlockRead | web/public/pcm-capture-worklet.js:62-68 | a read at position -1 or later of a block is the next read of the whole stream, with both samples in bounds |
| CaptureWorklet.BlockEnd | web/public/pcm-capture-worklet.js:62-71 | the loop stops exactly when every read of the stream so far is done, and the carried position is at least -1 |
| CaptureWorklet.CaptureInBlocks | web/public/pcm-capture-worklet.js:38-73 | block invariance, and every posted frame holds exactly frameSamples codes |
| CaptureWorklet.SameAsResampler | web/public/pcm-capture-worklet.js:62-71 | the worklet and the Python resampler, whose states differ, interpolate the same values at the same positions |
| SentenceChunking.SentenceChunker.FindCut | app/llm/sentence_chunker.py:46-68 | the scan returns the first hard cut, waits on an open sentence mark, else the last clause cut of a long text |
| SentenceChunking.SentenceChunker.Feed | app/llm/sentence_chunker.py:26-39 | the segments are those of the buffered text and token, the buffer keeps what cannot be cut |
| SentenceChunking.SentenceChunker.Flush | app/llm/sentence_chunker.py:41-44 | the rest is returned stripped, or nothing when it is blank |
| SentenceChunking.Cut | app/llm/sentence_chunker.py:46-68 | every cut is positive and within the text |
| SentenceChunking.FirstHard | app/llm/sentence_chunker.py:48-63 | the first position with a hard cut: it is one and none before it is |
| SentenceChunking.LastClause | app/llm/sentence_chunker.py:64-68 | the last clause mark beyond the minimum length: it is one and none after it is |
| SentenceChunking.CutHasText | app/llm/sentence_chunker.py:32-38 | every cut gives a segment with text in it, so the loop ends and drops nothing |
| SentenceChunking.CutEnds | app/llm/sentence_chunker.py:48-67 | a cut comes after a newline with text before it, or after a mark followed by whitespace |
| Tokenisation.TokenisationIndependent | app/llm/sentence_chunker.py:26-68 | every tokenisation of a text is cut alike if and only if no prefix of the text still to be cut is cut elsewhere than the whole |
| Tokenisation.NoSoftCutUnhurried | app/llm/sentence_chunker.py:46-68 | that holds for every text where no soft cut can fire: short, or without a clause mark before whitespace |
| Tokenisation.HardCutStable | app/llm/sentence_chunker.py:48-63 | appending text never moves a hard cut |
| Tokenisation.CutKeptInFront | app/llm/sentence_chunker.py:46-68 | cutting a piece off the front takes away no cut that the rest alone would allow |
| Tokenisation.SoftCutsDependOnTokens | app/llm/sentence_chunker.py:64-67 | one text, two tokenisations, different segments |
| Tokenisation.CuttingConserves | app/llm/sentence_chunker.py:26-44 | segments and leftover have exactly the non-whitespace characters of the text, in order |
| Tokenisation.SegmentsSplit | app/llm/sentence_chunker.py:26-39 | cuts made before more text arrives are cuts of the longer text |
| Tokenisation.ChunkStream | app/llm/sentence_chunker.py:26-44 | a whole token stream: nothing but whitespace is lost, and an unhurried text gives the segments of the text fed at once |
| LlmGeneration.EveryRunReportsOnce | app/llm/llm_consumer.py:104-178 | in every run a finished task that began called on_complete once with all text; completed means all of it was handed out, otherwise a beginning |
| LlmGeneration.BegunIsReported | app/llm/llm_consumer.py:106-178 | a task that got past its start and is done has reported exactly once, wherever it was cancelled |
| LlmGeneration.StepKeepsInv | app/llm/llm_consumer.py:104-178 | the invariant of handed-out segments, buffer and received text survives every step |
| LlmGeneration.RetiredStaysSilent | app/llm/llm_consumer.py:66-73 | a generation with a requested cancellation, or past its stream, hands out no segment any more |
| GenerationTask.ReceiveTokens | app/llm/llm_consumer.py:108-131 | the token loop, suspended or left at any await, is where the step machine is |
| GenerationTask.Report | app/llm/llm_consumer.py:151-178 | the except and finally blocks end where the step machine does |
| GenerationTask.RunGeneration | app/llm/llm_consumer.py:104-178 | the coroutine body, with its loops and exceptions, refines the step machine on every run |
| ReplyConsumers.Consumers.CancelGeneration | app/llm/llm_consumer.py:59-66 | cancels the newest generation unless it is done |
| ReplyConsumers.Consumers.Open | app/tts/tts_consumer.py:88-92 | a new queue and task; earlier replies keep theirs; the generation before is cancelled |
| ReplyConsumers.Consumers.Stop | app/tts/tts_consumer.py:110-122 | stop returns at once without an active reply, else cancels its task and waits, remembering whether audio was sent |
| ReplyConsumers.Consumers.GoOn | app/tts/tts_consumer.py:122-129 | when the coroutine has ended, tts_clear is sent if and only if audio had been sent |
| ReplyConsumers.Consumers.SpeakSegment | app/tts/tts_consumer.py:94-97 | text goes to the current queue if its reply is active and the text is not blank |
| ReplyConsumers.Consumers.FinishReply | app/tts/tts_consumer.py:99-102 | the end mark goes to the current queue if its reply is active |
| ReplyConsumers.Consumers.GenerationStep | app/voice/session.py:185-202 | a generation's step speaks its segments in order and finishes the reply unless cancelled |
| ReplyConsumers.Consumers.SpeechStep | app/tts/tts_consumer.py:137-221 | a step of a speech task sends at most one message and takes at most one queue item |
| ReplyConsumers.Consumers.Do | app/tts/tts_consumer.py:85-129 | every action on the fields is the action of the system |
| ReplyConsumers.PlayReplies | app/tts/tts_consumer.py:85-221 | the consumers go through every run of the system; with no reply opened over an active one the client sees well-formed speech |
| SpeechTask.SendOne | app/tts/tts_consumer.py:153-170 | one frame, announced if it is the first, and a pause, suspended or left at any await |
| SpeechTask.SpeakText | app/tts/tts_consumer.py:150-170 | the frames of one text |
| SpeechTask.SpeakTexts | app/tts/tts_consumer.py:145-170 | the texts of a reply up to its end mark |
| SpeechTask.PlayOut | app/tts/tts_consumer.py:171-176 | waits for playback and announces the end, only if there was audio |
| SpeechTask.Report | app/tts/tts_consumer.py:186-221 | the except and finally blocks, whatever is cancelled in them |
| SpeechTask.RunSpeech | app/tts/tts_consumer.py:137-221 | the coroutine body, with its nested loops and exceptions, refines the step function on every run |
| SpeechTask.SystemStep | app/tts/tts_consumer.py:137-221 | the step of a task within the whole system is that step |
| ReplySafety.SegmentsStayWithTheirReply | app/tts/tts_consumer.py:85-102 | in every interleaving, every segment in a reply's queue came from that reply's generation; a foreign end mark only from an earlier failed one |
| ReplySafety.ActIsolated | app/voice/session.py:140-202 | the invariant behind it survives every action |
| ReplySafety.StoppedReplyStaysSilent | app/tts/tts_consumer.py:110-129 | once stop has seen the speech task end, no frame, start or end of that reply is ever sent again |
| ReplySafety.EndedRunIsSilent | app/tts/tts_consumer.py:110-129 | the same from any state in which the reply's task is done |
| OutputTrace.OutputIsWellFormed | app/tts/tts_consumer.py:85-217 | no reply opened over an active one: replies never interleave, each frame follows its reply's only tts_start, none follows its tts_end or tts_clear |
| OutputTrace.UnbrokenIsWellSpoken | app/tts/tts_consumer.py:137-217 | the message automaton of one reply accepts only such traces |
| OutputTrace.SpeechNextFits | app/tts/tts_consumer.py:145-217 | a speech task says only what the stage of its reply allows |
| OutputTrace.ActInv | app/tts/tts_consumer.py:85-217 | tasks, waiting calls and trace keep fitting together at every action |
| ReplyWitnesses.FailedReplyEndsTheNext | app/voice/session.py:189-193 | a run in which a failed generation puts its end mark into the next reply's queue |
| ReplyWitnesses.OverlappingRepliesInterleave | app/tts/tts_consumer.py:85-92 | a run in which two overlapping begins make the audio of two replies interleave |
| TurnTaking.ConversationState.StartUserTurn | app/conversation/state.py:19-31 | the user speaks, with this utterance |
| TurnTaking.ConversationState.CompleteUserTurn | app/conversation/state.py:33-38 | the user no longer speaks, one more turn is counted |
| TurnTaking.ConversationState.InterruptUser | app/conversation/state.py:48-52 | the user no longer speaks |
| TurnTaking.VoiceSession.HandleInterruption | app/conversation/turn_manager.py:125-144 | afterwards neither side is marked speaking |
| TurnTaking.VoiceSession.OnPartial | app/conversation/turn_manager.py:46-72 | every case of a partial transcript keeps the session's invariant, with or without a barge-in to wait for |
| TurnTaking.VoiceSession.OnFinal | app/conversation/turn_manager.py:74-123 | every case of a final transcript keeps it, and the words of the event are answered, held or pending |
| TurnTaking.VoiceSession.InterruptionOver | app/conversation/turn_manager.py:46-123 | the event goes on after the barge-in, with its words |
| TurnTaking.VoiceSession.UserTurnStarted | app/voice/session.py:134-138 | speech stops the hold timer |
| TurnTaking.VoiceSession.UserTurnCompleted | app/voice/session.py:156-172 | the turn joined with what was held is answered, held again, or has no words |
| TurnTaking.VoiceSession.Reply | app/voice/session.py:174-183 | the system turn begins with the reply |
| TurnTaking.VoiceSession.OnSpeech | app/voice/session.py:92-108 | speech over a reply interrupts it, speech after a held turn restarts its timer |
| TurnTaking.VoiceSession.HoldTimerFires | app/voice/session.py:231-237 | the held turn is answered as it is |
| TurnTaking.VoiceSession.PlaybackEnded | app/voice/session.py:210-218 | the end of playback can only end the system turn |
| TurnTaking.ContinuedWords | app/voice/session.py:158-163 | joining a held turn with the next keeps the words of both, in order |
| TurnTaking.PlaySession | app/voice/session.py:88-237 | under any schedule the words of all final transcripts are those of the replied turns, the held turn and the event in hand; a held turn waits for its timer or a speaking user |
| Words.WordsJoined | app/voice/session.py:161-161 | joining two texts with a space joins their words |
| Words.WordsStrip | app/voice/session.py:158-161 | stripping changes no word |
| Words.WordsOfJoined | app/stt/providers/deepgram_engine.py:190-190 | the words of joined segments are those of the segments in order |
| Deepgram.Engine.ParseResult | app/stt/providers/deepgram_engine.py:151-187 | only the end of an utterance gives a final event, with every segment settled since the last; all other branches keep them |
| Deepgram.Engine.FinalEvent | app/stt/providers/deepgram_engine.py:189-199 | all settled segments, joined, are the transcript; none stays behind and the ID is cleared |
| Deepgram.ParseAll | app/stt/providers/deepgram_engine.py:151-199 | the words of all settled segments are those of the final transcripts followed by those of the waiting segments |
| Deepgram.SettledWordsAreReplied | app/voice/session.py:156-237 | from the recogniser to the replies: every settled word is in a replied turn, the held turn, an event in hand or to come, or a waiting segment, in order |
| AudioQueue.AudioFrameQueue.constructor | app/streaming/audio_queue.py:41-58 | an empty queue of a positive size |
| AudioQueue.AudioFrameQueue.Enqueue | app/streaming/audio_queue.py:60-102 | the oldest frame makes room when the queue is full, and is counted; contents stay the latest of the frames enqueued |
| AudioQueue.AudioFrameQueue.Dequeue | app/streaming/audio_queue.py:104-124 | the oldest frame is returned, or nothing; the event is set exactly while frames wait |
| AudioQueue.AudioFrameQueue.WaitSleeps | app/streaming/audio_queue.py:126-134 | the consumer sleeps if and only if no frame is waiting |
| AudioQueue.LatestFrames | app/streaming/audio_queue.py:71-100 | the contents stay a suffix of all frames enqueued |
| InboundPipeline.Pipeline.Receive | app/streaming/audio_queue.py:71-102 | a new frame waits, and the one it displaces is marked dropped |
| InboundPipeline.Pipeline.Take | app/streaming/dispatcher.py:118-123 | the dispatcher takes the oldest waiting frame |
| InboundPipeline.Pipeline.PassOn | app/streaming/dispatcher.py:125-142 | the frame goes to the recogniser's queue, is dropped and counted there, or goes no further |
| InboundPipeline.Pipeline.Recognise | app/stt/consumer.py:136-156 | the recogniser gets the next frame |
| InboundPipeline.FirstMoves | app/streaming/dispatcher.py:118-146 | moving the first frame of a stage on takes it off the front of one list and puts it at the end of the next |
| InboundPipeline.RunPath | app/streaming/dispatcher.py:118-146 | under any schedule the recognised frames are a subsequence of those received, and every other frame is waiting, counted by exactly one counter, or was not handed on |
| InboundPipeline.EveryFrameCounted | app/streaming/audio_queue.py:60-124 | every frame has exactly one fate |
| RateLimiter.SlidingWindowCounter.Allow | app/core/rate_limit.py:27-37 | with a clock that never goes back, the deque is exactly the accepted times in the window, and the decision is the full log's |
| RateLimiter.Expire | app/core/rate_limit.py:31-32 | the loop drops everything up to the cutoff |
| RateLimiter.AfterIsInWindow | app/core/rate_limit.py:30-32 | for sorted times that leaves exactly the times in the window |
| RateLimiter.Serve | app/core/rate_limit.py:22-37 | any calls to any keys are decided as a limiter with the full log decides them |
| RateLimiter.LimitIsKept | app/core/rate_limit.py:27-37 | no window, wherever it ends, holds more accepted calls of a key than the limit |
| RateLimiter.RefusedMeaning | app/core/rate_limit.py:33-35 | a refusal means exactly `limit` calls in the window, and a true wait below retry_after + 1 |
| RateLimiter.RetryAfterSuffices | app/core/rate_limit.py:33-35 | calling again after retry_after seconds succeeds if and only if the true wait was at most a second or whole |
| RateLimiter.RetryAfterMayNotSuffice | app/core/rate_limit.py:33-35 | three calls of which the third waits as told and is refused |
| RateLimiter.NothingAccepted | app/core/rate_limit.py:33-35 | with a limit below one nothing is accepted and every call raises |
| Vad.PcmFrameEnergy | app/voice/audio.py:8-16 | the mean absolute sample of the whole samples, 0 without any |
| Vad.EnergyBound | app/voice/audio.py:8-16 | energies are between 0 and 32768 |
| Vad.LoudestFrame | app/voice/audio.py:9-9 | a frame with energy 32768 |
| Vad.EnergyVAD.Update | app/voice/vad.py:43-56 | True if and only if the unbroken loud run since the last reset is exactly as long as needed at this frame |
| Vad.EnergyVAD.Reset | app/voice/vad.py:58-60 | the run starts anew, the noise floor stays |
| Vad.Detect | app/voice/vad.py:24-56 | for every sequence of frames the reports are exactly the onsets of speech |
| Vad.OneOnsetPerRun | app/voice/vad.py:44-56 | between two reports there is a quiet frame |
| Vad.LongRunHasOnset | app/voice/vad.py:46-51 | every run that gets long enough is reported, once |
| Vad.ThresholdWithinRun | app/voice/vad.py:39-56 | the noise floor, and so the threshold, is constant within a loud run |
| Vad.FloorInRange | app/voice/vad.py:53-55 | the noise floor stays within the range of its first value and the quiet energies |
| Pacing.PaceReply | app/tts/tts_consumer.py:144-176 | the sending loop, with its sleeps and the final wait, computes the sends and the time of tts_end of the loop on values, for any timing |
| Pacing.PlayedOutMeaning | app/tts/tts_consumer.py:164-167 | when a client has played everything, in closed form: the latest of all sends plus the audio from there on |
| Pacing.PacedKeeps | app/tts/tts_consumer.py:153-170 | the cursor is the end of playback as counted from when the first frame was ready, and never ahead of the clock by more than the lead |
| Pacing.TotalAgainstCursor | app/tts/tts_consumer.py:155-167 | what has been sent is ahead of the cursor by at most the announcement of the start, and by at most the first frame |
| Pacing.SentWithinLead | app/tts/tts_consumer.py:153-170 | at every frame the audio sent exceeds the time since the first send by at most max_lead, that frame, and the smaller of the announcement and the first frame |
| Pacing.LeadFromFirstSend | app/tts/tts_consumer.py:154-160 | without that slack the bound fails: behind a long announcement two frames go out together |
| Pacing.EndIsEarlyIff | app/tts/tts_consumer.py:171-176 | tts_end precedes the end of playback if and only if less time than the audio lasts has passed since the first send, and by no more than that slack |
| Pacing.EarlyEnd | app/tts/tts_consumer.py:154-176 | a reply whose tts_end is sent when its only frame begins to play |
| SegmentTexts.SegmentsSettledIff | app/llm/sentence_chunker.py:26-68 | for every text: every tokenisation gives the segments of the text fed at once if and only if every buffer that can arise is cut, if at all, into the next of them |
| SegmentTexts.SettledAgainstUnhurried | app/llm/sentence_chunker.py:26-68 | that condition follows from being unhurried, and is the same without newlines |
| SegmentTexts.SegmentsIndependentIff | app/llm/sentence_chunker.py:26-68 | for texts without a newline: every tokenisation gives the same segments if and only if the text is unhurried |
| SegmentTexts.SameSegmentsSameCuts | app/llm/sentence_chunker.py:26-39 | without a newline the segments tell where the text was cut and what is left |
| SegmentTexts.FedCutsAreMarked | app/llm/sentence_chunker.py:26-39 | all cuts of a token stream come right after marks, and leave its leftover |
| ReplySafety.ForeignEndMarkIff | app/voice/session.py:189-193 | in every run a reply gets an earlier generation's end mark if and only if, while the reply is the newest and active, that generation gets past its error message |
| ReplySafety.SupersededStep | app/llm/llm_consumer.py:164-178 | a superseded generation adds exactly its end mark in that step, and nothing in any other |
| OutputTrace.OnlyNewestSpeaksIff | app/tts/tts_consumer.py:85-92 | a step lets two speech tasks run if and only if it opens a reply over an active one |
| OutputTrace.OneSpeaksIff | app/tts/tts_consumer.py:85-129 | so does a run |
| OutputTrace.OneAtATimeSuffices | app/tts/tts_consumer.py:85-92 | calls of begin that do not overlap are enough for that |
| SessionReplies.SessionFits | app/voice/session.py:88-237 | every session acts on its replies only as the reply system can, and its waiting calls belong to waiting tasks |
| SessionReplies.NotHoldingIsSerial | app/voice/session.py:156-172 | with the holding of turns switched off no session opens a reply over an active one |
| SessionOverlap.HeldTurnOverlaps | app/voice/session.py:222-237 | a session in which the hold timer's reply opens over the transcript task's |
| SessionOverlap.SerialIffNotHolding | app/voice/session.py:134-237 | no session opens replies over active ones if and only if holding is switched off |
| SessionOverlap.SpeechIsWellFormed | app/voice/session.py:156-202 | with holding switched off the client of every session gets well-formed speech |
| AudioQueue.AudioFrameQueue.Apply | app/streaming/audio_queue.py:60-124 | one use of the queue, and what it returns or discards |
| AudioQueue.AudioFrameQueue.Clear | app/streaming/audio_queue.py:186-189 | everything waiting is discarded and the event cleared |
| AudioQueue.UseQueue | app/streaming/audio_queue.py:60-189 | any use of the queue: frames come out in order, each is taken, dropped, discarded or waiting, and the event is set exactly while frames wait |
| Deepgram.Engine.StartUtterance | app/stt/providers/deepgram_engine.py:52-53 | the utterance has an ID once there is audio, and keeps it |
| Vad.EnergyOverRangeIff | app/voice/audio.py:8-16 | the energy exceeds 32767 if and only if there are more samples of -32768 than the others are below 32767 in all; never without one; it is 32768 if and only if all are |
| Vad.MagnitudesAre | app/voice/audio.py:12-16 | the sum of magnitudes in terms of these two counts |
| CallSession.CallSession.ApplyTransition | app/telephony/call_session.py:166-185 | the state changes if and only if the table has the pair, and never leaves ENDED |
| CallSession.CallSession.OnUserTurnStarted | app/telephony/call_session.py:293-300 | PROCESSING becomes LISTENING, every other state stays |
| CallSession.CallSession.OnUserTurnCompleted | app/telephony/call_session.py:302-311 | a call that is not processing yet starts to if and only if it is LISTENING |
| CallSession.CallSession.OnSystemTurnStart | app/telephony/call_session.py:334-365 | without a speech task the reply opens at once and the lock is free; with one the lock is kept and nothing is spoken yet |
| CallSession.CallSession.SystemTurnStarted | app/telephony/call_session.py:346-365 | once that speech is over the lock is given back and the next speech begins |
| CallSession.CallSession.OnLlmSegment | app/telephony/call_session.py:367-379 | PROCESSING becomes SPEAKING, every other state stays |
| CallSession.CallSession.OnTtsPlaybackEnd | app/telephony/call_session.py:393-402 | from either state of a reply the call is LISTENING, and the system no longer speaks |
| CallSession.CallSession.HandleBargeIn | app/telephony/call_session.py:497-518 | muted, and the lock kept, if and only if there is a reply and a speech task to wait for; a reply without one is LISTENING at once |
| CallSession.CallSession.BargeInStopped | app/telephony/call_session.py:510-518 | from a reply through INTERRUPTED to LISTENING; unmuted, neither side speaking, the lock free |
| CallSession.CallSession.HandlePipelineError | app/telephony/call_session.py:438-451 | with a speech task the lock is kept in the same state; without one the lock is free and a reply is LISTENING |
| CallSession.CallSession.RecoveryGoesOn | app/telephony/call_session.py:443-451 | after the wait a recovery in the generation's own task changes no state and says nothing; any other leaves the reply |
| CallSession.CallSession.GoOnToFallback | app/telephony/call_session.py:451-478 | with others waiting for the lock a recovery waits behind them, and a cancelled one is lost; else the message is spoken |
| CallSession.CallSession.FeedMulaw | app/telephony/call_session.py:615-643 | audio is cut into whole frames however it arrives, every frame is on its way to the recogniser, and a listening call moves to STREAMING |
| CallSession.CallSession.SendAudioFrame | app/telephony/call_session.py:672-687 | a send begins if and only if the call is neither muted nor ended and can send |
| CallSession.CallSession.SendTtsClear | app/telephony/call_session.py:246-253 | the clear of a stop goes out while the call can send |
| CallSession.CallSession.StopCall | app/telephony/call_session.py:695-721 | the call is ENDED and can send nothing more; with anything to wait for it is muted and keeps the lock |
| CallSession.CallSession.StopRecogniser | app/stt/consumer.py:70-79 | the recogniser's consumer no longer runs, and the lock is kept for its last transcript |
| CallSession.CallSession.LastWords | app/stt/consumer.py:77-89 | the handler of the last transcript waits for the lock exactly if it needs it; else the end mark waits exactly if the queue is full |
| CallSession.PlayCall | app/telephony/call_session.py:129-750 | any schedule from the dialling on: the session goes through a run of steps, every change of state is in the table, and the frames are those of all the audio taken in |
| CallSafety.StepKeeps | app/telephony/call_session.py:94-118 | every step keeps the call sound (observable states only, muted only while the lock is held, no clash of begins) and follows the table |
| CallSafety.RunKeeps | app/telephony/call_session.py:94-118 | so does every run: INTERRUPTED and six other states are never seen between steps |
| CallSafety.EndedIsFinal | app/telephony/call_session.py:692-702 | in every run ENDED is absorbing and no media send begins after it |
| CallSafety.BeginsNeverClash | app/telephony/call_session.py:334-365 | in every run no begin finds a speech task running: replies, fallbacks and prompts are opened one at a time |
| CallSafety.HolderOnly | app/telephony/call_session.py:166-190 | nobody but its holder changes the lock, or the state meanwhile, and a holder that stops the speech only when that is over |
| CallSafety.BargeInSilencesReply | app/telephony/call_session.py:497-518 | from a barge-in to the end of the speech task it stops no media send begins, and no frame is left over |
| CallSafety.SilentWhileMuted | app/telephony/call_session.py:657-678 | no media send begins while muted, however many checks a frame had passed |
| CallSafety.StreamingIsATrap | app/telephony/call_session.py:622-623 | after start, STREAMING is left only for ENDED |
| CallSafety.WaysIn | app/telephony/call_session.py:302-307 | PROCESSING is entered only by a turn completed while LISTENING, STREAMING only by audio heard then |
| CallSafety.ProcessedIffListening | app/telephony/call_session.py:302-307 | in every run a call starts processing exactly when a turn completes while it listens |
| CallSafety.StreamingIffHeard | app/telephony/call_session.py:619-623 | from the end of start on, a call that has not ended is streaming if and only if it took in audio while listening |
| CallSafety.AudioEndsTheTurns | app/telephony/call_session.py:619-623 | after that audio it is only ever STREAMING or ENDED |
| CallSafety.SpokenTurnUnanswered | app/telephony/call_session.py:302-306 | a concrete call whose spoken turn is not processed |
| CallTrace.CallerHearsInOrder | app/telephony/call_session.py:657-687 | in every run the audio sent is that of one speech after the other, and none of a speech follows the order to drop it |
| CallLock.StuckStep | app/stt/consumer.py:70-89 | a step makes the lock stuck if and only if it takes one of the guarded branches: a failed send, a last transcript that needs the lock, no room for the end mark; and a stuck lock stays |
| CallLock.StuckIff | app/telephony/call_session.py:687-721 | in every run the lock is stuck if and only if one of these has happened |
| CallLock.StuckForEver | app/telephony/call_session.py:439-445 | then neither lock nor state ever changes again |
| CallLock.OwnStepExists | app/telephony/call_session.py:166-190 | while the lock is kept and not stuck, its holder, the speech task it stops, or the recogniser's loop can take a step towards giving it back |
| CallLock.HeldRun | app/telephony/call_session.py:695-750 | each such step counts down, and nothing that others do counts up |
| CallLock.LockComesBack | app/telephony/call_session.py:695-750 | in every run, after seven such steps the lock has come back or is stuck for ever |
| CallLock.ReleaseExists | app/telephony/call_session.py:695-750 | from every sound state that is not stuck, such steps alone give the lock back |
| CallLock.LockComesBackIff | app/telephony/call_session.py:695-721 | in every run somebody can get the lock again if and only if it is not stuck |
| CallRecovery.RecoveryOutcome | app/telephony/call_session.py:420-478 | a recovery brings the call back to LISTENING if and only if it runs elsewhere or no speech task is active, and goes on to the fallback message under a stricter condition |
| CallRecovery.WhileRecovering | app/telephony/call_session.py:439-450 | while a recovery keeps the lock the call stays as it is |
| CallRecovery.FailedGenerationLeavesProcessing | app/telephony/call_session.py:317-324 | a concrete call left in PROCESSING by a failed generation |
| CallRecovery.FailedSpeechLetsItRecover | app/telephony/call_session.py:317-324 | the same failure after the speech has failed: the call recovers and speaks the message |
| CallRecovery.FailedSendIsStuck | app/telephony/call_session.py:687-690 | a concrete call whose lock is kept for ever by a failed send |
| CallRecovery.LastWordsAreStuck | app/stt/consumer.py:77-81 | a concrete call whose stop waits for itself |
| CallRecovery.FullQueueIsStuck | app/stt/consumer.py:75-89 | a concrete call that takes in a second of audio during the recogniser's first frame and is stopped: the end mark finds no room |

## Left out

- SegmentTexts.SegmentsIndependentIff: is for texts without newlines, where a cut shows in the stripped text; for any text the exact condition is in SegmentTexts.SegmentsSettledIff.
- SpeechTask.RunSpeech: sleeping or not, and playback being over or not, are free choices of the schedule here; how they follow from the clock is in Pacing.
- Pacing.PaceReply: a frame counts as sent when its send starts, and the client is taken to play it from then on.
- OutputTrace.OutputIsWellFormed: the sending of `tts_metrics` and of errors is not in the trace.
- SessionReplies.SessionFits: which transcripts come, and which turns sound unfinished, is free; the texts are in TurnTaking. Waiting calls and sends may return in any order.
- CallSession.CallSession.LastWords: the two seconds that the recogniser's task is given to end after the end mark, and the closing of the engines, are one step. Sends to the caller and the engines' calls are taken to return or raise.
- CallSafety.RunKeeps: transcripts come at any time, whether or not the recogniser has been given a frame for them.
- CallSession.CallSession.HandlePipelineError: of generation tasks only the newest is followed; a failure in an older one counts as elsewhere. Exceptions and cancellations inside `begin` and the engines are not modelled.
- ReplyConsumers.Consumers.Do: the tasks, queues and waiting calls are values in sequences and maps that the methods reassign; aliasing between task and queue objects is not captured.
- GenerationTask.RunGeneration: when an await returns is given by the schedule; engines are arbitrary streams that pass a cancellation on.
- ReplySafety.StoppedReplyStaysSilent: a message counts as sent when its send starts.
- CaptureWorklet.PcmCaptureProcessor.Emit: posts the mean square; the source posts its square root.
- SentenceChunking.SentenceChunker.FindCut: lower-casing is of ASCII letters only (no other letter can complete an abbreviation), and a negative minimum length, which would make the scan index from the end, is excluded by its type.
- Deepgram.SettledWordsAreReplied: between two resets of the engine; confidence values are left out.
- TurnTaking.VoiceSession.Reply: what the speech and generation tasks do meanwhile is in the reply system, and the end of playback may come at any time.
- InboundPipeline.Pipeline.PassOn: shutdown marks and exceptions of the recogniser engine are left out.
- Floating-point rounding: the code's positions, times and energies are floats, here they are exact.
- The wall clock, logs, metrics and latency figures, the conversation history, and the queue's own waiting with timeouts.
- `sounds_unfinished` is an arbitrary predicate on texts; its word list is not part of this model.
- `close`, `inject_transcript` and `speak_text`, which break the session's invariants on purpose or at the end; utterance IDs that are not UUIDs.
- The silence timer of a phone call (only its use of the lock is modelled), the μ-law conversion, loudness normalisation, and early barge-in by frame energy on phone calls beyond requesting a barge-in at any time.
- Engines, sockets, HTTP and worker threads; the ElevenLabs and Polly framing, which is the OpenAI framing without the resampler.
- Accounts, permissions, database, configuration and user interface.
