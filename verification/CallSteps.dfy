/**
 A phone call, step by step. The state is guarded by a lock that some operations keep while they
 wait for the speech task to end. A step is what one task does between two awaits that can
 suspend, and a schedule of events is an interleaving of all the tasks of the call.
 */
module CallSteps {
  import opened Sequences
  import opened Text
  import opened Pcm16

  datatype State =
    | Incoming | Connecting | Connected | Streaming | Listening | Processing | Speaking
    | Paused | Interrupted | Transferred | Failed | TimedOut | Cancelled | Ended

  /** The transition table. */
  predicate InTable(before: State, after: State) {
    match before
    case Incoming => after.Connecting? || after.Ended?
    case Connecting => after.Connected? || after.Listening? || after.Ended?
    case Connected => after.Streaming? || after.Listening? || after.Ended?
    case Streaming => after.Listening? || after.Transferred? || after.Ended?
    case Listening => after.Streaming? || after.Processing? || after.TimedOut? || after.Ended?
    case Processing =>
      after.Speaking? || after.Listening? || after.Interrupted? || after.Failed? || after.Ended?
    case Speaking =>
      after.Interrupted? || after.Listening? || after.Paused? || after.Failed? || after.Ended?
    case Paused => after.Listening? || after.Ended?
    case Interrupted => after.Listening? || after.Ended?
    case Transferred => after.Ended?
    case Failed => after.Ended?
    case TimedOut => after.Ended?
    case Cancelled => after.Ended?
    case Ended => false
  }

  /** The state after trying a transition. */
  function Tried(state: State, next: State): State {
    if InTable(state, next) then next else state
  }

  function BackToListening(state: State): State {
    Tried(Tried(state, Interrupted), Listening)
  }

  predicate InReply(state: State) {
    state.Processing? || state.Speaking?
  }

  /** The task that a recovery from a failure runs in. */
  datatype Origin = Elsewhere | Generation | Speech

  /** What the task that keeps the lock is doing. */
  datatype Holder =
    | BargingIn
    | Recovering(origin: Origin)
    | OpeningReply | OpeningFallback | OpeningPrompt
    | Stopping      // the call is ended: the speech is being stopped
    | Finalising    // the recogniser is asked for its last transcript
    | Flushing      // that transcript's handler waits for the lock: for its own task, that is
    | Marking       // the end mark waits for room in the recogniser's queue
    | TearingDown

  datatype Lock = Free | Held(holder: Holder)

  /** How far `start` is. */
  datatype Setup = Fresh | Built | Joined | Started

  /** Where the speech task is with the frame in hand. */
  datatype Frame = NoFrame | Offered | Checked | Sending

  /** The newest speech task: whether it is not done, its number, and whether it has noted that audio was sent. */
  datatype Voice = Voice(active: bool, frame: Frame, number: nat, audioSent: bool)

  /** Where the recogniser's loop is: with a frame, waiting for one, or left. */
  datatype Loop = Working | AtGet | Gone

  /** The recogniser's consumer: bytes short of a frame, frames on their way to its queue, and the queue. */
  datatype Ears = Ears(there: bool, buffered: nat, arriving: nat, backlog: nat, running: bool, loop: Loop)

  /** What the recogniser has left when the call is stopped. */
  datatype LastTranscript = Nothing | Partial | Final(transcript: string)

  /** What begins to be sent to the caller: audio of a speech, or the order to drop what is not yet played. */
  datatype Out = Media(number: nat) | Clear(number: nat)

  const PCM_FRAME_BYTES: nat := 640
  const STT_QUEUE_SIZE: nat := 50

  /** Everything about the call that other tasks can see between two steps. */
  datatype Call = Call(
    state: State,
    lock: Lock,
    clearing: bool,        // the stop that the holder waits in is to send a clear
    waiters: nat,          // tasks that wait for the lock, but for recoveries on their way to the fallback
    fallbacks: nat,        // those
    apologies: nat,        // recoveries that have gone on to the fallback message so far
    setup: Setup,
    outboundMuted: bool,
    canSend: bool,         // the send callback is set
    consumers: bool,       // the speech and language model consumers exist
    ears: Ears,
    userSpeaking: bool,
    systemSpeaking: bool,
    opening: bool,         // a turn is processed and its reply not yet opened
    voice: Voice,
    generating: bool,      // the newest generation task is not done
    clashes: nat,          // calls of `begin` that found a speech task still running
    out: seq<Out>)

  const Dialled: Call :=
    Call(Connecting, Free, false, 0, 0, 0, Fresh, false, false, false, Ears(false, 0, 0, 0, false, Gone),
         false, false, false, Voice(false, NoFrame, 0, false), false, 0, [])

  datatype Event =
    | Builds | Joins | Listens                               // start
    | Queues | GivesUp                                       // a task comes to wait for the lock, or is cancelled there
    | UserSpeaks | UserPauses | Interrupts                   // flags that transcripts change without the lock
    | TurnStarts | TurnCompletes | ReplyOpens | ReplyOpened
    | Segment | GenerationEnds
    | PlaybackEnds | SpeechCut                               // the speech task ends: heard out, or in any other way
    | Clears                                                 // a stop whose speech task is over sends its clear
    | BargesIn | BargedIn
    | Fails(origin: Origin) | Recovered | FallbackOpens | FallbackOpened
    | PromptOpens | PromptOpened                             // the silence prompt
    | Audio(pcm: seq<byte>)                                  // from the caller, decoded
    | Arrives | LoopTakes | LoopTurns                        // the recogniser's queue and loop
    | FrameOffered | FrameChecked | FrameSent | FrameDone    // to the caller
    | Stops | Finalises | Flushes(last: LastTranscript) | Marked | Stopped

  /** Somebody waits for the lock. */
  predicate Contended(call: Call) {
    call.waiters + call.fallbacks > 0
  }

  /** A task gets the lock: a waiting one if there are any, else one that has just come. */
  predicate GetsLock(call: Call) {
    call.lock.Free? && (call.fallbacks > 0 ==> call.waiters > 0)
  }

  /** The speech task can go on; it cannot while it waits for its own end. */
  predicate SpeechRuns(call: Call) {
    call.voice.active && !(call.lock.Held? && call.lock.holder == Recovering(Speech))
  }

  /** A step of a task that keeps the lock while `stop` waits for the speech task. */
  predicate StopReturns(call: Call, holder: Holder) {
    call.lock.Held? && call.lock.holder == holder && !call.voice.active && !call.clearing
  }

  predicate Possible(call: Call, event: Event) {
    match event
    case Builds => call.setup.Fresh?
    case Joins => call.setup.Built? && GetsLock(call)
    case Listens => call.setup.Joined? && GetsLock(call)
    case Queues => !call.lock.Free? || Contended(call)
    case GivesUp => call.waiters > 0
    case UserSpeaks => true
    case UserPauses => true
    case Interrupts => call.systemSpeaking
    case TurnStarts => GetsLock(call) && !call.opening
    case TurnCompletes => GetsLock(call) && !call.opening
    case ReplyOpens => GetsLock(call) && call.opening
    case ReplyOpened => StopReturns(call, OpeningReply)
    case Segment => GetsLock(call) && call.generating
    case GenerationEnds => call.generating && !(call.lock.Held? && call.lock.holder == Recovering(Generation))
    case PlaybackEnds => GetsLock(call) && call.voice.active && call.voice.frame.NoFrame?
    case SpeechCut => SpeechRuns(call)
    case Clears => call.lock.Held? && !call.voice.active && call.clearing
    case BargesIn => GetsLock(call)
    case BargedIn => StopReturns(call, BargingIn)
    case Fails(origin) =>
      && GetsLock(call)
      && (origin.Generation? ==> call.generating)
      && (origin.Speech? ==> call.voice.frame.Sending?)
    case Recovered => call.lock.Held? && call.lock.holder.Recovering? && !call.voice.active && !call.clearing
    case FallbackOpens => call.lock.Free? && call.fallbacks > 0
    case FallbackOpened => StopReturns(call, OpeningFallback)
    case PromptOpens => GetsLock(call)
    case PromptOpened => StopReturns(call, OpeningPrompt)
    case Audio(_) => GetsLock(call)
    case Arrives => call.ears.arriving > 0
    case LoopTakes => call.ears.loop.AtGet? && call.ears.backlog > 0
    case LoopTurns => call.ears.loop.Working?
    case FrameOffered => SpeechRuns(call) && call.voice.frame.NoFrame?
    case FrameChecked => GetsLock(call) && call.voice.frame.Offered?
    case FrameSent => GetsLock(call) && call.voice.frame.Checked?
    case FrameDone => SpeechRuns(call) && call.voice.frame.Sending?
    case Stops => GetsLock(call)
    case Finalises => StopReturns(call, Stopping)
    case Flushes(_) => call.lock.Held? && call.lock.holder.Finalising?
    case Marked => call.lock.Held? && call.lock.holder.Marking? && call.ears.backlog < STT_QUEUE_SIZE
    case Stopped => call.lock.Held? && call.lock.holder.TearingDown?
  }

  /** The events in which a task gets the lock, other than for the fallback message. */
  predicate TakesLock(event: Event) {
    || event.Joins? || event.Listens? || event.TurnStarts? || event.TurnCompletes? || event.ReplyOpens?
    || event.Segment? || event.PlaybackEnds? || event.BargesIn? || event.Fails? || event.PromptOpens?
    || event.Audio? || event.FrameChecked? || event.FrameSent? || event.Stops?
  }

  /** One waiting task fewer. */
  function Asked(call: Call): Call {
    call.(waiters := if call.waiters > 0 then call.waiters - 1 else 0)
  }

  /** `begin`: it would have to wait if a speech task were running. */
  function Begin(call: Call): Call {
    if call.voice.active then call.(clashes := call.clashes + 1)
    else call.(voice := Voice(true, NoFrame, call.voice.number + 1, false))
  }

  /** `stop` has a speech task to wait for; it sends a clear afterwards if audio was sent. */
  function WaitIn(call: Call, holder: Holder): Call {
    call.(lock := Held(holder), clearing := call.voice.audioSent && holder != Recovering(Generation))
  }

  /** The rest of a completed turn: `begin` and start_generation. */
  function OpenReply(call: Call): Call {
    Begin(call).(generating := true)
  }

  /** A reply that may open now: its opener gives the lock back. */
  function SystemTurn(call: Call): Call {
    call.(lock := Free, systemSpeaking := true)
  }

  /** A barge-in, or a recovery, once the speech is stopped. */
  function Quieted(call: Call): Call {
    call.(lock := Free, userSpeaking := false, systemSpeaking := false)
  }

  function Barged(call: Call): Call {
    Quieted(call).(state := BackToListening(call.state), outboundMuted := false)
  }

  /** The fallback message, when it gets the lock. */
  function OpenFallback(call: Call): Call {
    if call.state.Ended? || !call.consumers then call
    else if call.voice.active then WaitIn(call, OpeningFallback)
    else Begin(call)
  }

  /** A recovery, once the speech is stopped, leaves the reply. */
  function Calmed(call: Call): Call {
    Quieted(call).(state := if InReply(call.state) then BackToListening(call.state) else call.state)
  }

  /**
   It goes on to the fallback message, for which it asks for the lock again. A generation's own
   task, whose cancellation is pending, is cancelled if it has to wait there.
   */
  function ToFallback(call: Call, origin: Origin): Call {
    if !Contended(call) then OpenFallback(call.(apologies := call.apologies + 1))
    else if origin.Generation? then call
    else call.(fallbacks := call.fallbacks + 1, apologies := call.apologies + 1)
  }

  function Recover(call: Call, origin: Origin): Call {
    ToFallback(if origin.Generation? then Calmed(call).(generating := false) else Calmed(call), origin)
  }

  /** Whether handling the last transcript asks for the lock, by who is marked speaking. */
  predicate NeedsLock(user: bool, system: bool, last: LastTranscript) {
    match last
    case Nothing => false
    case Partial => system || !user
    case Final(transcript) => user || HasText(transcript)
  }

  predicate AsksForLock(call: Call, last: LastTranscript) {
    NeedsLock(call.userSpeaking, call.systemSpeaking, last)
  }

  /** The first part of `start`. The loop's task looks whether it is running before it does anything. */
  function Build(call: Call): Call {
    call.(setup := Built, canSend := true, consumers := true, ears := Ears(true, 0, 0, 0, true, Working))
  }

  /** _on_user_turn_started */
  function StartTurn(call: Call): Call {
    call.(state := if call.state.Processing? then Listening else call.state)
  }

  /** _on_user_turn_completed, up to where it gives the lock back. */
  function CompleteTurn(call: Call): Call {
    call.(
      state := if call.state.Listening? then Processing else call.state,
      opening := if call.state.Listening? then call.consumers else call.opening)
  }

  /** _on_system_turn_start, and the rest of the completed turn. */
  function StartReply(call: Call): Call {
    var open := call.(opening := false);
    if call.state.Ended? then OpenReply(open)
    else if call.consumers && call.voice.active then WaitIn(open, OpeningReply)
    else OpenReply(SystemTurn(open))
  }

  /** _on_llm_segment */
  function SpeakSegment(call: Call): Call {
    call.(state := if call.state.Processing? then Speaking else call.state)
  }

  /** _on_tts_playback_end, of a reply that was heard out. */
  function EndPlayback(call: Call): Call {
    call.(
      voice := call.voice.(active := false),
      systemSpeaking := call.systemSpeaking && call.state.Ended?,
      state := if InReply(call.state) then Listening else call.state)
  }

  /** _handle_barge_in */
  function BargeIn(call: Call): Call {
    if !InReply(call.state) then call
    else if call.consumers && call.voice.active then WaitIn(call.(outboundMuted := true), BargingIn)
    else Barged(call)
  }

  /** _handle_pipeline_error */
  function Fail(call: Call, origin: Origin): Call {
    if call.state.Ended? then call
    else if call.consumers && call.voice.active then WaitIn(call, Recovering(origin))
    else Recover(call, origin)
  }

  /** A recovery that has waited for the speech: one in the generation's own task is cancelled then. */
  function GoOn(call: Call, origin: Origin): Call {
    if origin.Generation? then call.(lock := Free, generating := false) else Recover(call, origin)
  }

  /** The prompt of _silence_loop. */
  function OpenPrompt(call: Call): Call {
    if !call.state.Listening? then call
    else if call.consumers && call.voice.active then WaitIn(call, OpeningPrompt)
    else Begin(call)
  }

  /** feed_mulaw: the state, and what the recogniser's consumer is given. */
  function Hear(call: Call, pcm: seq<byte>): Call {
    call.(
      state := if pcm != [] && (call.state.Connected? || call.state.Listening?) then Streaming else call.state,
      ears := if pcm != [] && !call.state.Ended? then TakeIn(call.ears, |pcm|) else call.ears)
  }

  function TakeIn(ears: Ears, bytes: nat): Ears {
    if !ears.there then ears
    else
      var all := ears.buffered + bytes;
      ears.(buffered := all % PCM_FRAME_BYTES, arriving := ears.arriving + all / PCM_FRAME_BYTES)
  }

  /** process_frame: the frame is dropped if there is no room. */
  function Arrive(ears: Ears): Ears
    requires ears.arriving > 0
  {
    ears.(
      arriving := ears.arriving - 1,
      backlog := if ears.backlog < STT_QUEUE_SIZE then ears.backlog + 1 else ears.backlog)
  }

  /** _process_loop after a frame: it goes on only while the consumer is running. */
  function Turn(ears: Ears): Ears {
    if !ears.running then ears.(loop := Gone)
    else if ears.backlog > 0 then ears.(backlog := ears.backlog - 1, loop := Working)
    else ears.(loop := AtGet)
  }

  /** The first check of send_audio_frame. */
  function CheckFrame(call: Call): Call {
    call.(voice := if call.outboundMuted || call.state.Ended? then FrameOver(call.voice) else call.voice.(frame := Checked))
  }

  /** send_audio_frame has returned, sent or not. */
  function FrameOver(voice: Voice): Voice {
    voice.(frame := NoFrame, audioSent := true)
  }

  /** The second check of send_audio_frame, and the start of the send. */
  function SendFrame(call: Call): Call {
    var sends := !call.outboundMuted && !call.state.Ended? && call.canSend;
    call.(
      voice := if sends then call.voice.(frame := Sending) else FrameOver(call.voice),
      out := if sends then call.out + [Media(call.voice.number)] else call.out)
  }

  /** The clear of a stop: it goes out while the send callback is set. */
  function SendClear(call: Call): Call {
    call.(clearing := false, out := call.out + if call.canSend then [Clear(call.voice.number)] else [])
  }

  /** The start of `stop`. */
  function Stop(call: Call): Call {
    if call.state.Ended? then call
    else
      var ended := call.(state := Ended, canSend := false, outboundMuted := true);
      if call.consumers && call.voice.active then WaitIn(ended, Stopping) else Finalise(ended)
  }

  /** The recogniser's consumer, if there is one, stops running and asks for the last transcript. */
  function Finalise(call: Call): Call {
    if call.ears.there then call.(lock := Held(Finalising), ears := call.ears.(running := false)) else Torn(call)
  }

  /** The last transcript is handled in the task that keeps the lock, which then puts the end mark. */
  function Flush(call: Call, last: LastTranscript): Call {
    call.(lock := Held(
      if AsksForLock(call, last) then Flushing
      else if call.ears.backlog >= STT_QUEUE_SIZE then Marking else TearingDown))
  }

  /** The end of `stop`: the consumers are gone, and with the loop the turn it may have been opening a reply for. */
  function Torn(call: Call): Call {
    call.(
      lock := Free, outboundMuted := false, consumers := false, opening := false, ears := NoEars(call.ears))
  }

  function NoEars(ears: Ears): (none: Ears)
    ensures none.buffered == 0 && !none.there
  {
    ears.(there := false, buffered := 0, running := false, loop := Gone)
  }

  function Next(call: Call, event: Event): Call
    requires Possible(call, event)
  {
    match event
    case Builds => Build(call)
    case Joins => Asked(call).(setup := Joined, state := Tried(call.state, Connected))
    case Listens => Asked(call).(setup := Started, state := Tried(call.state, Listening))
    case Queues => call.(waiters := call.waiters + 1)
    case GivesUp => Asked(call)
    case UserSpeaks => call.(userSpeaking := true)
    case UserPauses => call.(userSpeaking := false)
    case Interrupts => call.(userSpeaking := false, systemSpeaking := false)
    case TurnStarts => StartTurn(Asked(call))
    case TurnCompletes => CompleteTurn(Asked(call))
    case ReplyOpens => StartReply(Asked(call))
    case ReplyOpened => OpenReply(SystemTurn(call))
    case Segment => SpeakSegment(Asked(call))
    case GenerationEnds => call.(generating := false)
    case PlaybackEnds => EndPlayback(Asked(call))
    case SpeechCut => call.(voice := call.voice.(active := false, frame := NoFrame))
    case Clears => SendClear(call)
    case BargesIn => BargeIn(Asked(call))
    case BargedIn => Barged(call)
    case Fails(origin) => Fail(Asked(call), origin)
    case Recovered => GoOn(call, call.lock.holder.origin)
    case FallbackOpens => OpenFallback(call.(fallbacks := call.fallbacks - 1))
    case FallbackOpened => Begin(call.(lock := Free))
    case PromptOpens => OpenPrompt(Asked(call))
    case PromptOpened => Begin(call.(lock := Free))
    case Audio(pcm) => Hear(Asked(call), pcm)
    case Arrives => call.(ears := Arrive(call.ears))
    case LoopTakes => call.(ears := call.ears.(backlog := call.ears.backlog - 1, loop := Working))
    case LoopTurns => call.(ears := Turn(call.ears))
    case FrameOffered => call.(voice := if call.canSend then call.voice.(frame := Offered) else FrameOver(call.voice))
    case FrameChecked => CheckFrame(Asked(call))
    case FrameSent => SendFrame(Asked(call))
    case FrameDone => call.(voice := FrameOver(call.voice))
    case Stops => Stop(Asked(call))
    case Finalises => Finalise(call)
    case Flushes(last) => Flush(call, last)
    case Marked => call.(lock := Held(TearingDown))
    case Stopped => Torn(call)
  }

  /** An event whose task must wait, or is not there, changes nothing. */
  function Tick(call: Call, event: Event): Call {
    if Possible(call, event) then Next(call, event) else call
  }

  /** The audio that the recogniser's frames are cut from. */
  function Taken(call: Call, event: Event): seq<byte> {
    if Possible(call, event) && event.Audio? && !call.state.Ended? && call.ears.there then event.pcm else []
  }

  /** The call before and after each event of a schedule. */
  ghost predicate IsRun(calls: seq<Call>, schedule: seq<Event>) {
    && |calls| == |schedule| + 1
    && calls[0] == Dialled
    && forall i :: 0 <= i < |schedule| ==> calls[i + 1] == Tick(calls[i], schedule[i])
  }

  lemma StepOf(calls: seq<Call>, schedule: seq<Event>, i: nat)
    requires IsRun(calls, schedule) && i < |schedule|
    ensures calls[i + 1] == Tick(calls[i], schedule[i])
  {
    hide Tick;
  }

  lemma RunSnoc(calls: seq<Call>, schedule: seq<Event>, event: Event)
    requires IsRun(calls, schedule)
    ensures IsRun(calls + [Tick(calls[|schedule|], event)], schedule + [event])
  {
    hide Tick;
  }
}
