/**
 The reply side of a voice session as one concurrent step system: the speech task and the
 generation task of every reply, and the calls of `stop` and `begin` that are waiting for
 an old speech task to end. A step is the code between two awaits that can suspend.
 Messages count as sent when their send starts.
 */
module ReplySystem {
  import opened Sequences
  import opened Text
  import L = LlmGeneration

  // ------------------------------------------------------ the speech task (TTSConsumer._run)

  datatype SpeechPhase =
    | NotStarted
    | GetText      // queue.get()
    | Synthesise   // waiting for the engine's next frame
    | SendStart | SendFrame
    | Pace         // sleeping because enough audio is ahead
    | Drain        // sleeping until the audio sent has played
    | SendEnd | SendError | SendMetrics
    | PlaybackEnd  // in on_playback_end
    | Done

  datatype Speech = Speech(phase: SpeechPhase, cancelRequested: bool, frames: nat)

  datatype SpeechEvent =
    | Start
    | Text(playing: bool)  // the queue has an item; after the last one, audio may still be playing
    | Frame         // a non-empty frame from the engine
    | EngineEnd | EngineError
    | SendOk(sleep: bool) | SendFail
    | Woke
    | Deliver       // the CancelledError of a requested cancellation

  /** What goes out to the client for a reply. */
  datatype Message = TtsStart(reply: nat) | Audio(reply: nat) | TtsEnd(reply: nat) | TtsClear(reply: nat)

  // ------------------------------------------------------ the whole system

  /** A queue item: a text segment, or the end mark put by `finish`. */
  datatype Item = Segment(text: string) | EndMark

  /** Replies are numbered from 0; reply k owns generation k, speech task k and queue k. */
  datatype Reply = Reply(
    speech: Speech,
    generation: L.Generation,
    queue: seq<Item>,
    accepted: seq<(nat, Item)>)  // every item ever put into the queue, with the generation it came from

  datatype Purpose = BargeIn | NewReply

  /** A call waiting inside `stop` for the speech task of a reply, or sending its tts_clear. */
  datatype Call = Waiting(purpose: Purpose, target: nat, hadAudio: bool) | Clearing(purpose: Purpose, target: nat)

  datatype System = System(replies: seq<Reply>, calls: map<nat, Call>, audioSent: bool, trace: seq<Message>)

  const INITIAL := System([], map[], false, [])

  datatype Action =
    | CancelGeneration                      // llm.cancel()
    | CallInterrupt(id: nat)                // barge-in: llm.cancel(), then tts.stop()
    | CallOpen(id: nat)                     // _reply: tts.begin(), then llm.start_generation()
    | Resume(id: nat)                       // the awaited speech task has ended
    | ClearSent(id: nat)
    | SpeechStep(reply: nat, speechEvent: SpeechEvent)
    | GenerationStep(reply: nat, generationEvent: L.Event)

  function Last(s: System): Reply
    requires s.replies != []
  {
    s.replies[|s.replies| - 1]
  }

  /** `is_active` */
  predicate Active(s: System) {
    s.replies != [] && Last(s).speech.phase != Done
  }

  function WithReply(s: System, k: nat, r: Reply): System
    requires k < |s.replies|
  {
    s.(replies := s.replies[k := r])
  }

  /** llm.cancel() acts on the newest generation. */
  function CancelNewest(s: System): System {
    if s.replies == [] then s
    else WithReply(s, |s.replies| - 1, Last(s).(generation := L.Cancel(Last(s).generation)))
  }

  /** The rest of `begin`, and `start_generation`. */
  function OpenReply(s: System): System {
    var t := CancelNewest(s);
    t.(replies := t.replies + [Reply(Speech(NotStarted, false, 0), L.CREATED, [], [])], audioSent := false)
  }

  /** A `stop` that has returned lets its caller go on. */
  function Returned(s: System, id: nat, purpose: Purpose): System {
    var t := s.(calls := s.calls - {id});
    if purpose == NewReply then OpenReply(t) else t
  }

  /** The start of `stop`: nothing to do, or cancel the speech task and wait for it. */
  function CallStop(s: System, id: nat, purpose: Purpose): System {
    if !Active(s) then Returned(s, id, purpose)
    else
      var k := |s.replies| - 1;
      var t := WithReply(s, k, Last(s).(speech := Last(s).speech.(cancelRequested := true)));
      t.(calls := t.calls[id := Waiting(purpose, k, s.audioSent)])
  }

  /** tts.speak(): the segment goes to whatever queue is current, if its reply is still active. */
  function Speak(s: System, generation: nat, text: string): System {
    if Active(s) && HasText(text) then Put(s, generation, Segment(text)) else s
  }

  /** tts.finish() */
  function Finish(s: System, generation: nat): System {
    if Active(s) then Put(s, generation, EndMark) else s
  }

  function Put(s: System, generation: nat, item: Item): System
    requires s.replies != []
  {
    WithReply(s, |s.replies| - 1,
      Last(s).(queue := Last(s).queue + [item], accepted := Last(s).accepted + [(generation, item)]))
  }

  function SpeakAll(s: System, generation: nat, segments: seq<string>): System
    decreases |segments|
  {
    if segments == [] then s else SpeakAll(Speak(s, generation, segments[0]), generation, segments[1..])
  }

  /** A generation step, with its calls of on_segment and on_complete. */
  function Generate(s: System, k: nat, e: L.Event): System
    requires k < |s.replies| && L.Enabled(s.replies[k].generation, e)
  {
    var (g, effect) := L.Step(s.replies[k].generation, e);
    var t := SpeakAll(WithReply(s, k, s.replies[k].(generation := g)), k, effect.segments);
    if effect.completed.Some? && effect.completed.value != L.Cancelled then Finish(t, k) else t
  }

  /** Like every task, a cancelled speech task gets the CancelledError and nothing else. */
  predicate SpeechEnabled(r: Reply, e: SpeechEvent) {
    if r.speech.cancelRequested then e == Deliver && r.speech.phase != Done
    else match r.speech.phase
      case NotStarted => e == Start
      case GetText => e.Text? && r.queue != []
      case Synthesise => e == Frame || e == EngineEnd || e == EngineError
      case Pace => e == Woke
      case Drain => e == Woke
      case Done => false
      case _ => e.SendOk? || e == SendFail
  }

  /** What a step of a speech task does: its new state, a message, a queue item taken, a frame sent. */
  datatype Progress = Progress(speech: Speech, says: Option<Message>, takes: bool, audioSent: bool)

  function Silently(speech: Speech): Progress {
    Progress(speech, None, false, false)
  }

  /** After the last text: wait for the audio to play, say tts_end, then report. */
  function AllSent(speech: Speech, k: nat, playing: bool): Progress {
    if speech.frames == 0 then Silently(speech.(phase := SendMetrics))
    else if playing then Silently(speech.(phase := Drain))
    else Progress(speech.(phase := SendEnd), Some(TtsEnd(k)), false, false)
  }

  /** A step of the speech task of reply k; `next` is the first item of its queue. */
  function SpeechNext(speech: Speech, k: nat, e: SpeechEvent, next: Option<Item>): Progress {
    match e
    case Start => Silently(speech.(phase := GetText))
    case Text(playing) =>
      if next.Some? && next.value.Segment? then Progress(speech.(phase := Synthesise), None, true, false)
      else AllSent(speech, k, playing).(takes := true)
    case Frame =>
      if speech.frames == 0 then Progress(speech.(phase := SendStart), Some(TtsStart(k)), false, false)
      else Progress(speech.(phase := SendFrame), Some(Audio(k)), false, false)
    case EngineEnd => Silently(speech.(phase := GetText))
    case EngineError => Silently(speech.(phase := SendError))
    case Woke => if speech.phase == Pace then Silently(speech.(phase := Synthesise)) else AllSent(speech, k, false)
    case SendOk(sleep) =>
      (match speech.phase
       case SendStart => Progress(speech.(phase := SendFrame), Some(Audio(k)), false, false)
       case SendFrame =>
         Progress(speech.(phase := if sleep then Pace else Synthesise, frames := speech.frames + 1), None, false, true)
       case SendMetrics => Silently(speech.(phase := PlaybackEnd))
       case PlaybackEnd => Silently(speech.(phase := Done))
       case _ => Silently(speech.(phase := SendMetrics)))
    case SendFail =>
      (match speech.phase
       case SendMetrics => Silently(speech.(phase := PlaybackEnd))  // _safe_send_json swallows the error
       case PlaybackEnd => Silently(speech.(phase := Done))
       case SendError => Silently(speech.(phase := SendMetrics))
       case _ => Silently(speech.(phase := SendError)))
    case Deliver =>
      var woken := speech.(cancelRequested := false);
      (match speech.phase
       case NotStarted => Silently(woken.(phase := Done))   // the body never runs
       case SendMetrics => Silently(woken.(phase := Done))  // the `finally` block is left
       case PlaybackEnd => Silently(woken.(phase := Done))
       case _ => Silently(woken.(phase := SendMetrics)))
  }

  function SpeechAct(s: System, k: nat, e: SpeechEvent): System
    requires k < |s.replies| && SpeechEnabled(s.replies[k], e)
  {
    var r := s.replies[k];
    Proceed(s, k, SpeechNext(r.speech, k, e, if r.queue == [] then None else Some(r.queue[0])))
  }

  function Proceed(s: System, k: nat, p: Progress): System
    requires k < |s.replies|
  {
    var r := s.replies[k];
    System(
      s.replies[k := r.(speech := p.speech, queue := if p.takes && r.queue != [] then r.queue[1..] else r.queue)],
      s.calls, s.audioSent || p.audioSent, s.trace + if p.says.Some? then [p.says.value] else [])
  }

  function Send(s: System, m: Message): System {
    s.(trace := s.trace + [m])
  }

  predicate Possible(s: System, a: Action) {
    match a
    case CancelGeneration => true
    case CallInterrupt(id) => id !in s.calls
    case CallOpen(id) => id !in s.calls
    case Resume(id) =>
      && id in s.calls && s.calls[id].Waiting?
      && s.calls[id].target < |s.replies| && s.replies[s.calls[id].target].speech.phase == Done
    case ClearSent(id) => id in s.calls && s.calls[id].Clearing?
    case SpeechStep(k, e) => k < |s.replies| && SpeechEnabled(s.replies[k], e)
    case GenerationStep(k, e) => k < |s.replies| && L.Enabled(s.replies[k].generation, e)
  }

  function Act(s: System, a: Action): System
    requires Possible(s, a)
  {
    match a
    case CancelGeneration => CancelNewest(s)
    case CallInterrupt(id) => CallStop(CancelNewest(s), id, BargeIn)
    case CallOpen(id) => CallStop(s, id, NewReply)
    case Resume(id) =>
      var call := s.calls[id];
      if call.hadAudio then
        Send(s.(calls := s.calls[id := Clearing(call.purpose, call.target)]), TtsClear(call.target))
      else Returned(s, id, call.purpose)
    case ClearSent(id) => Returned(s, id, s.calls[id].purpose)
    case SpeechStep(k, e) => SpeechAct(s, k, e)
    case GenerationStep(k, e) => Generate(s, k, e)
  }

  predicate IsRun(s: System, actions: seq<Action>)
    decreases |actions|
  {
    actions != [] ==> Possible(s, actions[0]) && IsRun(Act(s, actions[0]), actions[1..])
  }

  function After(s: System, actions: seq<Action>): System
    requires IsRun(s, actions)
    decreases |actions|
  {
    if actions == [] then s else After(Act(s, actions[0]), actions[1..])
  }
}
