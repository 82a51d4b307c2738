/** The phone call's session as it changes its fields, against the steps of CallSteps. */
module CallSession {
  import opened Pcm16
  import opened CallSteps
  import opened CallSafety

  ghost predicate ChangesFit(changes: seq<State>, state: State) {
    && changes != [] && changes[0] == Connecting && changes[|changes| - 1] == state
    && forall i :: 0 < i < |changes| ==> InTable(changes[i - 1], changes[i])
  }

  /** Audio cut into frames, with what was left over before and is left over after. */
  predicate Cut(before: seq<byte>, audio: seq<byte>, frames: seq<seq<byte>>, after: seq<byte>) {
    if audio == [] then frames == [] && after == before
    else frames == WholeFrames(before + audio, PCM_FRAME_BYTES) && after == Leftover(before + audio, PCM_FRAME_BYTES)
  }

  /** From a reply, both transitions are in the table. */
  lemma ReplyBack(state: State)
    ensures InReply(state) ==> InTable(state, Interrupted) && Tried(state, Interrupted) == Interrupted
    ensures InTable(Interrupted, Listening) && Tried(Interrupted, Listening) == Listening
  {
  }

  /** So is the one that audio causes. */
  lemma Streams(state: State)
    ensures state.Connected? || state.Listening? ==> Tried(state, Streaming) == Streaming
  {
  }

  class CallSession {
    var state: State
    var lock: Lock
    var clearing: bool
    var waiters: nat
    var fallbacks: nat
    var apologies: nat
    var setup: Setup
    var outboundMuted: bool
    var canSend: bool
    var consumers: bool
    var ears: Ears
    var pcmBuffer: seq<byte>
    var userSpeaking: bool
    var systemSpeaking: bool
    var opening: bool
    var voice: Voice
    var generating: bool
    var clashes: nat
    var out: seq<Out>
    ghost var changes: seq<State>  // every value `state` has had

    function Now(): Call
      reads this
    {
      Call(state, lock, clearing, waiters, fallbacks, apologies, setup, outboundMuted, canSend, consumers, ears,
           userSpeaking, systemSpeaking, opening, voice, generating, clashes, out)
    }

    ghost predicate Valid()
      reads this
    {
      ChangesFit(changes, state) && ears.buffered == |pcmBuffer|
    }

    constructor ()
      ensures Valid() && Now() == Dialled && pcmBuffer == []
    {
      state, lock, clearing, waiters, fallbacks, apologies, setup := Connecting, Free, false, 0, 0, 0, Fresh;
      outboundMuted, canSend, consumers, ears, pcmBuffer := false, false, false, Ears(false, 0, 0, 0, false, Gone), [];
      userSpeaking, systemSpeaking, opening, voice := false, false, false, Voice(false, NoFrame, 0, false);
      generating, clashes, out := false, 0, [];
      changes := [Connecting];
    }

    lemma WhatItKept()
      requires Valid()
      ensures ChangesFit(changes, Now().state)
    {
    }

    /** The only place where the state changes: along the table, and never out of ENDED. */
    method ApplyTransition(next: State) returns (applied: bool)
      requires Valid()
      modifies this`state, this`changes
      ensures Valid()
      ensures applied <==> InTable(old(state), next)
      ensures state == Tried(old(state), next)
      ensures changes == if applied then old(changes) + [next] else old(changes)
    {
      if state.Ended? {
        return false;
      }
      if !InTable(state, next) {
        return false;
      }
      changes := changes + [next];
      state := next;
      return true;
    }

    /** A waiting task, if there is one, gets the lock. */
    method Ask()
      modifies this`waiters
      ensures Now() == Asked(old(Now()))
    {
      if waiters > 0 {
        waiters := waiters - 1;
      }
    }

    /** Speech over a turn being processed goes back to LISTENING, and changes nothing else. */
    method OnUserTurnStarted()
      requires Valid()
      modifies this`state, this`changes
      ensures Valid() && Now() == StartTurn(old(Now()))
      ensures state == if old(state).Processing? then Listening else old(state)
    {
      if state.Ended? {
        return;
      }
      if state.Processing? {
        var _ := ApplyTransition(Listening);
      }
    }

    /** A turn is processed if and only if the call is listening. */
    method OnUserTurnCompleted()
      requires Valid()
      modifies this`state, this`changes, this`opening
      ensures Valid() && Now() == CompleteTurn(old(Now()))
      ensures !old(state).Processing? ==> (state.Processing? <==> old(state).Listening?)
    {
      if !state.Listening? {
        return;
      }
      var applied := ApplyTransition(Processing);
      if !applied {
        return;
      }
      opening := consumers;
    }

    method BeginSpeech()
      modifies this`voice, this`clashes
      ensures Now() == Begin(old(Now()))
      ensures voice.active && (!old(voice).active ==> voice.number == old(voice).number + 1)
    {
      if voice.active {
        clashes := clashes + 1;
      } else {
        voice := Voice(true, NoFrame, voice.number + 1, false);
      }
    }

    method BeginReply()
      modifies this`voice, this`clashes, this`generating
      ensures Now() == OpenReply(old(Now())) && generating
      ensures voice.active && (!old(voice).active ==> voice.number == old(voice).number + 1)
    {
      hide Begin;
      BeginSpeech();
      generating := true;
    }

    /** `stop` under the lock, with a speech task to wait for. */
    method WaitForSpeech(holder: Holder)
      modifies this`lock, this`clearing
      ensures Now() == WaitIn(old(Now()), holder) && lock == Held(holder)
    {
      lock := Held(holder);
      clearing := voice.audioSent && holder != Recovering(Generation);
    }

    /** The reply opens at once, unless a speech task has to be stopped first: then the lock is kept, and nothing spoken. */
    method OnSystemTurnStart()
      modifies this`opening, this`lock, this`clearing, this`systemSpeaking, this`voice, this`clashes, this`generating
      ensures old(lock).Free? ==> Now() == StartReply(old(Now()))
      ensures old(lock).Free? && !state.Ended? && !(consumers && old(voice).active) ==>
        lock.Free? && systemSpeaking && generating && voice.active
      ensures !state.Ended? && consumers && old(voice).active ==> lock == Held(OpeningReply) && voice == old(voice)
    {
      hide OpenReply;
      opening := false;
      if !state.Ended? {
        if consumers && voice.active {
          WaitForSpeech(OpeningReply);
          return;
        }
        systemSpeaking := true;
      }
      BeginReply();
    }

    /** The speech before it is stopped: the reply opens, and the next speech with it. */
    method SystemTurnStarted()
      modifies this`lock, this`systemSpeaking, this`voice, this`clashes, this`generating
      ensures Now() == OpenReply(SystemTurn(old(Now())))
      ensures !old(voice).active ==> voice.active && voice.number == old(voice).number + 1 && lock.Free?
    {
      hide OpenReply;
      lock, systemSpeaking := Free, true;
      BeginReply();
    }

    /** The first segment of a reply moves the call to SPEAKING; in no other state does a segment change anything. */
    method OnLlmSegment()
      requires Valid()
      modifies this`state, this`changes
      ensures Valid() && Now() == SpeakSegment(old(Now()))
      ensures state == if old(state).Processing? then Speaking else old(state)
    {
      if !state.Processing? && !state.Speaking? {
        return;
      }
      if state.Processing? {
        var _ := ApplyTransition(Speaking);
      }
    }

    /** Both states of a reply end in LISTENING, and the speech task is done. */
    method OnTtsPlaybackEnd()
      requires Valid()
      modifies this`state, this`changes, this`systemSpeaking, this`voice
      ensures Valid() && Now() == EndPlayback(old(Now()))
      ensures state == if InReply(old(state)) then Listening else old(state)
      ensures !voice.active && (!state.Ended? ==> !systemSpeaking)
    {
      hide ChangesFit;
      voice := voice.(active := false);
      if state.Ended? {
        return;
      }
      systemSpeaking := false;
      if state.Speaking? || state.Processing? {
        var _ := ApplyTransition(Listening);
      }
    }

    /** Mutes before it waits for the speech to stop. */
    method HandleBargeIn()
      requires Valid() && lock.Free? && !outboundMuted
      modifies this`state, this`changes, this`lock, this`clearing, this`outboundMuted
      modifies this`userSpeaking, this`systemSpeaking
      ensures Valid() && Now() == BargeIn(old(Now()))
      ensures outboundMuted <==> InReply(old(state)) && consumers && voice.active
      ensures outboundMuted <==> lock.Held?
      ensures InReply(old(state)) && !outboundMuted ==> state.Listening?
    {
      if !state.Speaking? && !state.Processing? {
        return;
      }
      outboundMuted := true;
      if consumers && voice.active {
        WaitForSpeech(BargingIn);
        return;
      }
      BargeInStopped();
    }

    /** Back to LISTENING from a reply, through INTERRUPTED; the lock is given back and nothing stays muted. */
    method BargeInStopped()
      requires Valid()
      modifies this`state, this`changes, this`lock, this`outboundMuted, this`userSpeaking, this`systemSpeaking
      ensures Valid() && Now() == Barged(old(Now()))
      ensures lock.Free? && !outboundMuted && !userSpeaking && !systemSpeaking
      ensures InReply(old(state)) ==> state.Listening? && changes == old(changes) + [Interrupted, Listening]
    {
      hide ChangesFit;
      ReplyBack(state);
      hide Tried, InTable, InReply;
      Quiet();
      var _ := ApplyTransition(Interrupted);
      var _ := ApplyTransition(Listening);
      outboundMuted := false;
    }

    method Quiet()
      modifies this`lock, this`userSpeaking, this`systemSpeaking
      ensures Now() == Quieted(old(Now()))
    {
      userSpeaking, systemSpeaking := false, false;
      lock := Free;
    }

    /** The recovery keeps the lock if and only if there is a speech task to stop; else it goes through at once. */
    method HandlePipelineError(origin: Origin)
      requires Valid() && lock.Free?
      modifies this`state, this`changes, this`lock, this`clearing, this`userSpeaking, this`systemSpeaking, this`generating
      modifies this`fallbacks, this`apologies, this`voice, this`clashes
      ensures Valid() && Now() == Fail(old(Now()), origin)
      ensures !old(state).Ended? && consumers && old(voice).active ==> lock == Held(Recovering(origin)) && state == old(state)
      ensures !old(voice).active ==> lock.Free? && (InReply(old(state)) ==> state.Listening?)
    {
      hide Recover, ChangesFit;
      if state.Ended? {
        return;
      }
      if consumers && voice.active {
        WaitForSpeech(Recovering(origin));
        return;
      }
      SpeechStopped(origin);
    }

    /** After the wait, a recovery in the generation's own task only gives the lock back; any other goes through. */
    method RecoveryGoesOn()
      requires Valid() && lock.Held? && lock.holder.Recovering?
      modifies this`state, this`changes, this`lock, this`clearing, this`userSpeaking, this`systemSpeaking, this`generating
      modifies this`fallbacks, this`apologies, this`voice, this`clashes
      ensures Valid() && Now() == GoOn(old(Now()), old(lock).holder.origin)
      ensures old(lock).holder.origin.Generation? ==> lock.Free? && state == old(state) && apologies == old(apologies)
      ensures !old(lock).holder.origin.Generation? && !old(voice).active ==>
        lock.Free? && (InReply(old(state)) ==> state.Listening?)
    {
      hide Recover, ChangesFit;
      if lock.holder.origin.Generation? {
        generating := false;  // cancelled while it waited
        lock := Free;
        return;
      }
      SpeechStopped(lock.holder.origin);
    }

    /** The rest of a recovery, and the way to the fallback message. */
    method SpeechStopped(origin: Origin)
      requires Valid()
      modifies this`state, this`changes, this`lock, this`clearing, this`userSpeaking, this`systemSpeaking, this`generating
      modifies this`fallbacks, this`apologies, this`voice, this`clashes
      ensures Valid() && Now() == Recover(old(Now()), origin)
      ensures InReply(old(state)) ==> state.Listening?
      ensures !old(voice).active ==> lock.Free?
    {
      hide ToFallback, Calmed, ChangesFit, Tried;
      LeaveReply(origin);
      GoOnToFallback(origin);
    }

    /** The recovery leaves the reply, and its generation if it is cancelled there. */
    method LeaveReply(origin: Origin)
      requires Valid()
      modifies this`state, this`changes, this`lock, this`userSpeaking, this`systemSpeaking, this`generating
      ensures Valid()
      ensures Now() == if origin.Generation? then Calmed(old(Now())).(generating := false) else Calmed(old(Now()))
      ensures lock.Free? && state == if InReply(old(state)) then Listening else old(state)
    {
      hide Calmed, ChangesFit, Tried;
      BackFromReply();
      if origin.Generation? {
        generating := false;
      }
    }

    method BackFromReply()
      requires Valid()
      modifies this`state, this`changes, this`lock, this`userSpeaking, this`systemSpeaking
      ensures Valid()
      ensures Now() == Calmed(old(Now()))
      ensures lock.Free? && state == if InReply(old(state)) then Listening else old(state)
    {
      hide ChangesFit;
      ReplyBack(state);
      hide Tried, InTable;
      if state.Speaking? || state.Processing? {
        var _ := ApplyTransition(Interrupted);
        var _ := ApplyTransition(Listening);
      }
      Quiet();
    }

    /**
     The message is spoken at once, or waits for the lock, or, for a generation's own task, cancelled
     by now, is lost if somebody else waits for it.
     */
    method GoOnToFallback(origin: Origin)
      modifies this`lock, this`clearing, this`fallbacks, this`apologies, this`voice, this`clashes
      ensures Now() == ToFallback(old(Now()), origin)
      ensures apologies == old(apologies) + if waiters + old(fallbacks) > 0 && origin.Generation? then 0 else 1
      ensures fallbacks == old(fallbacks) + if waiters + old(fallbacks) > 0 && !origin.Generation? then 1 else 0
      ensures !old(voice).active ==> lock == old(lock)
    {
      hide OpenFallback;
      if waiters + fallbacks == 0 {
        apologies := apologies + 1;
        PlayFallbackTts();
      } else if !origin.Generation? {
        apologies, fallbacks := apologies + 1, fallbacks + 1;
      }
    }

    method PlayFallbackTts()
      modifies this`lock, this`clearing, this`voice, this`clashes
      ensures Now() == OpenFallback(old(Now()))
      ensures !old(voice).active ==> lock == old(lock)
    {
      if state.Ended? || !consumers {
        return;
      }
      if voice.active {
        WaitForSpeech(OpeningFallback);
        return;
      }
      BeginSpeech();
    }

    /** A recovery that had to wait for the lock again. */
    method PlayQueuedFallback()
      requires fallbacks > 0
      modifies this`fallbacks, this`lock, this`clearing, this`voice, this`clashes
      ensures Now() == OpenFallback(old(Now()).(fallbacks := old(fallbacks) - 1))
    {
      hide OpenFallback;
      fallbacks := fallbacks - 1;
      PlayFallbackTts();
    }

    /** A message outside a reply, once the speech before it is stopped. */
    method SpeakAlone()
      modifies this`lock, this`voice, this`clashes
      ensures Now() == Begin(old(Now()).(lock := Free))
    {
      hide Begin;
      lock := Free;
      BeginSpeech();
    }

    /** The prompt of the silence loop: only a listening call speaks it. */
    method PromptCaller()
      modifies this`lock, this`clearing, this`voice, this`clashes
      ensures Now() == OpenPrompt(old(Now()))
      ensures !state.Listening? ==> lock == old(lock) && voice == old(voice)
    {
      if !state.Listening? {
        return;
      }
      if consumers && voice.active {
        WaitForSpeech(OpeningPrompt);
        return;
      }
      BeginSpeech();
    }

    /** The caller's audio, decoded: cut into frames, each of which is on its way to the recogniser then. */
    method FeedMulaw(pcm: seq<byte>) returns (frames: seq<seq<byte>>)
      requires Valid()
      modifies this`state, this`changes, this`pcmBuffer, this`ears
      ensures Valid() && Now() == Hear(old(Now()), pcm)
      ensures Cut(old(pcmBuffer), if old(state).Ended? || !old(ears).there then [] else pcm, frames, pcmBuffer)
      ensures ears.arriving == old(ears).arriving + |frames|
    {
      Streams(state);
      hide WholeFrames, ChangesFit, Tried, InTable;
      frames := [];
      if pcm == [] || state.Ended? {
        return;
      }
      if state.Connected? || state.Listening? {
        var _ := ApplyTransition(Streaming);
      }
      if !ears.there {
        return;
      }
      FrameCount(pcmBuffer + pcm, PCM_FRAME_BYTES);
      frames, pcmBuffer := ChunkPcmBytes(pcmBuffer + pcm, PCM_FRAME_BYTES);
      ears := ears.(buffered := |pcmBuffer|, arriving := ears.arriving + |frames|);
    }

    /** The first check of send_audio_frame. */
    method CheckFrame()
      modifies this`voice
      ensures Now() == CallSteps.CheckFrame(old(Now()))
    {
      voice := if outboundMuted || state.Ended? then FrameOver(voice) else voice.(frame := Checked);
    }

    /** The second check of send_audio_frame: the send begins only if the call is neither muted nor ended. */
    method SendAudioFrame()
      modifies this`voice, this`out
      ensures Now() == SendFrame(old(Now()))
      ensures out != old(out) <==> !outboundMuted && !state.Ended? && canSend
    {
      if outboundMuted || state.Ended? || !canSend {
        voice := FrameOver(voice);
        return;
      }
      voice := voice.(frame := Sending);
      out := out + [Media(voice.number)];
    }

    /** The clear of a stop. */
    method SendTtsClear()
      modifies this`clearing, this`out
      ensures Now() == SendClear(old(Now()))
    {
      clearing := false;
      out := out + if canSend then [Clear(voice.number)] else [];
    }

    /** Whatever it has to wait for: the call is ended and nothing can be sent any more. */
    method StopCall()
      requires Valid()
      modifies this`state, this`changes, this`canSend, this`outboundMuted, this`lock, this`clearing, this`ears
      modifies this`consumers, this`opening, this`pcmBuffer
      ensures Valid() && Now() == Stop(old(Now()))
      ensures state.Ended? && (!old(state).Ended? ==> !canSend)
      ensures !old(state).Ended? && (old(ears).there || (old(consumers) && voice.active)) ==> outboundMuted && lock.Held?
      ensures old(ears).there || old(state).Ended? ==> pcmBuffer == old(pcmBuffer)
    {
      hide ChangesFit, Finalise, WaitIn;
      if state.Ended? {
        return;
      }
      EndNow();
      if consumers && voice.active {
        WaitForSpeech(Stopping);
        return;
      }
      StopRecogniser();
    }

    method EndNow()
      requires Valid() && !state.Ended?
      modifies this`state, this`changes, this`canSend, this`outboundMuted
      ensures Valid() && Now() == old(Now()).(state := Ended, canSend := false, outboundMuted := true)
    {
      hide ChangesFit;
      var _ := ApplyTransition(Ended);
      canSend := false;
      outboundMuted := true;
    }

    method StopRecogniser()
      requires Valid()
      modifies this`lock, this`ears, this`outboundMuted, this`consumers, this`opening, this`pcmBuffer
      ensures Valid() && Now() == Finalise(old(Now()))
      ensures old(ears).there ==> lock == Held(Finalising) && !ears.running && outboundMuted == old(outboundMuted)
      ensures pcmBuffer == if old(ears).there then old(pcmBuffer) else []
    {
      hide Torn, ChangesFit;
      if ears.there {
        ears := ears.(running := false);
        lock := Held(Finalising);
        return;
      }
      TearDown();
    }

    /** The last transcript: its handler may ask for the lock, and the end mark may find no room. */
    method LastWords(last: LastTranscript)
      modifies this`lock
      ensures Now() == Flush(old(Now()), last)
      ensures lock.Held? && (lock.holder.Flushing? <==> NeedsLock(userSpeaking, systemSpeaking, last))
      ensures lock.holder.Marking? <==> !lock.holder.Flushing? && ears.backlog >= STT_QUEUE_SIZE
    {
      hide NeedsLock;
      if NeedsLock(userSpeaking, systemSpeaking, last) {
        lock := Held(Flushing);
      } else if ears.backlog >= STT_QUEUE_SIZE {
        lock := Held(Marking);
      } else {
        lock := Held(TearingDown);
      }
    }

    method EndMarkIsPut()
      modifies this`lock
      ensures Now() == old(Now()).(lock := Held(TearingDown))
    {
      lock := Held(TearingDown);
    }

    method TearDown()
      requires Valid()
      modifies this`consumers, this`ears, this`outboundMuted, this`opening, this`pcmBuffer, this`lock
      ensures Valid() && Now() == Torn(old(Now()))
      ensures pcmBuffer == []
    {
      hide ChangesFit;
      DropRecogniser();
      consumers, opening, outboundMuted, lock := false, false, false, Free;
    }

    method DropRecogniser()
      requires Valid()
      modifies this`ears, this`pcmBuffer
      ensures Valid() && ears == NoEars(old(ears)) && pcmBuffer == []
    {
      ears, pcmBuffer := NoEars(ears), [];
    }

    /** A step of `start`. */
    method GoTo(next: State, done: Setup)
      requires Valid()
      modifies this`state, this`changes, this`setup
      ensures Valid() && Now() == old(Now()).(setup := done, state := Tried(old(state), next))
    {
      var _ := ApplyTransition(next);
      setup := done;
    }

    /** What goes on without the lock, in the transcript and waiting tasks. */
    method DoAside(event: Event)
      requires Possible(Now(), event)
      requires event.Queues? || event.GivesUp? || event.UserSpeaks? || event.UserPauses? || event.Interrupts?
      modifies this`waiters, this`userSpeaking, this`systemSpeaking
      ensures Now() == Next(old(Now()), event)
    {
      hide Contended;
      match event
      case Queues => waiters := waiters + 1;
      case GivesUp => Ask();
      case UserSpeaks => userSpeaking := true;
      case UserPauses => userSpeaking := false;
      case Interrupts => userSpeaking, systemSpeaking := false, false;
    }

    /** The first part of `start`: the loop's task has not looked yet whether it is running. */
    method BuildConsumers()
      requires Valid() && pcmBuffer == []
      modifies this`setup, this`canSend, this`consumers, this`ears
      ensures Valid() && Now() == Build(old(Now()))
    {
      setup, canSend, consumers, ears := Built, true, true, Ears(true, 0, 0, 0, true, Working);
    }

    /** What goes on without the lock in the speech task and the generation task. */
    method DoTasks(event: Event)
      requires Possible(Now(), event)
      requires event.GenerationEnds? || event.SpeechCut? || event.FrameOffered? || event.FrameDone?
      modifies this`generating, this`voice
      ensures Now() == Next(old(Now()), event)
    {
      hide FrameOver;
      match event
      case GenerationEnds => generating := false;
      case SpeechCut => voice := voice.(active := false, frame := NoFrame);
      case FrameOffered => voice := if canSend then voice.(frame := Offered) else FrameOver(voice);
      case FrameDone => voice := FrameOver(voice);
    }

    /** The recogniser's queue and loop. */
    method DoEars(event: Event)
      requires Possible(Now(), event) && (event.Arrives? || event.LoopTakes? || event.LoopTurns?)
      modifies this`ears
      ensures Now() == Next(old(Now()), event) && ears.buffered == old(ears).buffered
    {
      hide GetsLock, StopReturns, SpeechRuns, Contended;
      if event.Arrives? {
        ears := ears.(
          arriving := ears.arriving - 1, backlog := if ears.backlog < STT_QUEUE_SIZE then ears.backlog + 1 else ears.backlog);
      } else if event.LoopTakes? {
        ears := ears.(backlog := ears.backlog - 1, loop := Working);
      } else if !ears.running {
        ears := ears.(loop := Gone);
      } else if ears.backlog > 0 {
        ears := ears.(backlog := ears.backlog - 1, loop := Working);
      } else {
        ears := ears.(loop := AtGet);
      }
    }

    /** `start`, whose two transitions each wait for the lock. */
    method DoStart(event: Event)
      requires Valid() && Possible(Now(), event) && (event.Builds? || event.Joins? || event.Listens?)
      requires event.Builds? ==> pcmBuffer == []
      modifies this
      ensures Valid() && Now() == Next(old(Now()), event)
      ensures pcmBuffer == old(pcmBuffer)
    {
      hide ChangesFit, Tried, Build;
      match event
      case Builds => BuildConsumers();
      case Joins =>
        Ask();
        GoTo(Connected, Joined);
      case Listens =>
        Ask();
        GoTo(Listening, Started);
    }

    /** What the tasks of a turn do with the lock they have got. */
    method DoTurn(event: Event)
      requires Valid() && Possible(Now(), event) && (event.TurnStarts? || event.TurnCompletes? || event.ReplyOpens?)
      modifies this
      ensures Valid() && Now() == Next(old(Now()), event)
      ensures pcmBuffer == old(pcmBuffer)
    {
      hide StartTurn, CompleteTurn, StartReply, ChangesFit, Tried;
      Ask();
      match event
      case TurnStarts => OnUserTurnStarted();
      case TurnCompletes => OnUserTurnCompleted();
      case ReplyOpens => OnSystemTurnStart();
    }

    /** What the tasks of a reply do with it. */
    method DoReply(event: Event)
      requires Valid() && Possible(Now(), event) && (event.Segment? || event.PlaybackEnds?)
      modifies this
      ensures Valid() && Now() == Next(old(Now()), event)
      ensures pcmBuffer == old(pcmBuffer)
    {
      hide SpeakSegment, EndPlayback, ChangesFit, Tried, InReply;
      Ask();
      match event
      case Segment => OnLlmSegment();
      case PlaybackEnds => OnTtsPlaybackEnd();
    }

    /** Audio comes in; the frames that are full now. */
    method DoAudio(pcm: seq<byte>) returns (frames: seq<seq<byte>>)
      requires Valid() && Possible(Now(), Audio(pcm))
      modifies this
      ensures Valid() && Now() == Next(old(Now()), Audio(pcm))
      ensures Cut(old(pcmBuffer), Taken(old(Now()), Audio(pcm)), frames, pcmBuffer)
      ensures Taken(old(Now()), Audio(pcm)) == [] ==> frames == []
    {
      hide Hear, ChangesFit, WholeFrames, Leftover;
      Ask();
      frames := FeedMulaw(pcm);
    }

    /** What the other tasks do with the lock. */
    method DoTaking(event: Event)
      requires Valid() && Possible(Now(), event) && TakesLock(event) && !TurnEvent(event)
      requires event.BargesIn? || event.Fails? || event.PromptOpens?
      requires !outboundMuted
      modifies this
      ensures Valid() && Now() == Next(old(Now()), event)
      ensures !state.Ended? ==> pcmBuffer == old(pcmBuffer)
    {
      hide StartTurn, CompleteTurn, StartReply, SpeakSegment, EndPlayback, BargeIn, Fail, OpenPrompt, Hear, InReply;
      hide CallSteps.SendFrame, CallSteps.CheckFrame, Stop, ChangesFit, Tried;
      Ask();
      match event
      case BargesIn => HandleBargeIn();
      case Fails(origin) => HandlePipelineError(origin);
      case PromptOpens => PromptCaller();
    }

    /** What the speech task does with it. */
    method DoOutbound(event: Event)
      requires Valid() && Possible(Now(), event) && (event.FrameChecked? || event.FrameSent?)
      modifies this
      ensures Valid() && Now() == Next(old(Now()), event)
      ensures pcmBuffer == old(pcmBuffer)
    {
      hide CallSteps.SendFrame, CallSteps.CheckFrame, ChangesFit;
      Ask();
      match event
      case FrameChecked => CheckFrame();
      case FrameSent => SendAudioFrame();
    }

    method DoStop()
      requires Valid() && Possible(Now(), Stops)
      modifies this
      ensures Valid() && Now() == Next(old(Now()), Stops)
      ensures state.Ended?
    {
      hide Stop, ChangesFit;
      Ask();
      StopCall();
    }

    /** What the task that keeps the lock does next to open something, and the way to the fallback message. */
    method DoOpening(event: Event)
      requires Valid() && Possible(Now(), event)
      requires event.ReplyOpened? || event.FallbackOpens? || event.FallbackOpened? || event.PromptOpened?
      modifies this
      ensures Valid() && Now() == Next(old(Now()), event)
      ensures pcmBuffer == old(pcmBuffer)
    {
      hide OpenFallback, Begin, OpenReply, SystemTurn, ChangesFit;
      match event
      case ReplyOpened => SystemTurnStarted();
      case FallbackOpens => PlayQueuedFallback();
      case FallbackOpened => SpeakAlone();
      case PromptOpened => SpeakAlone();
    }

    /** What it does next in a barge-in or a recovery. */
    method DoQuieting(event: Event)
      requires Valid() && Possible(Now(), event) && (event.BargedIn? || event.Recovered?)
      modifies this
      ensures Valid() && Now() == Next(old(Now()), event)
      ensures pcmBuffer == old(pcmBuffer)
    {
      hide Barged, GoOn, ChangesFit, Tried, InReply;
      match event
      case BargedIn => BargeInStopped();
      case Recovered => RecoveryGoesOn();
    }

    /** What it does next in `stop`: the recogniser's consumer is stopped, and in the end dropped. */
    method DoEnding(event: Event)
      requires Valid() && Possible(Now(), event) && state.Ended? && (event.Finalises? || event.Stopped?)
      modifies this
      ensures Valid() && Now() == Next(old(Now()), event) && state.Ended?
    {
      hide Finalise, Torn, ChangesFit, StopReturns, Tried;
      match event
      case Finalises => StopRecogniser();
      case Stopped => TearDown();
    }

    /** In between, the last transcript and the end mark. */
    method DoFlushing(event: Event)
      requires Possible(Now(), event) && (event.Flushes? || event.Marked?)
      modifies this`lock
      ensures Now() == Next(old(Now()), event)
    {
      hide Flush, AsksForLock;
      match event
      case Flushes(last) => LastWords(last);
      case Marked => EndMarkIsPut();
    }

    /** What needs no lock. */
    method DoOthers(event: Event)
      requires Valid() && Possible(Now(), event) && Aside(event) && !event.Builds?
      modifies this
      ensures Valid() && Now() == Next(old(Now()), event)
      ensures pcmBuffer == old(pcmBuffer)
    {
      hide Next, ChangesFit, Possible;
      if event.Arrives? || event.LoopTakes? || event.LoopTurns? {
        DoEars(event);
      } else if event.GenerationEnds? || event.SpeechCut? || event.FrameOffered? || event.FrameDone? {
        DoTasks(event);
      } else if event.Clears? {
        DoClear();
      } else {
        DoAside(event);
      }
    }

    /** What the task that keeps the lock does. */
    method DoHolding(event: Event)
      requires Valid() && Possible(Now(), event) && !Aside(event) && !TakesLock(event)
      requires event.Finalises? || event.Stopped? ==> state.Ended?
      modifies this
      ensures Valid() && Now() == Next(old(Now()), event)
      ensures !state.Ended? ==> pcmBuffer == old(pcmBuffer)
    {
      hide Next, ChangesFit, Possible;
      if event.BargedIn? || event.Recovered? {
        DoQuieting(event);
      } else if event.Flushes? || event.Marked? {
        DoFlushing(event);
      } else if event.Finalises? || event.Stopped? {
        DoEnding(event);
      } else {
        DoOpening(event);
      }
    }

    method DoClear()
      requires Possible(Now(), Clears)
      modifies this`clearing, this`out
      ensures Now() == Next(old(Now()), Clears)
    {
      hide SendClear;
      SendTtsClear();
    }

    method Do(event: Event) returns (frames: seq<seq<byte>>)
      requires Valid() && Possible(Now(), event) && Sound(Now())
      modifies this
      ensures Valid() && Now() == Next(old(Now()), event)
      ensures Taken(old(Now()), event) == [] ==> frames == []
      ensures Taken(old(Now()), event) != [] || !Now().state.Ended? ==>
        Cut(old(pcmBuffer), Taken(old(Now()), event), frames, pcmBuffer)
    {
      frames := [];
      WhatHolds(Now(), event);
      NoCut(pcmBuffer);
      hide Next, ChangesFit, Sound, Possible, Taken, WholeFrames, Leftover;
      if event.Audio? {
        frames := DoAudio(event.pcm);
      } else if event.Builds? || event.Joins? || event.Listens? {
        DoStart(event);
      } else if event.Segment? || event.PlaybackEnds? {
        DoReply(event);
      } else if TurnEvent(event) {
        DoTurn(event);
      } else if event.FrameChecked? || event.FrameSent? {
        DoOutbound(event);
      } else if event.Stops? {
        DoStop();
      } else if TakesLock(event) {
        DoTaking(event);
      } else if Aside(event) {
        DoOthers(event);
      } else {
        DoHolding(event);
      }
    }
  }

  lemma NoCut(buffer: seq<byte>)
    ensures Cut(buffer, [], [], buffer)
  {
  }

  /** What a sound call guarantees at each step. */
  lemma WhatHolds(call: Call, event: Event)
    requires Sound(call) && Possible(call, event)
    ensures TakesLock(event) ==> !call.outboundMuted
    ensures event.Finalises? || event.Stopped? ==> call.state.Ended?
    ensures event.Builds? ==> call.ears.buffered == 0
    ensures Taken(call, event) != [] ==> event.Audio?
  {
    hide Next;
  }

  /** The audio taken in by the first n events. */
  function TakenBy(calls: seq<Call>, schedule: seq<Event>, n: nat): seq<byte>
    requires n <= |schedule| && n <= |calls|
  {
    if n == 0 then [] else TakenBy(calls, schedule, n - 1) + Taken(calls[n - 1], schedule[n - 1])
  }

  lemma {:induction false} TakenByStable(calls: seq<Call>, next: Call, schedule: seq<Event>, n: nat)
    requires n <= |schedule| && n <= |calls|
    ensures TakenBy(calls + [next], schedule, n) == TakenBy(calls, schedule, n)
  {
    hide Taken;
    if n > 0 {
      TakenByStable(calls, next, schedule, n - 1);
    }
  }

  /** The cutting of the caller's audio up to event n; once the call has ended the rest no longer matters. */
  ghost predicate CutSoFar(calls: seq<Call>, schedule: seq<Event>, n: nat, frames: seq<seq<byte>>, rest: seq<byte>)
    requires n <= |schedule| && n < |calls|
  {
    var audio := TakenBy(calls, schedule, n);
    && frames == WholeFrames(audio, PCM_FRAME_BYTES)
    && (!calls[n].state.Ended? ==> rest == Leftover(audio, PCM_FRAME_BYTES))
  }

  lemma CutsOn(calls: seq<Call>, schedule: seq<Event>, n: nat, frames: seq<seq<byte>>, rest: seq<byte>,
               full: seq<seq<byte>>, after: seq<byte>)
    requires n < |schedule| && n + 1 < |calls| && CutSoFar(calls, schedule, n, frames, rest)
    requires Sound(calls[n]) && calls[n + 1] == Tick(calls[n], schedule[n])
    requires Taken(calls[n], schedule[n]) == [] ==> full == []
    requires Taken(calls[n], schedule[n]) != [] || !calls[n + 1].state.Ended? ==>
               Cut(rest, Taken(calls[n], schedule[n]), full, after)
    ensures CutSoFar(calls, schedule, n + 1, frames + full, after)
  {
    hide WholeFrames, Leftover;
    var audio, more := TakenBy(calls, schedule, n), Taken(calls[n], schedule[n]);
    EndedStays(calls[n], schedule[n]);
    hide Next, Sound;
    if more == [] {
      assert audio + more == audio && frames + full == frames;
    } else {
      FramesConcat(audio, more, PCM_FRAME_BYTES);
    }
  }

  lemma EndedStays(call: Call, event: Event)
    requires Sound(call)
    ensures call.state.Ended? ==> Tick(call, event).state.Ended?
  {
    hide Next;
    if Possible(call, event) {
      StepKeeps(call, event);
    }
  }

  /**
   Any schedule of events, from the dialling on: the session goes through a run, changes its state
   only along the table, and cuts the audio it takes in into whole frames, however it arrives.
   */
  method PlayCall(schedule: seq<Event>)
      returns (calls: seq<Call>, frames: seq<seq<byte>>, ghost changes: seq<State>)
    ensures IsRun(calls, schedule)
    ensures ChangesFit(changes, calls[|schedule|].state)
    ensures frames == WholeFrames(TakenBy(calls, schedule, |schedule|), PCM_FRAME_BYTES)
  {
    var session := new CallSession();
    calls, frames := [session.Now()], [];
    assert IsRun(calls, schedule[..0]) && CutSoFar(calls, schedule, 0, frames, session.pcmBuffer);
    hide *;
    for i := 0 to |schedule|
      invariant session.Valid() && |calls| == i + 1
      invariant IsRun(calls, schedule[..i]) && session.Now() == calls[i]
      invariant CutSoFar(calls, schedule, i, frames, session.pcmBuffer)
      modifies session
    {
      var event := schedule[i];
      ghost var before, rest := calls, session.pcmBuffer;
      RunKeeps(calls, schedule[..i], i);
      SoundIsFreeOrMuted(calls[i]);
      TickIs(calls[i], event, rest);
      var full := [];
      if Possible(session.Now(), event) {
        full := session.Do(event);
      }
      calls := calls + [session.Now()];
      RunSnoc(before, schedule[..i], event);
      assert schedule[..i + 1] == schedule[..i] + [event];
      CutSoFarStable(before, session.Now(), schedule, i, frames, rest);
      CutsOn(calls, schedule, i, frames, rest, full, session.pcmBuffer);
      frames := frames + full;
    }
    assert schedule[..|schedule|] == schedule;
    CutIs(calls, schedule, frames, session.pcmBuffer);
    session.WhatItKept();
    changes := session.changes;
  }

  lemma CutIs(calls: seq<Call>, schedule: seq<Event>, frames: seq<seq<byte>>, rest: seq<byte>)
    requires |schedule| < |calls| && CutSoFar(calls, schedule, |schedule|, frames, rest)
    ensures frames == WholeFrames(TakenBy(calls, schedule, |schedule|), PCM_FRAME_BYTES)
  {
    hide WholeFrames, TakenBy;
  }

  lemma CutSoFarStable(calls: seq<Call>, next: Call, schedule: seq<Event>, n: nat, frames: seq<seq<byte>>, rest: seq<byte>)
    requires n <= |schedule| && n < |calls| && CutSoFar(calls, schedule, n, frames, rest)
    ensures CutSoFar(calls + [next], schedule, n, frames, rest)
  {
    hide WholeFrames, TakenBy, Leftover;
    TakenByStable(calls, next, schedule, n);
  }

  lemma SoundIsFreeOrMuted(call: Call)
    requires Sound(call)
    ensures !(call.outboundMuted && call.lock.Free?)
  {
  }

  lemma TickIs(call: Call, event: Event, rest: seq<byte>)
    ensures Tick(call, event) == if Possible(call, event) then Next(call, event) else call
    ensures !Possible(call, event) ==> Cut(rest, Taken(call, event), [], rest)
  {
    hide Next, Possible;
  }
}
