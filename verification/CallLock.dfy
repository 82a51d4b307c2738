/** When the lock of a phone call is given back, and what a recovery from a failure comes to. */
module CallLock {
  import Pcm16
  import opened Text
  import opened CallSteps
  import opened CallSafety

  // ------------------------------------------------------ who keeps the lock for ever

  /**
   The three ways to keep the lock for ever: a recovery in the speech task, which waits for its own
   end; a last transcript whose handler, in the task that keeps the lock, waits for the lock; and an
   end mark for which there will be no room in the recogniser's queue.
   */
  predicate Stuck(call: Call) {
    && call.lock.Held?
    && (|| call.lock.holder == Recovering(Speech)
        || call.lock.holder.Flushing?
        || ((call.lock.holder.Finalising? || call.lock.holder.Marking?) && NoRoom(call.ears)))
  }

  /** The queue is full, and the loop is not waiting for a frame: once it is to stop running, it takes no more. */
  predicate NoRoom(ears: Ears) {
    ears.backlog >= STT_QUEUE_SIZE && !ears.loop.AtGet?
  }

  /**
   A send to the caller has failed; or the last transcript asks for the lock; or the recogniser's
   consumer is stopped with its queue full, or its last room goes to a frame that was on its way.
   */
  predicate GetsStuck(call: Call, event: Event) {
    && Possible(call, event)
    && match event
       case Fails(origin) => origin.Speech? && !call.state.Ended?
       case Flushes(last) => AsksForLock(call, last)
       case Stops => !call.state.Ended? && !call.voice.active && call.ears.there && NoRoom(call.ears)
       case Finalises => NoRoom(call.ears)
       case Arrives =>
         && call.lock.Held? && (call.lock.holder.Finalising? || call.lock.holder.Marking?)
         && !call.ears.loop.AtGet? && call.ears.backlog + 1 == STT_QUEUE_SIZE
       case _ => false
  }

  lemma FreeAfterReply(call: Call)
    requires call.lock.Free?
    ensures !Stuck(StartReply(call))
  {
    if !call.state.Ended? {
      if call.consumers && call.voice.active {
      }
    }
  }

  lemma FreeAfterFallback(call: Call)
    requires call.lock.Free?
    ensures !Stuck(OpenFallback(call))
  {
    if !call.state.Ended? && call.consumers {
      if call.voice.active {
      }
    }
  }

  lemma FreeAfterPrompt(call: Call)
    requires call.lock.Free?
    ensures !Stuck(OpenPrompt(call))
  {
    if call.state.Listening? {
      if call.consumers && call.voice.active {
      }
    }
  }

  lemma FreeAfterTurn(call: Call)
    requires call.lock.Free?
    ensures !Stuck(StartTurn(call)) && !Stuck(CompleteTurn(call)) && !Stuck(SpeakSegment(call))
  {
    if call.state.Processing? {
    } else if call.state.Listening? {
    }
  }

  lemma FreeAfterSpeech(call: Call)
    requires call.lock.Free?
    ensures !Stuck(EndPlayback(call)) && !Stuck(SendFrame(call)) && !Stuck(CheckFrame(call))
  {
    if call.state.Ended? {
    } else if call.outboundMuted {
    }
  }

  lemma FreeAfterHearing(call: Call, pcm: seq<Pcm16.byte>)
    requires call.lock.Free?
    ensures !Stuck(Hear(call, pcm))
  {
    hide TakeIn;
    if pcm != [] && !call.state.Ended? {
    }
  }

  lemma FreeAfterBarge(call: Call)
    requires call.lock.Free?
    ensures !Stuck(BargeIn(call))
  {
    hide Tried;
    if InReply(call.state) {
      if call.consumers && call.voice.active {
      }
    }
  }

  lemma StoppedLock(call: Call)
    requires Sound(call) && call.lock.Free?
    ensures Stuck(Stop(call)) <==> !call.state.Ended? && !call.voice.active && call.ears.there && NoRoom(call.ears)
  {
    hide HolderFits;
    if !call.state.Ended? {
      if call.voice.active {
      } else if call.ears.there {
      }
    }
  }

  /** A recovery, once the speech is over, does not keep the lock. */
  lemma RecoverFrees(call: Call, origin: Origin)
    requires !call.voice.active
    ensures Recover(call, origin).lock.Free?
  {
    hide Tried, ToFallback;
    var over := if origin.Generation? then Calmed(call).(generating := false) else Calmed(call);
    assert over.lock.Free? && !over.voice.active;
    ToFallbackFrees(over, origin);
  }

  lemma ToFallbackFrees(call: Call, origin: Origin)
    requires call.lock.Free? && !call.voice.active
    ensures ToFallback(call, origin).lock.Free?
  {
    if Contended(call) {
      if origin.Generation? {
      }
    } else {
      FreeFallback(call.(apologies := call.apologies + 1));
    }
    hide OpenFallback;
  }

  lemma FreeFallback(call: Call)
    requires call.lock.Free? && !call.voice.active
    ensures OpenFallback(call).lock.Free?
  {
  }

  lemma FailLock(call: Call, origin: Origin)
    requires call.lock.Free? && Sound(call) && (origin.Speech? ==> call.voice.frame.Sending?)
    ensures Stuck(Fail(call, origin)) <==> origin.Speech? && !call.state.Ended?
  {
    hide Recover, HolderFits;
    if !call.state.Ended? && !call.voice.active {
      RecoverFrees(call, origin);
    }
  }

  lemma FailedLock(call: Call, origin: Origin)
    requires Sound(call) && call.lock.Free? && Possible(call, Fails(origin))
    ensures Stuck(Next(call, Fails(origin))) <==> origin.Speech? && !call.state.Ended?
  {
    hide Fail, Sound, Stuck;
    AskedKeeps(call);
    FailLock(Asked(call), origin);
  }

  lemma StopsLock(call: Call)
    requires Sound(call) && call.lock.Free? && Possible(call, Stops)
    ensures Stuck(Next(call, Stops)) <==> GetsStuck(call, Stops)
  {
    hide Stop, Sound, Stuck, NoRoom;
    AskedKeeps(call);
    StoppedLock(Asked(call));
  }

  lemma TakenLock(call: Call, event: Event)
    requires call.lock.Free? && Possible(call, event) && TakesLock(event) && !event.Fails? && !event.Stops?
    ensures !Stuck(Next(call, event))
  {
    var asked := Asked(call);
    hide StartTurn, CompleteTurn, StartReply, SpeakSegment, EndPlayback, BargeIn, OpenPrompt, Hear;
    hide SendFrame, CheckFrame, Tried, Stuck;
    match event
    case TurnStarts => FreeAfterTurn(asked);
    case TurnCompletes => FreeAfterTurn(asked);
    case ReplyOpens => FreeAfterReply(asked);
    case Segment => FreeAfterTurn(asked);
    case PlaybackEnds => FreeAfterSpeech(asked);
    case BargesIn => FreeAfterBarge(asked);
    case PromptOpens => FreeAfterPrompt(asked);
    case Audio(pcm) => FreeAfterHearing(asked, pcm);
    case FrameChecked => FreeAfterSpeech(asked);
    case FrameSent => FreeAfterSpeech(asked);
    case _ => FreeAfterStart(call, event);
  }

  lemma FreeAfterStart(call: Call, event: Event)
    requires call.lock.Free? && Possible(call, event) && (event.Joins? || event.Listens?)
    ensures !Stuck(Next(call, event))
  {
    hide Tried;
  }

  /** What a holder that gives the lock up leaves it as. */
  lemma ReleasedLock(call: Call, event: Event)
    requires Sound(call) && call.lock.Held? && Possible(call, event) && Releases(call.lock.holder, event)
    ensures Next(call, event).lock == LeftLock(call, event)
  {
    hide GoOn, Barged, Begin, OpenReply, SystemTurn, Finalise, Flush, Sound, Torn, AsksForLock;
    match event
    case Recovered => RecoveredLock(call);
    case BargedIn => BargedLock(call);
    case ReplyOpened => OpenedLock(call);
    case FallbackOpened => OpenedLock(call);
    case PromptOpened => OpenedLock(call);
    case Finalises => StoppingLock(call);
    case Flushes(last) => EndingLock(call, last);
    case Marked =>
    case Stopped => EndingLock(call, Nothing);
  }

  lemma RecoveredLock(call: Call)
    requires Possible(call, Recovered)
    ensures GoOn(call, call.lock.holder.origin).lock.Free?
  {
    hide Recover;
    RecoverFrees(call, call.lock.holder.origin);
  }

  lemma BargedLock(call: Call)
    ensures Barged(call).lock.Free?
  {
    hide BackToListening;
  }

  lemma BegunLock(call: Call)
    ensures Begin(call).lock == call.lock && OpenReply(call).lock == call.lock
  {
    if call.voice.active {
    }
  }

  lemma OpenedLock(call: Call)
    ensures OpenReply(SystemTurn(call)).lock.Free? && Begin(call.(lock := Free)).lock.Free?
  {
    BegunLock(SystemTurn(call));
    BegunLock(call.(lock := Free));
    hide Begin, OpenReply;
  }

  lemma StoppingLock(call: Call)
    requires Sound(call) && call.lock == Held(Stopping)
    ensures Finalise(call).lock == Held(Finalising)
  {
    StoppingHasEars(call);
    hide Torn, Sound;
  }

  lemma EndingLock(call: Call, last: LastTranscript)
    ensures Torn(call).lock.Free?
    ensures Flush(call, last).lock == Held(
              if AsksForLock(call, last) then Flushing
              else if call.ears.backlog >= STT_QUEUE_SIZE then Marking else TearingDown)
  {
    hide AsksForLock, NoEars;
  }

  function LeftLock(call: Call, event: Event): Lock {
    match event
    case Finalises => Held(Finalising)
    case Flushes(last) =>
      if AsksForLock(call, last) then Held(Flushing)
      else if call.ears.backlog >= STT_QUEUE_SIZE then Held(Marking) else Held(TearingDown)
    case Marked => Held(TearingDown)
    case _ => Free
  }

  lemma StoppingHasEars(call: Call)
    requires Sound(call)
    ensures call.lock == Held(Stopping) ==> call.ears.there
  {
  }

  /** What goes on in the recogniser's consumer while the lock is kept. */
  function EarsAfter(ears: Ears, event: Event): Ears
    requires event.Arrives? ==> ears.arriving > 0
    requires event.LoopTakes? ==> ears.backlog > 0
  {
    match event
    case Arrives => Arrive(ears)
    case LoopTakes => ears.(backlog := ears.backlog - 1, loop := Working)
    case LoopTurns => Turn(ears)
    case _ => ears
  }

  lemma AsideEars(call: Call, event: Event)
    requires Possible(call, event) && Aside(event) && !event.Builds?
    ensures Next(call, event).ears == EarsAfter(call.ears, event)
  {
    hide Arrive, Turn, SpeechRuns, Contended;
    if Plain(event) {
      PlainEars(call, event);
    } else {
      match event {
        case Clears =>
        case Arrives =>
        case LoopTakes =>
        case LoopTurns =>
      }
    }
  }

  lemma PlainEars(call: Call, event: Event)
    requires Possible(call, event) && Plain(event)
    ensures Next(call, event).ears == call.ears
  {
    hide SpeechRuns, Contended, FrameOver;
    match event
    case Queues =>
    case GivesUp =>
    case UserSpeaks =>
    case UserPauses =>
    case Interrupts =>
    case GenerationEnds =>
    case SpeechCut =>
    case FrameOffered =>
    case FrameDone =>
  }

  /** Before and while the end mark waits, the queue's last room only goes to a frame that arrives. */
  lemma RoomStep(call: Call, event: Event)
    requires Sound(call) && Possible(call, event) && Aside(event)
    requires call.lock.Held? && (call.lock.holder.Finalising? || call.lock.holder.Marking?)
    ensures NoRoom(Next(call, event).ears) <==> NoRoom(call.ears) || GetsStuck(call, event)
  {
    EndingFits(call);
    hide Sound, Next;
    AsideEars(call, event);
  }

  lemma EndingFits(call: Call)
    requires Sound(call) && call.lock.Held? && (call.lock.holder.Finalising? || call.lock.holder.Marking?)
    ensures !call.setup.Fresh? && !call.ears.running && call.ears.backlog <= STT_QUEUE_SIZE
  {
  }

  /** A speech task that waits for its own end does not end. */
  lemma StuckSpeech(call: Call)
    requires Sound(call)
    ensures call.lock == Held(Recovering(Speech)) ==> call.voice.active
  {
  }

  lemma HeldStuckStep(call: Call, event: Event)
    requires Sound(call) && call.lock.Held? && Possible(call, event)
    ensures Stuck(Next(call, event)) <==> Stuck(call) || GetsStuck(call, event)
    ensures Stuck(call) ==> Next(call, event).lock.Held?
  {
    StuckSpeech(call);
    hide Next, HolderFits, SetupFits, Sound;
    HolderOnly(call, event);
    if Releases(call.lock.holder, event) {
      ReleasedLock(call, event);
      ReleasedRoom(call, event);
    } else if call.lock.holder.Finalising? || call.lock.holder.Marking? {
      AsideOnly(call, event);
      RoomStep(call, event);
    }
  }

  /** Stopping the consumer and handling the last transcript leave the queue and the loop as they are. */
  lemma ReleasedRoom(call: Call, event: Event)
    requires Possible(call, event) && (event.Flushes? || event.Finalises?) ==> Sound(call)
    ensures Possible(call, event) && (event.Flushes? || event.Finalises?) ==>
              (NoRoom(Next(call, event).ears) <==> NoRoom(call.ears))
  {
    if Possible(call, event) {
      if event.Flushes? {
        FlushedEars(call, event.last);
      } else if event.Finalises? {
        StoppingHasEars(call);
        FinalisedEars(call);
      }
    }
    hide Next;
  }

  lemma FinalisedEars(call: Call)
    requires Possible(call, Finalises) && call.ears.there
    ensures Next(call, Finalises).ears == call.ears.(running := false)
  {
  }

  /** With the lock kept, only its holder and those who need no lock go on. */
  lemma AsideOnly(call: Call, event: Event)
    requires call.lock.Held? && Possible(call, event)
    ensures Aside(event) || Releases(call.lock.holder, event)
  {
  }

  lemma FlushedEars(call: Call, last: LastTranscript)
    requires Possible(call, Flushes(last))
    ensures Next(call, Flushes(last)).ears == call.ears
  {
    assert Next(call, Flushes(last)) == Flush(call, last);
    hide Next, AsksForLock;
  }

  lemma StuckStep(call: Call, event: Event)
    requires Sound(call)
    ensures Stuck(Tick(call, event)) <==> Stuck(call) || GetsStuck(call, event)
  {
    hide Next, Sound;
    if Possible(call, event) {
      if call.lock.Held? {
        HeldStuckStep(call, event);
      } else {
        FreeStuckStep(call, event);
      }
    }
  }

  lemma FreeStuckStep(call: Call, event: Event)
    requires Sound(call) && call.lock.Free? && Possible(call, event)
    ensures Stuck(Next(call, event)) <==> GetsStuck(call, event)
  {
    hide Next, Sound, Stuck;
    if event.Fails? {
      FailedLock(call, event.origin);
    } else if event.Stops? {
      StopsLock(call);
    } else if TakesLock(event) {
      TakenLock(call, event);
    } else if event.FallbackOpens? {
      FallbackLock(call);
    } else {
      AsideWhenFree(call, event);
      AsideHolds(call, event);
      SameHoldFree(call, Next(call, event));
    }
  }

  lemma FallbackLock(call: Call)
    requires call.lock.Free? && Possible(call, FallbackOpens)
    ensures !Stuck(Next(call, FallbackOpens))
  {
    hide OpenFallback, Stuck;
    FreeAfterFallback(call.(fallbacks := call.fallbacks - 1));
  }

  lemma AsideWhenFree(call: Call, event: Event)
    requires call.lock.Free? && Possible(call, event) && !TakesLock(event) && !event.FallbackOpens?
    ensures Aside(event)
  {
  }

  lemma SameHoldFree(call: Call, after: Call)
    requires call.lock.Free? && SameHold(call, after)
    ensures !Stuck(after)
  {
  }

  /** Over every run: the lock is kept for ever exactly if one of these things has happened. */
  lemma {:induction false} StuckIff(calls: seq<Call>, schedule: seq<Event>, j: nat)
    requires IsRun(calls, schedule) && j < |calls|
    ensures Stuck(calls[j]) <==> exists i :: 0 <= i < j && GetsStuck(calls[i], schedule[i])
    decreases j
  {
    hide Stuck, GetsStuck, SameHold;
    if j == 0 {
      NotYetStuck();
    } else {
      StuckIff(calls, schedule, j - 1);
      RunKeeps(calls, schedule, j - 1);
      StuckStep(calls[j - 1], schedule[j - 1]);
      StepOf(calls, schedule, j - 1);
      hide IsRun, Sound, Next, Possible;
      if exists i :: 0 <= i < j - 1 && GetsStuck(calls[i], schedule[i]) {
        var i :| 0 <= i < j - 1 && GetsStuck(calls[i], schedule[i]);
        assert 0 <= i < j;
      }
    }
  }

  lemma NotYetStuck()
    ensures !Stuck(Dialled)
  {
  }

  /** Then nobody gets the lock any more, and the state does not change, whatever the other tasks do. */
  lemma {:induction false} StuckForEver(calls: seq<Call>, schedule: seq<Event>, i: nat, j: nat)
    requires IsRun(calls, schedule) && i <= j < |calls| && Stuck(calls[i])
    ensures Stuck(calls[j]) && calls[j].lock.Held? && calls[j].state == calls[i].state
    decreases j
  {
    hide GetsStuck, Sound, Stuck, Follows, Tick;
    if i < j {
      StuckForEver(calls, schedule, i, j - 1);
      RunKeeps(calls, schedule, j - 1);
      RunKeeps(calls, schedule, j);
      StuckStep(calls[j - 1], schedule[j - 1]);
      StepOf(calls, schedule, j - 1);
      hide IsRun;
      HeldKeepsState(calls[j - 1], calls[j]);
      StuckIsHeld(calls[j]);
    } else {
      StuckIsHeld(calls[i]);
    }
  }

  lemma HeldKeepsState(before: Call, after: Call)
    requires Follows(before, after) && before.lock.Held?
    ensures after.lock.Held? ==> after.state == before.state
  {
    hide Utters;
  }

  lemma StuckIsHeld(call: Call)
    ensures Stuck(call) ==> call.lock.Held?
  {
  }

  // ------------------------------------------------------ every other wait ends

  /** The speech task that a holder waits for, and the clear it is to send, come first. */
  function Waits(call: Call): nat {
    (if call.voice.active then 1 else 0) + if call.clearing then 1 else 0
  }

  /** How many steps a holder that is not stuck is from giving the lock back. */
  function StepsLeft(call: Call): nat {
    if call.lock.Free? then 0
    else match call.lock.holder
      case TearingDown => 1
      case Flushing => 1
      case Marking => if call.ears.loop.AtGet? then 3 else 2
      case Finalising => 4
      case Stopping => 5 + Waits(call)
      case _ => 1 + Waits(call)
  }

  /**
   A step towards giving the lock back: of the holder, of the speech task it is stopping, or of the
   recogniser's loop making room. None of them needs the lock.
   */
  predicate Own(call: Call, event: Event) {
    && call.lock.Held? && Possible(call, event)
    && (|| Releases(call.lock.holder, event) || event.SpeechCut? || event.Clears?
        || (call.lock.holder.Marking? && event.LoopTakes?))
  }

  /** As long as the lock is kept and not stuck, there is such a step; for the last transcript, whatever it is. */
  lemma OwnStepExists(call: Call, last: LastTranscript) returns (event: Event)
    requires Sound(call) && call.lock.Held? && !Stuck(call)
    ensures Own(call, event) && (call.lock.holder.Finalising? ==> event == Flushes(last))
  {
    event := match call.lock.holder
      case TearingDown => Stopped
      case Marking => if call.ears.backlog < STT_QUEUE_SIZE then Marked else LoopTakes
      case Finalising => Flushes(last)
      case Flushing => Stopped
      case _ =>
        if call.voice.active then SpeechCut
        else if call.clearing then Clears
        else match call.lock.holder
          case BargingIn => BargedIn
          case Recovering(_) => Recovered
          case OpeningReply => ReplyOpened
          case OpeningFallback => FallbackOpened
          case OpeningPrompt => PromptOpened
          case _ => Finalises;
  }

  /** How far the speech task and the clear are, after what goes on aside. */
  lemma PlainSpeech(call: Call, event: Event)
    requires Possible(call, event) && Plain(event)
    ensures var after := Next(call, event);
            && after.clearing == call.clearing
            && after.voice.active == (call.voice.active && !event.SpeechCut?)
            && (event.SpeechCut? ==> call.voice.active)
  {
    hide Contended, AsksForLock;
    match event
    case Queues =>
    case GivesUp =>
    case UserSpeaks =>
    case UserPauses =>
    case Interrupts =>
    case GenerationEnds =>
    case SpeechCut =>
    case FrameOffered =>
    case FrameDone =>
  }

  lemma ListenSpeech(call: Call, event: Event)
    requires Possible(call, event) && (event.Arrives? || event.LoopTakes? || event.LoopTurns?)
    ensures Next(call, event).clearing == call.clearing && Next(call, event).voice == call.voice
  {
    hide Arrive, Turn;
  }

  lemma ClearsSpeech(call: Call)
    requires Possible(call, Clears)
    ensures call.clearing && !Next(call, Clears).clearing && Next(call, Clears).voice == call.voice
  {
  }

  lemma BuildsSpeech(call: Call)
    requires Possible(call, Builds)
    ensures Next(call, Builds).clearing == call.clearing && Next(call, Builds).voice == call.voice
  {
  }

  /** Whom the holder may have to wait for. */
  lemma WaitsFit(call: Call)
    requires Sound(call) && call.lock.Held?
    ensures call.voice.active || call.clearing ==>
              !(call.lock.holder.Finalising? || call.lock.holder.Flushing? || call.lock.holder.Marking? || call.lock.holder.TearingDown?)
  {
  }

  lemma AsideSteps(call: Call, event: Event)
    requires Sound(call) && call.lock.Held? && Possible(call, event) && Aside(event)
    ensures StepsLeft(Next(call, event)) + (if Own(call, event) then 1 else 0) <= StepsLeft(call)
  {
    AsideIs(call, event);
    AsideHolds(call, event);
    if call.lock.holder.Marking? {
      MarkingSteps(call, event);
    } else {
      WaitsFit(call);
      hide Next, Sound, AsksForLock, Stuck, GetsStuck, Possible, Aside, Releases;
      assert Waits(Next(call, event)) + (if Own(call, event) then 1 else 0) <= Waits(call);
    }
  }

  lemma MarkingSteps(call: Call, event: Event)
    requires Sound(call) && call.lock == Held(Marking) && Possible(call, event) && Aside(event)
    ensures StepsLeft(Next(call, event)) + (if event.LoopTakes? then 1 else 0) <= StepsLeft(call)
    ensures !event.SpeechCut? && !event.Clears? && !Releases(Marking, event)
  {
    WaitsFit(call);
    AsideIs(call, event);
    AsideHolds(call, event);
    EndingFits(call);
    NotBuilding(call, event);
    AsideEars(call, event);
    hide Next, Sound, AsksForLock, Contended, GetsLock;
  }

  lemma NotBuilding(call: Call, event: Event)
    requires Possible(call, event) && !call.setup.Fresh?
    ensures !event.Builds?
  {
  }

  /** What goes on aside releases nothing, and ends the wait for the speech task by its end and its clear only. */
  lemma AsideIs(call: Call, event: Event)
    requires Sound(call) && call.lock.Held? && Possible(call, event) && Aside(event)
    ensures !Releases(call.lock.holder, event)
    ensures (event.SpeechCut? ==> call.voice.active) && (event.Clears? ==> call.clearing)
    ensures Next(call, event).voice.active == (call.voice.active && !event.SpeechCut?)
    ensures Next(call, event).clearing == (call.clearing && !event.Clears?)
  {
    WaitsFit(call);
    if Plain(event) {
      PlainSpeech(call, event);
    } else if event.Clears? {
      ClearsSpeech(call);
    } else if event.Builds? {
      BuildsSpeech(call);
    } else {
      ListenSpeech(call, event);
    }
    hide Next, Sound, AsksForLock;
  }

  lemma ReleaseSteps(call: Call, event: Event)
    requires Sound(call) && call.lock.Held? && Possible(call, event) && Releases(call.lock.holder, event)
    requires !GetsStuck(call, event)
    ensures StepsLeft(Next(call, event)) < StepsLeft(call)
  {
    EarsFit(call);
    ReleasedLock(call, event);
    if event.Flushes? {
      FlushedEars(call, event.last);
    }
    hide Next, Sound, AsksForLock;
  }

  lemma HeldSteps(call: Call, event: Event)
    requires Sound(call) && call.lock.Held? && !Stuck(call) && !Stuck(Tick(call, event))
    ensures StepsLeft(Tick(call, event)) + (if Own(call, event) then 1 else 0) <= StepsLeft(call)
  {
    hide Next, Sound, StepsLeft, Stuck, GetsStuck;
    StuckStep(call, event);
    if Possible(call, event) {
      if Releases(call.lock.holder, event) {
        ReleaseSteps(call, event);
      } else {
        AsideOnly(call, event);
        AsideSteps(call, event);
      }
    }
  }

  /** How many of the steps from i to j go towards giving the lock back. */
  function OwnSteps(calls: seq<Call>, schedule: seq<Event>, i: nat, j: nat): nat
    requires i <= j <= |schedule| && j <= |calls|
  {
    if i == j then 0
    else OwnSteps(calls, schedule, i, j - 1) + if Own(calls[j - 1], schedule[j - 1]) then 1 else 0
  }

  lemma {:induction false} HeldRun(calls: seq<Call>, schedule: seq<Event>, i: nat, j: nat)
    requires IsRun(calls, schedule) && i <= j < |calls|
    requires (forall m :: i <= m <= j ==> calls[m].lock.Held?) && !Stuck(calls[j])
    ensures StepsLeft(calls[j]) + OwnSteps(calls, schedule, i, j) <= StepsLeft(calls[i])
    decreases j
  {
    hide Own, StepsLeft, Stuck;
    if i < j {
      if Stuck(calls[j - 1]) {
        StuckForEver(calls, schedule, j - 1, j);
      }
      HeldRun(calls, schedule, i, j - 1);
      RunKeeps(calls, schedule, j - 1);
      StepOf(calls, schedule, j - 1);
      HeldSteps(calls[j - 1], schedule[j - 1]);
      hide IsRun, Tick, Sound;
    }
  }

  /**
   In every run, whatever else goes on: by the time a holder and those it waits for have taken
   seven steps, none of which needs the lock, it has given the lock back, or it is stuck for ever.
   Such a step is there all the while (OwnStepExists).
   */
  lemma LockComesBack(calls: seq<Call>, schedule: seq<Event>, i: nat, j: nat)
    requires IsRun(calls, schedule) && i <= j < |calls| && OwnSteps(calls, schedule, i, j) >= 7
    ensures Stuck(calls[j]) || exists m :: i <= m <= j && calls[m].lock.Free?
  {
    hide IsRun, OwnSteps, Stuck;
    if !Stuck(calls[j]) && forall m :: i <= m <= j ==> calls[m].lock.Held? {
      RunIsLonger(calls, schedule, j);
      HeldRun(calls, schedule, i, j);
      AtMostSeven(calls[i]);
      AtMostSeven(calls[j]);
    }
  }

  lemma RunIsLonger(calls: seq<Call>, schedule: seq<Event>, j: nat)
    requires IsRun(calls, schedule) && j < |calls|
    ensures j <= |schedule|
  {
  }

  lemma AtMostSeven(call: Call)
    ensures StepsLeft(call) <= 7 && (call.lock.Held? ==> StepsLeft(call) >= 1)
  {
  }

  /** The call after all these events. */
  function AfterAll(call: Call, schedule: seq<Event>): Call
    decreases |schedule|
  {
    if schedule == [] then call else AfterAll(Tick(call, schedule[0]), schedule[1..])
  }

  lemma TickIsSound(call: Call, event: Event)
    requires Sound(call)
    ensures Sound(Tick(call, event))
  {
    hide Next, Sound, Follows;
    if Possible(call, event) {
      StepKeeps(call, event);
      KeptIsSound(call, Next(call, event));
    }
  }

  /** Own steps only, with no last transcript, give the lock back. */
  lemma {:induction false} ReleaseExists(call: Call) returns (schedule: seq<Event>)
    requires Sound(call) && !Stuck(call)
    ensures AfterAll(call, schedule).lock.Free?
    decreases StepsLeft(call)
  {
    if call.lock.Free? {
      schedule := [];
    } else {
      var event := OwnStepExists(call, Nothing);
      if event.Finalises? && NoRoom(call.ears) {
        RoomFirst(call);
        hide Sound, Stuck, StepsLeft, Next, Possible, GetsStuck, NoRoom;
        var room := Tick(call, LoopTurns);
        var rest := ReleaseExists(Tick(room, Finalises));
        schedule := [LoopTurns, Finalises] + rest;
        assert schedule[1..][0] == Finalises && schedule[1..][1..] == rest;
        assert AfterAll(call, schedule) == AfterAll(room, schedule[1..]);
      } else {
        NotStuckBy(call, event);
        TickIsSound(call, event);
        StuckStep(call, event);
        HeldSteps(call, event);
        hide Sound, Stuck, StepsLeft, Next, Possible, GetsStuck;
        schedule := ReleaseExists(Tick(call, event));
        schedule := [event] + schedule;
      }
    }
  }

  /** A consumer still running with a full queue makes room by taking the next frame. */
  lemma RoomFirst(call: Call)
    requires Sound(call) && StopReturns(call, Stopping) && NoRoom(call.ears)
    ensures var done := Tick(Tick(call, LoopTurns), Finalises);
            Sound(done) && !Stuck(done) && StepsLeft(done) < StepsLeft(call)
  {
    StoppingHasEars(call);
    StoppingRuns(call);
    var room := Tick(call, LoopTurns);
    assert room == call.(ears := Turn(call.ears));
    TickIsSound(call, LoopTurns);
    TickIsSound(room, Finalises);
    FinalisedEars(room);
    assert Tick(room, Finalises).lock == Held(Finalising);
    hide Next, Sound;
  }

  lemma StoppingRuns(call: Call)
    requires Sound(call) && call.lock == Held(Stopping)
    ensures call.ears.running && !call.ears.loop.Gone?
  {
  }

  lemma NotStuckBy(call: Call, event: Event)
    requires Own(call, event) && (event.Flushes? ==> event == Flushes(Nothing))
    requires event.Finalises? ==> !NoRoom(call.ears)
    ensures !GetsStuck(call, event)
  {
  }

  lemma {:induction false} StuckAfterAll(call: Call, schedule: seq<Event>)
    requires Sound(call) && Stuck(call)
    ensures Stuck(AfterAll(call, schedule))
    decreases |schedule|
  {
    hide Sound, Next, Possible, Stuck, GetsStuck;
    if schedule != [] {
      StuckStep(call, schedule[0]);
      TickIsSound(call, schedule[0]);
      StuckAfterAll(Tick(call, schedule[0]), schedule[1..]);
    }
  }

  /** In every run: those who wait for the lock can still get it if and only if it is not stuck. */
  lemma LockComesBackIff(calls: seq<Call>, schedule: seq<Event>, i: nat)
    requires IsRun(calls, schedule) && i < |calls|
    ensures (exists later: seq<Event> :: AfterAll(calls[i], later).lock.Free?) <==> !Stuck(calls[i])
  {
    RunKeeps(calls, schedule, i);
    hide IsRun, Sound, AfterAll, Stuck;
    if Stuck(calls[i]) {
      forall later: seq<Event>
        ensures !AfterAll(calls[i], later).lock.Free?
      {
        StuckAfterAll(calls[i], later);
        StuckIsHeld(AfterAll(calls[i], later));
      }
    } else {
      var later := ReleaseExists(calls[i]);
    }
  }
}
