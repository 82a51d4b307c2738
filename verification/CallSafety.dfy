/** What holds in every run of a phone call. */
module CallSafety {
  import opened Pcm16
  import opened CallSteps

  /** The states that a call is never in between two steps. */
  predicate Observable(state: State) {
    && !state.Incoming? && !state.Paused? && !state.Interrupted? && !state.Transferred?
    && !state.Failed? && !state.TimedOut? && !state.Cancelled?
  }

  /** What each holder of the lock may rely on: nobody else changes it meanwhile. */
  predicate HolderFits(call: Call) {
    if call.lock.Free? then
      && !call.outboundMuted && !call.clearing && (call.state.Ended? ==> !call.opening)
      && (call.consumers ==> call.ears.running)
    else match call.lock.holder
      case BargingIn => call.outboundMuted && InReply(call.state) && call.consumers && call.ears.running
      case Recovering(origin) =>
        && !call.outboundMuted && !call.state.Ended? && (call.consumers ==> call.ears.running)
        && (origin.Speech? ==> call.voice.active && call.voice.frame.Sending?)
        && (origin.Generation? ==> call.generating && !call.clearing)
      case Stopping => call.outboundMuted && call.state.Ended? && !call.canSend && call.consumers && call.ears.running
      case Finalising => Ending(call)
      case Flushing => Ending(call)
      case Marking => Ending(call) && (call.ears.loop.AtGet? ==> call.ears.backlog == STT_QUEUE_SIZE)
      case TearingDown => Ending(call)
      case _ => !call.outboundMuted && !call.state.Ended? && call.consumers && call.ears.running
  }

  /** From the request for the last transcript on, nothing is spoken and the recogniser's loop is not to go on. */
  predicate Ending(call: Call) {
    && call.outboundMuted && call.state.Ended? && !call.voice.active && !call.clearing
    && call.ears.there && !call.ears.running
  }

  predicate SetupFits(call: Call) {
    && (call.setup.Fresh? || call.setup.Built? ==> call.state.Connecting? || call.state.Ended?)
    && (call.setup.Joined? ==> !call.state.Connecting?)
    && (call.setup.Started? ==> !call.state.Connecting? && !call.state.Connected?)
    && (!call.setup.Fresh? && !call.state.Ended? ==> call.consumers)
    && (call.setup.Fresh? ==> !call.consumers && !call.opening)
    && (call.consumers <==> call.ears.there)
    && (call.ears.running ==> !call.ears.loop.Gone?)
    && (!call.ears.there ==> call.ears.buffered == 0)
  }

  predicate Sound(call: Call) {
    && Observable(call.state)
    && HolderFits(call)
    && SetupFits(call)
    && call.clashes == 0
    && call.ears.backlog <= STT_QUEUE_SIZE
    && (!call.voice.frame.NoFrame? ==> call.voice.active)
    && (call.voice.active ==> call.consumers)
  }

  /** What one step may do. */
  predicate Follows(before: Call, after: Call) {
    && (before.state == after.state || InTable(before.state, after.state))
    && (before.lock.Held? && before.state != after.state ==> after.lock.Free?)
    && (before.state.Ended? ==> after.out == before.out)
    && (before.outboundMuted ==> after.out == before.out || after.out == before.out + [Clear(before.voice.number)])
    && (before.setup.Started? ==> after.setup.Started?)
    && (before.setup.Started? && before.state.Streaming? ==> after.state.Streaming? || after.state.Ended?)
    && Utters(before, after)
  }

  /** What one step may do about speech: let it go on or end, begin the next, send of the active one, clear an ended one. */
  predicate Utters(before: Call, after: Call) {
    if after.voice.number != before.voice.number then
      after.out == before.out && after.voice.number == before.voice.number + 1
    else
      && (after.voice.active ==> before.voice.active)
      && (|| after.out == before.out
          || (before.voice.active && after.out == before.out + [Media(before.voice.number)])
          || (!before.voice.active && after.out == before.out + [Clear(before.voice.number)]))
  }

  /** A sound call goes on to a sound one. */
  predicate Keeps(before: Call, after: Call) {
    Sound(after) && Follows(before, after)
  }

  /** The state is left alone, or goes back to LISTENING. */
  predicate Back(before: Call, after: Call) {
    after.state == before.state || after.state.Listening?
  }

  lemma AskedKeeps(call: Call)
    requires Sound(call)
    ensures Sound(Asked(call))
    ensures forall after :: Keeps(Asked(call), after) ==> Keeps(call, after)
    ensures forall after :: Back(Asked(call), after) ==> Back(call, after)
  {
  }

  lemma StartTurnKeeps(call: Call)
    requires Sound(call) && call.lock.Free?
    ensures Keeps(call, StartTurn(call)) && Back(call, StartTurn(call))
  {
    if call.state.Processing? {
      assert Keeps(call, call.(state := Listening));
    } else {
      assert Keeps(call, call);
    }
    hide Keeps;
  }

  lemma CompleteTurnKeeps(call: Call)
    requires Sound(call) && call.lock.Free?
    ensures Keeps(call, CompleteTurn(call))
  {
    if call.state.Listening? {
      assert Keeps(call, call.(state := Processing, opening := call.consumers));
    } else {
      assert Keeps(call, call);
    }
    hide Keeps;
  }

  lemma SpeakSegmentKeeps(call: Call)
    requires Sound(call) && call.lock.Free?
    ensures Keeps(call, SpeakSegment(call))
  {
    if call.state.Processing? {
      assert Keeps(call, call.(state := Speaking));
    } else {
      assert Keeps(call, call);
    }
    hide Keeps;
  }

  /** A free lock may be kept while a speech task is stopped. */
  lemma WaitKeeps(call: Call, holder: Holder)
    requires Sound(call) && call.lock.Free? && call.consumers && !call.state.Ended?
    requires holder.OpeningReply? || holder.OpeningFallback? || holder.OpeningPrompt? || holder.Recovering?
    requires holder == Recovering(Speech) ==> call.voice.active && call.voice.frame.Sending?
    requires holder == Recovering(Generation) ==> call.generating
    ensures Keeps(call, WaitIn(call, holder)) && Back(call, WaitIn(call, holder))
  {
  }

  /** A speech task begins when none is active. */
  lemma BeginKeeps(call: Call)
    requires Sound(call) && call.lock.Free? && !call.voice.active && call.consumers
    ensures Keeps(call, Begin(call)) && Back(call, Begin(call))
    ensures Keeps(call, OpenReply(call)) && Back(call, OpenReply(call))
  {
  }

  /** Flags and counters do not matter. */
  lemma FlagsKeep(call: Call, over: Call, user: bool, system: bool, fallbacks: nat, apologies: nat)
    requires Keeps(call, over)
    ensures Keeps(call, over.(userSpeaking := user, systemSpeaking := system, fallbacks := fallbacks, apologies := apologies))
  {
  }

  lemma FollowOn(call: Call, over: Call, next: Call)
    requires Keeps(call, over) && Keeps(over, next)
    requires over.lock == call.lock && over.state == call.state && over.out == call.out && over.outboundMuted == call.outboundMuted
    requires over.voice == call.voice && over.setup == call.setup
    ensures Keeps(call, next)
  {
  }

  lemma StartReplyKeeps(call: Call)
    requires Sound(call) && call.lock.Free? && call.opening
    ensures Keeps(call, StartReply(call)) && Back(call, StartReply(call))
  {
    var open := call.(opening := false);
    assert Keeps(call, open) && !call.state.Ended? && call.consumers;
    var turn := SystemTurn(open);
    assert Keeps(call, turn);
    hide Sound, Follows, Keeps;
    KeptIsSound(call, open);
    KeptIsSound(call, turn);
    if call.voice.active {
      WaitKeeps(open, OpeningReply);
      FollowOn(call, open, StartReply(call));
    } else {
      BeginKeeps(turn);
      FollowOn(call, turn, StartReply(call));
    }
  }

  lemma KeptIsSound(call: Call, over: Call)
    requires Keeps(call, over)
    ensures Sound(over)
  {
  }

  lemma EndPlaybackKeeps(call: Call)
    requires Sound(call) && call.lock.Free? && call.voice.frame.NoFrame?
    ensures Keeps(call, EndPlayback(call)) && Back(call, EndPlayback(call))
  {
    if call.state.Ended? {
      assert Keeps(call, EndPlayback(call));
    } else if InReply(call.state) {
      assert Keeps(call, EndPlayback(call));
    }
  }

  lemma BargeInKeeps(call: Call)
    requires Sound(call) && call.lock.Free?
    ensures Keeps(call, BargeIn(call)) && Back(call, BargeIn(call))
  {
    assert Keeps(call, call);
    if InReply(call.state) {
      if call.consumers && call.voice.active {
        assert Keeps(call, BargeIn(call));
      } else {
        BargedKeeps(call);
      }
    }
  }

  lemma BargedKeeps(call: Call)
    requires Sound(call) && InReply(call.state) && !call.clearing && (call.lock.Free? || call.lock.holder.BargingIn?)
    ensures Keeps(call, Barged(call)) && Back(call, Barged(call))
  {
    assert Barged(call).state == Listening;
  }

  lemma FallbackKeeps(call: Call)
    requires Sound(call) && call.lock.Free?
    ensures Keeps(call, OpenFallback(call)) && OpenFallback(call).state == call.state
  {
    assert Keeps(call, call);
    hide Sound, Follows, Keeps;
    if !call.state.Ended? && call.consumers {
      if call.voice.active {
        WaitKeeps(call, OpeningFallback);
      } else {
        BeginKeeps(call);
      }
    }
  }

  lemma CalmedKeeps(call: Call)
    requires Sound(call) && !call.voice.active && !call.clearing && !call.state.Ended? && !call.outboundMuted
    ensures Keeps(call, Calmed(call)) && Keeps(call, Calmed(call).(generating := false)) && Back(call, Calmed(call))
    ensures Calmed(call).lock.Free? && Calmed(call).voice == call.voice && Calmed(call).out == call.out
  {
    var state := if InReply(call.state) then BackToListening(call.state) else call.state;
    assert state == if InReply(call.state) then Listening else call.state;
    assert Calmed(call) == Quieted(call).(state := state);
    hide BackToListening, Calmed;
  }

  lemma ToFallbackKeeps(call: Call, over: Call, origin: Origin)
    requires Keeps(call, over) && over.lock.Free? && !over.voice.active && over.voice == call.voice && over.out == call.out
    ensures Keeps(call, ToFallback(over, origin)) && ToFallback(over, origin).state == over.state
  {
    hide Keeps, OpenFallback, Sound;
    var apology := over.(apologies := over.apologies + 1);
    FlagsKeep(call, over, over.userSpeaking, over.systemSpeaking, over.fallbacks, over.apologies + 1);
    FlagsKeep(call, over, over.userSpeaking, over.systemSpeaking, over.fallbacks + 1, over.apologies + 1);
    KeptIsSound(call, apology);
    FallbackKeeps(apology);
    FreshVoice(call, apology);
  }

  /** A fallback message begins at once, with no speech before it. */
  lemma FreshVoice(call: Call, over: Call)
    requires Keeps(call, over) && over.lock.Free? && !over.voice.active && over.voice == call.voice && over.out == call.out
    requires Keeps(over, OpenFallback(over))
    ensures Keeps(call, OpenFallback(over))
  {
  }

  lemma RecoverKeeps(call: Call, origin: Origin)
    requires Sound(call) && !call.voice.active && !call.clearing && !call.state.Ended? && !call.outboundMuted
    ensures Keeps(call, Recover(call, origin)) && Back(call, Recover(call, origin))
  {
    hide Keeps, ToFallback, Calmed, Sound;
    CalmedKeeps(call);
    ToFallbackKeeps(call, if origin.Generation? then Calmed(call).(generating := false) else Calmed(call), origin);
  }

  lemma FailKeeps(call: Call, origin: Origin)
    requires Sound(call) && call.lock.Free?
    requires (origin.Generation? ==> call.generating) && (origin.Speech? ==> call.voice.frame.Sending?)
    ensures Keeps(call, Fail(call, origin)) && Back(call, Fail(call, origin))
  {
    assert Keeps(call, call);
    if !call.state.Ended? {
      if call.voice.active {
        WaitKeeps(call, Recovering(origin));
      } else {
        RecoverKeeps(call, origin);
      }
    }
    hide Keeps, Recover, HolderFits;
  }

  lemma GoOnKeeps(call: Call)
    requires Sound(call) && Possible(call, Recovered)
    ensures Keeps(call, GoOn(call, call.lock.holder.origin)) && Back(call, GoOn(call, call.lock.holder.origin))
  {
    hide Recover;
    if !call.lock.holder.origin.Generation? {
      RecoverKeeps(call, call.lock.holder.origin);
    }
  }

  lemma PromptKeeps(call: Call)
    requires Sound(call) && call.lock.Free?
    ensures Keeps(call, OpenPrompt(call)) && Back(call, OpenPrompt(call))
  {
    assert Keeps(call, call);
    if call.state.Listening? {
      if call.voice.active {
        WaitKeeps(call, OpeningPrompt);
      } else {
        BeginKeeps(call);
      }
    }
    hide Keeps, Sound;
  }

  lemma HearKeeps(call: Call, pcm: seq<byte>)
    requires Sound(call) && call.lock.Free?
    ensures Keeps(call, Hear(call, pcm))
  {
    assert Keeps(call, call);
    if pcm != [] && !call.state.Ended? {
      if call.state.Connected? || call.state.Listening? {
        assert Keeps(call, Hear(call, pcm));
      } else {
        assert Keeps(call, Hear(call, pcm));
      }
    }
  }

  lemma EarsKeep(call: Call, ears: Ears)
    requires Sound(call) && ears.there == call.ears.there && ears.running == call.ears.running
    requires ears.buffered == call.ears.buffered
    requires ears.backlog <= STT_QUEUE_SIZE
    requires call.lock == Held(Marking) && ears.loop.AtGet? ==> ears.backlog == STT_QUEUE_SIZE
    requires ears.running ==> !ears.loop.Gone?
    ensures Keeps(call, call.(ears := ears)) && Back(call, call.(ears := ears))
  {
    hide InTable;
  }

  lemma ListenKeeps(call: Call, event: Event)
    requires Sound(call) && Possible(call, event) && (event.Arrives? || event.LoopTakes? || event.LoopTurns?)
    ensures Keeps(call, Next(call, event)) && Back(call, Next(call, event))
  {
    EarsFit(call);
    hide Keeps, Back, Sound;
    match event
    case Arrives => EarsKeep(call, Arrive(call.ears));
    case LoopTakes => EarsKeep(call, call.ears.(backlog := call.ears.backlog - 1, loop := Working));
    case LoopTurns => EarsKeep(call, Turn(call.ears));
  }

  lemma EarsFit(call: Call)
    requires Sound(call)
    ensures call.ears.backlog <= STT_QUEUE_SIZE && (call.ears.running ==> !call.ears.loop.Gone?)
    ensures call.lock == Held(Marking) ==>
              !call.ears.running && (call.ears.loop.AtGet? ==> call.ears.backlog == STT_QUEUE_SIZE)
  {
  }

  lemma FinaliseKeeps(call: Call)
    requires Sound(call) && !call.voice.active && !call.clearing && call.state.Ended? && call.outboundMuted
    requires call.lock.Free? ==> !call.consumers
    requires call.lock.Held? ==> call.lock.holder.Stopping?
    ensures Keeps(call, Finalise(call)) && Back(call, Finalise(call))
  {
    if call.ears.there {
      assert Keeps(call, Finalise(call));
    }
  }

  lemma StopKeeps(call: Call)
    requires Sound(call) && call.lock.Free?
    ensures Keeps(call, Stop(call))
  {
    assert Keeps(call, call);
    if !call.state.Ended? {
      if call.consumers && call.voice.active {
        assert Keeps(call, Stop(call));
      } else if call.ears.there {
        assert Keeps(call, Stop(call));
      } else {
        assert Keeps(call, Stop(call));
      }
    }
  }

  lemma FlushKeeps(call: Call, last: LastTranscript)
    requires Sound(call) && call.lock == Held(Finalising)
    ensures Keeps(call, Flush(call, last)) && Back(call, Flush(call, last))
  {
    if AsksForLock(call, last) {
      assert Keeps(call, Flush(call, last));
    } else if call.ears.backlog >= STT_QUEUE_SIZE {
      assert Keeps(call, Flush(call, last));
    }
  }

  lemma TornKeeps(call: Call)
    requires Sound(call) && call.lock == Held(TearingDown)
    ensures Keeps(call, Torn(call)) && Back(call, Torn(call))
  {
  }

  lemma SendKeeps(call: Call)
    requires Sound(call) && call.voice.active && call.lock.Free?
    ensures Keeps(call, SendFrame(call)) && Back(call, SendFrame(call))
    ensures Keeps(call, CheckFrame(call)) && Back(call, CheckFrame(call))
  {
    if !call.outboundMuted && !call.state.Ended? && call.canSend {
      assert Keeps(call, SendFrame(call));
    }
  }

  lemma ClearKeeps(call: Call)
    requires Sound(call) && Possible(call, Clears)
    ensures Keeps(call, SendClear(call)) && Back(call, SendClear(call))
  {
    if call.canSend {
      assert Keeps(call, SendClear(call));
    }
  }

  /** The events that may take a call forward to another state. */
  predicate Forward(event: Event) {
    event.Joins? || event.Listens? || event.TurnCompletes? || event.Segment? || event.Audio? || event.Stops?
  }

  lemma StepKeeps(call: Call, event: Event)
    requires Sound(call) && Possible(call, event)
    ensures Keeps(call, Next(call, event)) && (Forward(event) || Back(call, Next(call, event)))
  {
    hide Sound, Keeps, Back, Next, Forward;
    if TakesLock(event) {
      TakingKeeps(call, event);
    } else if call.lock.Held? && Releases(call.lock.holder, event) {
      ReleasingKeeps(call, event);
    } else if event.Arrives? || event.LoopTakes? || event.LoopTurns? {
      ListenKeeps(call, event);
    } else {
      OtherKeeps(call, event);
    }
  }

  /** The one event in which a holder gives the lock up, or turns into another. */
  predicate Releases(holder: Holder, event: Event) {
    match holder
    case BargingIn => event.BargedIn?
    case Recovering(_) => event.Recovered?
    case OpeningReply => event.ReplyOpened?
    case OpeningFallback => event.FallbackOpened?
    case OpeningPrompt => event.PromptOpened?
    case Stopping => event.Finalises?
    case Finalising => event.Flushes?
    case Flushing => false
    case Marking => event.Marked?
    case TearingDown => event.Stopped?
  }

  /** The events of a turn and its reply. */
  predicate TurnEvent(event: Event) {
    event.TurnStarts? || event.TurnCompletes? || event.ReplyOpens? || event.Segment? || event.PlaybackEnds?
  }

  lemma TakingKeeps(call: Call, event: Event)
    requires Sound(call) && Possible(call, event) && TakesLock(event)
    ensures Keeps(call, Next(call, event)) && (Forward(event) || Back(call, Next(call, event)))
  {
    hide Sound, Keeps, Back, Next, Possible;
    if TurnEvent(event) {
      TurnEventKeeps(call, event);
    } else if event.Joins? || event.Listens? {
      StartKeeps(call, event);
    } else {
      OtherTakingKeeps(call, event);
    }
  }

  lemma TurnEventKeeps(call: Call, event: Event)
    requires Sound(call) && Possible(call, event) && TurnEvent(event)
    ensures Keeps(call, Next(call, event)) && (Forward(event) || Back(call, Next(call, event)))
  {
    var asked := Asked(call);
    AskedKeeps(call);
    hide StartTurn, CompleteTurn, StartReply, SpeakSegment, EndPlayback, Sound, Keeps, Back;
    match event
    case TurnStarts => StartTurnKeeps(asked);
    case TurnCompletes => CompleteTurnKeeps(asked);
    case ReplyOpens => StartReplyKeeps(asked);
    case Segment => SpeakSegmentKeeps(asked);
    case PlaybackEnds => EndPlaybackKeeps(asked);
  }

  lemma OtherTakingKeeps(call: Call, event: Event)
    requires Sound(call) && Possible(call, event) && TakesLock(event)
    requires !TurnEvent(event) && !event.Joins? && !event.Listens?
    ensures Keeps(call, Next(call, event)) && (Forward(event) || Back(call, Next(call, event)))
  {
    var asked := Asked(call);
    AskedKeeps(call);
    hide BargeIn, Fail, OpenPrompt, Hear, SendFrame, Stop, CheckFrame, Sound, Keeps, Back;
    match event
    case BargesIn => BargeInKeeps(asked);
    case Fails(origin) => FailKeeps(asked, origin);
    case PromptOpens => PromptKeeps(asked);
    case Audio(pcm) => HearKeeps(asked, pcm);
    case FrameChecked => FrameKeeps(asked);
    case FrameSent => FrameKeeps(asked);
    case Stops => StopKeeps(asked);
  }

  lemma FrameKeeps(call: Call)
    requires Sound(call) && call.lock.Free? && !call.voice.frame.NoFrame?
    ensures Keeps(call, SendFrame(call)) && Back(call, SendFrame(call))
    ensures Keeps(call, CheckFrame(call)) && Back(call, CheckFrame(call))
  {
    SendKeeps(call);
    hide Keeps, Back;
  }

  lemma StartKeeps(call: Call, event: Event)
    requires Sound(call) && Possible(call, event) && (event.Joins? || event.Listens?)
    ensures Keeps(call, Next(call, event))
  {
    match event
    case Joins => assert Keeps(call, Next(call, event));
    case Listens => assert Keeps(call, Next(call, event));
  }

  lemma ReleasingKeeps(call: Call, event: Event)
    requires Sound(call) && Possible(call, event) && call.lock.Held? && Releases(call.lock.holder, event)
    ensures Keeps(call, Next(call, event)) && Back(call, Next(call, event))
  {
    hide Barged, GoOn, Begin, OpenReply, SystemTurn, Finalise, Flush, Torn, Keeps, Back, Sound;
    match event
    case BargedIn => BargedInKeeps(call);
    case Recovered => GoOnKeeps(call);
    case ReplyOpened => ReplyOpenedKeeps(call);
    case FallbackOpened => AloneKeeps(call);
    case PromptOpened => AloneKeeps(call);
    case Finalises => FinalisesKeeps(call);
    case Flushes(last) => FlushKeeps(call, last);
    case Marked => MarkedKeeps(call);
    case Stopped => TornKeeps(call);
  }

  lemma BargedInKeeps(call: Call)
    requires Sound(call) && StopReturns(call, BargingIn)
    ensures Keeps(call, Barged(call)) && Back(call, Barged(call))
  {
    hide Barged;
    BargedKeeps(call);
  }

  lemma ReplyOpenedKeeps(call: Call)
    requires Sound(call) && StopReturns(call, OpeningReply)
    ensures Keeps(call, OpenReply(SystemTurn(call))) && Back(call, OpenReply(SystemTurn(call)))
  {
    assert Sound(SystemTurn(call));
    BeginKeeps(SystemTurn(call));
  }

  lemma AloneKeeps(call: Call)
    requires Sound(call) && (StopReturns(call, OpeningFallback) || StopReturns(call, OpeningPrompt))
    ensures Keeps(call, Begin(call.(lock := Free))) && Back(call, Begin(call.(lock := Free)))
  {
    assert Sound(call.(lock := Free));
    BeginKeeps(call.(lock := Free));
  }

  lemma FinalisesKeeps(call: Call)
    requires Sound(call) && StopReturns(call, Stopping)
    ensures Keeps(call, Finalise(call)) && Back(call, Finalise(call))
  {
    hide Finalise;
    FinaliseKeeps(call);
  }

  lemma MarkedKeeps(call: Call)
    requires Sound(call) && call.lock == Held(Marking)
    ensures Keeps(call, call.(lock := Held(TearingDown))) && Back(call, call.(lock := Held(TearingDown)))
  {
  }

  /** Steps that leave the state and the lock alone, but for a fallback message that gets it. */
  lemma OtherKeeps(call: Call, event: Event)
    requires Sound(call) && Possible(call, event) && !TakesLock(event)
    requires !(call.lock.Held? && Releases(call.lock.holder, event))
    requires !event.Arrives? && !event.LoopTakes? && !event.LoopTurns?
    ensures Keeps(call, Next(call, event)) && Back(call, Next(call, event))
  {
    hide OpenFallback, SendClear, Sound, Keeps, Back, Build;
    match event
    case FallbackOpens => FallbackOpensKeeps(call);
    case Clears => ClearKeeps(call);
    case Builds => BuildKeeps(call);
    case _ => PlainKeeps(call, event);
  }

  lemma BuildKeeps(call: Call)
    requires Sound(call) && Possible(call, Builds)
    ensures Keeps(call, Build(call)) && Back(call, Build(call))
  {
  }

  lemma FallbackOpensKeeps(call: Call)
    requires Sound(call) && Possible(call, FallbackOpens)
    ensures var next := OpenFallback(call.(fallbacks := call.fallbacks - 1)); Keeps(call, next) && Back(call, next)
  {
    hide OpenFallback;
    var fewer := call.(fallbacks := call.fallbacks - 1);
    assert Keeps(call, fewer);
    FallbackKeeps(fewer);
  }

  /** Steps that change only flags, counters and the speech task. */
  predicate Plain(event: Event) {
    || event.Queues? || event.GivesUp? || event.UserSpeaks? || event.UserPauses? || event.Interrupts?
    || event.GenerationEnds? || event.SpeechCut? || event.FrameOffered? || event.FrameDone?
  }

  lemma PlainKeeps(call: Call, event: Event)
    requires Sound(call) && Possible(call, event) && Plain(event)
    ensures Keeps(call, Next(call, event)) && Back(call, Next(call, event))
  {
    hide Keeps, Back, Sound;
    if event.SpeechCut? || event.FrameOffered? || event.FrameDone? {
      VoiceStepKeeps(call, event);
    } else {
      FlagStepKeeps(call, event);
    }
    hide Next;
  }

  /** The speech task may do what it likes while it is not waiting for its own end. */
  lemma VoiceKeeps(call: Call, voice: Voice)
    requires Sound(call) && SpeechRuns(call)
    requires (voice.active ==> call.voice.active) && (!voice.frame.NoFrame? ==> voice.active)
    requires voice.number == call.voice.number
    ensures Keeps(call, call.(voice := voice)) && Back(call, call.(voice := voice))
  {
    hide InTable;
  }

  lemma VoiceStepKeeps(call: Call, event: Event)
    requires Sound(call) && Possible(call, event) && (event.SpeechCut? || event.FrameOffered? || event.FrameDone?)
    ensures Keeps(call, Next(call, event)) && Back(call, Next(call, event))
  {
    hide Keeps, Back, Sound;
    VoiceKeeps(call, call.voice.(active := false, frame := NoFrame));
    ActiveVoice(call);
    VoiceKeeps(call, call.voice.(frame := Offered));
    VoiceKeeps(call, FrameOver(call.voice));
  }

  lemma ActiveVoice(call: Call)
    ensures SpeechRuns(call) ==> call.voice.active
  {
  }

  lemma FlagStepKeeps(call: Call, event: Event)
    requires Sound(call) && Possible(call, event) && Plain(event)
    requires !event.SpeechCut? && !event.FrameOffered? && !event.FrameDone?
    ensures Keeps(call, Next(call, event)) && Back(call, Next(call, event))
  {
    hide Keeps, Back, Sound, Contended;
    match event
    case Queues => NoteKeeps(call, call.waiters + 1, call.userSpeaking, call.systemSpeaking);
    case GivesUp => NoteKeeps(call, call.waiters - 1, call.userSpeaking, call.systemSpeaking);
    case UserSpeaks => NoteKeeps(call, call.waiters, true, call.systemSpeaking);
    case UserPauses => NoteKeeps(call, call.waiters, false, call.systemSpeaking);
    case Interrupts => NoteKeeps(call, call.waiters, false, false);
    case GenerationEnds => GenerationKeeps(call);
  }

  lemma NoteKeeps(call: Call, waiters: nat, user: bool, system: bool)
    requires Sound(call)
    ensures var next := call.(waiters := waiters, userSpeaking := user, systemSpeaking := system);
            Keeps(call, next) && Back(call, next)
  {
    hide InTable;
  }

  lemma GenerationKeeps(call: Call)
    requires Sound(call) && Possible(call, GenerationEnds)
    ensures Keeps(call, call.(generating := false)) && Back(call, call.(generating := false))
  {
    hide InTable;
  }

  // ------------------------------------------------------ whole calls

  lemma {:induction false} RunKeeps(calls: seq<Call>, schedule: seq<Event>, i: nat)
    requires IsRun(calls, schedule) && i < |calls|
    ensures Sound(calls[i])
    ensures i > 0 ==> Follows(calls[i - 1], calls[i])
  {
    hide Possible, Next, Sound;
    if i > 0 {
      RunKeeps(calls, schedule, i - 1);
      StepOf(calls, schedule, i - 1);
      if Possible(calls[i - 1], schedule[i - 1]) {
        StepKeeps(calls[i - 1], schedule[i - 1]);
      }
    } else {
      DialledIsSound();
    }
  }

  lemma DialledIsSound()
    ensures Sound(Dialled)
  {
  }

  /** Once ended, a call stays ended and begins to send nothing more, neither media nor a clear. */
  lemma {:induction false} EndedIsFinal(calls: seq<Call>, schedule: seq<Event>, i: nat, j: nat)
    requires IsRun(calls, schedule) && i <= j < |calls|
    requires calls[i].state.Ended?
    ensures calls[j].state.Ended? && calls[j].out == calls[i].out
    decreases j
  {
    hide Sound, IsRun;
    if i < j {
      EndedIsFinal(calls, schedule, i, j - 1);
      RunKeeps(calls, schedule, j);
    }
  }

  /** No `begin` ever finds a speech task running: replies, fallbacks and prompts are opened one at a time. */
  lemma BeginsNeverClash(calls: seq<Call>, schedule: seq<Event>, i: nat)
    requires IsRun(calls, schedule) && i < |calls|
    ensures calls[i].clashes == 0
  {
    RunKeeps(calls, schedule, i);
  }

  /** Steps that need no lock and leave it, and the state, alone. */
  predicate Aside(event: Event) {
    Plain(event) || event.Builds? || event.Clears? || event.Arrives? || event.LoopTakes? || event.LoopTurns?
  }

  predicate SameHold(before: Call, after: Call) {
    after.lock == before.lock && after.state == before.state && after.apologies == before.apologies
  }

  lemma AsideHolds(call: Call, event: Event)
    requires Possible(call, event) && Aside(event)
    ensures SameHold(call, Next(call, event))
  {
    hide Arrive, Turn, Contended, SpeechRuns, FrameOver;
    if Plain(event) {
      PlainHolds(call, event);
    } else {
      match event {
        case Builds =>
        case Clears =>
        case Arrives =>
        case LoopTakes =>
        case LoopTurns =>
      }
    }
  }

  lemma PlainHolds(call: Call, event: Event)
    requires Possible(call, event) && Plain(event)
    ensures SameHold(call, Next(call, event))
  {
    hide Contended, SpeechRuns, FrameOver;
  }

  /** Nobody but the holder changes the lock, and a holder that stops the speech only when that is over. */
  lemma HolderOnly(call: Call, event: Event)
    requires call.lock.Held?
    ensures || SameHold(call, Tick(call, event))
            || (Possible(call, event) && Releases(call.lock.holder, event)
                && (call.voice.active || call.clearing ==> call.lock.holder.Finalising? || call.lock.holder.Marking? || call.lock.holder.TearingDown?))
  {
    hide Next, SameHold;
    SameHoldItself(call);
    if Possible(call, event) && Aside(event) {
      AsideHolds(call, event);
    }
  }

  lemma SameHoldItself(call: Call)
    ensures SameHold(call, call)
  {
  }

  /** Nothing but clears has begun to be sent since. */
  predicate OnlyClears(before: seq<Out>, after: seq<Out>) {
    before <= after && forall k :: |before| <= k < |after| ==> after[k].Clear?
  }

  /** A barge-in lets nothing more of the reply it stops begin to be sent, up to the end of its speech task. */
  lemma {:induction false} BargeInSilencesReply(calls: seq<Call>, schedule: seq<Event>, i: nat, j: nat)
    requires IsRun(calls, schedule) && i <= j < |calls|
    requires calls[i].lock == Held(BargingIn)
    requires forall m :: i <= m < j ==> calls[m].voice.active
    ensures OnlyClears(calls[i].out, calls[j].out) && calls[j].lock == Held(BargingIn)
    ensures !calls[j].voice.active ==> calls[j].voice.frame.NoFrame?
    decreases j
  {
    hide Next, Possible;
    RunKeeps(calls, schedule, j);
    if i < j {
      BargeInSilencesReply(calls, schedule, i, j - 1);
      RunKeeps(calls, schedule, j - 1);
      StepOf(calls, schedule, j - 1);
      HolderOnly(calls[j - 1], schedule[j - 1]);
    }
  }

  /** Once the call is set up, streaming is a trap: it only ends with the call. */
  lemma {:induction false} StreamingIsATrap(calls: seq<Call>, schedule: seq<Event>, i: nat, j: nat)
    requires IsRun(calls, schedule) && i <= j < |calls|
    requires calls[i].setup.Started? && calls[i].state.Streaming?
    ensures calls[j].setup.Started? && (calls[j].state.Streaming? || calls[j].state.Ended?)
    decreases j
  {
    hide IsRun, Sound;
    if i < j {
      StreamingIsATrap(calls, schedule, i, j - 1);
      RunKeeps(calls, schedule, j);
    }
  }

  /** While outbound audio is muted no media message begins, however many checks a frame had passed. */
  lemma {:induction false} SilentWhileMuted(calls: seq<Call>, schedule: seq<Event>, i: nat, j: nat)
    requires IsRun(calls, schedule) && i <= j < |calls|
    requires forall m :: i <= m < j ==> calls[m].outboundMuted
    ensures OnlyClears(calls[i].out, calls[j].out)
    decreases j
  {
    hide IsRun, Sound;
    if i < j {
      SilentWhileMuted(calls, schedule, i, j - 1);
      RunKeeps(calls, schedule, j);
    }
  }

  /** A step that takes audio in while the call is listening. */
  predicate HearsWhileListening(call: Call, event: Event) {
    GetsLock(call) && call.state.Listening? && event.Audio? && event.pcm != []
  }

  /** The ways into PROCESSING and, once set up, into STREAMING. */
  lemma WaysIn(call: Call, event: Event)
    requires Sound(call)
    ensures !call.state.Processing? && Tick(call, event).state.Processing?
            <==> event.TurnCompletes? && call.state.Listening? && GetsLock(call) && !call.opening
    ensures call.setup.Started? ==>
              (!call.state.Streaming? && Tick(call, event).state.Streaming? <==> HearsWhileListening(call, event))
  {
    hide Next, HolderFits;
    if Possible(call, event) {
      StateAfter(call, event);
      EarlySetup(call, event);
      hide Possible, SetupFits;
      if !Forward(event) {
        hide ForwardTo;
      }
    }
    hide InTable;
  }

  /** Where the forward events lead. */
  function ForwardTo(state: State, event: Event): State {
    match event
    case Joins => Tried(state, Connected)
    case Listens => Tried(state, Listening)
    case TurnCompletes => if state.Listening? then Processing else state
    case Segment => if state.Processing? then Speaking else state
    case Audio(pcm) => if pcm != [] && (state.Connected? || state.Listening?) then Streaming else state
    case Stops => Ended
    case _ => state
  }

  lemma StateAfter(call: Call, event: Event)
    requires Sound(call) && Possible(call, event)
    ensures if Forward(event) then Next(call, event).state == ForwardTo(call.state, event)
            else Back(call, Next(call, event))
  {
    hide Next, Keeps, Sound, Possible, Tried, Back;
    StepKeeps(call, event);
    if Forward(event) {
      match event {
        case Joins => NextJoins(call);
        case Listens => NextListens(call);
        case TurnCompletes => NextTurnCompletes(call);
        case Segment => NextSegmentIs(call);
        case Audio(pcm) => NextAudio(call, pcm);
        case Stops => NextStops(call);
      }
    }
  }

  /** What these events need of the call. */
  lemma EarlySetup(call: Call, event: Event)
    requires Sound(call) && Possible(call, event)
    ensures event.TurnCompletes? ==> GetsLock(call) && !call.opening
    ensures event.Audio? ==> GetsLock(call)
    ensures call.setup.Started? ==> !event.Joins? && !event.Listens? && !call.state.Connected?
  {
    hide HolderFits;
  }

  lemma NextJoins(call: Call)
    requires Possible(call, Joins)
    ensures Next(call, Joins).state == Tried(call.state, Connected)
  {
  }

  lemma NextListens(call: Call)
    requires Possible(call, Listens)
    ensures Next(call, Listens).state == Tried(call.state, Listening)
  {
  }

  lemma NextTurnCompletes(call: Call)
    requires Possible(call, TurnCompletes)
    ensures Next(call, TurnCompletes).state == if call.state.Listening? then Processing else call.state
  {
  }

  lemma NextSegmentIs(call: Call)
    requires Possible(call, Segment)
    ensures Next(call, Segment).state == if call.state.Processing? then Speaking else call.state
  {
  }

  lemma NextAudio(call: Call, pcm: seq<byte>)
    requires Possible(call, Audio(pcm))
    ensures Next(call, Audio(pcm)).state
            == if pcm != [] && (call.state.Connected? || call.state.Listening?) then Streaming else call.state
  {
    assert Next(call, Audio(pcm)) == Hear(Asked(call), pcm);
    hide Next;
  }

  lemma NextStops(call: Call)
    requires Possible(call, Stops)
    ensures Next(call, Stops).state == Ended
  {
    StopEnds(Asked(call));
    hide Stop;
  }

  lemma StopEnds(call: Call)
    ensures Stop(call).state.Ended?
  {
    hide NoEars;
    if !call.state.Ended? {
      if call.consumers && call.voice.active {
      }
    }
  }

  /** A completed turn of the caller is processed if and only if the call is listening when the lock is got. */
  lemma ProcessedIffListening(calls: seq<Call>, schedule: seq<Event>, i: nat)
    requires IsRun(calls, schedule) && i < |schedule|
    ensures !calls[i].state.Processing? && calls[i + 1].state.Processing?
            <==> schedule[i].TurnCompletes? && calls[i].state.Listening? && GetsLock(calls[i]) && !calls[i].opening
  {
    RunKeeps(calls, schedule, i);
    StepOf(calls, schedule, i);
    WaysIn(calls[i], schedule[i]);
    hide *;
  }

  /**
   From the end of `start` on, a call that has not ended is streaming exactly if it took in audio
   while it was listening, whatever else happened.
   */
  lemma {:induction false} StreamingIffHeard(calls: seq<Call>, schedule: seq<Event>, start: nat, j: nat)
    requires IsRun(calls, schedule) && start <= j < |calls|
    requires calls[start].setup.Started? && !calls[start].state.Streaming?
    ensures calls[j].state.Streaming?
            <==> !calls[j].state.Ended? && exists i :: start <= i < j && HearsWhileListening(calls[i], schedule[i])
    decreases j
  {
    hide HearsWhileListening, IsRun;
    if start < j {
      StreamingIffHeard(calls, schedule, start, j - 1);
      LateStep(calls, schedule, start, j);
      if exists i :: start <= i < j - 1 && HearsWhileListening(calls[i], schedule[i]) {
        var i :| start <= i < j - 1 && HearsWhileListening(calls[i], schedule[i]);
        assert start <= i < j;
      }
    }
  }

  /** So after the first audio that a listening call takes in, no turn is processed any more. */
  lemma AudioEndsTheTurns(calls: seq<Call>, schedule: seq<Event>, i: nat, j: nat)
    requires IsRun(calls, schedule) && i < j < |calls|
    requires calls[i].setup.Started? && HearsWhileListening(calls[i], schedule[i])
    ensures calls[j].state.Streaming? || calls[j].state.Ended?
  {
    hide IsRun;
    StreamingIffHeard(calls, schedule, i, j);
  }

  /** A caller who speaks as soon as the call listens, and completes a turn, is not answered. */
  lemma SpokenTurnUnanswered(calls: seq<Call>)
    requires IsRun(calls, [Builds, Joins, Listens, Audio([0, 0]), TurnCompletes])
    ensures calls[3].state.Listening? && calls[4].state.Streaming? && calls[5].state.Streaming?
  {
    var schedule := [Builds, Joins, Listens, Audio([0, 0]), TurnCompletes];
    SetUp(calls, schedule);
    StepOf(calls, schedule, 3);
    StepOf(calls, schedule, 4);
    hide IsRun;
    NextAudio(calls[3], [0, 0]);
    assert Possible(calls[4], TurnCompletes) ==> Next(calls[4], TurnCompletes).state == calls[4].state;
  }

  const BUILT: Call :=
    Dialled.(setup := Built, canSend := true, consumers := true, ears := Ears(true, 0, 0, 0, true, Working))

  const LISTENING: Call := BUILT.(state := Listening, setup := Started)

  /** The three steps of `start`. */
  lemma SetUpSteps()
    ensures Tick(Dialled, Builds) == BUILT
    ensures Tick(BUILT, Joins) == BUILT.(state := Connected, setup := Joined)
    ensures Tick(BUILT.(state := Connected, setup := Joined), Listens) == LISTENING
  {
    hide Tick;
    BuildStep();
    JoinStep();
    ListenStep();
  }

  lemma BuildStep()
    ensures Tick(Dialled, Builds) == BUILT
  {
  }

  lemma JoinStep()
    ensures Tick(BUILT, Joins) == BUILT.(state := Connected, setup := Joined)
  {
  }

  lemma ListenStep()
    ensures Tick(BUILT.(state := Connected, setup := Joined), Listens) == LISTENING
  {
  }

  /** A call that only gets set up is listening. */
  lemma SetUp(calls: seq<Call>, schedule: seq<Event>)
    requires IsRun(calls, schedule) && |schedule| >= 3 && schedule[..3] == [Builds, Joins, Listens]
    ensures calls[3] == LISTENING
  {
    assert schedule[0] == schedule[..3][0] && schedule[1] == schedule[..3][1] && schedule[2] == schedule[..3][2];
    StepOf(calls, schedule, 0);
    StepOf(calls, schedule, 1);
    StepOf(calls, schedule, 2);
    SetUpSteps();
    hide IsRun, Tick;
  }

  lemma LateStep(calls: seq<Call>, schedule: seq<Event>, start: nat, j: nat)
    requires IsRun(calls, schedule) && start < j < |calls| && calls[start].setup.Started?
    ensures j - 1 < |schedule|
    ensures calls[j - 1].state.Ended? ==> calls[j].state.Ended?
    ensures calls[j - 1].state.Streaming? ==> calls[j].state.Streaming? || calls[j].state.Ended?
    ensures !calls[j - 1].state.Streaming? ==>
              (calls[j].state.Streaming? <==> HearsWhileListening(calls[j - 1], schedule[j - 1]))
    ensures HearsWhileListening(calls[j - 1], schedule[j - 1]) ==> calls[j].state.Streaming?
  {
    hide Possible, Next, Sound, HolderFits, GetsLock;
    RunKeeps(calls, schedule, j - 1);
    RunKeeps(calls, schedule, j);
    StartedStays(calls, schedule, start, j - 1);
    StepOf(calls, schedule, j - 1);
    WaysIn(calls[j - 1], schedule[j - 1]);
    hide IsRun, Tick;
  }

  lemma {:induction false} StartedStays(calls: seq<Call>, schedule: seq<Event>, i: nat, j: nat)
    requires IsRun(calls, schedule) && i <= j < |calls| && calls[i].setup.Started?
    ensures calls[j].setup.Started?
    decreases j
  {
    hide IsRun, Sound;
    if i < j {
      StartedStays(calls, schedule, i, j - 1);
      RunKeeps(calls, schedule, j);
    }
  }
}
