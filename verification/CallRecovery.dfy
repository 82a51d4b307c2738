/** What a recovery from a failure of a phone call comes to, and concrete calls. */
module CallRecovery {
  import Pcm16
  import opened Text
  import opened CallSteps
  import opened CallSafety
  import opened CallLock

  // ------------------------------------------------------ what a recovery comes to

  /** Whether a recovery brings the call back: it must not run in a task that it has to wait for, or be cancelled in. */
  predicate Recovers(call: Call, origin: Origin) {
    origin.Elsewhere? || !call.voice.active
  }

  /** Whether it goes on to the fallback message: in the generation's own task only if nobody waits for the lock. */
  predicate Apologises(call: Call, origin: Origin) {
    origin.Elsewhere? || (!call.voice.active && !Contended(Asked(call)))
  }

  lemma RecoverOutcome(call: Call, origin: Origin)
    requires !call.voice.active && InReply(call.state)
    ensures var after := Recover(call, origin);
            && after.state.Listening?
            && after.apologies == call.apologies + if !origin.Generation? || !Contended(call) then 1 else 0
  {
    assert BackToListening(call.state).Listening?;
    hide BackToListening, ToFallback;
    var over := if origin.Generation? then Calmed(call).(generating := false) else Calmed(call);
    assert over.state.Listening? && over.apologies == call.apologies && Contended(over) == Contended(call);
    hide Contended, Calmed, InReply;
    ToFallbackCounts(over, origin);
  }

  lemma ToFallbackCounts(call: Call, origin: Origin)
    ensures var after := ToFallback(call, origin);
            && after.state == call.state
            && after.apologies == call.apologies + if !origin.Generation? || !Contended(call) then 1 else 0
  {
    hide OpenFallback;
    FallbackCounts(call.(apologies := call.apologies + 1));
    if Contended(call) {
      if origin.Generation? {
      }
    }
  }

  lemma FallbackCounts(call: Call)
    ensures OpenFallback(call).state == call.state && OpenFallback(call).apologies == call.apologies
  {
    if !call.state.Ended? && call.consumers {
      if call.voice.active {
      }
    }
  }

  /** While a recovery keeps the lock, the call stays as it is. */
  lemma {:induction false} WhileRecovering(calls: seq<Call>, schedule: seq<Event>, i: nat, j: nat, origin: Origin)
    requires IsRun(calls, schedule) && i <= j < |calls|
    requires calls[i].lock == Held(Recovering(origin))
    requires forall m :: i <= m <= j ==> !calls[m].lock.Free?
    ensures SameHold(calls[i], calls[j])
    decreases j
  {
    hide Follows, Sound, Next, Possible;
    if i < j {
      WhileRecovering(calls, schedule, i, j - 1, origin);
      RunKeeps(calls, schedule, j - 1);
      StepOf(calls, schedule, j - 1);
      HolderOnly(calls[j - 1], schedule[j - 1]);
      RecoveredFrees(calls[j - 1], schedule[j - 1]);
      hide IsRun;
    }
  }

  lemma RecoveredFrees(call: Call, event: Event)
    requires Sound(call)
    ensures call.lock.Held? && event.Recovered? && Possible(call, event) ==> Next(call, event).lock.Free?
  {
    hide Next;
    if call.lock.Held? && event.Recovered? && Possible(call, event) {
      ReleasedLock(call, event);
    }
  }

  /**
   A failure during a reply whose recovery gets the lock at step i and gives it back at step j:
   the call is back to LISTENING if and only if the recovery runs neither in the newest
   generation's own task nor in the speech task, or no speech task is active; else it stays in the
   reply. And it goes on to the fallback message exactly under the stricter condition.
   */
  lemma RecoveryOutcome(calls: seq<Call>, schedule: seq<Event>, i: nat, j: nat, origin: Origin)
    requires IsRun(calls, schedule) && i < j < |calls|
    requires schedule[i] == Fails(origin) && Possible(calls[i], Fails(origin)) && InReply(calls[i].state)
    requires calls[j].lock.Free? && forall m :: i < m < j ==> !calls[m].lock.Free?
    ensures calls[j].state == if Recovers(calls[i], origin) then Listening else calls[i].state
    ensures calls[j].apologies == calls[i].apologies + if Apologises(calls[i], origin) then 1 else 0
  {
    hide Next, Recover, HolderFits, SetupFits;
    RunKeeps(calls, schedule, i);
    StepOf(calls, schedule, i);
    FailOutcome(calls[i], origin);
    hide IsRun;
    if calls[i].voice.active {
      WhileRecovering(calls, schedule, i + 1, j - 1, origin);
      RunKeeps(calls, schedule, j - 1);
      StepOf(calls, schedule, j - 1);
      HolderOnly(calls[j - 1], schedule[j - 1]);
      RecoveredOutcome(calls[j - 1], origin);
    }
  }

  lemma FailOutcome(call: Call, origin: Origin)
    requires Sound(call) && Possible(call, Fails(origin)) && InReply(call.state)
    ensures var after := Next(call, Fails(origin));
            if call.voice.active then
              after.lock == Held(Recovering(origin)) && after.state == call.state && after.apologies == call.apologies
            else
              && after.lock.Free? && after.state.Listening?
              && after.apologies == call.apologies + if Apologises(call, origin) then 1 else 0
  {
    hide Recover;
    if !call.voice.active {
      RecoverFrees(Asked(call), origin);
      RecoverOutcome(Asked(call), origin);
    }
  }

  lemma RecoveredOutcome(call: Call, origin: Origin)
    requires Sound(call) && call.lock == Held(Recovering(origin)) && InReply(call.state)
    ensures Possible(call, Recovered) ==>
              var after := Next(call, Recovered);
              && !origin.Speech?
              && after.state == (if origin.Elsewhere? then Listening else call.state)
              && after.apologies == call.apologies + if origin.Elsewhere? then 1 else 0
  {
    hide Recover;
    if !call.voice.active {
      RecoverOutcome(call, origin);
    }
  }

  // ------------------------------------------------------ concrete calls

  const IN_REPLY: Call := LISTENING.(
    state := Processing, systemSpeaking := true, voice := Voice(true, NoFrame, 1, false), generating := true)

  /** A call that listens, completes a turn and opens the reply. */
  lemma ReplyIsOpen(calls: seq<Call>, schedule: seq<Event>)
    requires IsRun(calls, schedule) && |schedule| >= 5
    requires schedule[..5] == [Builds, Joins, Listens, TurnCompletes, ReplyOpens]
    ensures calls[5] == IN_REPLY
  {
    assert schedule[3] == schedule[..5][3] && schedule[4] == schedule[..5][4];
    assert schedule[..3] == schedule[..5][..3];
    SetUp(calls, schedule);
    StepOf(calls, schedule, 3);
    StepOf(calls, schedule, 4);
    hide IsRun, Tick;
    TurnIsProcessed();
    ReplyOpensThen();
  }

  lemma TurnIsProcessed()
    ensures Tick(LISTENING, TurnCompletes) == LISTENING.(state := Processing, opening := true)
  {
  }

  lemma ReplyOpensThen()
    ensures Tick(LISTENING.(state := Processing, opening := true), ReplyOpens) == IN_REPLY
  {
  }

  /** A generation that fails while its reply is spoken leaves the call in the reply, with no message to come. */
  lemma FailedGenerationLeavesProcessing(calls: seq<Call>)
    requires IsRun(calls, [Builds, Joins, Listens, TurnCompletes, ReplyOpens, Fails(Generation), SpeechCut, Recovered])
    ensures calls[8].state.Processing? && calls[8].lock.Free? && calls[8].apologies == 0
  {
    var schedule := [Builds, Joins, Listens, TurnCompletes, ReplyOpens, Fails(Generation), SpeechCut, Recovered];
    ReplyIsOpen(calls, schedule);
    StepOf(calls, schedule, 5);
    StepOf(calls, schedule, 6);
    StepOf(calls, schedule, 7);
    hide IsRun, Tick;
    GenerationFails();
    RecoveryIsCancelled();
  }

  lemma GenerationFails()
    ensures Tick(IN_REPLY, Fails(Generation)) == IN_REPLY.(lock := Held(Recovering(Generation)))
    ensures Tick(IN_REPLY.(lock := Held(Recovering(Generation))), SpeechCut)
            == IN_REPLY.(lock := Held(Recovering(Generation)), voice := Voice(false, NoFrame, 1, false))
  {
    hide Recover;
  }

  lemma RecoveryIsCancelled()
    ensures Tick(IN_REPLY.(lock := Held(Recovering(Generation)), voice := Voice(false, NoFrame, 1, false)), Recovered)
            == IN_REPLY.(voice := Voice(false, NoFrame, 1, false), generating := false)
  {
    hide Recover;
  }

  /** If the speech has failed before, the same failure brings the call back and the message is spoken. */
  lemma FailedSpeechLetsItRecover(calls: seq<Call>)
    requires IsRun(calls, [Builds, Joins, Listens, TurnCompletes, ReplyOpens, SpeechCut, Fails(Generation)])
    ensures calls[7].state.Listening? && calls[7].apologies == 1 && calls[7].voice.active
  {
    var schedule := [Builds, Joins, Listens, TurnCompletes, ReplyOpens, SpeechCut, Fails(Generation)];
    ReplyIsOpen(calls, schedule);
    StepOf(calls, schedule, 5);
    StepOf(calls, schedule, 6);
    hide IsRun, Tick;
    SpeechIsOver();
    GenerationFailsThen();
  }

  const UNSPOKEN: Call := IN_REPLY.(voice := Voice(false, NoFrame, 1, false))

  lemma SpeechIsOver()
    ensures Tick(IN_REPLY, SpeechCut) == UNSPOKEN
  {
  }

  lemma GenerationFailsThen()
    ensures var after := Tick(UNSPOKEN, Fails(Generation));
            after.state.Listening? && after.apologies == 1 && after.voice.active
  {
    hide ToFallback, Calmed;
    BackAndQuiet();
    FallbackOpensAtOnce(Calmed(UNSPOKEN).(generating := false));
  }

  lemma BackAndQuiet()
    ensures Asked(UNSPOKEN) == UNSPOKEN
    ensures Calmed(UNSPOKEN) == UNSPOKEN.(state := Listening, systemSpeaking := false)
  {
  }

  lemma FallbackOpensAtOnce(call: Call)
    requires !Contended(call) && call.state.Listening? && call.consumers && !call.voice.active && call.apologies == 0
    ensures var after := ToFallback(call, Generation);
            after.state.Listening? && after.apologies == 1 && after.voice.active
  {
  }

  lemma FrameGoesOut(calls: seq<Call>, schedule: seq<Event>)
    requires IsRun(calls, schedule) && |schedule| >= 8
    requires schedule[..5] == [Builds, Joins, Listens, TurnCompletes, ReplyOpens]
    requires schedule[5] == FrameOffered && schedule[6] == FrameChecked && schedule[7] == FrameSent
    ensures calls[8] == IN_REPLY.(voice := Voice(true, Sending, 1, false), out := [Media(1)])
  {
    ReplyIsOpen(calls, schedule);
    StepOf(calls, schedule, 5);
    StepOf(calls, schedule, 6);
    StepOf(calls, schedule, 7);
    hide IsRun, Tick;
    FrameIsOffered();
    FrameIsChecked();
    FrameIsSent();
  }

  lemma FrameIsOffered()
    ensures Tick(IN_REPLY, FrameOffered) == IN_REPLY.(voice := Voice(true, Offered, 1, false))
  {
  }

  lemma FrameIsChecked()
    ensures Tick(IN_REPLY.(voice := Voice(true, Offered, 1, false)), FrameChecked)
            == IN_REPLY.(voice := Voice(true, Checked, 1, false))
  {
  }

  lemma FrameIsSent()
    ensures Tick(IN_REPLY.(voice := Voice(true, Checked, 1, false)), FrameSent)
            == IN_REPLY.(voice := Voice(true, Sending, 1, false), out := [Media(1)])
  {
    assert [] + [Media(1)] == [Media(1)];
  }

  /** A send to the caller that fails keeps the lock for ever. */
  lemma FailedSendIsStuck(calls: seq<Call>)
    requires IsRun(calls, [Builds, Joins, Listens, TurnCompletes, ReplyOpens, FrameOffered, FrameChecked, FrameSent,
                           Fails(Speech)])
    ensures Stuck(calls[9])
  {
    var schedule := [Builds, Joins, Listens, TurnCompletes, ReplyOpens, FrameOffered, FrameChecked, FrameSent,
                     Fails(Speech)];
    FrameGoesOut(calls, schedule);
    StepOf(calls, schedule, 8);
    hide IsRun, Tick;
    SendFails();
  }

  lemma SendFails()
    ensures Stuck(Tick(IN_REPLY.(voice := Voice(true, Sending, 1, false), out := [Media(1)]), Fails(Speech)))
  {
  }

  /** So does hanging up while the recogniser still has words. */
  lemma LastWordsAreStuck(calls: seq<Call>)
    requires IsRun(calls, [Builds, Joins, Listens, Stops, Flushes(Final("a"))])
    ensures Stuck(calls[5]) && calls[5].state.Ended?
  {
    var schedule := [Builds, Joins, Listens, Stops, Flushes(Final("a"))];
    SetUp(calls, schedule);
    StepOf(calls, schedule, 3);
    StepOf(calls, schedule, 4);
    hide IsRun, Tick;
    HungUpListening();
    LastWordsWait("a");
  }

  const HUNG_UP: Call := LISTENING.(
    state := Ended, canSend := false, outboundMuted := true, lock := Held(Finalising),
    ears := Ears(true, 0, 0, 0, false, Working))

  lemma HungUpListening()
    ensures Tick(LISTENING, Stops) == HUNG_UP
  {
  }

  lemma LastWordsWait(words: string)
    requires words == "a"
    ensures Tick(HUNG_UP, Flushes(Final(words))) == HUNG_UP.(lock := Held(Flushing))
  {
    assert !IsSpace(words[0]);
    assert HasText(words);
    hide HasText;
  }

  // ------------------------------------------------------ hanging up on a full queue

  lemma {:induction false} AfterAllThen(call: Call, first: seq<Event>, later: seq<Event>)
    ensures AfterAll(call, first + later) == AfterAll(AfterAll(call, first), later)
    decreases |first|
  {
    hide Tick;
    if first == [] {
      assert first + later == later;
    } else {
      AfterAllThen(Tick(call, first[0]), first[1..], later);
      assert (first + later)[1..] == first[1..] + later;
    }
  }

  function Arrivals(n: nat): (events: seq<Event>)
    ensures |events| == n
  {
    if n == 0 then [] else [Arrives] + Arrivals(n - 1)
  }

  lemma ArriveStep(call: Call)
    requires call.ears.arriving > 0
    ensures Tick(call, Arrives) == call.(ears := Arrive(call.ears))
  {
  }

  lemma {:induction false} QueueFills(call: Call, n: nat)
    requires call.ears.arriving >= n && call.ears.backlog + n <= STT_QUEUE_SIZE
    ensures AfterAll(call, Arrivals(n))
            == call.(ears := call.ears.(arriving := call.ears.arriving - n, backlog := call.ears.backlog + n))
    decreases n
  {
    hide Tick;
    if n > 0 {
      ArriveStep(call);
      assert Arrivals(n)[1..] == Arrivals(n - 1);
      QueueFills(Tick(call, Arrives), n - 1);
    }
  }

  /** A second of audio arrives while the recogniser is at its first frame, and then the caller hangs up. */
  lemma FullQueueIsStuck(pcm: seq<Pcm16.byte>)
    requires |pcm| == 51 * PCM_FRAME_BYTES
    ensures var call := AfterAll(Dialled, [Builds, Joins, Listens] + [Audio(pcm), Arrives, LoopTurns] + Arrivals(50) + [Stops]);
            Stuck(call) && call.lock == Held(Finalising)
  {
    SetUpAll();
    FirstFrameTaken(pcm);
    AfterAllThen(Dialled, [Builds, Joins, Listens], [Audio(pcm), Arrives, LoopTurns]);
    AfterAllThen(Dialled, [Builds, Joins, Listens] + [Audio(pcm), Arrives, LoopTurns], Arrivals(50));
    AfterAllThen(Dialled, [Builds, Joins, Listens] + [Audio(pcm), Arrives, LoopTurns] + Arrivals(50), [Stops]);
    var heard := LISTENING.(state := Streaming, ears := Ears(true, 0, 50, 0, true, Working));
    QueueFills(heard, 50);
    var full := AfterAll(heard, Arrivals(50));
    hide AfterAll, Arrivals;
    OneEvent(full, Stops);
    HangsUp(full);
  }

  lemma SetUpAll()
    ensures AfterAll(Dialled, [Builds, Joins, Listens]) == LISTENING
  {
    hide Tick;
    SetUpSteps();
    AfterThree(Dialled, Builds, Joins, Listens);
  }

  lemma FirstFrameTaken(pcm: seq<Pcm16.byte>)
    requires |pcm| == 51 * PCM_FRAME_BYTES
    ensures AfterAll(LISTENING, [Audio(pcm), Arrives, LoopTurns])
            == LISTENING.(state := Streaming, ears := Ears(true, 0, 50, 0, true, Working))
  {
    var heard := LISTENING.(state := Streaming, ears := Ears(true, 0, 51, 0, true, Working));
    HeardAll(pcm);
    ArriveStep(heard);
    TurnStep(heard.(ears := Arrive(heard.ears)));
    hide Tick;
    AfterThree(LISTENING, Audio(pcm), Arrives, LoopTurns);
  }

  lemma HeardAll(pcm: seq<Pcm16.byte>)
    requires |pcm| == 51 * PCM_FRAME_BYTES
    ensures Tick(LISTENING, Audio(pcm)) == LISTENING.(state := Streaming, ears := Ears(true, 0, 51, 0, true, Working))
  {
  }

  lemma TurnStep(call: Call)
    requires call.ears.loop.Working?
    ensures Tick(call, LoopTurns) == call.(ears := Turn(call.ears))
  {
  }

  lemma OneEvent(call: Call, event: Event)
    ensures AfterAll(call, [event]) == Tick(call, event)
  {
    hide Tick;
    assert [event][1..] == [];
  }

  lemma AfterThree(call: Call, a: Event, b: Event, c: Event)
    ensures AfterAll(call, [a, b, c]) == Tick(Tick(Tick(call, a), b), c)
  {
    hide Tick;
    assert [a, b, c][1..] == [b, c] && [b, c][1..] == [c];
    assert AfterAll(call, [a, b, c]) == AfterAll(Tick(call, a), [b, c]);
    assert AfterAll(Tick(call, a), [b, c]) == AfterAll(Tick(Tick(call, a), b), [c]);
    OneEvent(Tick(Tick(call, a), b), c);
  }

  lemma HangsUp(call: Call)
    requires call == LISTENING.(state := Streaming, ears := Ears(true, 0, 0, 50, true, Working))
    ensures Stuck(Tick(call, Stops)) && Tick(call, Stops).lock == Held(Finalising)
  {
    assert call.lock.Free? && !Contended(call);
    assert Possible(call, Stops);
    assert Tick(call, Stops) == Stop(Asked(call));
    assert Tick(call, Stops).ears == Ears(true, 0, 0, 50, false, Working);
  }
}
