/** With held turns, a session can open two replies at once: exactly then. */
module SessionOverlap {
  import opened Sequences
  import opened ReplySystem
  import opened OutputTrace
  import opened ReplyWitnesses
  import opened SessionReplies
  import L = LlmGeneration

  // ------------------------------------------------------ stepping through a session

  /** One more step of a session that holds turns. */
  lemma Walk(steps: seq<Step>, step: Step) returns (longer: seq<Step>)
    requires CanStep(Played(steps, true), step)
    ensures longer == steps + [step]
    ensures Played(longer, true) == After1(Played(steps, true), step, true)
  {
    hide CanStep, After1;
    longer := steps + [step];
    assert longer[..|steps|] == steps;
  }

  lemma {:induction false} RunSplit(s: System, a: seq<Action>, b: seq<Action>)
    requires IsRun(s, a + b)
    ensures IsRun(s, a) && IsRun(After(s, a), b) && After(s, a + b) == After(After(s, a), b)
    decreases |a|
  {
    hide Act, Possible;
    if a == [] {
      assert a + b == b;
    } else {
      assert (a + b)[1..] == a[1..] + b;
      RunSplit(Act(s, a[0]), a[1..], b);
    }
  }

  /** The tasks of the reply side go on within a session. */
  lemma {:induction false} WalkInner(steps: seq<Step>, more: seq<Action>) returns (longer: seq<Step>)
    requires var s := Played(steps, true); IsRun(s.replies, more)
    requires forall i :: 0 <= i < |more| ==> more[i].SpeechStep? || more[i].GenerationStep?
    ensures var s := Played(steps, true);
            Played(longer, true) == s.(replies := After(s.replies, more), actions := s.actions + more)
    decreases |more|
  {
    hide Act, Possible, Played;
    var s := Played(steps, true);
    if more == [] {
      longer := steps;
      assert s.actions + more == s.actions;
    } else {
      assert CanStep(s, Inner(more[0]));
      longer := Walk(steps, Inner(more[0]));
      assert s.actions + more == (s.actions + [more[0]]) + more[1..];
      longer := WalkInner(longer, more[1..]);
    }
  }

  /** A session follows the reply side's own run, from one run to a longer one. */
  lemma Follow(steps: seq<Step>, longerRun: seq<Action>) returns (longer: seq<Step>)
    requires var s := Played(steps, true);
             Tracked(s) && IsRun(INITIAL, longerRun) && GoesOn(s.actions, longerRun)
    ensures var s := Played(steps, true);
            Played(longer, true) == s.(replies := After(INITIAL, longerRun), actions := longerRun)
  {
    var s := Played(steps, true);
    var more := longerRun[|s.actions|..];
    assert longerRun == s.actions + more;
    RunSplit(INITIAL, s.actions, more);
    hide IsRun, After, Played;
    longer := WalkInner(steps, more);
  }

  lemma {:induction false} OpensOverCounts(s: System, actions: seq<Action>, a: Action)
    requires IsRun(s, actions) && Possible(After(s, actions), a) && OpensOver(After(s, actions), a)
    ensures IsRun(s, actions + [a]) && !NeverOpensOver(s, actions + [a])
    decreases |actions|
  {
    hide Act, Possible, OpensOver;
    if actions == [] {
      assert [] + [a] == [a];
    } else {
      OpensOverCounts(Act(s, actions[0]), actions[1..], a);
      assert (actions + [a])[1..] == actions[1..] + [a];
    }
  }

  lemma TrackedAt(steps: seq<Step>)
    ensures Tracked(Played(steps, true))
  {
    SessionFits(steps, true);
    hide Tracked, Played;
  }

  // ------------------------------------------------------ a session in which two replies open

  /** A first reply is being spoken; its first frame is out. */
  lemma FirstReplySpeaks() returns (steps: seq<Step>)
    ensures var s := Played(steps, true);
            && s.systemSpeaking && !s.audioBusy && !s.held && s.timersFired == 0 && s.transcripts.Idle?
            && |s.replies.replies| == 1 && s.replies.replies[0].speech == ReplySystem.Speech.Speech(Synthesise, false, 1)
            && s.replies.calls == map[] && s.replies.audioSent
  {
    steps := FirstReplyOpens();
    var s := Played(steps, true);
    TrackedAt(steps);
    hide Played, IsRun, After;
    var run := SpeakALine(s.actions, 0);
    var played := Follow(steps, run);
    steps := played;
    TrackedAt(steps);
    run := OneFrame(run, 0);
    steps := Follow(steps, run);
  }

  lemma FirstReplyOpens() returns (steps: seq<Step>)
    ensures var s := Played(steps, true);
            && s.systemSpeaking && !s.audioBusy && !s.held && s.timersFired == 0 && s.transcripts.Idle?
            && s.replies == System([Reply(ReplySystem.Speech.Speech(NotStarted, false, 0), L.CREATED, [], [])], map[], false, [])
  {
    steps := Walk([], FinalTranscript(false, false));
    assert INITIAL.calls - {0} == map[];
  }

  /** One reply, whose speech task has been told to stop, and the calls that wait for it. */
  predicate Stopping(s: Session, calls: map<nat, Call>) {
    && |s.replies.replies| == 1 && s.replies.replies[0].speech == ReplySystem.Speech.Speech(Synthesise, true, 1)
    && s.replies.calls == calls && s.replies.audioSent && !s.userSpeaking && s.audioBusy
  }

  const AUDIO_WAITS: map<nat, Call> := map[1 := Waiting(BargeIn, 0, true)]
  const TIMER_WAITS: map<nat, Call> := AUDIO_WAITS[2 := Waiting(NewReply, 0, true)]

  /** The caller speaks over the reply: the audio task waits for it to stop. */
  lemma AudioInterrupts() returns (steps: seq<Step>)
    ensures var s := Played(steps, true);
            Stopping(s, AUDIO_WAITS) && !s.systemSpeaking && !s.held && s.timersFired == 0 && s.transcripts.Idle?
  {
    steps := FirstReplySpeaks();
    hide Played;
    steps := Walk(steps, Step.Speech);
  }

  /** An unfinished turn is held meanwhile. */
  lemma TurnIsHeld() returns (steps: seq<Step>)
    ensures var s := Played(steps, true);
            Stopping(s, AUDIO_WAITS) && !s.systemSpeaking && s.held && s.holdTimer && s.timersFired == 0 && s.transcripts.Idle?
  {
    steps := AudioInterrupts();
    hide Played;
    steps := Walk(steps, FinalTranscript(false, true));
    steps := Walk(steps, HeldSent);
  }

  /** Its timer fires: the reply's `begin` waits too. */
  lemma TimerWaits() returns (steps: seq<Step>)
    ensures var s := Played(steps, true);
            Stopping(s, TIMER_WAITS) && s.systemSpeaking && !s.held && s.timersFired == 1 && s.transcripts.Idle?
  {
    steps := TurnIsHeld();
    hide Played;
    steps := Walk(steps, TimerFires);
  }

  /** The speech task is over, and so is everyone's wait for it. */
  predicate Over(s: Session, calls: map<nat, Call>) {
    && |s.replies.replies| == 1 && s.replies.replies[0].speech.phase == SpeechPhase.Done
    && s.replies.calls == calls && s.systemSpeaking && !s.userSpeaking && !s.held && s.transcripts.Idle?
  }

  lemma SpeechEnds() returns (steps: seq<Step>)
    ensures Over(Played(steps, true), TIMER_WAITS)
  {
    steps := TimerWaits();
    hide Played;
    steps := Walk(steps, Inner(SpeechStep(0, Deliver)));
    steps := Walk(steps, Inner(SpeechStep(0, SendOk(false))));
    steps := Walk(steps, Inner(SpeechStep(0, SendOk(false))));
  }

  /** The timer's `begin` goes on and sends its tts_clear. */
  lemma TimerClears() returns (steps: seq<Step>)
    ensures Over(Played(steps, true), TIMER_WAITS[2 := Clearing(NewReply, 0)])
  {
    steps := SpeechEnds();
    hide Played;
    steps := Walk(steps, Inner(Resume(2)));
  }

  /** A barge-in that finds the speech over does not wait. */
  lemma NothingToStop(s: Session, calls: map<nat, Call>)
    requires Over(s, calls) && TRANSCRIPTS !in calls
    ensures Over(Interrupt(s, TRANSCRIPTS).(systemSpeaking := true), calls)
  {
  }

  /** Nor does the turn's reply. */
  lemma OpensAtOnce(s: Session, calls: map<nat, Call>)
    requires Over(s.(systemSpeaking := true), calls) && TRANSCRIPTS !in calls
    ensures var t := FinalGoesOn(s, true, false);
            Active(t.replies) && t.replies.calls == calls
  {
  }

  /** Meanwhile another turn is completed: no speech has to be stopped for it, and its reply opens. */
  lemma TranscriptReplies() returns (steps: seq<Step>)
    ensures var s := Played(steps, true);
            && Active(s.replies) && 2 in s.replies.calls && s.replies.calls[2] == Clearing(NewReply, 0)
  {
    steps := TimerClears();
    var s, calls := Played(steps, true), TIMER_WAITS[2 := Clearing(NewReply, 0)];
    hide Played, FinalGoesOn, Interrupt;
    NothingToStop(s, calls);
    OpensAtOnce(Interrupt(s, TRANSCRIPTS), calls);
    steps := Walk(steps, FinalTranscript(false, false));
  }

  /** The tts_clear is sent: the timer's `begin`, which has nothing more to wait for, opens another reply over it. */
  lemma HeldTurnOverlaps() returns (steps: seq<Step>)
    ensures var s := Played(steps, true);
            IsRun(INITIAL, s.actions) && !NeverOpensOver(INITIAL, s.actions)
  {
    steps := TranscriptReplies();
    hide Played, IsRun, After, NeverOpensOver, Act;
    var s := Played(steps, true);
    TrackedAt(steps);
    OpensOverCounts(INITIAL, s.actions, ClearSent(2));
    steps := Walk(steps, Inner(ClearSent(2)));
  }

  /**
   Whether replies are ever opened over active ones is decided by the holding of turns alone: no
   session does it with the holding switched off, and some session does with it switched on.
   */
  lemma SerialIffNotHolding(holds: bool)
    ensures (forall steps :: NeverOverlaps(steps, holds)) <==> !holds
  {
    hide Played;
    if holds {
      var steps := HeldTurnOverlaps();
      assert !NeverOverlaps(steps, holds);
    } else {
      forall steps
        ensures NeverOverlaps(steps, holds)
      {
        NotHoldingIsSerial(steps);
      }
    }
  }

  predicate NeverOverlaps(steps: seq<Step>, holds: bool) {
    var s := Played(steps, holds);
    IsRun(INITIAL, s.actions) && NeverOpensOver(INITIAL, s.actions)
  }

  /** So with the holding switched off, the client of any session gets well-formed speech. */
  lemma SpeechIsWellFormed(steps: seq<Step>, k: nat)
    ensures var s := Played(steps, false);
            InReplyOrder(s.replies.trace) && WellSpoken(s.replies.trace, k)
  {
    NotHoldingIsSerial(steps);
    SessionFits(steps, false);
    hide Played, NeverOpensOver;
    OutputIsWellFormed(Played(steps, false).actions, k);
  }
}
