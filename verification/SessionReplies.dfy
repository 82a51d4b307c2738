/**
 A voice session's turn-taking together with its replies: which tasks call `begin` and `stop`, and
 when. The transcript task, the audio task and the hold timer change the session's flags and act on
 the reply system; the texts are left to TurnTaking.
 */
module SessionReplies {
  import opened Sequences
  import opened ReplySystem
  import opened ReplySafety
  import opened OutputTrace
  import opened ReplyWitnesses
  import L = LlmGeneration

  /** What the transcript task is waiting for. `last`: it is handling a final transcript. */
  datatype Transcripts =
    | Idle
    | Interrupting(last: bool)  // for the speech to stop
    | Announcing(last: bool)    // for the barge_in message
    | Holding                   // for the turn_held message
    | Opening                   // for `begin`

  datatype Session = Session(
    userSpeaking: bool,
    systemSpeaking: bool,
    held: bool,
    holdTimer: bool,
    transcripts: Transcripts,
    audioBusy: bool,          // the audio task is in a barge-in
    timersFired: nat,
    replies: System,
    actions: seq<Action>,     // all that was done to the replies
    misfit: bool)             // something was tried on them that was not possible

  const START := Session(false, false, false, false, Idle, false, 0, INITIAL, [], false)

  /** The transcript task calls as 0, the audio task as 1, and each fired hold timer as another. */
  const TRANSCRIPTS := 0
  const AUDIO := 1

  function TimerId(n: nat): nat {
    2 + n
  }

  datatype Step =
    | PartialTranscript
    | FinalTranscript(blank: bool, unfinished: bool)
    | BargeInStopped
    | BargeInSent(unfinished: bool)
    | HeldSent
    | ReplyOpened
    | Speech                    // the audio task hears speech start
    | AudioFree
    | TimerFires
    | PlaybackOver
    | Inner(action: Action)     // a task of the reply side, or a waiting call, goes on

  function Do(s: Session, a: Action): Session {
    if Possible(s.replies, a) then s.(replies := Act(s.replies, a), actions := s.actions + [a])
    else s.(misfit := true)
  }

  /** on_user_turn_started */
  function StartTurn(s: Session): Session {
    Do(s, CancelGeneration).(userSpeaking := true, holdTimer := false)
  }

  /** The part of _reply that starts the system turn and calls `begin`. */
  function Reply(s: Session, id: nat): Session {
    Do(s.(systemSpeaking := true), CallOpen(id))
  }

  /** on_user_turn_completed, of a turn with text or a held part. */
  function CompleteTurn(s: Session, holds: bool, unfinished: bool): Session {
    var after := s.(userSpeaking := false, held := false, holdTimer := false);
    if holds && unfinished then after.(held := true, holdTimer := true, transcripts := Holding)
    else
      var began := Reply(after, TRANSCRIPTS);
      began.(transcripts := if TRANSCRIPTS in began.replies.calls then Opening else Idle)
  }

  /** handle_interruption, up to where it has to wait. */
  function Interrupt(s: Session, id: nat): Session {
    Do(s.(userSpeaking := false, systemSpeaking := false), CallInterrupt(id))
  }

  function PartialGoesOn(s: Session): Session {
    (if s.userSpeaking then s else StartTurn(s)).(transcripts := Idle)
  }

  function FinalGoesOn(s: Session, holds: bool, unfinished: bool): Session {
    CompleteTurn(StartTurn(s), holds, unfinished)
  }

  predicate CanStep(s: Session, step: Step) {
    match step
    case PartialTranscript => s.transcripts.Idle?
    case FinalTranscript(_, _) => s.transcripts.Idle?
    case BargeInStopped => s.transcripts.Interrupting? && TRANSCRIPTS !in s.replies.calls
    case BargeInSent(_) => s.transcripts.Announcing?
    case HeldSent => s.transcripts.Holding?
    case ReplyOpened => s.transcripts.Opening? && TRANSCRIPTS !in s.replies.calls
    case Speech => !s.audioBusy
    case AudioFree => s.audioBusy && AUDIO !in s.replies.calls
    case TimerFires => s.holdTimer
    case PlaybackOver => true
    case Inner(a) => Possible(s.replies, a) && !a.CancelGeneration? && !a.CallInterrupt? && !a.CallOpen?
  }

  function After1(s: Session, step: Step, holds: bool): Session
    requires CanStep(s, step)
  {
    match step
    case PartialTranscript =>
      if !s.systemSpeaking then PartialGoesOn(s)
      else
        var stopping := Interrupt(s, TRANSCRIPTS);
        if TRANSCRIPTS in stopping.replies.calls then stopping.(transcripts := Interrupting(false))
        else PartialGoesOn(stopping)
    case FinalTranscript(blank, unfinished) =>
      if s.userSpeaking then
        if blank && !s.held then s.(userSpeaking := false, holdTimer := false) else CompleteTurn(s, holds, unfinished)
      else if blank then s
      else if !s.systemSpeaking then FinalGoesOn(s, holds, unfinished)
      else
        var stopping := Interrupt(s, TRANSCRIPTS);
        if TRANSCRIPTS in stopping.replies.calls then stopping.(transcripts := Interrupting(true))
        else FinalGoesOn(stopping, holds, unfinished)
    case BargeInStopped => s.(transcripts := Announcing(s.transcripts.last))
    case BargeInSent(unfinished) =>
      if s.transcripts.last then FinalGoesOn(s, holds, unfinished) else PartialGoesOn(s)
    case HeldSent => s.(transcripts := Idle)
    case ReplyOpened => s.(transcripts := Idle)
    case Speech =>
      if s.systemSpeaking then
        var stopping := Interrupt(s, AUDIO);
        stopping.(audioBusy := AUDIO in stopping.replies.calls)
      else if s.held then s.(holdTimer := true)
      else s
    case AudioFree => s.(audioBusy := false)
    case TimerFires => Reply(s.(held := false, holdTimer := false, timersFired := s.timersFired + 1), TimerId(s.timersFired))
    case PlaybackOver => s.(systemSpeaking := false)
    case Inner(a) => Do(s, a)
  }

  /** The session after these steps; a step whose task is not there changes nothing. */
  function Played(steps: seq<Step>, holds: bool): Session {
    if steps == [] then START
    else
      var s, step := Played(steps[..|steps| - 1], holds), steps[|steps| - 1];
      if CanStep(s, step) then After1(s, step, holds) else s
  }

  // ------------------------------------------------------ every session is a run of the reply system

  ghost predicate Tracked(s: Session) {
    !s.misfit && IsRun(INITIAL, s.actions) && After(INITIAL, s.actions) == s.replies
  }

  /** Without holding, only the transcript task opens replies. */
  ghost predicate OneOpener(s: Session) {
    && !s.held
    && (forall id :: id in s.replies.calls && s.replies.calls[id].purpose == NewReply ==> id == TRANSCRIPTS)
    && IsRun(INITIAL, s.actions) && OneAtATime(INITIAL, s.actions)
  }

  /** What every part of a step keeps. */
  ghost predicate Kept(s: Session, holds: bool) {
    && Tracked(s)
    && (AUDIO in s.replies.calls ==> s.audioBusy)
    && (forall id :: id in s.replies.calls && id >= 2 ==> id < TimerId(s.timersFired))
    && (s.holdTimer ==> s.held)
    && (!holds ==> OneOpener(s))
  }

  /** The transcript task is not waiting for a call. */
  predicate Quiet(s: Session) {
    TRANSCRIPTS !in s.replies.calls
  }

  ghost predicate Fits(s: Session, holds: bool) {
    Kept(s, holds) && (Quiet(s) || s.transcripts.Interrupting? || s.transcripts.Opening?)
  }

  /** Which call an action may add. */
  predicate Adds(a: Action, id: nat, purpose: Purpose) {
    || (a == CallInterrupt(id) && purpose == BargeIn)
    || (a == CallOpen(id) && purpose == NewReply)
  }

  predicate CallsGrow(s: System, a: Action, t: System) {
    forall id :: id in t.calls ==>
      || (id in s.calls && t.calls[id].purpose == s.calls[id].purpose)
      || Adds(a, id, t.calls[id].purpose)
  }

  lemma ActCalls(s: System, a: Action)
    requires Possible(s, a)
    ensures CallsGrow(s, a, Act(s, a))
  {
    hide Generate, SpeechAct;
    if a.GenerationStep? {
      GenerateKeepsSpeech(s, a.reply, a.generationEvent);
    } else if a.SpeechStep? {
      SpeechActTrace(s, a.reply, a.speechEvent);
    }
  }

  lemma DoTracks(s: Session, a: Action)
    requires Tracked(s) && Possible(s.replies, a)
    ensures Tracked(Do(s, a)) && CallsGrow(s.replies, a, Do(s, a).replies)
    ensures (OneAtATime(INITIAL, s.actions) && (a.CallOpen? ==> !OutputTrace.Opening(s.replies)))
              ==> OneAtATime(INITIAL, Do(s, a).actions)
  {
    hide Possible, Act, IsRun, After, OneAtATime, OutputTrace.Opening;
    Extend(INITIAL, s.actions, a);
    ActCalls(s.replies, a);
  }

  /** Acting on the replies leaves the flags alone. */
  lemma DoFlags(s: Session, a: Action)
    ensures var t := Do(s, a);
            && t.held == s.held && t.holdTimer == s.holdTimer && t.transcripts == s.transcripts
            && t.audioBusy == s.audioBusy && t.timersFired == s.timersFired
  {
    hide Act, Possible;
  }

  lemma CancelKeeps(s: Session, holds: bool)
    requires Kept(s, holds)
    ensures Kept(Do(s, CancelGeneration), holds) && (Quiet(s) ==> Quiet(Do(s, CancelGeneration)))
  {
    DoTracks(s, CancelGeneration);
    hide Act, Tracked;
  }

  lemma StartTurnKeeps(s: Session, holds: bool)
    requires Kept(s, holds) && Quiet(s)
    ensures Kept(StartTurn(s), holds) && Quiet(StartTurn(s))
  {
    hide Do, OneOpener, Tracked;
    CancelKeeps(s, holds);
    FlagsKeep(Do(s, CancelGeneration), holds);
  }

  /** The flags do not matter. */
  lemma FlagsKeep(s: Session, holds: bool)
    requires Kept(s, holds)
    ensures forall user, system, transcripts ::
              Kept(s.(userSpeaking := user, systemSpeaking := system, transcripts := transcripts), holds)
    ensures forall user :: Kept(s.(userSpeaking := user, holdTimer := false), holds)
    ensures forall user :: Kept(s.(userSpeaking := user, held := false, holdTimer := false), holds)
  {
    hide IsRun, After, OneAtATime;
  }

  lemma ReplyKeeps(s: Session, id: nat, holds: bool)
    requires Kept(s, holds) && id !in s.replies.calls
    requires id == TRANSCRIPTS || (holds && 2 <= id < TimerId(s.timersFired))
    ensures Kept(Reply(s, id), holds)
    ensures id != TRANSCRIPTS && Quiet(s) ==> Quiet(Reply(s, id))
  {
    DoTracks(s.(systemSpeaking := true), CallOpen(id));
    DoFlags(s.(systemSpeaking := true), CallOpen(id));
    hide Do, IsRun, After, OneAtATime;
  }

  lemma InterruptKeeps(s: Session, holds: bool)
    requires Kept(s, holds) && Quiet(s)
    ensures Kept(Interrupt(s, TRANSCRIPTS), holds)
  {
    DoTracks(s.(userSpeaking := false, systemSpeaking := false), CallInterrupt(TRANSCRIPTS));
    DoFlags(s.(userSpeaking := false, systemSpeaking := false), CallInterrupt(TRANSCRIPTS));
    hide Do, IsRun, After, OneAtATime;
  }

  lemma SpeechKeeps(s: Session, holds: bool)
    requires Kept(s, holds) && AUDIO !in s.replies.calls
    ensures var stopping := Interrupt(s, AUDIO);
            && Kept(stopping.(audioBusy := AUDIO in stopping.replies.calls), holds)
            && (Quiet(s) ==> Quiet(stopping)) && stopping.transcripts == s.transcripts
  {
    DoTracks(s.(userSpeaking := false, systemSpeaking := false), CallInterrupt(AUDIO));
    DoFlags(s.(userSpeaking := false, systemSpeaking := false), CallInterrupt(AUDIO));
    hide Do, IsRun, After, OneAtATime;
  }

  lemma CompleteTurnFits(s: Session, holds: bool, unfinished: bool)
    requires Kept(s, holds) && Quiet(s)
    ensures Fits(CompleteTurn(s, holds, unfinished), holds)
  {
    FlagsKeep(s, holds);
    var after := s.(userSpeaking := false, held := false, holdTimer := false);
    assert Kept(after, holds);
    if !(holds && unfinished) {
      ReplyKeeps(after, TRANSCRIPTS, holds);
      FlagsKeep(Reply(after, TRANSCRIPTS), holds);
      hide Reply, Tracked, OneOpener;
    }
    hide IsRun, After, OneAtATime;
  }

  lemma PartialFits(s: Session, holds: bool)
    requires Kept(s, holds) && Quiet(s)
    ensures Fits(PartialGoesOn(s), holds)
  {
    hide StartTurn, Kept;
    FlagsKeep(s, holds);
    if !s.userSpeaking {
      StartTurnKeeps(s, holds);
      FlagsKeep(StartTurn(s), holds);
    }
  }

  lemma FinalFits(s: Session, holds: bool, unfinished: bool)
    requires Kept(s, holds) && Quiet(s)
    ensures Fits(FinalGoesOn(s, holds, unfinished), holds)
  {
    hide StartTurn, CompleteTurn, Kept, Quiet;
    StartTurnKeeps(s, holds);
    CompleteTurnFits(StartTurn(s), holds, unfinished);
  }

  lemma TimerFits(s: Session, holds: bool)
    requires Fits(s, holds) && s.holdTimer
    ensures Fits(After1(s, TimerFires, holds), holds)
  {
    var fired := s.(held := false, holdTimer := false, timersFired := s.timersFired + 1);
    assert Kept(fired, holds);
    ReplyKeeps(fired, TimerId(s.timersFired), holds);
    hide Tracked, OneOpener, Do;
  }

  lemma InnerFits(s: Session, a: Action, holds: bool)
    requires Fits(s, holds) && CanStep(s, Inner(a))
    ensures Fits(Do(s, a), holds)
  {
    DoTracks(s, a);
    DoFlags(s, a);
    hide Do, IsRun, After, OneAtATime;
  }

  lemma TranscriptFits(s: Session, step: Step, holds: bool)
    requires Fits(s, holds) && CanStep(s, step)
    requires step.PartialTranscript? || step.FinalTranscript?
    ensures Fits(After1(s, step, holds), holds)
  {
    hide Kept, PartialGoesOn, FinalGoesOn, CompleteTurn, Interrupt;
    FlagsKeep(s, holds);
    var stopping := Interrupt(s, TRANSCRIPTS);
    InterruptKeeps(s, holds);
    FlagsKeep(stopping, holds);
    if step.PartialTranscript? {
      if !s.systemSpeaking {
        PartialFits(s, holds);
      } else if TRANSCRIPTS !in stopping.replies.calls {
        PartialFits(stopping, holds);
      }
    } else if s.userSpeaking {
      CompleteTurnFits(s, holds, step.unfinished);
      assert Kept(s.(userSpeaking := false, holdTimer := false), holds);
    } else if !s.systemSpeaking {
      FinalFits(s, holds, step.unfinished);
    } else if TRANSCRIPTS !in stopping.replies.calls {
      FinalFits(stopping, holds, step.unfinished);
    }
  }

  lemma StepFits(s: Session, step: Step, holds: bool)
    requires Fits(s, holds) && CanStep(s, step)
    ensures Fits(After1(s, step, holds), holds)
  {
    hide Tracked, OneOpener, PartialGoesOn, FinalGoesOn, Do;
    match step
    case PartialTranscript => TranscriptFits(s, step, holds);
    case FinalTranscript(_, _) => TranscriptFits(s, step, holds);
    case BargeInSent(unfinished) =>
      PartialFits(s, holds);
      FinalFits(s, holds, unfinished);
    case Speech =>
      if s.systemSpeaking {
        SpeechKeeps(s, holds);
      } else {
        TimerRestarts(s, holds);
      }
    case TimerFires => TimerFits(s, holds);
    case Inner(a) => InnerFits(s, a, holds);
    case AudioFree => OthersFit(s, step, holds);
    case _ => OthersFit(s, step, holds);
  }

  lemma TimerRestarts(s: Session, holds: bool)
    requires Fits(s, holds)
    ensures s.held ==> Fits(s.(holdTimer := true), holds)
  {
    hide IsRun, After, OneAtATime;
  }

  lemma OthersFit(s: Session, step: Step, holds: bool)
    requires Fits(s, holds) && CanStep(s, step)
    requires step.BargeInStopped? || step.HeldSent? || step.ReplyOpened? || step.AudioFree? || step.PlaybackOver?
    ensures Fits(After1(s, step, holds), holds)
  {
    hide IsRun, After, OneAtATime;
  }

  /** Every session is a run of the reply system: what holds of all such runs holds of every session. */
  lemma {:induction false} SessionFits(steps: seq<Step>, holds: bool)
    ensures Fits(Played(steps, holds), holds)
  {
    if steps == [] {
      StartFits(holds);
    } else {
      hide Fits, After1, CanStep;
      var front := steps[..|steps| - 1];
      SessionFits(front, holds);
      if CanStep(Played(front, holds), steps[|steps| - 1]) {
        StepFits(Played(front, holds), steps[|steps| - 1], holds);
      }
    }
  }

  lemma StartFits(holds: bool)
    ensures Fits(START, holds)
  {
  }

  /** With the holding of turns switched off, no session opens a reply over an active one. */
  lemma NotHoldingIsSerial(steps: seq<Step>)
    ensures var s := Played(steps, false);
            IsRun(INITIAL, s.actions) && NeverOpensOver(INITIAL, s.actions)
  {
    SessionFits(steps, false);
    var s := Played(steps, false);
    assert Serial(INITIAL);
    OneAtATimeSuffices(INITIAL, s.actions);
    hide Played, NeverOpensOver;
  }
}
