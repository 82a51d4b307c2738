/**
 Turn-taking of a voice session: who is speaking, which turn is held, which turns have been
 replied to. Each method is the code a task runs between two awaits that can suspend, so a
 sequence of method calls is an interleaving of the transcript task, the audio task, the
 hold timer and the end of playback. What the speech and generation tasks do meanwhile is
 left open.
 */
module TurnTaking {
  import opened Sequences
  import opened Text
  import opened Words

  class ConversationState {
    var isUserSpeaking: bool
    var isSystemSpeaking: bool
    var currentUtteranceId: Option<string>
    var turnCount: nat

    ghost predicate Valid()
      reads this
    {
      isUserSpeaking == currentUtteranceId.Some?
    }

    constructor ()
      ensures Valid() && !isUserSpeaking && !isSystemSpeaking && turnCount == 0
    {
      isUserSpeaking, isSystemSpeaking, currentUtteranceId, turnCount := false, false, None, 0;
    }

    method StartUserTurn(utteranceId: string)
      modifies this`isUserSpeaking, this`currentUtteranceId
      ensures Valid() && isUserSpeaking && currentUtteranceId == Some(utteranceId)
    {
      currentUtteranceId := Some(utteranceId);
      isUserSpeaking := true;
    }

    method CompleteUserTurn()
      modifies this`isUserSpeaking, this`currentUtteranceId, this`turnCount
      ensures Valid() && !isUserSpeaking && turnCount == old(turnCount) + 1
    {
      isUserSpeaking := false;
      currentUtteranceId := None;
      turnCount := turnCount + 1;
    }

    method StartSystemTurn()
      modifies this`isSystemSpeaking
      ensures isSystemSpeaking
    {
      isSystemSpeaking := true;
    }

    method CompleteSystemTurn()
      modifies this`isSystemSpeaking
      ensures !isSystemSpeaking
    {
      isSystemSpeaking := false;
    }

    method InterruptUser()
      requires Valid()
      modifies this`isUserSpeaking, this`currentUtteranceId
      ensures Valid() && !isUserSpeaking
    {
      if isUserSpeaking {
        isUserSpeaking := false;
        currentUtteranceId := None;
      }
    }
  }

  datatype Turn = Turn(utteranceId: string, transcript: string)

  /** Where the coroutine that handles transcript events is. */
  datatype TranscriptTask =
    | Idle
    | InterruptingFor(event: TranscriptEvent)  // in handle_interruption, with the event still to be handled
    | Finishing                                // a message or the opening of a reply is still under way

  datatype TranscriptEvent =
    | Partial(utteranceId: string, transcript: string)
    | Final(utteranceId: string, transcript: string)

  function RepliedWords(turns: seq<Turn>): seq<string> {
    if turns == [] then [] else RepliedWords(turns[..|turns| - 1]) + WordsOf(turns[|turns| - 1].transcript)
  }

  lemma RepliedWordsSnoc(turns: seq<Turn>, last: Turn)
    ensures RepliedWords(turns + [last]) == RepliedWords(turns) + WordsOf(last.transcript)
  {
    assert (turns + [last])[..|turns|] == turns;
  }

  function HeldWords(held: Option<Turn>): seq<string> {
    if held.Some? then WordsOf(held.value.transcript) else []
  }

  function PendingWords(task: TranscriptTask): seq<string> {
    if task.InterruptingFor? && task.event.Final? then WordsOf(task.event.transcript) else []
  }

  /** The held part, under its own ID, with the next turn joined to it. */
  function Continued(held: Option<Turn>, next: Turn): Turn {
    if held.Some? then
      Turn(held.value.utteranceId, Strip(Strip(held.value.transcript) + " " + Strip(next.transcript)))
    else next
  }

  lemma ContinuedWords(held: Option<Turn>, next: Turn)
    ensures WordsOf(Continued(held, next).transcript) == HeldWords(held) + WordsOf(next.transcript)
  {
    hide Strip, WordsOf;
    if held.Some? {
      var h, n := Strip(held.value.transcript), Strip(next.transcript);
      WordsStrip(h + " " + n);
      WordsJoined(h, n);
      WordsStrip(held.value.transcript);
      WordsStrip(next.transcript);
    }
  }

  class VoiceSession {
    const state: ConversationState
    const holds: bool                          // eot_hold_seconds > 0
    const soundsUnfinished: string -> bool
    var held: Option<Turn>
    var holdTimer: bool                        // _hold_task is set and still sleeping
    var transcriptTask: TranscriptTask
    var audioTaskBusy: bool
    var replied: seq<Turn>                     // the turns passed to _reply
    ghost var heardWords: seq<string>          // the words of every final transcript so far

    /** A held turn always has something that will release it. */
    ghost predicate HeldIsNotStranded()
      reads this, state
    {
      held.Some? ==> holdTimer || state.isUserSpeaking
    }

    /** No word is lost, repeated or moved. */
    ghost predicate WordsConserved()
      reads this
    {
      heardWords == RepliedWords(replied) + HeldWords(held) + PendingWords(transcriptTask)
    }

    ghost predicate Valid()
      reads this, state
    {
      && state.Valid()
      && HeldIsNotStranded()
      && WordsConserved()
      && !(held.Some? && state.isUserSpeaking && state.isSystemSpeaking)
      && (transcriptTask.InterruptingFor? ==> !(held.Some? && state.isSystemSpeaking))
      && (holdTimer ==> held.Some?)
      && (held.Some? ==> HasText(held.value.transcript))
    }

    constructor (holds: bool, soundsUnfinished: string -> bool)
      ensures Valid() && fresh(state)
      ensures held == None && replied == [] && heardWords == [] && transcriptTask == Idle
      ensures this.holds == holds && this.soundsUnfinished == soundsUnfinished
    {
      this.holds, this.soundsUnfinished := holds, soundsUnfinished;
      state := new ConversationState();
      held, holdTimer, transcriptTask, audioTaskBusy, replied := None, false, Idle, false, [];
      heardWords := [];
    }

    /** The flags that handle_interruption changes before it waits for the speech to stop. */
    method HandleInterruption()
      requires state.Valid()
      modifies state
      ensures state.Valid() && !state.isUserSpeaking && !state.isSystemSpeaking
    {
      state.InterruptUser();
      state.CompleteSystemTurn();
    }

    /** on_user_turn_started: no timer is pending then, whatever is held, until the turn completes. */
    method UserTurnStarted(utteranceId: string)
      modifies this`holdTimer, state
      ensures state.Valid() && state.isUserSpeaking && !holdTimer
      ensures state.currentUtteranceId == Some(utteranceId)
      ensures state.isSystemSpeaking == old(state.isSystemSpeaking)
    {
      state.StartUserTurn(utteranceId);
      holdTimer := false;
    }

    /** The part of _reply before it first waits. */
    method Reply(turn: Turn)
      requires state.Valid()
      modifies this`replied, state
      ensures state.Valid() && state.isSystemSpeaking && state.isUserSpeaking == old(state.isUserSpeaking)
      ensures replied == old(replied) + [turn]
    {
      replied := replied + [turn];
      state.StartSystemTurn();
    }

    /** on_user_turn_completed: the joined turn becomes a replied one or the held one; a blank one changes no words. */
    method UserTurnCompleted(event: Turn)
      requires state.Valid() && !state.isUserSpeaking
      requires heardWords == RepliedWords(replied) + HeldWords(held) + WordsOf(event.transcript)
      modifies this`held, this`holdTimer, this`transcriptTask, this`replied, state
      ensures Valid() && transcriptTask == Finishing && !state.isUserSpeaking
      ensures Answered(old(held), old(replied), event)
    {
      hide WordsOf, Strip, HasText, Continued;
      ContinuedTurn(held, event);
      RepliedWordsSnoc(replied, Continued(held, event));
      Regroup(RepliedWords(replied), HeldWords(held), WordsOf(event.transcript));
      hide RepliedWords;
      var text, turn := Strip(event.transcript), event;
      if held.Some? {
        text := Strip(Strip(held.value.transcript) + " " + text);
        turn := Turn(held.value.utteranceId, text);
        held := None;
      }
      holdTimer := false;
      transcriptTask := Finishing;
      if text == "" {
        return;
      }
      if holds && soundsUnfinished(text) {
        held := Some(turn);
        holdTimer := true;
        return;
      }
      Reply(turn);
    }

    /** The rest of a partial event, once nothing is being interrupted. */
    method PartialGoesOn(event: TranscriptEvent)
      requires Valid() && transcriptTask == Idle && event.Partial?
      requires !(held.Some? && state.isSystemSpeaking)
      modifies this`holdTimer, state
      ensures Valid() && state.isUserSpeaking && state.isSystemSpeaking == old(state.isSystemSpeaking)
      ensures !old(state.isUserSpeaking) ==> !holdTimer && state.currentUtteranceId == Some(event.utteranceId)
      ensures old(state.isUserSpeaking) ==> holdTimer == old(holdTimer) && unchanged(state)
    {
      if !state.isUserSpeaking {
        UserTurnStarted(event.utteranceId);
      }
    }

    /** The rest of a final event that had no partial before it. */
    method FinalGoesOn(event: TranscriptEvent)
      requires state.Valid() && event.Final?
      requires heardWords == RepliedWords(replied) + HeldWords(held) + WordsOf(event.transcript)
      modifies this`held, this`holdTimer, this`transcriptTask, this`replied, state
      ensures Valid() && transcriptTask == Finishing && !state.isUserSpeaking
      ensures Answered(old(held), old(replied), Turn(event.utteranceId, event.transcript))
    {
      hide WordsOf, HeldWords, RepliedWords, Strip, HasText;
      UserTurnStarted(event.utteranceId);
      state.CompleteUserTurn();
      UserTurnCompleted(Turn(event.utteranceId, event.transcript));
    }

    /** What a completed turn leads to, given what was held and replied to before. */
    ghost predicate Answered(heldBefore: Option<Turn>, repliedBefore: seq<Turn>, event: Turn)
      reads this, state
    {
      var turn := Continued(heldBefore, event);
      if !HasText(turn.transcript) then replied == repliedBefore && held == None
      else if holds && soundsUnfinished(Strip(turn.transcript)) then
        replied == repliedBefore && held == Some(turn) && holdTimer
      else replied == repliedBefore + [turn] && held == None && state.isSystemSpeaking
    }

    /** A partial transcript. `stopWaits` says whether a barge-in has a speech task to wait for. */
    method OnPartial(event: TranscriptEvent, stopWaits: bool)
      requires Valid() && transcriptTask == Idle && event.Partial?
      modifies this`holdTimer, this`transcriptTask, state
      ensures Valid()
      ensures if old(state.isSystemSpeaking) && stopWaits then
                transcriptTask == InterruptingFor(event) && !state.isUserSpeaking && !state.isSystemSpeaking
              else transcriptTask == Idle && state.isUserSpeaking && !state.isSystemSpeaking
    {
      hide WordsOf, RepliedWords, HasText;
      if state.isSystemSpeaking {
        HandleInterruption();
        if stopWaits {
          transcriptTask := InterruptingFor(event);
          return;
        }
      }
      PartialGoesOn(event);
    }

    /** A final transcript. */
    method OnFinal(event: TranscriptEvent, stopWaits: bool)
      requires Valid() && transcriptTask == Idle && event.Final?
      modifies this, state
      ensures Valid() && heardWords == old(heardWords) + WordsOf(event.transcript)
      ensures if old(state.isUserSpeaking) || (HasText(event.transcript) && !(old(state.isSystemSpeaking) && stopWaits)) then
                transcriptTask == Finishing && Answered(old(held), old(replied), Turn(event.utteranceId, event.transcript))
              else
                && replied == old(replied) && held == old(held)
                && transcriptTask == if HasText(event.transcript) then InterruptingFor(event) else Idle
    {
      hide WordsOf, RepliedWords, Strip, HasText;
      heardWords := heardWords + WordsOf(event.transcript);
      StripEmpty(event.transcript);
      WordsNone(event.transcript);
      if state.isUserSpeaking {
        state.CompleteUserTurn();
        UserTurnCompleted(Turn(event.utteranceId, event.transcript));
      } else if Strip(event.transcript) != "" {
        if state.isSystemSpeaking {
          HandleInterruption();
          if stopWaits {
            transcriptTask := InterruptingFor(event);
            return;
          }
        }
        FinalGoesOn(event);
      }
    }

    /** The barge-in of the transcript task has returned: go on with the event. */
    method InterruptionOver()
      requires Valid() && transcriptTask.InterruptingFor?
      modifies this`held, this`holdTimer, this`transcriptTask, this`replied, state
      ensures Valid() && !transcriptTask.InterruptingFor?
      ensures old(transcriptTask).event.Partial? ==>
        state.isUserSpeaking && held == old(held) && replied == old(replied) && transcriptTask == Idle
      ensures old(transcriptTask).event.Final? ==>
        Answered(old(held), old(replied), Turn(old(transcriptTask).event.utteranceId, old(transcriptTask).event.transcript))
    {
      hide WordsOf, RepliedWords, Strip, HasText;
      var event := transcriptTask.event;
      if event.Partial? {
        transcriptTask := Idle;
        PartialGoesOn(event);
      } else {
        FinalGoesOn(event);
      }
    }

    /** The transcript task has sent its message or opened its reply, and takes the next event. */
    method TranscriptTaskFree()
      requires Valid() && transcriptTask == Finishing
      modifies this`transcriptTask
      ensures Valid() && transcriptTask == Idle
    {
      transcriptTask := Idle;
    }

    /** The audio task hears speech start (the VAD returned True). */
    method OnSpeech(stopWaits: bool)
      requires Valid() && !audioTaskBusy
      modifies this`holdTimer, this`audioTaskBusy, state
      ensures Valid() && held == old(held) && replied == old(replied) && heardWords == old(heardWords)
      ensures if old(state.isSystemSpeaking) then
                !state.isSystemSpeaking && !state.isUserSpeaking && holdTimer == old(holdTimer) && audioTaskBusy == stopWaits
              else unchanged(state) && !audioTaskBusy && holdTimer == held.Some?
    {
      hide WordsOf, RepliedWords, HasText;
      if state.isSystemSpeaking {
        HandleInterruption();
        audioTaskBusy := stopWaits;
      } else if held.Some? {
        holdTimer := true;  // the wait starts again
      }
    }

    method AudioTaskFree()
      requires Valid()
      modifies this`audioTaskBusy
      ensures Valid() && !audioTaskBusy
    {
      audioTaskBusy := false;
    }

    /** The held turn moves, words and all, to the end of the replied turns, and its timer is gone. */
    method HoldTimerFires()
      requires Valid() && holdTimer
      modifies this`held, this`holdTimer, this`replied, state
      ensures Valid() && held == None && !holdTimer && state.isSystemSpeaking
      ensures old(held).Some? && replied == old(replied) + [old(held).value]
    {
      hide WordsOf, HasText;
      var turn := held.value;
      RepliedWordsSnoc(replied, turn);
      held, holdTimer := None, false;
      assert RepliedWords(replied) + WordsOf(turn.transcript) + [] == RepliedWords(replied) + WordsOf(turn.transcript);
      Reply(turn);
    }

    /** A reply has been heard to its end. */
    method PlaybackEnded()
      requires Valid()
      modifies state
      ensures Valid() && !state.isSystemSpeaking && state.isUserSpeaking == old(state.isUserSpeaking)
    {
      state.CompleteSystemTurn();
    }
  }

  /** The turn and the text that on_user_turn_completed goes on with. */
  lemma ContinuedTurn(held: Option<Turn>, next: Turn)
    ensures var whole := Continued(held, next);
            var text := if held.Some? then Strip(Strip(held.value.transcript) + " " + Strip(next.transcript))
                        else Strip(next.transcript);
            && whole == (if held.Some? then Turn(held.value.utteranceId, text) else next)
            && text == Strip(whole.transcript)
            && (text == "" <==> !HasText(whole.transcript))
            && WordsOf(whole.transcript) == HeldWords(held) + WordsOf(next.transcript)
            && (text == "" ==> HeldWords(held) + WordsOf(next.transcript) == [])
  {
    hide IsSpace, WordsOf, HasText;
    ContinuedWords(held, next);
    WordsNone(Continued(held, next).transcript);
    StripEmpty(Continued(held, next).transcript);
    if held.Some? {
      StripIsStripped(Strip(held.value.transcript) + " " + Strip(next.transcript));
    }
  }

  lemma Regroup(replied: seq<string>, held: seq<string>, next: seq<string>)
    ensures replied + held + next == replied + (held + next)
    ensures replied + [] + [] == replied
    ensures (replied + (held + next)) + [] + [] == replied + held + next
    ensures replied + (held + next) + [] == replied + held + next
  {
  }

  lemma StripIsStripped(s: string)
    ensures Strip(Strip(s)) == Strip(s)
  {
    hide IsSpace;
    var t := TrimLeft(s);
    var u := TrimRight(t);
    if u != "" {
      assert u[0] == t[0];
    }
  }

  // ------------------------------------------------------ whole sessions

  /** Which task runs next. A move that its task cannot make leaves the session as it is. */
  datatype Move =
    | NextTranscript(stopWaits: bool)
    | EndInterruption
    | FreeTranscriptTask
    | HearSpeech(stopWaits: bool)
    | FreeAudioTask
    | FireHoldTimer
    | EndPlayback

  /** The words of the final transcripts among the events. */
  function FinalWords(events: seq<TranscriptEvent>): seq<string> {
    if events == [] then []
    else FinalWords(events[..|events| - 1]) + EventWords(events[|events| - 1])
  }

  function EventWords(event: TranscriptEvent): seq<string> {
    if event.Final? then WordsOf(event.transcript) else []
  }

  lemma FinalWordsSnoc(events: seq<TranscriptEvent>, last: TranscriptEvent)
    ensures FinalWords(events + [last]) == FinalWords(events) + EventWords(last)
  {
    assert (events + [last])[..|events|] == events;
  }

  lemma {:induction false} FinalWordsConcat(a: seq<TranscriptEvent>, b: seq<TranscriptEvent>)
    ensures FinalWords(a + b) == FinalWords(a) + FinalWords(b)
  {
    hide EventWords;
    if b == [] {
      assert a + b == a;
    } else {
      var front, last := b[..|b| - 1], b[|b| - 1];
      FinalWordsConcat(a, front);
      FinalWordsSnoc(a + front, last);
      FinalWordsSnoc(front, last);
      hide FinalWords;
      assert b == front + [last];
      ConcatAssociates(a, front, [last]);
      ConcatAssociates(FinalWords(a), FinalWords(front), EventWords(last));
    }
  }

  /**
   A whole session under an arbitrary schedule. `taken` transcript events have been handled
   or are being handled: the words of the finals among them are, in order, those of all
   replied turns, of the held turn, and of the event still in hand. A held turn is waiting
   for its timer or for a user who is speaking.
   */
  method PlaySession(events: seq<TranscriptEvent>, moves: seq<Move>, holds: bool, soundsUnfinished: string -> bool)
      returns (replied: seq<Turn>, held: Option<Turn>, task: TranscriptTask, taken: nat,
               timerPending: bool, userSpeaking: bool, systemSpeaking: bool)
    ensures taken <= |events|
    ensures FinalWords(events[..taken]) == RepliedWords(replied) + HeldWords(held) + PendingWords(task)
    ensures held.Some? ==> timerPending || userSpeaking
    ensures !(held.Some? && userSpeaking && systemSpeaking)
    ensures timerPending ==> held.Some?
  {
    hide FinalWords, RepliedWords, HeldWords, PendingWords, WordsOf, HasText, Continued;
    var s := new VoiceSession(holds, soundsUnfinished);
    taken := 0;
    NoFinals(events);
    for m := 0 to |moves|
      invariant taken <= |events|
      invariant fresh(s) && fresh(s.state) && s.Valid()
      invariant s.heardWords == FinalWords(events[..taken])
    {
      match moves[m]
      case NextTranscript(stopWaits) =>
        if s.transcriptTask == Idle && taken < |events| {
          assert events[..taken + 1] == events[..taken] + [events[taken]];
          FinalWordsSnoc(events[..taken], events[taken]);
          if events[taken].Partial? {
            s.OnPartial(events[taken], stopWaits);
          } else {
            s.OnFinal(events[taken], stopWaits);
          }
          taken := taken + 1;
        }
      case EndInterruption =>
        if s.transcriptTask.InterruptingFor? {
          s.InterruptionOver();
        }
      case FreeTranscriptTask =>
        if s.transcriptTask == Finishing {
          s.TranscriptTaskFree();
        }
      case HearSpeech(stopWaits) =>
        if !s.audioTaskBusy {
          s.OnSpeech(stopWaits);
        }
      case FreeAudioTask => s.AudioTaskFree();
      case FireHoldTimer =>
        if s.holdTimer {
          s.HoldTimerFires();
        }
      case EndPlayback => s.PlaybackEnded();
    }
    replied, held, task := s.replied, s.held, s.transcriptTask;
    timerPending, userSpeaking, systemSpeaking := s.holdTimer, s.state.isUserSpeaking, s.state.isSystemSpeaking;
  }

  lemma NoFinals(events: seq<TranscriptEvent>)
    ensures FinalWords(events[..0]) == []
  {
  }
}
