/** The client sees well-formed speech: the trace of every run in which no reply is opened over an active one. */
module OutputTrace {
  import opened Sequences
  import opened ReplySystem
  import opened ReplySafety
  import L = LlmGeneration

  /** How far the messages about one reply have got. */
  datatype Stage = Quiet | Open | Closed | Cleared | Broken

  function NextStage(stage: Stage, m: Message): Stage {
    match m
    case TtsStart(_) => if stage == Quiet then Open else Broken
    case Audio(_) => if stage == Open then Open else Broken
    case TtsEnd(_) => if stage == Open then Closed else Broken
    case TtsClear(_) => if stage == Quiet || stage == Broken then Broken else Cleared
  }

  function StageOf(trace: seq<Message>, k: nat): Stage {
    if trace == [] then Quiet
    else
      var m := trace[|trace| - 1];
      var stage := StageOf(trace[..|trace| - 1], k);
      if m.reply == k then NextStage(stage, m) else stage
  }

  lemma StageSnoc(trace: seq<Message>, m: Message, k: nat)
    ensures StageOf(trace + [m], k) == if m.reply == k then NextStage(StageOf(trace, k), m) else StageOf(trace, k)
  {
    assert (trace + [m])[..|trace|] == trace;
  }

  lemma {:induction false} BrokenStays(trace: seq<Message>, n: nat, k: nat)
    requires n <= |trace| && StageOf(trace[..n], k) == Broken
    ensures StageOf(trace, k) == Broken
    decreases |trace|
  {
    if n == |trace| {
      assert trace[..n] == trace;
    } else {
      var init := trace[..|trace| - 1];
      assert init[..n] == trace[..n];
      BrokenStays(init, n, k);
    }
  }

  /** A message is fine for reply k when it comes in one of the stages it may come in. */
  lemma StageAt(trace: seq<Message>, i: nat, k: nat)
    requires i < |trace| && trace[i].reply == k && StageOf(trace, k) != Broken
    ensures NextStage(StageOf(trace[..i], k), trace[i]) == StageOf(trace[..i + 1], k) != Broken
  {
    StageSnoc(trace[..i], trace[i], k);
    assert trace[..i + 1] == trace[..i] + [trace[i]];
    if StageOf(trace[..i + 1], k) == Broken {
      BrokenStays(trace, i + 1, k);
    }
  }

  /** The stages a reply can still be in later. */
  predicate Later(from: Stage, to: Stage) {
    || from == to || to == Broken
    || from == Quiet
    || (from == Open && to != Quiet)
    || (from == Closed && to == Cleared)
  }

  lemma {:induction false} StagesAdvance(trace: seq<Message>, i: nat, j: nat, k: nat)
    requires i <= j <= |trace|
    ensures Later(StageOf(trace[..i], k), StageOf(trace[..j], k))
    decreases j
  {
    if i < j {
      StagesAdvance(trace, i, j - 1, k);
      StageSnoc(trace[..j - 1], trace[j - 1], k);
      assert trace[..j] == trace[..j - 1] + [trace[j - 1]];
    }
  }

  /** Before a reply has reached any stage, it has been started. */
  lemma {:induction false} StartedBefore(trace: seq<Message>, n: nat, k: nat) returns (i: nat)
    requires n <= |trace| && StageOf(trace[..n], k) != Quiet && StageOf(trace, k) != Broken
    ensures i < n && trace[i] == TtsStart(k)
    decreases n
  {
    var m := trace[n - 1];
    StageSnoc(trace[..n - 1], m, k);
    assert trace[..n] == trace[..n - 1] + [m];
    if StageOf(trace[..n - 1], k) == Quiet {
      StageAt(trace, n - 1, k);
      i := n - 1;
    } else {
      i := StartedBefore(trace, n - 1, k);
    }
  }

  /** Every frame comes after a tts_start of its reply, which is the only one, and before its end and its clear. */
  ghost predicate WellSpoken(trace: seq<Message>, k: nat) {
    && (forall j :: 0 <= j < |trace| && trace[j] == Audio(k) ==> exists i :: 0 <= i < j && trace[i] == TtsStart(k))
    && (forall i, j :: 0 <= i < j < |trace| && trace[i] == TtsStart(k) ==> trace[j] != TtsStart(k))
    && (forall i, j :: 0 <= i < j < |trace| && (trace[i] == TtsEnd(k) || trace[i] == TtsClear(k)) ==> trace[j] != Audio(k))
  }

  lemma UnbrokenIsWellSpoken(trace: seq<Message>, k: nat)
    requires StageOf(trace, k) != Broken
    ensures WellSpoken(trace, k)
  {
    forall j | 0 <= j < |trace| && trace[j] == Audio(k)
      ensures exists i :: 0 <= i < j && trace[i] == TtsStart(k)
    {
      StageAt(trace, j, k);
      var i := StartedBefore(trace, j, k);
    }
    forall i, j | 0 <= i < j < |trace| && trace[i] == TtsStart(k)
      ensures trace[j] != TtsStart(k)
    {
      StageAt(trace, i, k);
      StagesAdvance(trace, i + 1, j, k);
      if trace[j] == TtsStart(k) {
        StageAt(trace, j, k);
      }
    }
    forall i, j | 0 <= i < j < |trace| && (trace[i] == TtsEnd(k) || trace[i] == TtsClear(k))
      ensures trace[j] != Audio(k)
    {
      StageAt(trace, i, k);
      StagesAdvance(trace, i + 1, j, k);
      if trace[j] == Audio(k) {
        StageAt(trace, j, k);
      }
    }
  }

  /** The speech messages of earlier replies all come before those of later ones. */
  ghost predicate InReplyOrder(trace: seq<Message>) {
    forall i, j :: 0 <= i < j < |trace| && !trace[i].TtsClear? && !trace[j].TtsClear? ==> trace[i].reply <= trace[j].reply
  }

  // ------------------------------------------------------ no reply opened over another

  /** The actions in which a reply is opened: its `begin` has nothing to stop, or nothing more to wait for. */
  predicate Opens(s: System, a: Action)
    requires Possible(s, a)
  {
    match a
    case CallOpen(_) => !Active(s)
    case Resume(id) => s.calls[id].purpose == NewReply && !s.calls[id].hadAudio
    case ClearSent(id) => s.calls[id].purpose == NewReply
    case _ => false
  }

  /** A reply is opened while the newest one is still active, which nothing will stop then. */
  predicate OpensOver(s: System, a: Action)
    requires Possible(s, a)
  {
    Opens(s, a) && Active(s)
  }

  predicate NeverOpensOver(s: System, actions: seq<Action>)
    requires IsRun(s, actions)
    decreases |actions|
  {
    actions != [] ==> !OpensOver(s, actions[0]) && NeverOpensOver(Act(s, actions[0]), actions[1..])
  }

  /** What the stage of a reply must be, from where its speech task is. */
  predicate StageFits(stage: Stage, speech: Speech) {
    match speech.phase
    case NotStarted => stage == Quiet && speech.frames == 0
    case GetText => stage == if speech.frames == 0 then Quiet else Open
    case Synthesise => stage == if speech.frames == 0 then Quiet else Open
    case SendStart => stage == Open && speech.frames == 0
    case SendFrame => stage == Open
    case Pace => stage == Open && speech.frames > 0
    case Drain => stage == Open && speech.frames > 0
    case SendEnd => stage == Closed
    case Done => stage != Broken
    case _ => stage != Broken && stage != Cleared
  }

  predicate Heard(stage: Stage) {
    stage == Open || stage == Closed || stage == Cleared
  }

  predicate CallFits(s: System, c: Call) {
    && c.target < |s.replies|
    && (if c.Clearing? then s.replies[c.target].speech.phase == SpeechPhase.Done
        else c.hadAudio ==> Heard(StageOf(s.trace, c.target)))
  }

  ghost predicate CallsFit(s: System) {
    forall id :: id in s.calls ==> CallFits(s, s.calls[id])
  }

  ghost predicate TraceFits(s: System) {
    && (forall k :: 0 <= k < |s.replies| ==> StageFits(StageOf(s.trace, k), s.replies[k].speech))
    && (forall i :: 0 <= i < |s.trace| ==> s.trace[i].reply < |s.replies|)
    && (s.audioSent ==> s.replies != [] && Heard(StageOf(s.trace, |s.replies| - 1)))
    && InReplyOrder(s.trace)
  }

  ghost predicate OnlyNewestSpeaks(s: System) {
    forall k :: 0 <= k < |s.replies| - 1 ==> s.replies[k].speech.phase == SpeechPhase.Done
  }

  ghost predicate Inv(s: System) {
    CallsFit(s) && TraceFits(s) && OnlyNewestSpeaks(s)
  }

  lemma {:induction false} UnmentionedIsQuiet(trace: seq<Message>, k: nat)
    requires forall i :: 0 <= i < |trace| ==> trace[i].reply != k
    ensures StageOf(trace, k) == Quiet
  {
    if trace != [] {
      UnmentionedIsQuiet(trace[..|trace| - 1], k);
    }
  }

  /** Only the phases of the coroutines, the calls and the trace matter. */
  lemma SameSpeechInv(s: System, t: System)
    requires Inv(s) && SameSpeech(s, t) && |s.replies| == |t.replies|
    requires t.calls == s.calls && t.trace == s.trace && t.audioSent == s.audioSent
    ensures Inv(t)
  {
    forall id | id in t.calls
      ensures CallFits(t, t.calls[id])
    {
      assert CallFits(s, s.calls[id]);
    }
  }

  lemma OpenReplyInv(s: System)
    requires Inv(s) && !Active(s)
    ensures Inv(OpenReply(s))
  {
    var t := OpenReply(s);
    var n := |s.replies|;
    UnmentionedIsQuiet(s.trace, n);
    forall k | 0 <= k < |t.replies|
      ensures StageFits(StageOf(t.trace, k), t.replies[k].speech)
    {
      if k < n {
        assert t.replies[k].speech == s.replies[k].speech;
      }
    }
    forall id | id in t.calls
      ensures CallFits(t, t.calls[id])
    {
      assert CallFits(s, s.calls[id]);
    }
  }

  lemma ReturnedInv(s: System, id: nat, purpose: Purpose)
    requires Inv(s)
    requires purpose == NewReply ==> !Active(s)
    ensures Inv(Returned(s, id, purpose))
  {
    hide OpenReply, CallFits;
    var t := s.(calls := s.calls - {id});
    forall other | other in t.calls
      ensures CallFits(t, t.calls[other])
    {
      assert CallFits(s, s.calls[other]);
      CallFitsSame(s, t, s.calls[other]);
    }
    if purpose == NewReply {
      OpenReplyInv(t);
    }
  }

  lemma CallFitsSame(s: System, t: System, c: Call)
    requires s.replies == t.replies && s.trace == t.trace
    ensures CallFits(s, c) == CallFits(t, c)
  {
  }

  lemma StageFitsCancelled(stage: Stage, speech: Speech)
    ensures StageFits(stage, speech.(cancelRequested := true)) == StageFits(stage, speech)
  {
  }

  lemma CallStopInv(s: System, id: nat, purpose: Purpose)
    requires Inv(s)
    ensures Inv(CallStop(s, id, purpose))
  {
    hide OpenReply;
    if !Active(s) {
      ReturnedInv(s, id, purpose);
    } else {
      hide StageFits;
      var t := CallStop(s, id, purpose);
      forall k | 0 <= k < |t.replies|
        ensures StageFits(StageOf(t.trace, k), t.replies[k].speech)
      {
        StageFitsCancelled(StageOf(s.trace, k), s.replies[k].speech);
      }
      forall other | other in t.calls
        ensures CallFits(t, t.calls[other])
      {
        if other != id {
          assert CallFits(s, s.calls[other]);
        }
      }
    }
  }

  /** A speech task says only what the stage of its reply allows, and its new phase fits the new stage. */
  lemma SpeechNextFits(stage: Stage, r: Reply, k: nat, e: SpeechEvent, next: Option<Item>)
    requires SpeechEnabled(r, e) && StageFits(stage, r.speech)
    ensures var p := SpeechNext(r.speech, k, e, next);
            var stage' := if p.says.Some? then NextStage(stage, p.says.value) else stage;
            && StageFits(stage', p.speech)
            && (Heard(stage) ==> Heard(stage'))
            && (p.audioSent ==> Heard(stage'))
  {
  }

  lemma SpeechActInv(s: System, k: nat, e: SpeechEvent)
    requires Inv(s) && k < |s.replies| && SpeechEnabled(s.replies[k], e)
    ensures Inv(SpeechAct(s, k, e))
  {
    hide SpeechNext, StageOf, NextStage, Heard;
    assert s.replies[k].speech.phase != SpeechPhase.Done;
    assert k == |s.replies| - 1;
    hide SpeechEnabled, StageFits;
    var r := s.replies[k];
    var next := if r.queue == [] then None else Some(r.queue[0]);
    var p := SpeechNext(r.speech, k, e, next);
    SpeechNextFits(StageOf(s.trace, k), r, k, e, next);
    SpeechSaysOwn(r.speech, k, e, next);
    ProceedInv(s, k, p);
  }

  lemma ProceedInv(s: System, k: nat, p: Progress)
    requires Inv(s) && k == |s.replies| - 1 && s.replies[k].speech.phase != SpeechPhase.Done
    requires p.says.Some? ==> About(p.says.value, k)
    requires var stage := StageOf(s.trace, k);
             var stage' := if p.says.Some? then NextStage(stage, p.says.value) else stage;
             && StageFits(stage', p.speech)
             && (Heard(stage) ==> Heard(stage'))
             && (p.audioSent ==> Heard(stage'))
    ensures Inv(Proceed(s, k, p))
  {
    hide StageOf, NextStage, Heard, StageFits;
    var t := Proceed(s, k, p);
    forall j | 0 <= j < |s.replies|
      ensures StageOf(t.trace, j) ==
        if p.says.Some? && j == k then NextStage(StageOf(s.trace, j), p.says.value) else StageOf(s.trace, j)
    {
      if p.says.Some? {
        StageSnoc(s.trace, p.says.value, j);
      } else {
        assert t.trace == s.trace;
      }
    }
    forall id | id in t.calls
      ensures CallFits(t, t.calls[id])
    {
      assert CallFits(s, s.calls[id]);
    }
  }

  lemma ResumeInv(s: System, id: nat)
    requires Inv(s) && Possible(s, Resume(id)) && !OpensOver(s, Resume(id))
    ensures Inv(Act(s, Resume(id)))
  {
    hide Returned;
    var call := s.calls[id];
    assert CallFits(s, call);
    if call.hadAudio {
      var t := Act(s, Resume(id));
      var m := TtsClear(call.target);
      assert t.trace == s.trace + [m];
      forall k | 0 <= k < |t.replies|
        ensures StageFits(StageOf(t.trace, k), t.replies[k].speech)
        ensures Heard(StageOf(s.trace, k)) ==> Heard(StageOf(t.trace, k))
      {
        StageSnoc(s.trace, m, k);
      }
      forall other | other in t.calls
        ensures CallFits(t, t.calls[other])
      {
        if other != id {
          assert CallFits(s, s.calls[other]);
        }
      }
    } else {
      ReturnedInv(s, id, call.purpose);
    }
  }

  lemma ActInv(s: System, a: Action)
    requires Inv(s) && Possible(s, a) && !OpensOver(s, a)
    ensures Inv(Act(s, a))
  {
    hide CallStop, Returned, SpeechAct, Generate, CallFits, StageOf, StageFits;
    match a
    case CancelGeneration => SameSpeechInv(s, CancelNewest(s));
    case CallInterrupt(id) =>
      SameSpeechInv(s, CancelNewest(s));
      CallStopInv(CancelNewest(s), id, BargeIn);
    case CallOpen(id) => CallStopInv(s, id, NewReply);
    case Resume(id) => ResumeInv(s, id);
    case ClearSent(id) =>
      ReturnedInv(s, id, s.calls[id].purpose);
    case SpeechStep(k, e) => SpeechActInv(s, k, e);
    case GenerationStep(k, e) =>
      GenerateKeepsSpeech(s, k, e);
      SameSpeechInv(s, Generate(s, k, e));
  }

  lemma {:induction false} RunInv(s: System, actions: seq<Action>)
    requires Inv(s) && IsRun(s, actions) && NeverOpensOver(s, actions)
    ensures Inv(After(s, actions))
    decreases |actions|
  {
    hide Inv, Act, Possible, Opens;
    if actions != [] {
      ActInv(s, actions[0]);
      RunInv(Act(s, actions[0]), actions[1..]);
    }
  }

  /**
   Output trace safety: in every run in which no reply is opened over an active one, whatever is
   cancelled at whatever point, the speech of different replies never interleaves, every
   frame follows the one tts_start of its reply, and none follows its tts_end or tts_clear.
   */
  lemma OutputIsWellFormed(actions: seq<Action>, k: nat)
    requires IsRun(INITIAL, actions) && NeverOpensOver(INITIAL, actions)
    ensures var trace := After(INITIAL, actions).trace;
            InReplyOrder(trace) && WellSpoken(trace, k)
  {
    hide Act, Possible;
    assert Inv(INITIAL);
    RunInv(INITIAL, actions);
    var s := After(INITIAL, actions);
    if k >= |s.replies| {
      UnmentionedIsQuiet(s.trace, k);
    }
    UnbrokenIsWellSpoken(s.trace, k);
  }

  // ------------------------------------------------------ exactly when only the newest reply speaks

  lemma ReturnedSpeech(s: System, id: nat, purpose: Purpose)
    requires OnlyNewestSpeaks(s)
    ensures OnlyNewestSpeaks(Returned(s, id, purpose)) <==> !(purpose == NewReply && Active(s))
  {
    if purpose == NewReply {
      var t := Returned(s, id, purpose);
      assert |t.replies| == |s.replies| + 1;
      if s.replies != [] {
        var last := |s.replies| - 1;
        assert t.replies[last].speech == s.replies[last].speech;
      }
      forall k | 0 <= k < |s.replies|
        ensures t.replies[k].speech == s.replies[k].speech
      {
      }
    }
  }

  /** From a state where only the newest reply speaks, the one thing that lets two speak is to open over an active one. */
  lemma OnlyNewestSpeaksIff(s: System, a: Action)
    requires OnlyNewestSpeaks(s) && Possible(s, a)
    ensures OnlyNewestSpeaks(Act(s, a)) <==> !OpensOver(s, a)
  {
    hide Returned, SpeechAct, Generate, SpeechEnabled;
    match a
    case CancelGeneration =>
    case CallInterrupt(id) =>
      var c := CancelNewest(s);
      assert Active(c) == Active(s);
      StopSpeech(c, id, BargeIn);
    case CallOpen(id) => StopSpeech(s, id, NewReply);
    case Resume(id) =>
      if !s.calls[id].hadAudio {
        ReturnedSpeech(s, id, s.calls[id].purpose);
      }
    case ClearSent(id) => ReturnedSpeech(s, id, s.calls[id].purpose);
    case SpeechStep(k, e) => OwnSpeechOnly(s, k, e);
    case GenerationStep(k, e) => GenerateKeepsSpeech(s, k, e);
  }

  lemma OwnSpeechOnly(s: System, k: nat, e: SpeechEvent)
    requires OnlyNewestSpeaks(s) && k < |s.replies| && SpeechEnabled(s.replies[k], e)
    ensures OnlyNewestSpeaks(SpeechAct(s, k, e))
  {
    assert s.replies[k].speech.phase != SpeechPhase.Done;
    SpeechActTrace(s, k, e);
    hide SpeechAct, SpeechEnabled;
  }

  lemma StopSpeech(s: System, id: nat, purpose: Purpose)
    requires OnlyNewestSpeaks(s)
    ensures OnlyNewestSpeaks(CallStop(s, id, purpose))
  {
    if !Active(s) {
      ReturnedSpeech(s, id, purpose);
    }
    hide Returned;
  }

  /** In every state of the run at most the newest speech task is running. */
  ghost predicate OneSpeaks(s: System, actions: seq<Action>)
    requires IsRun(s, actions)
    decreases |actions|
  {
    OnlyNewestSpeaks(s) && (actions != [] ==> OneSpeaks(Act(s, actions[0]), actions[1..]))
  }

  /** Over every run: it stays that way exactly if no reply is opened over an active one. */
  lemma {:induction false} OneSpeaksIff(s: System, actions: seq<Action>)
    requires IsRun(s, actions) && OnlyNewestSpeaks(s)
    ensures OneSpeaks(s, actions) <==> NeverOpensOver(s, actions)
    decreases |actions|
  {
    hide Act, Possible, OnlyNewestSpeaks, OpensOver;
    if actions != [] {
      var t := Act(s, actions[0]);
      OnlyNewestSpeaksIff(s, actions[0]);
      if OnlyNewestSpeaks(t) {
        OneSpeaksIff(t, actions[1..]);
      }
    }
  }

  // ------------------------------------------------------ opening one at a time is enough

  predicate Opening(s: System) {
    exists id :: id in s.calls && s.calls[id].purpose == NewReply
  }

  /** No call of `begin` starts while another one is still waiting. */
  predicate OneAtATime(s: System, actions: seq<Action>)
    requires IsRun(s, actions)
    decreases |actions|
  {
    actions != [] ==>
      && (actions[0].CallOpen? ==> !Opening(s))
      && OneAtATime(Act(s, actions[0]), actions[1..])
  }

  /** A waiting `begin` is the only one, and waits for the newest speech task. */
  ghost predicate Serial(s: System) {
    && (forall id :: id in s.calls && s.calls[id].purpose == NewReply ==>
          && s.calls[id].target == |s.replies| - 1
          && (s.calls[id].Clearing? ==> s.replies[s.calls[id].target].speech.phase == SpeechPhase.Done))
    && (forall id, other | id in s.calls && other in s.calls ::
          s.calls[id].purpose == NewReply == s.calls[other].purpose ==> id == other)
  }

  lemma SerialStep(s: System, a: Action)
    requires Serial(s) && Possible(s, a) && (a.CallOpen? ==> !Opening(s))
    ensures Serial(Act(s, a)) && !OpensOver(s, a)
  {
    hide SpeechAct, Generate, CallStop, Returned, CancelNewest;
    match a
    case CancelGeneration => SerialCancelled(s);
    case CallInterrupt(id) =>
      SerialCancelled(s);
      SerialStop(CancelNewest(s), id, BargeIn);
    case CallOpen(id) => SerialStop(s, id, NewReply);
    case Resume(id) =>
      if !s.calls[id].hadAudio {
        SerialReturned(s, id);
      }
    case ClearSent(id) => SerialReturned(s, id);
    case SpeechStep(k, e) =>
      assert s.replies[k].speech.phase != SpeechPhase.Done;
      SpeechActTrace(s, k, e);
    case GenerationStep(k, e) => GenerateKeepsSpeech(s, k, e);
  }

  lemma SerialCancelled(s: System)
    requires Serial(s)
    ensures Serial(CancelNewest(s)) && CancelNewest(s).calls == s.calls
  {
  }

  /** The one `begin` that waits goes on, and no other is waiting then. */
  lemma SerialReturned(s: System, id: nat)
    requires Serial(s) && id in s.calls
    requires s.calls[id].target < |s.replies| ==>
               s.replies[s.calls[id].target].speech.phase == SpeechPhase.Done || s.calls[id].Clearing?
    ensures Serial(Returned(s, id, s.calls[id].purpose))
    ensures s.calls[id].purpose == NewReply ==> !Active(s)
  {
  }

  lemma SerialStop(s: System, id: nat, purpose: Purpose)
    requires Serial(s) && id !in s.calls && (purpose == NewReply ==> !Opening(s))
    ensures Serial(CallStop(s, id, purpose))
  {
  }

  lemma {:induction false} OneAtATimeSuffices(s: System, actions: seq<Action>)
    requires Serial(s) && IsRun(s, actions) && OneAtATime(s, actions)
    ensures NeverOpensOver(s, actions)
    decreases |actions|
  {
    hide Act, Possible, Opening, Serial, OpensOver;
    if actions != [] {
      SerialStep(s, actions[0]);
      OneAtATimeSuffices(Act(s, actions[0]), actions[1..]);
    }
  }
}
