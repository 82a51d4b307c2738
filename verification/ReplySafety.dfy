/** What holds in every run of the reply system. */
module ReplySafety {
  import opened Sequences
  import opened Text
  import opened ReplySystem
  import L = LlmGeneration

  // ------------------------------------------------------ reply isolation

  /** What the phase of a generation says about its outcome. */
  predicate OutcomeFits(g: L.Generation) {
    && (g.phase == L.SendError ==> g.outcome == L.Failed)
    && (g.phase == L.SendCancelled ==> g.outcome == L.Cancelled)
  }

  predicate HasFailed(g: L.Generation) {
    g.phase == L.Done && g.outcome == L.Failed
  }

  /** An item of queue k is from generation k, or is the end mark of an earlier generation that failed. */
  predicate Belongs(s: System, k: nat, entry: (nat, Item)) {
    || entry.0 == k
    || (entry.1 == EndMark && entry.0 < k && entry.0 < |s.replies| && HasFailed(s.replies[entry.0].generation))
  }

  ghost predicate Isolated(s: System) {
    && (forall k :: 0 <= k < |s.replies| ==> OutcomeFits(s.replies[k].generation))
    && (forall k :: 0 <= k < |s.replies| - 1 ==> L.Retired(s.replies[k].generation))
    && (forall k, i :: 0 <= k < |s.replies| && 0 <= i < |s.replies[k].accepted| ==> Belongs(s, k, s.replies[k].accepted[i]))
  }

  /** Steps that touch neither the generations nor the queues' history. */
  ghost predicate SameQueues(s: System, t: System) {
    && |s.replies| == |t.replies|
    && forall k :: 0 <= k < |s.replies| ==>
         s.replies[k].generation == t.replies[k].generation && s.replies[k].accepted == t.replies[k].accepted
  }

  lemma SpeechActKeepsQueues(s: System, k: nat, e: SpeechEvent)
    requires k < |s.replies| && SpeechEnabled(s.replies[k], e)
    ensures SameQueues(s, SpeechAct(s, k, e))
  {
    hide SpeechNext, SpeechEnabled;
  }

  lemma SameQueuesIsolated(s: System, t: System)
    requires Isolated(s) && SameQueues(s, t)
    ensures Isolated(t)
  {
    forall k, i | 0 <= k < |t.replies| && 0 <= i < |t.replies[k].accepted|
      ensures Belongs(t, k, t.replies[k].accepted[i])
    {
      assert Belongs(s, k, s.replies[k].accepted[i]);
    }
  }

  lemma CancelNewestIsolated(s: System)
    requires Isolated(s)
    ensures Isolated(CancelNewest(s)) && |CancelNewest(s).replies| == |s.replies|
    ensures forall k :: 0 <= k < |s.replies| ==> CancelNewest(s).replies[k].accepted == s.replies[k].accepted
    ensures s.replies != [] ==> L.Retired(Last(CancelNewest(s)).generation)
  {
    var t := CancelNewest(s);
    forall k, i | 0 <= k < |t.replies| && 0 <= i < |t.replies[k].accepted|
      ensures Belongs(t, k, t.replies[k].accepted[i])
    {
      assert Belongs(s, k, s.replies[k].accepted[i]);
    }
  }

  lemma OpenReplyIsolated(s: System)
    requires Isolated(s)
    ensures Isolated(OpenReply(s))
  {
    CancelNewestIsolated(s);
    var c, t := CancelNewest(s), OpenReply(s);
    forall k, i | 0 <= k < |t.replies| && 0 <= i < |t.replies[k].accepted|
      ensures Belongs(t, k, t.replies[k].accepted[i])
    {
      assert Belongs(c, k, c.replies[k].accepted[i]);
    }
  }

  lemma CallStopIsolated(s: System, id: nat, purpose: Purpose)
    requires Isolated(s)
    ensures Isolated(CallStop(s, id, purpose))
  {
    hide OpenReply;
    if Active(s) {
      SameQueuesIsolated(s, CallStop(s, id, purpose));
    } else {
      ReturnedIsolated(s, id, purpose);
    }
  }

  lemma ReturnedIsolated(s: System, id: nat, purpose: Purpose)
    requires Isolated(s)
    ensures Isolated(Returned(s, id, purpose))
  {
    var t := s.(calls := s.calls - {id});
    SameQueuesIsolated(s, t);
    OpenReplyIsolated(t);
  }

  lemma PutIsolated(s: System, g: nat, item: Item)
    requires Isolated(s) && s.replies != [] && Belongs(s, |s.replies| - 1, (g, item))
    ensures Isolated(Put(s, g, item))
    ensures forall k :: 0 <= k < |s.replies| ==> Put(s, g, item).replies[k].generation == s.replies[k].generation
    ensures |Put(s, g, item).replies| == |s.replies|
  {
    var t := Put(s, g, item);
    forall k, i | 0 <= k < |t.replies| && 0 <= i < |t.replies[k].accepted|
      ensures Belongs(t, k, t.replies[k].accepted[i])
    {
      if i < |s.replies[k].accepted| {
        assert Belongs(s, k, s.replies[k].accepted[i]);
      } else {
        assert Belongs(s, k, (g, item));
      }
    }
  }

  lemma {:induction false} SpeakAllIsolated(s: System, g: nat, segments: seq<string>)
    requires Isolated(s) && g + 1 == |s.replies|
    ensures Isolated(SpeakAll(s, g, segments))
    ensures |SpeakAll(s, g, segments).replies| == |s.replies|
    ensures forall k :: 0 <= k < |s.replies| ==> SpeakAll(s, g, segments).replies[k].generation == s.replies[k].generation
    decreases |segments|
  {
    hide HasText;
    if segments != [] {
      if Active(s) && HasText(segments[0]) {
        PutIsolated(s, g, Segment(segments[0]));
      }
      SpeakAllIsolated(Speak(s, g, segments[0]), g, segments[1..]);
    }
  }

  /** What a step of a single generation means for the others. */
  lemma GenerationStepFits(g: L.Generation, e: L.Event)
    requires L.Enabled(g, e) && OutcomeFits(g)
    ensures OutcomeFits(L.Step(g, e).0)
    ensures L.Retired(g) ==> L.Retired(L.Step(g, e).0) && L.Step(g, e).1.segments == []
    ensures L.Retired(g) && L.Step(g, e).1.completed.Some? ==>
      L.Step(g, e).1.completed.value != L.Completed && (L.Step(g, e).1.completed == Some(L.Failed) ==> HasFailed(L.Step(g, e).0))
    ensures !HasFailed(g)
  {
    hide L.FeedToken, L.FlushRest;
    if L.Retired(g) {
      L.RetiredStaysSilent(g, e);
    }
    FeedAndFlush(g);
  }

  lemma FeedAndFlush(g: L.Generation)
    ensures L.FlushRest(g).0.phase == L.SendFinal && L.FlushRest(g).1.completed == None
    ensures forall t :: L.FeedToken(g, t).0.phase == L.AwaitToken && L.FeedToken(g, t).1.completed == None
  {
  }

  lemma GenerateIsolated(s: System, k: nat, e: L.Event)
    requires Isolated(s) && k < |s.replies| && L.Enabled(s.replies[k].generation, e)
    ensures Isolated(Generate(s, k, e))
  {
    hide L.Step;
    var (g, effect) := L.Step(s.replies[k].generation, e);
    GenerationStepFits(s.replies[k].generation, e);
    var t := WithReply(s, k, s.replies[k].(generation := g));
    forall j, i | 0 <= j < |t.replies| && 0 <= i < |t.replies[j].accepted|
      ensures Belongs(t, j, t.replies[j].accepted[i])
    {
      assert Belongs(s, j, s.replies[j].accepted[i]);
    }
    if k + 1 == |s.replies| {
      SpeakAllIsolated(t, k, effect.segments);
    }
    var u := SpeakAll(t, k, effect.segments);
    if effect.completed.Some? && effect.completed.value != L.Cancelled && Active(u) {
      assert Belongs(u, |u.replies| - 1, (k, EndMark));
      PutIsolated(u, k, EndMark);
    }
  }

  lemma ActIsolated(s: System, a: Action)
    requires Isolated(s) && Possible(s, a)
    ensures Isolated(Act(s, a))
  {
    hide SpeechAct, Generate, CallStop, Returned, CancelNewest, Belongs;
    match a
    case CancelGeneration => CancelNewestIsolated(s);
    case CallInterrupt(id) =>
      CancelNewestIsolated(s);
      CallStopIsolated(CancelNewest(s), id, BargeIn);
    case CallOpen(id) => CallStopIsolated(s, id, NewReply);
    case Resume(id) =>
      if s.calls[id].hadAudio {
        SameQueuesIsolated(s, Act(s, a));
      } else {
        ReturnedIsolated(s, id, s.calls[id].purpose);
      }
    case ClearSent(id) => ReturnedIsolated(s, id, s.calls[id].purpose);
    case SpeechStep(k, e) =>
      SpeechActKeepsQueues(s, k, e);
      SameQueuesIsolated(s, SpeechAct(s, k, e));
    case GenerationStep(k, e) => GenerateIsolated(s, k, e);
  }

  lemma {:induction false} RunIsolated(s: System, actions: seq<Action>)
    requires Isolated(s) && IsRun(s, actions)
    ensures Isolated(After(s, actions))
    decreases |actions|
  {
    hide Isolated, Act, Possible;
    if actions != [] {
      ActIsolated(s, actions[0]);
      RunIsolated(Act(s, actions[0]), actions[1..]);
    }
  }

  /**
   Reply isolation, over every interleaving (replies may even be opened at the same time):
   every text segment accepted into a reply's queue came from the generation started for
   that reply. An end mark may also come from an earlier generation, but only from one that
   failed.
   */
  lemma SegmentsStayWithTheirReply(actions: seq<Action>, k: nat, i: nat)
    requires IsRun(INITIAL, actions)
    requires k < |After(INITIAL, actions).replies| && i < |After(INITIAL, actions).replies[k].accepted|
    ensures var s := After(INITIAL, actions);
            var (g, item) := s.replies[k].accepted[i];
            && (item.Segment? ==> g == k)
            && (item == EndMark ==> g == k || (g < k && HasFailed(s.replies[g].generation)))
  {
    hide Act, Possible;
    assert Isolated(INITIAL);
    RunIsolated(INITIAL, actions);
    var s := After(INITIAL, actions);
    assert Belongs(s, k, s.replies[k].accepted[i]);
  }

  // ------------------------------------------------------ exactly when an end mark goes astray

  /** Generation g, failed and superseded, has sent its error message while the newest reply is active. */
  predicate LeaksEndMark(s: System, a: Action, g: nat)
    requires Possible(s, a)
  {
    && a.GenerationStep? && a.reply == g && g + 1 < |s.replies|
    && s.replies[g].generation.phase == L.SendError && Active(s)
  }

  predicate HasEndMarkOf(s: System, k: nat, g: nat) {
    k < |s.replies| && (g, EndMark) in s.replies[k].accepted
  }

  /** A superseded generation puts its end mark into the newest queue in that step, and nothing anywhere in any other. */
  lemma SupersededStep(s: System, g: nat, e: L.Event)
    requires Isolated(s) && g + 1 < |s.replies| && L.Enabled(s.replies[g].generation, e)
    ensures var t, last := Generate(s, g, e), |s.replies| - 1;
            && |t.replies| == |s.replies|
            && (forall k :: 0 <= k < last ==> t.replies[k].accepted == s.replies[k].accepted)
            && t.replies[last].accepted
               == s.replies[last].accepted
                  + if s.replies[g].generation.phase == L.SendError && Active(s) then [(g, EndMark)] else []
  {
    hide L.FeedToken, L.FlushRest;
    L.RetiredStaysSilent(s.replies[g].generation, e);
    assert OutcomeFits(s.replies[g].generation);
  }

  /** The newest generation only ever adds to its own queue. */
  lemma NewestStep(s: System, g: nat, e: L.Event)
    requires g + 1 == |s.replies| && L.Enabled(s.replies[g].generation, e)
    ensures var t := Generate(s, g, e);
            && |t.replies| == |s.replies|
            && (forall k :: 0 <= k < g ==> t.replies[k].accepted == s.replies[k].accepted)
            && (forall h :: h != g ==> (HasEndMarkOf(t, g, h) <==> HasEndMarkOf(s, g, h)))
  {
    hide L.Step;
    var (own, effect) := L.Step(s.replies[g].generation, e);
    var start := WithReply(s, g, s.replies[g].(generation := own));
    SpeakAllAddsOwn(start, g, effect.segments);
    var spoken := SpeakAll(start, g, effect.segments);
    FinishAddsOwn(spoken, g);
    assert Generate(s, g, e) == spoken || Generate(s, g, e) == Finish(spoken, g);
    hide SpeakAll, Finish, Generate;
  }

  lemma FinishAddsOwn(s: System, g: nat)
    requires g + 1 == |s.replies|
    ensures var t := Finish(s, g);
            && |t.replies| == |s.replies|
            && (forall k :: 0 <= k < g ==> t.replies[k].accepted == s.replies[k].accepted)
            && (forall h :: h != g ==> (HasEndMarkOf(t, g, h) <==> HasEndMarkOf(s, g, h)))
  {
  }

  lemma {:induction false} SpeakAllAddsOwn(s: System, g: nat, segments: seq<string>)
    requires g + 1 == |s.replies|
    ensures var t := SpeakAll(s, g, segments);
            && |t.replies| == |s.replies|
            && (forall k :: 0 <= k < g ==> t.replies[k].accepted == s.replies[k].accepted)
            && (forall h :: h != g ==> (HasEndMarkOf(t, g, h) <==> HasEndMarkOf(s, g, h)))
    decreases |segments|
  {
    hide HasText;
    if segments != [] {
      SpeakAllAddsOwn(Speak(s, g, segments[0]), g, segments[1..]);
    }
  }

  lemma EndMarkStep(s: System, a: Action, k: nat, g: nat)
    requires Isolated(s) && Possible(s, a) && g < k
    ensures HasEndMarkOf(Act(s, a), k, g)
            <==> HasEndMarkOf(s, k, g) || (LeaksEndMark(s, a, g) && k + 1 == |s.replies|)
  {
    hide Isolated, SpeechAct, Generate;
    match a
    case SpeechStep(j, e) => SpeechActKeepsQueues(s, j, e);
    case GenerationStep(j, e) =>
      if j + 1 < |s.replies| {
        SupersededStep(s, j, e);
      } else {
        NewestStep(s, j, e);
      }
    case _ =>
  }

  /** Generation g leaks into queue k at some step of the run. */
  predicate LeaksDuring(s: System, actions: seq<Action>, k: nat, g: nat)
    requires IsRun(s, actions)
    decreases |actions|
  {
    && actions != []
    && (|| (LeaksEndMark(s, actions[0], g) && k + 1 == |s.replies|)
        || LeaksDuring(Act(s, actions[0]), actions[1..], k, g))
  }

  lemma {:induction false} EndMarkRun(s: System, actions: seq<Action>, k: nat, g: nat)
    requires Isolated(s) && IsRun(s, actions) && g < k
    ensures HasEndMarkOf(After(s, actions), k, g) <==> HasEndMarkOf(s, k, g) || LeaksDuring(s, actions, k, g)
    decreases |actions|
  {
    hide Act, Possible, Isolated, HasEndMarkOf, LeaksEndMark;
    if actions != [] {
      EndMarkStep(s, actions[0], k, g);
      ActIsolated(s, actions[0]);
      EndMarkRun(Act(s, actions[0]), actions[1..], k, g);
    }
  }

  /**
   Over every run: reply k is given the end mark of an earlier reply's generation if and only if,
   while k is the newest reply and active, that generation gets past sending the error message
   with which it had failed.
   */
  lemma ForeignEndMarkIff(actions: seq<Action>, k: nat, g: nat)
    requires IsRun(INITIAL, actions) && g < k
    ensures HasEndMarkOf(After(INITIAL, actions), k, g) <==> LeaksDuring(INITIAL, actions, k, g)
  {
    hide Act, Possible, LeaksEndMark;
    assert Isolated(INITIAL);
    EndMarkRun(INITIAL, actions, k, g);
  }

  // ------------------------------------------------------ a stopped reply stays silent

  predicate Ended(s: System, k: nat) {
    k < |s.replies| && s.replies[k].speech.phase == SpeechPhase.Done
  }

  predicate About(m: Message, k: nat) {
    (m.Audio? || m.TtsStart? || m.TtsEnd?) && m.reply == k
  }

  /** Steps that leave every speech task alone. */
  ghost predicate SameSpeech(s: System, t: System) {
    && |s.replies| <= |t.replies|
    && forall k :: 0 <= k < |s.replies| ==> s.replies[k].speech == t.replies[k].speech
  }

  lemma {:induction false} SpeakAllKeepsSpeech(s: System, g: nat, segments: seq<string>)
    ensures SameSpeech(s, SpeakAll(s, g, segments)) && |SpeakAll(s, g, segments).replies| == |s.replies|
    ensures SpeakAll(s, g, segments).trace == s.trace
    ensures SpeakAll(s, g, segments).calls == s.calls
    ensures SpeakAll(s, g, segments).audioSent == s.audioSent
    decreases |segments|
  {
    hide HasText;
    if segments != [] {
      SpeakAllKeepsSpeech(Speak(s, g, segments[0]), g, segments[1..]);
    }
  }

  lemma GenerateKeepsSpeech(s: System, k: nat, e: L.Event)
    requires k < |s.replies| && L.Enabled(s.replies[k].generation, e)
    ensures SameSpeech(s, Generate(s, k, e)) && |Generate(s, k, e).replies| == |s.replies|
    ensures Generate(s, k, e).trace == s.trace
    ensures Generate(s, k, e).calls == s.calls
    ensures Generate(s, k, e).audioSent == s.audioSent
  {
    hide L.Step;
    var (g, effect) := L.Step(s.replies[k].generation, e);
    SpeakAllKeepsSpeech(WithReply(s, k, s.replies[k].(generation := g)), k, effect.segments);
  }

  /** What a speech task says is about its own reply. */
  lemma SpeechSaysOwn(speech: Speech, k: nat, e: SpeechEvent, next: Option<Item>)
    ensures var says := SpeechNext(speech, k, e, next).says; says.Some? ==> About(says.value, k)
  {
  }

  /** A speech step adds at most one message, about its own reply, and touches no other task. */
  lemma SpeechActTrace(s: System, k: nat, e: SpeechEvent)
    requires k < |s.replies| && SpeechEnabled(s.replies[k], e)
    ensures var t := SpeechAct(s, k, e);
            && (t.trace == s.trace || exists m :: About(m, k) && t.trace == s.trace + [m])
            && |t.replies| == |s.replies| && t.calls == s.calls
            && forall j :: 0 <= j < |s.replies| && j != k ==> t.replies[j].speech == s.replies[j].speech
  {
    hide SpeechNext, SpeechEnabled, About;
    var r := s.replies[k];
    var next := if r.queue == [] then None else Some(r.queue[0]);
    SpeechSaysOwn(r.speech, k, e, next);
  }

  lemma EndedStepIsSilent(s: System, a: Action, k: nat)
    requires Possible(s, a) && Ended(s, k)
    ensures Ended(Act(s, a), k) && s.trace <= Act(s, a).trace
    ensures forall i :: |s.trace| <= i < |Act(s, a).trace| ==> !About(Act(s, a).trace[i], k)
  {
    hide SpeechAct, Generate;
    if a.SpeechStep? {
      SpeechActTrace(s, a.reply, a.speechEvent);
    } else if a.GenerationStep? {
      GenerateKeepsSpeech(s, a.reply, a.generationEvent);
    }
  }

  lemma {:induction false} EndedRunIsSilent(s: System, actions: seq<Action>, k: nat)
    requires IsRun(s, actions) && Ended(s, k)
    ensures s.trace <= After(s, actions).trace
    ensures forall i :: |s.trace| <= i < |After(s, actions).trace| ==> !About(After(s, actions).trace[i], k)
    decreases |actions|
  {
    hide Act, Possible, Ended, About;
    if actions != [] {
      EndedStepIsSilent(s, actions[0], k);
      EndedRunIsSilent(Act(s, actions[0]), actions[1..], k);
    }
  }

  /**
   Once a barge-in's `stop` has seen the speech task end (its caller, and the tts_clear it
   may send, come after that), no audio frame, tts_start or tts_end of that reply is sent
   any more, whatever happens next.
   */
  lemma StoppedReplyStaysSilent(s: System, id: nat, actions: seq<Action>)
    requires Possible(s, Resume(id)) && IsRun(Act(s, Resume(id)), actions)
    ensures var k := s.calls[id].target;
            var final := After(Act(s, Resume(id)), actions).trace;
            && s.trace <= final
            && forall i :: |s.trace| <= i < |final| ==> !About(final[i], k)
  {
    hide About;
    var k := s.calls[id].target;
    EndedStepIsSilent(s, Resume(id), k);
    EndedRunIsSilent(Act(s, Resume(id)), actions, k);
  }
}
