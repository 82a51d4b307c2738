/** Runs that show where the reply system's guarantees end. */
module ReplyWitnesses {
  import opened Sequences
  import opened Text
  import opened SentenceChunking
  import opened ReplySystem
  import opened OutputTrace
  import L = LlmGeneration

  /** One more action at the end of a run. */
  lemma {:induction false} Extend(s: System, actions: seq<Action>, a: Action)
    requires IsRun(s, actions) && Possible(After(s, actions), a)
    ensures IsRun(s, actions + [a])
    ensures After(s, actions + [a]) == Act(After(s, actions), a)
    ensures OneAtATime(s, actions) && (a.CallOpen? ==> !Opening(After(s, actions))) ==> OneAtATime(s, actions + [a])
    decreases |actions|
  {
    hide Act, Possible, Opening;
    if actions == [] {
      assert [] + [a] == [a] && [a][1..] == [];
    } else {
      Extend(Act(s, actions[0]), actions[1..], a);
      assert (actions + [a])[1..] == actions[1..] + [a];
    }
  }

  /** Only tasks of the reply side go on in between. */
  ghost predicate GoesOn(actions: seq<Action>, longer: seq<Action>) {
    && actions <= longer
    && forall i :: |actions| <= i < |longer| ==> longer[i].SpeechStep? || longer[i].GenerationStep?
  }

  /** The run with one more action. */
  lemma Then(actions: seq<Action>, a: Action) returns (longer: seq<Action>)
    requires IsRun(INITIAL, actions) && Possible(After(INITIAL, actions), a)
    ensures longer == actions + [a] && IsRun(INITIAL, longer)
    ensures After(INITIAL, longer) == Act(After(INITIAL, actions), a)
    ensures OneAtATime(INITIAL, actions) && (a.CallOpen? ==> !Opening(After(INITIAL, actions))) ==> OneAtATime(INITIAL, longer)
  {
    hide Act, Possible, Opening;
    longer := actions + [a];
    Extend(INITIAL, actions, a);
  }

  /** The system with reply k's speech task in another state. */
  function Speaking(s: System, k: nat, speech: Speech): System
    requires k < |s.replies|
  {
    s.(replies := s.replies[k := s.replies[k].(speech := speech)])
  }

  const LINE := "a\n"

  /** One line of text is a segment of its own. */
  lemma LineIsASegment()
    ensures Segments(LINE, Cuts(LINE, DEFAULT_LIMITS)) == ["a"] && Remainder(LINE, DEFAULT_LIMITS) == ""
    ensures HasText("a")
  {
    assert !IsSpace('a') && IsSpace('\n');
    hide IsSpace;
    assert LINE[..1] == "a" && !IsSpace("a"[0]);
    assert Cut(LINE, DEFAULT_LIMITS) == Some(2);
    assert LINE[2..] == "" && LINE[..2] == LINE;
    assert Cuts(LINE, DEFAULT_LIMITS) == [2];
    assert TrimLeft(LINE) == LINE;
    assert TrimRight(LINE) == "a";
  }

  /** From a fresh reply to one whose speech task waits for its engine with one segment taken. */
  lemma SpeakALine(actions: seq<Action>, k: nat) returns (longer: seq<Action>)
    requires IsRun(INITIAL, actions)
    requires var s := After(INITIAL, actions);
             && k + 1 == |s.replies|
             && Last(s) == Reply(Speech(NotStarted, false, 0), L.CREATED, [], [])
    ensures IsRun(INITIAL, longer) && (OneAtATime(INITIAL, actions) ==> OneAtATime(INITIAL, longer))
    ensures GoesOn(actions, longer)
    ensures var s, t := After(INITIAL, actions), After(INITIAL, longer);
            && |t.replies| == k + 1 && t.replies[..k] == s.replies[..k]
            && t.calls == s.calls && t.audioSent == s.audioSent && t.trace == s.trace
            && Last(t).speech == Speech(Synthesise, false, 0) && Last(t).queue == []
            && Last(t).generation.phase == L.AwaitToken && !Last(t).generation.cancelRequested
            && Last(t).accepted == [(k, Segment("a"))]
  {
    hide IsRun, After, OneAtATime, Opening, SpeechAct, Generate;
    longer := GenerateALine(actions, k);
    var s := After(INITIAL, longer);
    longer := Then(longer, SpeechStep(k, Start));
    StartsAndTakes(s, k);
    longer := Then(longer, SpeechStep(k, SpeechEvent.Text(false)));
  }

  lemma StartsAndTakes(s: System, k: nat)
    requires k + 1 == |s.replies| && Last(s).speech == Speech(NotStarted, false, 0) && Last(s).queue == [Segment("a")]
    ensures var t := SpeechAct(s, k, Start);
            && t == Speaking(s, k, Speech(GetText, false, 0))
            && SpeechEnabled(Last(t), SpeechEvent.Text(false))
            && SpeechAct(t, k, SpeechEvent.Text(false))
               == WithReply(s, k, Last(s).(speech := Speech(Synthesise, false, 0), queue := []))
  {
    var t := SpeechAct(s, k, Start);
    assert SpeechAct(t, k, SpeechEvent.Text(false)).replies
        == s.replies[k := Last(s).(speech := Speech(Synthesise, false, 0), queue := [])];
  }

  lemma GenerateALine(actions: seq<Action>, k: nat) returns (longer: seq<Action>)
    requires IsRun(INITIAL, actions)
    requires var s := After(INITIAL, actions);
             && k + 1 == |s.replies|
             && Last(s) == Reply(Speech(NotStarted, false, 0), L.CREATED, [], [])
    ensures IsRun(INITIAL, longer) && (OneAtATime(INITIAL, actions) ==> OneAtATime(INITIAL, longer))
    ensures GoesOn(actions, longer)
    ensures var s, t := After(INITIAL, actions), After(INITIAL, longer);
            t == WithReply(s, k, Reply(Speech(NotStarted, false, 0),
              L.CREATED.(phase := L.AwaitToken, text := LINE, buffer := "", handed := ["a"]),
              [Segment("a")], [(k, Segment("a"))]))
  {
    hide IsRun, After, OneAtATime, Opening, Cuts, Remainder, Segments, HasText, CancelNewest, CallStop, Returned, SpeechAct;
    var s0 := After(INITIAL, actions);
    longer := Then(actions, GenerationStep(k, L.Start));
    var s1 := After(INITIAL, longer);
    assert s1 == WithReply(s0, k, Last(s0).(generation := L.CREATED.(phase := L.AwaitToken)));
    longer := Then(longer, GenerationStep(k, L.Token(LINE)));
    var s2 := After(INITIAL, longer);
    assert "" + LINE == LINE;
    assert s2 == WithReply(s1, k, Last(s1).(generation := L.CREATED.(phase := L.SendPartial(LINE), text := LINE)));
    SpokenLine(s2, k);
    longer := Then(longer, GenerationStep(k, L.SendOk));
    assert After(INITIAL, longer).replies == s0.replies[k := Last(After(INITIAL, longer))];
  }

  lemma SpokenLine(s: System, k: nat)
    requires k + 1 == |s.replies| && Active(s)
    requires Last(s).generation == L.CREATED.(phase := L.SendPartial(LINE), text := LINE)
    requires Last(s).queue == [] && Last(s).accepted == []
    ensures var t := Generate(s, k, L.SendOk);
            t == WithReply(s, k, Last(s).(
              generation := L.CREATED.(phase := L.AwaitToken, text := LINE, buffer := "", handed := ["a"]),
              queue := [Segment("a")], accepted := [(k, Segment("a"))]))
  {
    hide Cuts, Remainder, Segments, HasText;
    LineIsASegment();
    var g := Last(s).generation;
    assert "" + LINE == LINE;
    var (g', effect) := L.Step(g, L.SendOk);
    assert effect == L.Effect(["a"], None);
    var t := WithReply(s, k, Last(s).(generation := g'));
    assert ["a"][1..] == [] && Active(t);
    assert Speak(t, k, "a") == Put(t, k, Segment("a"));
    assert SpeakAll(t, k, ["a"]) == SpeakAll(Put(t, k, Segment("a")), k, []) == Put(t, k, Segment("a"));
    assert g'.handed == ["a"] && [] + [Segment("a")] == [Segment("a")];
    assert Generate(s, k, L.SendOk) == Put(t, k, Segment("a"));
    assert g' == L.CREATED.(phase := L.AwaitToken, text := LINE, buffer := "", handed := ["a"]);
    var r := Reply(Last(s).speech, g', [Segment("a")], [(k, Segment("a"))]);
    assert Last(t).accepted + [(k, Segment("a"))] == [(k, Segment("a"))];
    assert Put(t, k, Segment("a")).replies[k] == r;
    assert Put(t, k, Segment("a")).replies == s.replies[k := r];
  }

  /**
   A generation that failed can end the next reply before it starts. Reply 0's speech has
   already failed when its generation fails too; while the error is still being sent to the
   client, the user speaks: the barge-in cancels generation 0 and returns at once, and
   reply 1 is opened in the same breath. Then generation 0 gets its cancellation, leaves its
   error handler and, its outcome being "failed", calls `finish`: on reply 1.
   */
  lemma FailedReplyEndsTheNext() returns (actions: seq<Action>)
    ensures IsRun(INITIAL, actions) && OneAtATime(INITIAL, actions)
    ensures var s := After(INITIAL, actions);
            && |s.replies| == 2
            && s.replies[1].accepted == [(0, EndMark)] && s.replies[1].queue == [EndMark]
            && s.replies[1].generation == L.CREATED && s.replies[1].speech == Speech(NotStarted, false, 0)
  {
    actions := FirstReply();
    actions := SpeakALine(actions, 0);
    actions := SpeechFails(actions);
    actions := InterruptedWhileFailing(actions);
    hide IsRun, After, OneAtATime, L.FeedToken, L.FlushRest;
    actions := Then(actions, CallOpen(2));
    var s := After(INITIAL, actions);
    assert |s.replies| == 2 && s.replies[1] == Reply(Speech(NotStarted, false, 0), L.CREATED, [], []);
    assert s.replies[0].generation.phase == L.SendError && s.replies[0].generation.cancelRequested;
    actions := Then(actions, GenerationStep(0, L.Deliver));
  }

  /** The generation fails, and a barge-in cancels it while its error message is being sent. */
  lemma InterruptedWhileFailing(actions: seq<Action>) returns (longer: seq<Action>)
    requires IsRun(INITIAL, actions) && OneAtATime(INITIAL, actions)
    requires var s := After(INITIAL, actions);
             && |s.replies| == 1 && s.calls == map[]
             && s.replies[0].speech == Speech(SpeechPhase.Done, false, 0)
             && s.replies[0].generation.phase == L.AwaitToken && !s.replies[0].generation.cancelRequested
    ensures IsRun(INITIAL, longer) && OneAtATime(INITIAL, longer)
    ensures var t := After(INITIAL, longer);
            && |t.replies| == 1 && t.calls == map[]
            && t.replies[0].speech == Speech(SpeechPhase.Done, false, 0)
            && t.replies[0].generation.phase == L.SendError && t.replies[0].generation.outcome == L.Failed
            && t.replies[0].generation.cancelRequested
  {
    hide IsRun, After, OneAtATime, L.FeedToken, L.FlushRest, Opening;
    longer := Then(actions, GenerationStep(0, L.StreamError));
    var s1 := After(INITIAL, longer);
    assert s1.replies[0].generation.phase == L.SendError && s1.replies[0].speech.phase == SpeechPhase.Done;
    longer := Then(longer, CallInterrupt(1));
    assert s1.calls - {1} == map[];
  }

  lemma FirstReply() returns (actions: seq<Action>)
    ensures IsRun(INITIAL, actions) && OneAtATime(INITIAL, actions)
    ensures After(INITIAL, actions) == System([Reply(Speech(NotStarted, false, 0), L.CREATED, [], [])], map[], false, [])
  {
    actions := Then([], CallOpen(0));
    assert INITIAL.calls - {0} == map[];
  }

  /** The engine fails, and the speech task of reply 0 ends after reporting it. */
  lemma SpeechFails(actions: seq<Action>) returns (longer: seq<Action>)
    requires IsRun(INITIAL, actions)
    requires var s := After(INITIAL, actions);
             && |s.replies| == 1 && s.calls == map[] && s.replies[0].speech == Speech(Synthesise, false, 0)
    ensures IsRun(INITIAL, longer) && (OneAtATime(INITIAL, actions) ==> OneAtATime(INITIAL, longer))
    ensures var s, t := After(INITIAL, actions), After(INITIAL, longer);
            t == Speaking(s, 0, Speech(SpeechPhase.Done, false, 0))
  {
    hide IsRun, After, OneAtATime, Opening, Generate, CallStop, Returned, CancelNewest;
    var s := After(INITIAL, actions);
    longer := Then(actions, SpeechStep(0, EngineError));
    assert After(INITIAL, longer) == Speaking(s, 0, Speech(SpeechPhase.SendError, false, 0));
    longer := Then(longer, SpeechStep(0, SendOk(false)));
    assert After(INITIAL, longer) == Speaking(s, 0, Speech(SendMetrics, false, 0));
    longer := Then(longer, SpeechStep(0, SendOk(false)));
    assert After(INITIAL, longer) == Speaking(s, 0, Speech(PlaybackEnd, false, 0));
    longer := Then(longer, SpeechStep(0, SendOk(false)));
  }

  /**
   Opening two replies at the same time breaks the trace: both calls of `begin` wait for the
   same old speech task, and the second one then replaces a live task without stopping it.
   The client gets a frame of reply 1 after reply 2 has started.
   */
  lemma OverlappingRepliesInterleave() returns (actions: seq<Action>)
    ensures IsRun(INITIAL, actions)
    ensures After(INITIAL, actions).trace == [TtsStart(1), Audio(1), TtsStart(2), Audio(1)]
    ensures !InReplyOrder(After(INITIAL, actions).trace) && !NeverOpensOver(INITIAL, actions)
  {
    hide IsRun, After, OneAtATime, Opening, Generate;
    actions := TwoOpen();
    actions := SpeakALine(actions, 1);
    var s1 := After(INITIAL, actions);
    actions := OneFrame(actions, 1);
    var s2 := After(INITIAL, actions);
    assert s2.calls == s1.calls && |s2.replies| == 2 && s2.replies[0].speech.phase == SpeechPhase.Done;
    actions := Then(actions, Resume(2));
    var s3 := After(INITIAL, actions);
    assert |s3.replies| == 3 && s3.replies[1].speech == Speech(Synthesise, false, 1);
    actions := SpeakALine(actions, 2);
    var s4 := After(INITIAL, actions);
    assert s4.replies[..2][1] == s3.replies[..2][1] && s4.trace == s2.trace;
    actions := Then(actions, SpeechStep(2, Frame));
    var s5 := After(INITIAL, actions);
    assert s5.replies[1] == s4.replies[1] && s5.trace == s4.trace + [TtsStart(2)];
    actions := Then(actions, SpeechStep(1, Frame));
    var trace := After(INITIAL, actions).trace;
    assert trace[2].reply == 2 && trace[3].reply == 1;
    if NeverOpensOver(INITIAL, actions) {
      OutputIsWellFormed(actions, 0);
    }
  }

  /** Two calls of `begin` wait for speech task 0; the first of them has opened reply 1. */
  lemma TwoOpen() returns (actions: seq<Action>)
    ensures IsRun(INITIAL, actions)
    ensures var s := After(INITIAL, actions);
            && |s.replies| == 2 && s.calls == map[2 := Waiting(NewReply, 0, false)]
            && s.replies[0].speech == Speech(SpeechPhase.Done, false, 0)
            && s.replies[1] == Reply(Speech(NotStarted, false, 0), L.CREATED, [], [])
            && s.trace == [] && !s.audioSent
  {
    hide IsRun, After, OneAtATime, Opening, Generate;
    actions := TwoWait();
    var s2 := After(INITIAL, actions);
    actions := Then(actions, SpeechStep(0, Deliver));
    var s3 := After(INITIAL, actions);
    assert s3 == Speaking(s2, 0, Speech(SpeechPhase.Done, false, 0));
    actions := Then(actions, Resume(1));
    assert s3.calls - {1} == map[2 := Waiting(NewReply, 0, false)];
  }

  lemma TwoWait() returns (actions: seq<Action>)
    ensures IsRun(INITIAL, actions)
    ensures After(INITIAL, actions)
            == System([Reply(Speech(NotStarted, true, 0), L.CREATED, [], [])],
                      map[1 := Waiting(NewReply, 0, false), 2 := Waiting(NewReply, 0, false)], false, [])
  {
    hide IsRun, After, OneAtATime, Opening, Generate;
    actions := FirstReply();
    actions := Then(actions, CallOpen(1));
    actions := Then(actions, CallOpen(2));
  }

  /** The first frame of a reply: tts_start, then the frame. */
  lemma OneFrame(actions: seq<Action>, k: nat) returns (longer: seq<Action>)
    requires IsRun(INITIAL, actions)
    requires var s := After(INITIAL, actions);
             k < |s.replies| && s.replies[k].speech == Speech(Synthesise, false, 0)
    ensures IsRun(INITIAL, longer) && GoesOn(actions, longer)
    ensures var s, t := After(INITIAL, actions), After(INITIAL, longer);
            && t.replies == s.replies[k := s.replies[k].(speech := Speech(Synthesise, false, 1))]
            && t.calls == s.calls && t.audioSent && t.trace == s.trace + [TtsStart(k), Audio(k)]
  {
    hide IsRun, After, OneAtATime, Opening, Generate, CallStop, Returned, CancelNewest;
    var s := After(INITIAL, actions);
    longer := Then(actions, SpeechStep(k, Frame));
    assert After(INITIAL, longer) == Send(Speaking(s, k, Speech(SendStart, false, 0)), TtsStart(k));
    longer := Then(longer, SpeechStep(k, SendOk(false)));
    assert After(INITIAL, longer) == Send(Send(Speaking(s, k, Speech(SendFrame, false, 0)), TtsStart(k)), Audio(k));
    longer := Then(longer, SpeechStep(k, SendOk(false)));
  }
}
