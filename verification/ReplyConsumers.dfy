/**
 The speech and generation consumers of a session as they change their fields. Each method is
 what runs between two awaits that can suspend, and does one action of the reply system.
 */
module ReplyConsumers {
  import opened Sequences
  import opened Text
  import opened ReplySystem
  import opened OutputTrace
  import L = LlmGeneration

  class Consumers {
    var replies: seq<Reply>       // the tasks and queues of every reply; the newest are the consumers' own
    var calls: map<nat, Call>     // the calls that wait inside `stop`
    var audioSent: bool
    var trace: seq<Message>       // what was sent to the client

    function Now(): System
      reads this
    {
      System(replies, calls, audioSent, trace)
    }

    constructor ()
      ensures Now() == INITIAL
    {
      replies, calls, audioSent, trace := [], map[], false, [];
    }

    method IsActive() returns (active: bool)
      ensures active <==> Active(Now())
    {
      active := |replies| > 0 && replies[|replies| - 1].speech.phase != SpeechPhase.Done;
    }

    /** llm.cancel() */
    method CancelGeneration()
      modifies this`replies
      ensures Now() == CancelNewest(old(Now()))
    {
      if |replies| > 0 {
        var last := |replies| - 1;
        var task := replies[last].generation;
        if task.phase != L.Done {
          replies := replies[last := replies[last].(generation := task.(cancelRequested := true))];
        }
      }
    }

    /** The rest of `begin`, and start_generation. */
    method Open()
      modifies this`replies, this`audioSent
      ensures Now() == OpenReply(old(Now()))
    {
      audioSent := false;
      CancelGeneration();
      replies := replies + [Reply(Speech(NotStarted, false, 0), L.CREATED, [], [])];
    }

    /** `stop` up to its wait for the speech task, or all of it when there is nothing to stop. */
    method Stop(id: nat, purpose: Purpose)
      modifies this`replies, this`calls, this`audioSent
      ensures Now() == CallStop(old(Now()), id, purpose)
    {
      var active := IsActive();
      if !active {
        Return(id, purpose);
        return;
      }
      var last := |replies| - 1;
      calls := calls[id := Waiting(purpose, last, audioSent)];
      replies := replies[last := replies[last].(speech := replies[last].speech.(cancelRequested := true))];
    }

    method Return(id: nat, purpose: Purpose)
      modifies this`replies, this`calls, this`audioSent
      ensures Now() == Returned(old(Now()), id, purpose)
    {
      hide OpenReply;
      calls := calls - {id};
      if purpose == NewReply {
        Open();
      }
    }

    /** The speech task that `stop` waits for has ended. */
    method GoOn(id: nat)
      requires Possible(Now(), Resume(id))
      modifies this
      ensures Now() == Act(old(Now()), Resume(id))
    {
      hide Returned;
      var call := calls[id];
      if !call.hadAudio {
        Return(id, call.purpose);
        return;
      }
      trace := trace + [TtsClear(call.target)];
      calls := calls[id := Clearing(call.purpose, call.target)];
    }

    /** tts.speak(), called by a generation. */
    method SpeakSegment(generation: nat, text: string)
      modifies this`replies
      ensures Now() == Speak(old(Now()), generation, text)
    {
      hide HasText;
      StripEmpty(text);
      var active := IsActive();
      if active && Strip(text) != "" {
        PutItem(generation, Segment(text));
      }
    }

    /** tts.finish(), called by a generation. */
    method FinishReply(generation: nat)
      modifies this`replies
      ensures Now() == Finish(old(Now()), generation)
    {
      var active := IsActive();
      if active {
        PutItem(generation, EndMark);
      }
    }

    method PutItem(generation: nat, item: Item)
      requires replies != []
      modifies this`replies
      ensures Now() == Put(old(Now()), generation, item)
    {
      var last := |replies| - 1;
      var r := replies[last];
      replies := replies[last := r.(queue := r.queue + [item], accepted := r.accepted + [(generation, item)])];
    }

    /** A step of a generation: its segments are spoken one by one, and its end may finish the reply. */
    method GenerationStep(k: nat, e: L.Event)
      requires k < |replies| && L.Enabled(replies[k].generation, e)
      modifies this`replies
      ensures Now() == Generate(old(Now()), k, e)
    {
      hide L.Step, Speak, Finish;
      var (g, effect) := L.Step(replies[k].generation, e);
      replies := replies[k := replies[k].(generation := g)];
      ghost var start := Now();
      assert effect.segments[0..] == effect.segments;
      for i := 0 to |effect.segments|
        invariant SpeakAll(Now(), k, effect.segments[i..]) == SpeakAll(start, k, effect.segments)
      {
        assert effect.segments[i..][1..] == effect.segments[i + 1..];
        SpeakSegment(k, effect.segments[i]);
      }
      if effect.completed.Some? && effect.completed.value != L.Cancelled {
        FinishReply(k);
      }
    }

    /** A step of a speech task: at most one message goes out. */
    method SpeechStep(k: nat, e: SpeechEvent)
      requires k < |replies| && SpeechEnabled(replies[k], e)
      modifies this
      ensures Now() == SpeechAct(old(Now()), k, e)
    {
      hide SpeechNext;
      var r := replies[k];
      var p := SpeechNext(r.speech, k, e, if r.queue == [] then None else Some(r.queue[0]));
      if p.says.Some? {
        trace := trace + [p.says.value];
      }
      if p.audioSent {
        audioSent := true;
      }
      replies := replies[k := r.(speech := p.speech, queue := if p.takes && r.queue != [] then r.queue[1..] else r.queue)];
    }

    method Do(a: Action)
      requires Possible(Now(), a)
      modifies this
      ensures Now() == Act(old(Now()), a)
    {
      hide CallStop, CancelNewest, SpeechAct, Generate, Returned;
      match a
      case CancelGeneration =>
        CancelGeneration();
      case CallInterrupt(id) =>
        CancelGeneration();
        Stop(id, BargeIn);
      case CallOpen(id) =>
        Stop(id, NewReply);
      case Resume(id) =>
        GoOn(id);
      case ClearSent(id) =>
        Return(id, calls[id].purpose);
      case SpeechStep(k, e) =>
        SpeechStep(k, e);
      case GenerationStep(k, e) =>
        GenerationStep(k, e);
    }
  }

  /** What the client is sent in any run; if no reply is opened over an active one, it is well-formed speech. */
  method PlayReplies(actions: seq<Action>) returns (trace: seq<Message>, replies: seq<Reply>)
    requires IsRun(INITIAL, actions)
    ensures trace == After(INITIAL, actions).trace && replies == After(INITIAL, actions).replies
    ensures NeverOpensOver(INITIAL, actions) ==> InReplyOrder(trace) && forall k :: 0 <= k < |replies| ==> WellSpoken(trace, k)
  {
    hide *;
    var consumers := new Consumers();
    assert actions[0..] == actions;
    for i := 0 to |actions|
      invariant IsRun(consumers.Now(), actions[i..])
      invariant After(consumers.Now(), actions[i..]) == After(INITIAL, actions)
      modifies consumers
    {
      FirstAction(consumers.Now(), actions, i);
      consumers.Do(actions[i]);
    }
    NoAction(consumers.Now(), actions);
    var end := consumers.Now();
    trace, replies := end.trace, end.replies;
    if NeverOpensOver(INITIAL, actions) {
      OutputIsWellFormed(actions, 0);
      forall k | 0 <= k < |replies|
        ensures WellSpoken(trace, k)
      {
        OutputIsWellFormed(actions, k);
      }
    }
  }

  lemma FirstAction(s: System, actions: seq<Action>, i: nat)
    requires i < |actions| && IsRun(s, actions[i..])
    ensures Possible(s, actions[i]) && IsRun(Act(s, actions[i]), actions[i + 1..])
    ensures After(s, actions[i..]) == After(Act(s, actions[i]), actions[i + 1..])
  {
    hide Act, Possible;
    assert actions[i..][1..] == actions[i + 1..];
  }

  lemma NoAction(s: System, actions: seq<Action>)
    requires IsRun(s, actions[|actions|..])
    ensures After(s, actions[|actions|..]) == s
  {
    hide Act, Possible;
  }
}
