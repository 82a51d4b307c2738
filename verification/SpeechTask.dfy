/** The body of the speech task, written as it runs, against the step function of ReplySystem. */
module SpeechTask {
  import opened Sequences
  import opened Coroutines
  import opened ReplySystem
  import L = LlmGeneration

  /** What wakes the coroutine, and the first item of its queue at that moment. */
  datatype Wake = Wake(event: SpeechEvent, next: Option<Item>)

  /** The coroutine, the messages it has sent, and whether it has noted that audio was sent. */
  datatype Spoken = Spoken(speech: Speech, says: seq<Message>, audioSent: bool)

  function At(phase: SpeechPhase, frames: nat, says: seq<Message>, audioSent: bool): Spoken {
    Spoken(Speech(phase, false, frames), says, audioSent)
  }

  /** A cancellation is requested just before it arrives. */
  function Asked(speech: Speech, e: SpeechEvent): Speech {
    if e == Deliver then speech.(cancelRequested := true) else speech
  }

  predicate CanBeWoken(speech: Speech, w: Wake) {
    SpeechEnabled(
      Reply(Asked(speech, w.event), L.CREATED, if w.next.Some? then [w.next.value] else [], []), w.event)
  }

  function Woken(s: Spoken, k: nat, w: Wake): Spoken {
    var p := SpeechNext(Asked(s.speech, w.event), k, w.event, w.next);
    Spoken(p.speech, s.says + (if p.says.Some? then [p.says.value] else []), s.audioSent || p.audioSent)
  }

  /** The coroutine of reply k after the steps of these wakes. */
  function AfterWakes(k: nat, wakes: seq<Wake>): Spoken {
    if wakes == [] then At(NotStarted, 0, [], false)
    else Woken(AfterWakes(k, wakes[..|wakes| - 1]), k, wakes[|wakes| - 1])
  }

  /** Each wake is one the coroutine can get where it is. */
  predicate CanWake(k: nat, wakes: seq<Wake>) {
    forall n :: 0 <= n < |wakes| ==> CanBeWoken(AfterWakes(k, wakes[..n]).speech, wakes[n])
  }

  lemma NextWake(k: nat, wakes: seq<Wake>, n: nat)
    requires CanWake(k, wakes) && n < |wakes|
    ensures CanBeWoken(AfterWakes(k, wakes[..n]).speech, wakes[n])
    ensures AfterWakes(k, wakes[..n + 1]) == Woken(AfterWakes(k, wakes[..n]), k, wakes[n])
  {
    hide CanBeWoken, Woken;
    assert wakes[..n + 1][..n] == wakes[..n];
  }

  /** A finished task is not woken any more. */
  lemma NothingAfterDone(k: nat, wakes: seq<Wake>, n: nat)
    requires CanWake(k, wakes) && n <= |wakes| && AfterWakes(k, wakes[..n]).speech.phase == SpeechPhase.Done
    ensures n == |wakes|
  {
    hide CanWake, AfterWakes;
    if n < |wakes| {
      NextWake(k, wakes, n);
    }
  }

  lemma NothingWoke(k: nat)
    ensures AfterWakes(k, []) == At(NotStarted, 0, [], false)
  {
  }

  /** The step of a reply's task in the whole system is this step. */
  lemma SystemStep(s: System, k: nat, e: SpeechEvent)
    requires k < |s.replies| && SpeechEnabled(s.replies[k], e)
    ensures var r := s.replies[k];
            var w := Wake(e, if r.queue == [] then None else Some(r.queue[0]));
            var before := Spoken(r.speech, s.trace, s.audioSent);
            var t := SpeechAct(s, k, e);
            && CanBeWoken(r.speech, w)
            && Spoken(t.replies[k].speech, t.trace, t.audioSent) == Woken(before, k, w)
  {
    hide SpeechNext;
    var r := s.replies[k];
    assert e == Deliver ==> r.speech.(cancelRequested := true) == r.speech;
  }

  /** Where the coroutine goes when the `try` block is left. */
  function TryLeft(exit: Exit, frames: nat, says: seq<Message>, audioSent: bool): Spoken {
    At(if exit == ByError then SendError else SendMetrics, frames, says, audioSent)
  }

  /** The coroutine when a frame has come in: the first one is announced. */
  function FrameIn(k: nat, frames: nat, says: seq<Message>, audioSent: bool): Spoken {
    if frames == 0 then At(SendStart, frames, says + [TtsStart(k)], audioSent)
    else At(SendFrame, frames, says + [Audio(k)], audioSent)
  }

  /** Sends one frame, and sleeps if enough audio is ahead. */
  method SendOne(k: nat, wakes: seq<Wake>, from: nat, framesBefore: nat, saidBefore: seq<Message>, sentBefore: bool)
      returns (n: nat, frames: nat, says: seq<Message>, audioSent: bool, exit: Exit, suspended: Option<Spoken>)
    requires CanWake(k, wakes) && from <= |wakes|
    requires AfterWakes(k, wakes[..from]) == FrameIn(k, framesBefore, saidBefore, sentBefore)
    ensures from <= n <= |wakes|
    ensures suspended.Some? ==> suspended.value == AfterWakes(k, wakes)
    ensures suspended == None && exit == Normally ==>
      n > from && AfterWakes(k, wakes[..n]) == At(Synthesise, frames, says, audioSent)
    ensures suspended == None && exit != Normally ==>
      AfterWakes(k, wakes[..n]) == TryLeft(exit, frames, says, audioSent)
  {
    hide CanWake, AfterWakes;
    n, frames, says, audioSent, exit, suspended := from, framesBefore, saidBefore, sentBefore, Normally, None;
    assert wakes[..|wakes|] == wakes;
    if frames == 0 {
      says := says + [TtsStart(k)];
      if n == |wakes| {
        suspended := Some(At(SendStart, frames, says, audioSent));
        return;
      }
      NextWake(k, wakes, n);
      var started := wakes[n].event;
      n := n + 1;
      if !started.SendOk? {
        exit := if started == Deliver then ByCancellation else ByError;
        return;
      }
    }
    says := says + [Audio(k)];
    if n == |wakes| {
      suspended := Some(At(SendFrame, frames, says, audioSent));
      return;
    }
    NextWake(k, wakes, n);
    var sent := wakes[n].event;
    n := n + 1;
    if !sent.SendOk? {
      exit := if sent == Deliver then ByCancellation else ByError;
      return;
    }
    audioSent, frames := true, frames + 1;
    if sent.sleep {
      if n == |wakes| {
        suspended := Some(At(Pace, frames, says, audioSent));
        return;
      }
      NextWake(k, wakes, n);
      exit := if wakes[n].event == Deliver then ByCancellation else Normally;
      n := n + 1;
    }
  }

  /** The audio of one text: waits for frames and sends them. */
  method SpeakText(k: nat, wakes: seq<Wake>, from: nat, framesBefore: nat, saidBefore: seq<Message>, sentBefore: bool)
      returns (n: nat, frames: nat, says: seq<Message>, audioSent: bool, exit: Exit, suspended: Option<Spoken>)
    requires CanWake(k, wakes) && from <= |wakes|
    requires AfterWakes(k, wakes[..from]) == At(Synthesise, framesBefore, saidBefore, sentBefore)
    ensures from <= n <= |wakes|
    ensures suspended.Some? ==> suspended.value == AfterWakes(k, wakes)
    ensures suspended == None && exit == Normally ==>
      n > from && AfterWakes(k, wakes[..n]) == At(GetText, frames, says, audioSent)
    ensures suspended == None && exit != Normally ==>
      AfterWakes(k, wakes[..n]) == TryLeft(exit, frames, says, audioSent)
  {
    hide CanWake, AfterWakes;
    n, frames, says, audioSent, exit, suspended := from, framesBefore, saidBefore, sentBefore, Normally, None;
    assert wakes[..|wakes|] == wakes;
    while true
      invariant from <= n <= |wakes| && exit == Normally && suspended == None
      invariant AfterWakes(k, wakes[..n]) == At(Synthesise, frames, says, audioSent)
      decreases |wakes| - n
    {
      if n == |wakes| {
        suspended := Some(At(Synthesise, frames, says, audioSent));
        return;
      }
      NextWake(k, wakes, n);
      var got := wakes[n].event;
      n := n + 1;
      if got == EngineEnd {
        return;
      }
      if got != Frame {
        exit := if got == Deliver then ByCancellation else ByError;
        return;
      }
      n, frames, says, audioSent, exit, suspended := SendOne(k, wakes, n, frames, says, audioSent);
      if suspended.Some? || exit != Normally {
        return;
      }
    }
  }

  /** The coroutine after the end mark: playing out what was sent, then announcing the end. */
  function LastText(k: nat, playing: bool, frames: nat, says: seq<Message>, audioSent: bool): Spoken {
    if frames == 0 then At(SendMetrics, frames, says, audioSent)
    else if playing then At(Drain, frames, says, audioSent)
    else At(SendEnd, frames, says + [TtsEnd(k)], audioSent)
  }

  /** The loop over the texts of the reply, up to its end mark. */
  method SpeakTexts(k: nat, wakes: seq<Wake>)
      returns (n: nat, playing: bool, frames: nat, says: seq<Message>, audioSent: bool, exit: Exit, suspended: Option<Spoken>)
    requires CanWake(k, wakes) && wakes != [] && wakes[0].event == Start
    ensures n <= |wakes|
    ensures suspended.Some? ==> suspended.value == AfterWakes(k, wakes)
    ensures suspended == None && exit == Normally ==>
      AfterWakes(k, wakes[..n]) == LastText(k, playing, frames, says, audioSent)
    ensures suspended == None && exit != Normally ==>
      AfterWakes(k, wakes[..n]) == TryLeft(exit, frames, says, audioSent)
  {
    hide CanWake, AfterWakes;
    assert wakes[..|wakes|] == wakes && wakes[..0] == [];
    NothingWoke(k);
    NextWake(k, wakes, 0);
    n, playing, frames, says, audioSent, exit, suspended := 1, false, 0, [], false, Normally, None;
    while true
      invariant 1 <= n <= |wakes| && exit == Normally && suspended == None
      invariant AfterWakes(k, wakes[..n]) == At(GetText, frames, says, audioSent)
      decreases |wakes| - n
    {
      if n == |wakes| {
        suspended := Some(At(GetText, frames, says, audioSent));
        return;
      }
      NextWake(k, wakes, n);
      var got := wakes[n];
      n := n + 1;
      if got.event == Deliver {
        exit := ByCancellation;
        return;
      }
      if got.next == Some(EndMark) {
        playing := got.event.playing;
        return;
      }
      n, frames, says, audioSent, exit, suspended := SpeakText(k, wakes, n, frames, says, audioSent);
      if suspended.Some? || exit != Normally {
        return;
      }
    }
  }

  /** The whole body: it gets through every run of wakes as the steps do. */
  method RunSpeech(k: nat, wakes: seq<Wake>) returns (s: Spoken)
    requires CanWake(k, wakes)
    ensures s == AfterWakes(k, wakes)
  {
    hide CanWake, AfterWakes;
    assert wakes[..|wakes|] == wakes && wakes[..0] == [];
    NothingWoke(k);
    if wakes == [] {
      return At(NotStarted, 0, [], false);
    }
    NextWake(k, wakes, 0);
    if wakes[0].event == Deliver {
      NothingAfterDone(k, wakes, 1);
      return At(SpeechPhase.Done, 0, [], false);  // the body never runs
    }
    var n, playing, frames, says, audioSent, exit, suspended := SpeakTexts(k, wakes);
    if suspended.None? && exit == Normally {
      n, says, exit, suspended := PlayOut(k, wakes, n, playing, frames, says, audioSent);
    }
    if suspended.Some? {
      return suspended.value;
    }
    s := Report(k, wakes, n, frames, says, audioSent, exit);
  }

  /** The end of the `try` block. */
  method PlayOut(k: nat, wakes: seq<Wake>, from: nat, playing: bool, frames: nat, saidBefore: seq<Message>, audioSent: bool)
      returns (n: nat, says: seq<Message>, exit: Exit, suspended: Option<Spoken>)
    requires CanWake(k, wakes) && from <= |wakes|
    requires AfterWakes(k, wakes[..from]) == LastText(k, playing, frames, saidBefore, audioSent)
    ensures from <= n <= |wakes|
    ensures suspended.Some? ==> suspended.value == AfterWakes(k, wakes)
    ensures suspended == None ==> AfterWakes(k, wakes[..n]) == TryLeft(exit, frames, says, audioSent)
  {
    hide CanWake, AfterWakes;
    assert wakes[..|wakes|] == wakes;
    n, says, exit, suspended := from, saidBefore, Normally, None;
    if frames > 0 && playing {
      if n == |wakes| {
        suspended := Some(At(Drain, frames, says, audioSent));
        return;
      }
      NextWake(k, wakes, n);
      n := n + 1;
      if wakes[n - 1].event == Deliver {
        exit := ByCancellation;
        return;
      }
    }
    if frames > 0 {
      says := says + [TtsEnd(k)];
      if n == |wakes| {
        suspended := Some(At(SendEnd, frames, says, audioSent));
        return;
      }
      NextWake(k, wakes, n);
      exit :=
        if wakes[n].event == Deliver then ByCancellation else if wakes[n].event == SendFail then ByError else Normally;
      n := n + 1;
    }
  }

  /** The `except` and `finally` blocks. */
  method Report(k: nat, wakes: seq<Wake>, from: nat, frames: nat, says: seq<Message>, audioSent: bool, exit: Exit)
      returns (s: Spoken)
    requires CanWake(k, wakes) && from <= |wakes|
    requires AfterWakes(k, wakes[..from]) == TryLeft(exit, frames, says, audioSent)
    ensures s == AfterWakes(k, wakes)
  {
    hide CanWake, AfterWakes;
    assert wakes[..|wakes|] == wakes;
    var n := from;
    if exit == ByError {
      if n == |wakes| {
        return At(SendError, frames, says, audioSent);
      }
      NextWake(k, wakes, n);  // the send of the error message: whatever comes of it
      n := n + 1;
    }
    s := Finally(k, wakes, n, frames, says, audioSent);
  }

  /** The `finally` block, which a cancellation leaves early. */
  method Finally(k: nat, wakes: seq<Wake>, from: nat, frames: nat, says: seq<Message>, audioSent: bool)
      returns (s: Spoken)
    requires CanWake(k, wakes) && from <= |wakes|
    requires AfterWakes(k, wakes[..from]) == At(SendMetrics, frames, says, audioSent)
    ensures s == AfterWakes(k, wakes)
  {
    hide CanWake, AfterWakes;
    assert wakes[..|wakes|] == wakes;
    var n := from;
    if n == |wakes| {
      return At(SendMetrics, frames, says, audioSent);
    }
    NextWake(k, wakes, n);
    n := n + 1;
    if wakes[n - 1].event != Deliver {
      if n == |wakes| {
        return At(PlaybackEnd, frames, says, audioSent);
      }
      NextWake(k, wakes, n);
      n := n + 1;
    }
    s := At(SpeechPhase.Done, frames, says, audioSent);
    NothingAfterDone(k, wakes, n);
  }
}
