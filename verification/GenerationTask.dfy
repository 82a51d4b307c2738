/** The body of the generation task, written as it runs, against the step machine of LlmGeneration. */
module GenerationTask {
  import opened Sequences
  import opened Coroutines
  import opened Text
  import opened SentenceChunking
  import opened LlmGeneration

  /** The run in which the coroutine is woken by these events; a cancellation is requested just before it arrives. */
  function ActionsOf(wakes: seq<Event>): seq<Action> {
    if wakes == [] then []
    else ActionsOf(wakes[..|wakes| - 1]) + Waking(wakes[|wakes| - 1])
  }

  function Waking(e: Event): seq<Action> {
    if e == Deliver then [RequestCancel, Wake(e)] else [Wake(e)]
  }

  /** Events that can wake the coroutine, one after the other. */
  predicate CanWake(wakes: seq<Event>) {
    IsRun(CREATED, ActionsOf(wakes))
  }

  function Woken(wakes: seq<Event>): Generation
    requires CanWake(wakes)
  {
    After(CREATED, ActionsOf(wakes))
  }

  lemma {:induction false} RunConcat(g: Generation, a: seq<Action>, b: seq<Action>)
    ensures IsRun(g, a + b) <==> IsRun(g, a) && IsRun(After(g, a), b)
    ensures IsRun(g, a + b) ==> After(g, a + b) == After(After(g, a), b)
    decreases |a|
  {
    hide Act, Possible;
    if a == [] {
      assert a + b == b;
    } else {
      assert (a + b)[1..] == a[1..] + b;
      if Possible(g, a[0]) {
        RunConcat(Act(g, a[0]), a[1..], b);
      }
    }
  }

  /** One more event: it must be able to wake the coroutine, and does one step of the machine. */
  lemma NextWake(wakes: seq<Event>, n: nat)
    requires CanWake(wakes) && n < |wakes|
    ensures CanWake(wakes[..n])
    ensures CanWake(wakes[..n + 1])
    ensures var g, e := Woken(wakes[..n]), wakes[n];
            var asked := if e == Deliver then Cancel(g) else g;
            Enabled(asked, e) && Woken(wakes[..n + 1]) == Step(asked, e).0
  {
    hide Step, Enabled;
    PrefixCanWake(wakes, n);
    PrefixCanWake(wakes, n + 1);
    var a, e := ActionsOf(wakes[..n]), wakes[n];
    assert wakes[..n + 1][..n] == wakes[..n];
    RunConcat(CREATED, a, Waking(e));
    WakingIs(After(CREATED, a), e);
  }

  lemma WakingIs(g: Generation, e: Event)
    requires IsRun(g, Waking(e))
    ensures var asked := if e == Deliver then Cancel(g) else g;
            Enabled(asked, e) && After(g, Waking(e)) == Step(asked, e).0
  {
    hide Step, Enabled;
    if e == Deliver {
      assert Waking(e)[1..] == [Wake(e)] && [Wake(e)][1..] == [];
      assert After(g, Waking(e)) == After(Cancel(g), [Wake(e)]);
      SingleWake(Cancel(g), e);
    } else {
      SingleWake(g, e);
    }
  }

  lemma SingleWake(g: Generation, e: Event)
    requires IsRun(g, [Wake(e)])
    ensures Enabled(g, e) && After(g, [Wake(e)]) == Step(g, e).0
  {
    hide Step, Enabled;
    assert [Wake(e)][1..] == [];
  }

  lemma {:induction false} PrefixCanWake(wakes: seq<Event>, n: nat)
    requires CanWake(wakes) && n <= |wakes|
    ensures CanWake(wakes[..n])
    decreases |wakes|
  {
    hide IsRun;
    if n == |wakes| {
      assert wakes[..n] == wakes;
    } else {
      var front := wakes[..|wakes| - 1];
      RunConcat(CREATED, ActionsOf(front), Waking(wakes[|wakes| - 1]));
      PrefixCanWake(front, n);
      assert front[..n] == wakes[..n];
    }
  }

  lemma NothingWoke()
    ensures CanWake([]) && Woken([]) == CREATED
  {
  }

  /** The generation while it waits for an item of the stream. */
  function Waiting(parts: string, buffer: string, handed: seq<string>): Generation {
    Generation(AwaitToken, false, parts, buffer, handed, Completed, [])
  }

  /** The state after the `try` block. */
  function TryLeft(exit: Exit, parts: string, buffer: string, handed: seq<string>): Generation {
    match exit
    case Normally => Generation(Done, false, parts, buffer, handed, Completed, [(parts, Completed)])
    case ByCancellation => Generation(SendCancelled, false, parts, buffer, handed, Cancelled, [])
    case ByError => Generation(SendError, false, parts, buffer, handed, Failed, [])
  }

  /** The generation as it is when the token loop is left; the end of the stream has flushed the chunker. */
  function LoopLeft(exit: Exit, parts: string, buffer: string, handed: seq<string>): Generation {
    if exit == Normally then FlushRest(Waiting(parts, buffer, handed)).0 else TryLeft(exit, parts, buffer, handed)
  }

  /** How the `try` block goes on after an await that was woken by this event. */
  function ExitBy(e: Event): Exit {
    if e == Deliver then ByCancellation else if e == SendFail || e == StreamError then ByError else Normally
  }

  /** What an item of the stream does. */
  lemma ItemWakes(wakes: seq<Event>, n: nat, parts: string, buffer: string, handed: seq<string>)
    requires CanWake(wakes) && n < |wakes| && CanWake(wakes[..n])
    requires Woken(wakes[..n]) == Waiting(parts, buffer, handed)
    ensures CanWake(wakes[..n + 1])
    ensures var e, after := wakes[n], Woken(wakes[..n + 1]);
            && (e.Token? ==> after == Waiting(parts + e.token, buffer, handed).(phase := SendPartial(e.token)))
            && (e == OtherItem ==> after == Waiting(parts, buffer, handed))
            && (!e.Token? && e != OtherItem ==> after == LoopLeft(ExitBy(e), parts, buffer, handed))
  {
    hide CanWake, Woken, FlushRest;
    NextWake(wakes, n);
  }

  /** What the end of a send of a token does. */
  lemma PartialWakes(wakes: seq<Event>, n: nat, parts: string, token: string, buffer: string, handed: seq<string>)
    requires CanWake(wakes) && n < |wakes| && CanWake(wakes[..n])
    requires Woken(wakes[..n]) == Waiting(parts, buffer, handed).(phase := SendPartial(token))
    ensures CanWake(wakes[..n + 1])
    ensures var e, after := wakes[n], Woken(wakes[..n + 1]);
            && CanWake(wakes[..n + 1])
            && (ExitBy(e) == Normally ==> after == FeedToken(Waiting(parts, buffer, handed), token).0)
            && (ExitBy(e) != Normally ==> after == TryLeft(ExitBy(e), parts, buffer, handed))
  {
    hide CanWake, Woken, FlushRest, Cuts, Remainder, Segments;
    NextWake(wakes, n);
  }

  /** What the end of the send of the whole text does. */
  lemma FinalWakes(wakes: seq<Event>, n: nat, parts: string, handed: seq<string>)
    requires CanWake(wakes) && n < |wakes| && CanWake(wakes[..n])
    requires Woken(wakes[..n]) == Waiting(parts, "", handed).(phase := SendFinal)
    ensures CanWake(wakes[..n + 1]) && Woken(wakes[..n + 1]) == TryLeft(ExitBy(wakes[n]), parts, "", handed)
  {
    hide CanWake, Woken, FlushRest, FeedToken;
    NextWake(wakes, n);
  }

  /** What the end of the send in an `except` block does, however it ends. */
  lemma ExceptWakes(wakes: seq<Event>, n: nat, exit: Exit, parts: string, buffer: string, handed: seq<string>)
    requires CanWake(wakes) && n < |wakes| && CanWake(wakes[..n]) && exit != Normally
    requires Woken(wakes[..n]) == TryLeft(exit, parts, buffer, handed)
    ensures CanWake(wakes[..n + 1]) && Woken(wakes[..n + 1]) == Reported(exit, parts, buffer, handed)
  {
    hide CanWake, Woken, FlushRest, FeedToken;
    NextWake(wakes, n);
  }

  /** What the first event does: a task that is cancelled before it begins is done. */
  lemma FirstWakes(wakes: seq<Event>)
    requires CanWake(wakes) && wakes != []
    ensures CanWake(wakes[..1])
    ensures wakes[0] == Deliver ==> Woken(wakes[..1]) == CREATED.(phase := Done)
    ensures wakes[0] != Deliver ==> wakes[0] == Start && Woken(wakes[..1]) == Waiting("", "", [])
  {
    hide CanWake, Woken, FlushRest, FeedToken;
    NothingWoke();
    assert wakes[..0] == [];
    NextWake(wakes, 0);
  }

  /** The loop over the tokens of the stream; `suspended` if the events end before the loop does. */
  method ReceiveTokens(wakes: seq<Event>, chunker: SentenceChunker)
      returns (n: nat, parts: string, handed: seq<string>, exit: Exit, suspended: Option<Generation>)
    requires CanWake(wakes) && wakes != [] && wakes[0] == Start
    requires chunker.buffer == "" && chunker.limits == DEFAULT_LIMITS
    modifies chunker
    ensures n <= |wakes|
    ensures suspended.Some? ==> suspended.value == Woken(wakes)
    ensures suspended == None ==> CanWake(wakes[..n]) && Woken(wakes[..n]) == LoopLeft(exit, parts, chunker.buffer, handed)
  {
    hide CanWake, Woken, Cuts, Remainder, Segments, LoopLeft, TryLeft;
    FirstWakes(wakes);
    assert wakes[..|wakes|] == wakes;
    n, parts, handed, exit, suspended := 1, "", [], Normally, None;
    while true
      invariant 1 <= n <= |wakes| && chunker.limits == DEFAULT_LIMITS && exit == Normally && suspended == None
      invariant CanWake(wakes[..n]) && Woken(wakes[..n]) == Waiting(parts, chunker.buffer, handed)
      decreases |wakes| - n
    {
      if n == |wakes| {
        suspended := Some(Waiting(parts, chunker.buffer, handed));
        return;
      }
      ItemWakes(wakes, n, parts, chunker.buffer, handed);
      var item := wakes[n];
      n := n + 1;
      if item == OtherItem {
        continue;
      }
      if !item.Token? {
        exit := ExitBy(item);
        return;
      }
      parts := parts + item.token;
      if n == |wakes| {
        suspended := Some(Waiting(parts, chunker.buffer, handed).(phase := SendPartial(item.token)));
        return;
      }
      PartialWakes(wakes, n, parts, item.token, chunker.buffer, handed);
      exit := ExitBy(wakes[n]);
      n := n + 1;
      if exit != Normally {
        LoopBroken(exit, parts, chunker.buffer, handed);
        return;
      }
      var segments := chunker.Feed(item.token);
      handed := handed + segments;
    }
  }

  lemma LoopBroken(exit: Exit, parts: string, buffer: string, handed: seq<string>)
    requires exit != Normally
    ensures LoopLeft(exit, parts, buffer, handed) == TryLeft(exit, parts, buffer, handed)
  {
    hide TryLeft;
  }

  /** After the loop, the rest of the text is handed out and the whole text sent. */
  method FinishStream(wakes: seq<Event>, from: nat, parts: string, before: seq<string>, chunker: SentenceChunker)
      returns (n: nat, handed: seq<string>, exit: Exit, suspended: Option<Generation>)
    requires CanWake(wakes) && from <= |wakes| && CanWake(wakes[..from])
    requires Woken(wakes[..from]) == LoopLeft(Normally, parts, chunker.buffer, before)
    modifies chunker
    ensures n <= |wakes|
    ensures suspended.Some? ==> suspended.value == Woken(wakes)
    ensures suspended == None ==> CanWake(wakes[..n]) && Woken(wakes[..n]) == TryLeft(exit, parts, chunker.buffer, handed)
  {
    hide CanWake, Woken, Strip, HasText, TryLeft;
    assert wakes[..|wakes|] == wakes;
    n, exit, suspended := from, Normally, None;
    var rest := chunker.Flush();
    handed := before + if rest.Some? then [rest.value] else [];
    if n == |wakes| {
      suspended := Some(Waiting(parts, "", handed).(phase := SendFinal));
      return;
    }
    FinalWakes(wakes, n, parts, handed);
    exit := ExitBy(wakes[n]);
    n := n + 1;
  }

  /**
   The body of the coroutine: each await takes the next event, and when there is none yet the coroutine
   stays suspended there. It gets through every run as the step machine does.
   */
  method RunGeneration(wakes: seq<Event>) returns (g: Generation)
    requires CanWake(wakes)
    ensures g == Woken(wakes)
  {
    hide CanWake, Woken, LoopLeft, TryLeft;
    NothingWoke();
    if wakes == [] {
      return CREATED;
    }
    FirstWakes(wakes);
    assert wakes[..|wakes|] == wakes;
    if wakes[0] == Deliver {
      NothingAfterDone(wakes, 1);
      return CREATED.(phase := Done);  // the body never runs
    }
    var chunker := new SentenceChunker();
    var n, parts, handed, exit, suspended := ReceiveTokens(wakes, chunker);
    if suspended == None && exit == Normally {
      n, handed, exit, suspended := FinishStream(wakes, n, parts, handed, chunker);
    } else if suspended == None {
      LoopBroken(exit, parts, chunker.buffer, handed);
    }
    if suspended.Some? {
      return suspended.value;
    }
    g := Report(wakes, n, parts, chunker.buffer, handed, exit);
  }

  function OutcomeOf(exit: Exit): Outcome {
    match exit case Normally => Completed case ByCancellation => Cancelled case ByError => Failed
  }

  /** The state after the `finally` block. */
  function Reported(exit: Exit, parts: string, buffer: string, handed: seq<string>): Generation {
    Generation(Done, false, parts, buffer, handed, OutcomeOf(exit), [(parts, OutcomeOf(exit))])
  }

  /** The `except` and `finally` blocks. */
  method Report(wakes: seq<Event>, n: nat, parts: string, buffer: string, handed: seq<string>, exit: Exit)
      returns (g: Generation)
    requires CanWake(wakes) && n <= |wakes| && CanWake(wakes[..n])
    requires Woken(wakes[..n]) == TryLeft(exit, parts, buffer, handed)
    ensures g == Woken(wakes)
  {
    hide CanWake, Woken;
    assert wakes[..|wakes|] == wakes;
    var end := n;
    if exit != Normally {
      if n == |wakes| {
        return TryLeft(exit, parts, buffer, handed);
      }
      ExceptWakes(wakes, n, exit, parts, buffer, handed);  // sent, not sent, or cancelled
      end := n + 1;
    }
    g := Reported(exit, parts, buffer, handed);
    NothingAfterDone(wakes, end);
  }

  /** A finished task is not woken any more. */
  lemma NothingAfterDone(wakes: seq<Event>, n: nat)
    requires CanWake(wakes) && n <= |wakes| && CanWake(wakes[..n])
    requires Woken(wakes[..n]).phase == Done
    ensures n == |wakes|
  {
    hide CanWake, Woken, Step;
    if n < |wakes| {
      NextWake(wakes, n);
    }
  }
}
