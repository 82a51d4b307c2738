/**
 One run of the LLM generation task as a step machine: every step is the code between two
 awaits that can suspend, and a cancellation may be requested before any of them.
 */
module LlmGeneration {
  import opened Sequences
  import opened Text
  import opened SentenceChunking
  import opened Tokenisation

  datatype Outcome = Completed | Cancelled | Failed

  /** Where the coroutine is suspended. */
  datatype Phase =
    | NotStarted
    | AwaitToken
    | SendPartial(token: string)
    | SendFinal
    | SendCancelled
    | SendError
    | Done

  /** What wakes the coroutine up. */
  datatype Event =
    | Start
    | Token(token: string)
    | OtherItem
    | StreamEnd
    | StreamError
    | SendOk
    | SendFail
    | Deliver  // the CancelledError of a requested cancellation

  datatype Generation = Generation(
    phase: Phase,
    cancelRequested: bool,
    text: string,                            // "".join(parts)
    buffer: string,                          // the chunker's buffer
    handed: seq<string>,                     // segments given to on_segment, in order
    outcome: Outcome,
    completions: seq<(string, Outcome)>)     // the calls of on_complete

  /** What a step does to the rest of the session. */
  datatype Effect = Effect(segments: seq<string>, completed: Option<Outcome>)

  const NOTHING := Effect([], None)

  const CREATED := Generation(NotStarted, false, "", "", [], Completed, [])

  /** task.cancel(): nothing happens to a finished task. */
  function Cancel(g: Generation): Generation {
    if g.phase == Done then g else g.(cancelRequested := true)
  }

  /** A task with a requested cancellation gets that and nothing else when it wakes up. */
  predicate Enabled(g: Generation, e: Event) {
    if g.cancelRequested then e == Deliver && g.phase != Done
    else match g.phase
      case NotStarted => e == Start
      case AwaitToken => e.Token? || e == OtherItem || e == StreamEnd || e == StreamError
      case Done => false
      case _ => e == SendOk || e == SendFail
  }

  /** The `finally` block: report what was generated, once. */
  function Complete(g: Generation): (Generation, Effect) {
    (g.(phase := Done, completions := g.completions + [(g.text, g.outcome)]), Effect([], Some(g.outcome)))
  }

  /** The chunker's `feed`. */
  function FeedToken(g: Generation, token: string): (Generation, Effect) {
    if token == "" then (g.(phase := AwaitToken), NOTHING)
    else
      var whole := g.buffer + token;
      var segments := Segments(whole, Cuts(whole, DEFAULT_LIMITS));
      (g.(phase := AwaitToken, buffer := Remainder(whole, DEFAULT_LIMITS), handed := g.handed + segments),
       Effect(segments, None))
  }

  /** The chunker's `flush` at the end of the stream. */
  function FlushRest(g: Generation): (Generation, Effect) {
    var segments := if HasText(g.buffer) then [Strip(g.buffer)] else [];
    (g.(phase := SendFinal, buffer := "", handed := g.handed + segments), Effect(segments, None))
  }

  function Fail(g: Generation): (Generation, Effect) {
    (g.(phase := SendError, outcome := Failed), NOTHING)
  }

  function Step(g: Generation, e: Event): (Generation, Effect)
    requires Enabled(g, e)
  {
    match e
    case Start => (g.(phase := AwaitToken), NOTHING)
    case Token(t) => (g.(phase := SendPartial(t), text := g.text + t), NOTHING)
    case OtherItem => (g, NOTHING)
    case StreamEnd => FlushRest(g)
    case StreamError => Fail(g)
    case SendOk =>
      (match g.phase
       case SendPartial(t) => FeedToken(g, t)
       case _ => Complete(g))
    case SendFail =>
      (match g.phase
       case SendPartial(_) => Fail(g)
       case SendFinal => Fail(g)
       case _ => Complete(g))  // _safe_send swallows the error
    case Deliver =>
      var woken := g.(cancelRequested := false);
      (match g.phase
       case NotStarted => (woken.(phase := Done), NOTHING)  // the body never runs
       case SendCancelled => Complete(woken)
       case SendError => Complete(woken)
       case _ => (woken.(phase := SendCancelled, outcome := Cancelled), NOTHING))
  }

  /** A finished or cancelled generation that can no longer hand out a segment. */
  predicate Retired(g: Generation) {
    g.cancelRequested || g.phase == SendCancelled || g.phase == SendError || g.phase == Done
  }

  lemma RetiredStaysSilent(g: Generation, e: Event)
    requires Enabled(g, e) && Retired(g)
    ensures Retired(Step(g, e).0) && Step(g, e).1.segments == []
  {
  }

  /** The text given to the chunker so far: everything but a token still being sent. */
  ghost predicate FedPart(g: Generation, fed: string) {
    if g.phase.SendPartial? then g.text == fed + g.phase.token else fed <= g.text
  }

  /** What every step keeps. */
  ghost predicate Inv(g: Generation) {
    && (exists fed :: FedPart(g, fed) && InkedAll(g.handed) + Inked(g.buffer) == Inked(fed))
    && (g.phase == AwaitToken || g.phase == NotStarted ==> InkedAll(g.handed) + Inked(g.buffer) == Inked(g.text))
    && (g.phase == SendFinal || (g.phase == Done && g.completions != [] && g.outcome == Completed)
        ==> InkedAll(g.handed) == Inked(g.text))
    && (g.phase != Done ==> g.completions == [])
    && (g.phase == Done ==> |g.completions| <= 1 && (g.completions == [] ==> g.text == "" && g.handed == []))
    && (g.completions != [] ==> g.completions == [(g.text, g.outcome)])
    && (g.phase == SendError ==> g.outcome == Failed)
    && (g.phase == SendCancelled ==> g.outcome == Cancelled)
    && (g.phase == NotStarted ==> g.text == "" && g.handed == [] && g.buffer == "" && g.outcome == Completed)
    && (g.phase.SendPartial? || g.phase == AwaitToken || g.phase == SendFinal ==> g.outcome == Completed)
  }

  lemma CreatedInv()
    ensures Inv(CREATED)
  {
    assert FedPart(CREATED, "");
    assert InkedAll([]) + Inked("") == Inked("");
  }

  lemma FeedKeepsInv(g: Generation)
    requires Inv(g) && g.phase.SendPartial?
    ensures Inv(FeedToken(g, g.phase.token).0)
  {
    hide Inked, InkedAll, Cuts, Remainder, Segments;
    var t := g.phase.token;
    var fed :| FedPart(g, fed) && InkedAll(g.handed) + Inked(g.buffer) == Inked(fed);
    FeedConserves(g, fed, t);
    assert FedPart(FeedToken(g, t).0, g.text);
  }

  lemma FeedConserves(g: Generation, fed: string, t: string)
    requires InkedAll(g.handed) + Inked(g.buffer) == Inked(fed)
    ensures var g' := FeedToken(g, t).0;
            InkedAll(g'.handed) + Inked(g'.buffer) == Inked(fed + t)
  {
    hide Inked, InkedAll, Cuts, Remainder, Segments;
    if t == "" {
      assert fed + t == fed;
    } else {
      var whole := g.buffer + t;
      var segments, left := Segments(whole, Cuts(whole, DEFAULT_LIMITS)), Remainder(whole, DEFAULT_LIMITS);
      CuttingConserves(whole, DEFAULT_LIMITS);
      InkedConcat(g.buffer, t);
      InkedConcat(fed, t);
      InkedAllConcat(g.handed, segments);
      assert (InkedAll(g.handed) + InkedAll(segments)) + Inked(left)
          == InkedAll(g.handed) + (Inked(g.buffer) + Inked(t))
          == (InkedAll(g.handed) + Inked(g.buffer)) + Inked(t);
    }
  }

  lemma FlushKeepsInv(g: Generation)
    requires Inv(g) && g.phase == AwaitToken
    ensures Inv(FlushRest(g).0)
  {
    hide Inked, Strip;
    var (g', effect) := FlushRest(g);
    InkedStrip(g.buffer);
    NoInk(g.buffer);
    InkedNone();
    InkedAllConcat(g.handed, effect.segments);
    if HasText(g.buffer) {
      assert [Strip(g.buffer)][..0] == [] && "" + Inked(Strip(g.buffer)) == Inked(Strip(g.buffer));
      assert InkedAll(effect.segments) == Inked(Strip(g.buffer));
    }
    assert InkedAll(g'.handed) + "" == InkedAll(g'.handed);
    assert FedPart(g', g.text);
  }

  lemma InkedNone()
    ensures Inked("") == ""
  {
  }

  lemma StepKeepsInv(g: Generation, e: Event)
    requires Inv(g) && Enabled(g, e)
    ensures Inv(Step(g, e).0)
  {
    hide Inked, InkedAll, Cuts, Remainder, Segments, Strip, HasText, FeedToken, FlushRest;
    match e
    case StreamEnd =>
      FlushKeepsInv(g);
    case SendOk =>
      if g.phase.SendPartial? {
        FeedKeepsInv(g);
      } else {
        OtherStepKeepsInv(g, e);
      }
    case _ =>
      OtherStepKeepsInv(g, e);
  }

  lemma OtherStepKeepsInv(g: Generation, e: Event)
    requires Inv(g) && Enabled(g, e)
    requires e != StreamEnd && !(e == SendOk && g.phase.SendPartial?)
    ensures Inv(Step(g, e).0)
  {
    hide Inked, InkedAll, FeedToken, FlushRest;
    var fed :| FedPart(g, fed) && InkedAll(g.handed) + Inked(g.buffer) == Inked(fed);
    var g' := Step(g, e).0;
    if e.Token? {
      assert FedPart(g', g.text);
    } else {
      assert FedPart(g', fed);
    }
  }

  // ------------------------------------------------------ whole runs

  /** What can happen to a generation: its task wakes up, or someone asks to cancel it. */
  datatype Action = Wake(event: Event) | RequestCancel

  predicate Possible(g: Generation, a: Action) {
    a.Wake? ==> Enabled(g, a.event)
  }

  function Act(g: Generation, a: Action): Generation
    requires Possible(g, a)
  {
    match a
    case Wake(e) => Step(g, e).0
    case RequestCancel => Cancel(g)
  }

  predicate IsRun(g: Generation, actions: seq<Action>)
    decreases |actions|
  {
    actions != [] ==> Possible(g, actions[0]) && IsRun(Act(g, actions[0]), actions[1..])
  }

  function After(g: Generation, actions: seq<Action>): Generation
    requires IsRun(g, actions)
    decreases |actions|
  {
    if actions == [] then g else After(Act(g, actions[0]), actions[1..])
  }

  lemma {:induction false} RunKeepsInv(g: Generation, actions: seq<Action>)
    requires Inv(g) && IsRun(g, actions)
    ensures Inv(After(g, actions))
    decreases |actions|
  {
    hide Inked, InkedAll, Step;
    if actions != [] {
      if actions[0].Wake? {
        StepKeepsInv(g, actions[0].event);
      } else {
        CancelKeepsInv(g);
      }
      RunKeepsInv(Act(g, actions[0]), actions[1..]);
    }
  }

  lemma CancelKeepsInv(g: Generation)
    requires Inv(g)
    ensures Inv(Cancel(g))
  {
    hide Inked, InkedAll;
    var fed :| FedPart(g, fed) && InkedAll(g.handed) + Inked(g.buffer) == Inked(fed);
    assert FedPart(Cancel(g), fed);
  }

  /**
   Over every run, whatever is cancelled or fails at whatever step: a task that has begun
   calls on_complete exactly once, when it ends, with all the text received. Completed means
   that the segments handed out are the whole text, up to whitespace; otherwise they are a
   beginning of it.
   */
  lemma EveryRunReportsOnce(actions: seq<Action>)
    requires IsRun(CREATED, actions)
    ensures var g := After(CREATED, actions);
            && (g.phase != Done ==> g.completions == [])
            && (g.phase == Done ==> g.completions == [(g.text, g.outcome)] || NeverBegan(g))
            && (g.completions == [(g.text, Completed)] ==> InkedAll(g.handed) == Inked(g.text))
            && InkedAll(g.handed) <= Inked(g.text)
  {
    hide InkedAll, Step;
    CreatedInv();
    RunKeepsInv(CREATED, actions);
    var g := After(CREATED, actions);
    var fed :| FedPart(g, fed) && InkedAll(g.handed) + Inked(g.buffer) == Inked(fed);
    var rest := g.text[|fed|..];
    assert g.text == fed + rest;
    InkedConcat(fed, rest);
  }

  /** Cancelled before its first step: nothing was received and nothing handed out. */
  predicate NeverBegan(g: Generation) {
    g.completions == [] && g.text == "" && g.handed == []
  }

  /** A run that started its task and finished it has reported. */
  lemma {:induction false} BegunIsReported(g: Generation, actions: seq<Action>)
    requires IsRun(g, actions) && Inv(g) && g.phase != NotStarted && (g.phase == Done ==> g.completions != [])
    ensures After(g, actions).phase == Done ==> |After(g, actions).completions| == 1
    decreases |actions|
  {
    hide Inked, InkedAll, FeedToken, FlushRest;
    if actions != [] {
      var g' := Act(g, actions[0]);
      if actions[0].Wake? {
        StepKeepsInv(g, actions[0].event);
        WokenReports(g, actions[0].event);
      } else {
        CancelKeepsInv(g);
      }
      BegunIsReported(g', actions[1..]);
    }
  }

  lemma WokenReports(g: Generation, e: Event)
    requires Enabled(g, e) && g.phase != NotStarted
    ensures Step(g, e).0.phase != NotStarted
    ensures Step(g, e).0.phase == Done ==> Step(g, e).0.completions != []
  {
  }
}
