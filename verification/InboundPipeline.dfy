/**
 The inbound audio path: the drop-oldest queue, the dispatcher, and the recogniser's own
 drop-newest queue. Every frame received has one fate, and nothing is reordered.
 */
module InboundPipeline {
  import opened Sequences
  import opened AudioQueue

  /** What has become of a frame. The undropped ones are listed from the far end of the path. */
  datatype Fate = Recognised | InSttQueue | InHand | InAudioQueue | DroppedOldest | DroppedNewest | NotHandedOn

  /** How far from the recogniser a frame is; dropped frames do not count. */
  function Distance(f: Fate): nat {
    match f
    case Recognised => 0
    case InSttQueue => 1
    case InHand => 2
    case InAudioQueue => 3
    case _ => 4
  }

  /** The frames with a given fate, in order of arrival. */
  function Picked(arrived: seq<Frame>, fates: seq<Fate>, fate: Fate): (frames: seq<Frame>)
    requires |arrived| == |fates|
    ensures |frames| <= |arrived|
  {
    if arrived == [] then []
    else
      Picked(arrived[..|arrived| - 1], fates[..|fates| - 1], fate)
      + if fates[|fates| - 1] == fate then [arrived[|arrived| - 1]] else []
  }

  /** Of two frames still on the path or recognised, the earlier one is at least as far along. */
  ghost predicate Ordered(fates: seq<Fate>) {
    forall i, j :: 0 <= i < j < |fates| && Distance(fates[i]) < 4 && Distance(fates[j]) < 4 ==>
      Distance(fates[i]) <= Distance(fates[j])
  }

  lemma {:induction false} PickedConcat(a: seq<Frame>, f: seq<Fate>, b: seq<Frame>, g: seq<Fate>, fate: Fate)
    requires |a| == |f| && |b| == |g|
    ensures Picked(a + b, f + g, fate) == Picked(a, f, fate) + Picked(b, g, fate)
  {
    if b == [] {
      assert a + b == a && f + g == f;
    } else {
      PickedConcat(a, f, b[..|b| - 1], g[..|g| - 1], fate);
      assert (a + b)[..|a + b| - 1] == a + b[..|b| - 1];
      assert (f + g)[..|f + g| - 1] == f + g[..|g| - 1];
    }
  }

  /** The frames with a given fate, seen around position i. */
  lemma PickedAround(arrived: seq<Frame>, fates: seq<Fate>, i: nat, fate: Fate)
    requires i < |arrived| == |fates|
    ensures Picked(arrived, fates, fate)
         == Picked(arrived[..i], fates[..i], fate)
            + (if fates[i] == fate then [arrived[i]] else [])
            + Picked(arrived[i + 1..], fates[i + 1..], fate)
  {
    PickedConcat(arrived[..i], fates[..i], arrived[i..], fates[i..], fate);
    PickedConcat([arrived[i]], [fates[i]], arrived[i + 1..], fates[i + 1..], fate);
    assert arrived == arrived[..i] + arrived[i..] && fates == fates[..i] + fates[i..];
    assert arrived[i..] == [arrived[i]] + arrived[i + 1..] && fates[i..] == [fates[i]] + fates[i + 1..];
    var one := [arrived[i]];
    assert one[..0] == [];
    assert Picked(one, [fates[i]], fate) == if fates[i] == fate then [arrived[i]] else [];
  }

  lemma {:induction false} NonePicked(arrived: seq<Frame>, fates: seq<Fate>, fate: Fate)
    requires |arrived| == |fates|
    requires forall i :: 0 <= i < |fates| ==> fates[i] != fate
    ensures Picked(arrived, fates, fate) == []
  {
    if arrived != [] {
      NonePicked(arrived[..|arrived| - 1], fates[..|fates| - 1], fate);
    }
  }

  /** The first position with a given fate. */
  function First(fates: seq<Fate>, fate: Fate): (i: nat)
    ensures i <= |fates| && (i < |fates| ==> fates[i] == fate)
    ensures forall j :: 0 <= j < i ==> fates[j] != fate
  {
    if fates == [] || fates[0] == fate then 0 else 1 + First(fates[1..], fate)
  }

  /**
   The first frame with fate `from` moves on to fate `to`. If `to` is the next stage of the
   path, it lines up behind the frames already there.
   */
  lemma FirstMoves(arrived: seq<Frame>, fates: seq<Fate>, from: Fate, to: Fate)
    requires |arrived| == |fates| && Ordered(fates) && from != to
    requires Picked(arrived, fates, from) != []
    requires Distance(from) < 4 && (Distance(to) == 4 || Distance(to) + 1 == Distance(from))
    ensures var i := First(fates, from);
            i < |fates|
    ensures var i := First(fates, from);
            var fates' := fates[i := to];
            && Ordered(fates')
            && Picked(arrived, fates', from) == Picked(arrived, fates, from)[1..]
            && arrived[i] == Picked(arrived, fates, from)[0]
            && (Distance(to) < 4 ==> Picked(arrived, fates', to) == Picked(arrived, fates, to) + [arrived[i]])
            && |Picked(arrived, fates', to)| == |Picked(arrived, fates, to)| + 1
            && forall other :: other != from && other != to ==> Picked(arrived, fates', other) == Picked(arrived, fates, other)
  {
    hide Picked;
    var i := First(fates, from);
    if i == |fates| {
      NonePicked(arrived, fates, from);
    }
    OrderedAfterMove(fates, i, from, to);
    forall other: Fate | other != from && other != to
      ensures Picked(arrived, fates[i := to], other) == Picked(arrived, fates, other)
    {
      Refated(arrived, fates, i, to, other);
    }
    Refated(arrived, fates, i, to, from);
    Refated(arrived, fates, i, to, to);
    NonePicked(arrived[..i], fates[..i], from);
    var before, after := Picked(arrived[..i], fates[..i], to), Picked(arrived[i + 1..], fates[i + 1..], to);
    assert |before + [arrived[i]] + after| == |before + [] + after| + 1;
    if Distance(to) < 4 {
      NonePicked(arrived[i + 1..], fates[i + 1..], to);
      assert before + [] + [] == before;
    }
  }

  lemma OrderedAfterMove(fates: seq<Fate>, i: nat, from: Fate, to: Fate)
    requires i < |fates| && i == First(fates, from) && fates[i] == from && Ordered(fates) && from != to
    requires Distance(from) < 4 && (Distance(to) == 4 || Distance(to) + 1 == Distance(from))
    ensures Ordered(fates[i := to])
    ensures Distance(to) < 4 ==> forall j :: i < j < |fates| ==> fates[j] != to
  {
    forall j | 0 <= j < i && Distance(fates[j]) < 4
      ensures Distance(fates[j]) < Distance(from)
    {
      if Distance(fates[j]) == Distance(from) {
        SameDistance(fates[j], from);
      }
    }
  }

  lemma SameDistance(f: Fate, g: Fate)
    requires Distance(f) == Distance(g) < 4
    ensures f == g
  {
  }

  /** How changing one frame's fate changes the frames with some fate. */
  lemma Refated(arrived: seq<Frame>, fates: seq<Fate>, i: nat, to: Fate, fate: Fate)
    requires i < |arrived| == |fates|
    ensures var before, after := Picked(arrived[..i], fates[..i], fate), Picked(arrived[i + 1..], fates[i + 1..], fate);
            && Picked(arrived, fates[i := to], fate) == before + (if to == fate then [arrived[i]] else []) + after
            && Picked(arrived, fates, fate) == before + (if fates[i] == fate then [arrived[i]] else []) + after
  {
    hide Picked;
    var fates' := fates[i := to];
    assert fates'[..i] == fates[..i] && fates'[i + 1..] == fates[i + 1..];
    PickedAround(arrived, fates, i, fate);
    PickedAround(arrived, fates', i, fate);
  }

  lemma ArrivesLast(arrived: seq<Frame>, fates: seq<Fate>, frame: Frame)
    requires |arrived| == |fates| && Ordered(fates)
    ensures Ordered(fates + [InAudioQueue])
    ensures Picked(arrived + [frame], fates + [InAudioQueue], InAudioQueue) == Picked(arrived, fates, InAudioQueue) + [frame]
    ensures forall other :: other != InAudioQueue ==>
              Picked(arrived + [frame], fates + [InAudioQueue], other) == Picked(arrived, fates, other)
  {
    assert (arrived + [frame])[..|arrived|] == arrived;
    assert (fates + [InAudioQueue])[..|fates|] == fates;
  }

  /** The fates say where every frame is, and the two drop counters count the dropped ones. */
  ghost predicate FatesFit(arrived: seq<Frame>, fates: seq<Fate>, waiting: seq<Frame>, inHand: Option<Frame>,
                           sttQueue: seq<Frame>, recognised: seq<Frame>, dropped: nat, sttDropped: nat)
  {
    && |arrived| == |fates| && Ordered(fates)
    && Picked(arrived, fates, InAudioQueue) == waiting
    && Picked(arrived, fates, InHand) == (if inHand.Some? then [inHand.value] else [])
    && Picked(arrived, fates, InSttQueue) == sttQueue
    && Picked(arrived, fates, Recognised) == recognised
    && |Picked(arrived, fates, DroppedOldest)| == dropped
    && |Picked(arrived, fates, DroppedNewest)| == sttDropped
  }

  /** The fates after one more frame: if there is no room, the oldest waiting frame is dropped for it. */
  lemma Received(arrived: seq<Frame>, fates: seq<Fate>, waiting: seq<Frame>, inHand: Option<Frame>, sttQueue: seq<Frame>,
                 recognised: seq<Frame>, dropped: nat, sttDropped: nat, frame: Frame, maxSize: nat)
      returns (after: seq<Fate>)
    requires FatesFit(arrived, fates, waiting, inHand, sttQueue, recognised, dropped, sttDropped)
    requires 1 <= maxSize && |waiting| <= maxSize
    ensures FatesFit(arrived + [frame], after, Enqueued(waiting, frame, maxSize), inHand, sttQueue, recognised,
                     dropped + (if |waiting| == maxSize then 1 else 0), sttDropped)
    ensures |after| == |arrived| + 1
    ensures Picked(arrived + [frame], after, NotHandedOn) == Picked(arrived, fates, NotHandedOn)
  {
    hide Picked, Ordered;
    after := fates;
    if |waiting| == maxSize {
      FirstMoves(arrived, fates, InAudioQueue, DroppedOldest);
      after := fates[First(fates, InAudioQueue) := DroppedOldest];
    }
    ArrivesLast(arrived, after, frame);
    after := after + [InAudioQueue];
  }

  lemma NothingArrived()
    ensures FatesFit([], [], [], None, [], [], 0, 0)
  {
  }

  /** One thing that happens on the path. A step that cannot be taken leaves everything as it is. */
  datatype Step = Arrive(frame: Frame) | Dispatch | Hand(callbackRaises: bool, sttRunning: bool) | Hear

  /** A step in which a frame is kept from the recogniser. */
  predicate Withholds(step: Step) {
    step.Hand? && (step.callbackRaises || !step.sttRunning)
  }

  class Pipeline {
    const queue: AudioFrameQueue
    const sttCapacity: int          // asyncio.Queue(maxsize): no bound when it is not positive
    var inHand: Option<Frame>       // the frame the dispatcher has taken and not yet passed on
    var sttQueue: seq<Frame>
    var sttDropped: nat             // STTConsumer.frames_dropped
    var framesDispatched: nat
    var recognised: seq<Frame>      // frames given to the recogniser, in order
    ghost var arrived: seq<Frame>   // frames received
    ghost var fates: seq<Fate>

    ghost predicate Valid()
      reads this, queue, queue.buf
    {
      && queue.Valid() && |arrived| == |fates|
      && FatesFit(arrived, fates, queue.Contents(), inHand, sttQueue, recognised, queue.framesDropped, sttDropped)
    }

    constructor (queue: AudioFrameQueue, sttCapacity: int)
      requires queue.Valid() && queue.Contents() == [] && queue.framesDropped == 0
      ensures Valid() && this.queue == queue && this.sttCapacity == sttCapacity
      ensures arrived == [] && fates == [] && recognised == [] && sttQueue == [] && inHand == None
    {
      hide Ring, FatesFit;
      NothingArrived();
      this.queue, this.sttCapacity := queue, sttCapacity;
      inHand, sttQueue, sttDropped, framesDispatched, recognised := None, [], 0, 0, [];
      arrived, fates := [], [];
    }

    /** A frame comes in from the client. */
    method Receive(frame: Frame)
      requires Valid()
      modifies this, queue, queue.buf
      ensures Valid() && arrived == old(arrived) + [frame]
      ensures queue.Contents() == Enqueued(old(queue.Contents()), frame, queue.maxSize)
      ensures Picked(arrived, fates, NotHandedOn) == old(Picked(arrived, fates, NotHandedOn))
      ensures recognised == old(recognised) && sttQueue == old(sttQueue) && inHand == old(inHand)
    {
      hide FatesFit, Enqueued, Ring, Picked;
      queue.Accounted();
      fates := Received(arrived, fates, queue.Contents(), inHand, sttQueue, recognised, queue.framesDropped, sttDropped,
                        frame, queue.maxSize);
      arrived := arrived + [frame];
      queue.Enqueue(frame);
    }

    /** The dispatcher takes the oldest frame, if there is one. */
    method Take()
      requires Valid() && inHand == None
      modifies this, queue
      ensures Valid() && arrived == old(arrived)
      ensures inHand == if old(queue.Contents()) == [] then None else Some(old(queue.Contents())[0])
      ensures recognised == old(recognised) && sttQueue == old(sttQueue)
      ensures Picked(arrived, fates, NotHandedOn) == old(Picked(arrived, fates, NotHandedOn))
    {
      hide Picked, Ordered, Ring;
      if queue.Contents() != [] {
        FirstMoves(arrived, fates, InAudioQueue, Fate.InHand);
        fates := fates[First(fates, InAudioQueue) := Fate.InHand];
      }
      inHand := queue.Dequeue();
    }

    /**
     The frame callback returns, and the dispatcher hands the frame to the recogniser's
     queue, which refuses it when full. If the callback raises, or the recogniser is not
     running, the frame goes no further.
     */
    method PassOn(callbackRaises: bool, sttRunning: bool)
      requires Valid() && inHand.Some?
      modifies this
      ensures Valid() && arrived == old(arrived) && inHand == None && recognised == old(recognised)
      ensures framesDispatched == old(framesDispatched) + if callbackRaises then 0 else 1
      ensures var full := sttCapacity > 0 && |old(sttQueue)| >= sttCapacity;
              if callbackRaises || !sttRunning then
                sttQueue == old(sttQueue) && sttDropped == old(sttDropped)
                && |Picked(arrived, fates, NotHandedOn)| == |old(Picked(arrived, fates, NotHandedOn))| + 1
              else
                && sttQueue == old(sttQueue) + (if full then [] else [old(inHand).value])
                && sttDropped == old(sttDropped) + (if full then 1 else 0)
                && Picked(arrived, fates, NotHandedOn) == old(Picked(arrived, fates, NotHandedOn))
    {
      hide Picked, Ordered, Ring;
      var frame := inHand.value;
      ghost var i := First(fates, Fate.InHand);
      if callbackRaises || !sttRunning {
        FirstMoves(arrived, fates, Fate.InHand, NotHandedOn);
        fates := fates[i := NotHandedOn];
        framesDispatched := framesDispatched + if callbackRaises then 0 else 1;
      } else {
        framesDispatched := framesDispatched + 1;
        if sttCapacity > 0 && |sttQueue| >= sttCapacity {
          FirstMoves(arrived, fates, Fate.InHand, DroppedNewest);
          fates := fates[i := DroppedNewest];
          sttDropped := sttDropped + 1;
        } else {
          FirstMoves(arrived, fates, Fate.InHand, InSttQueue);
          fates := fates[i := InSttQueue];
          sttQueue := sttQueue + [frame];
        }
      }
      inHand := None;
    }

    /** The recogniser is given the next frame. */
    method Recognise()
      requires Valid() && sttQueue != []
      modifies this
      ensures Valid() && arrived == old(arrived)
      ensures recognised == old(recognised) + [old(sttQueue)[0]] && sttQueue == old(sttQueue)[1..]
      ensures inHand == old(inHand) && Picked(arrived, fates, NotHandedOn) == old(Picked(arrived, fates, NotHandedOn))
    {
      hide Picked, Ordered, Ring;
      FirstMoves(arrived, fates, InSttQueue, Recognised);
      fates := fates[First(fates, InSttQueue) := Recognised];
      recognised := recognised + [sttQueue[0]];
      sttQueue := sttQueue[1..];
    }

    /** One step: what arrives, what is withheld, and the room that the recogniser's queue keeps to. */
    method Do(step: Step) returns (withheld: nat)
      requires Valid()
      modifies this, queue, queue.buf
      ensures Valid() && arrived == old(arrived) + if step.Arrive? then [step.frame] else []
      ensures withheld <= 1 && (!Withholds(step) ==> withheld == 0)
      ensures |Picked(arrived, fates, NotHandedOn)| == old(|Picked(arrived, fates, NotHandedOn)|) + withheld
      ensures sttCapacity > 0 && |old(sttQueue)| <= sttCapacity ==> |sttQueue| <= sttCapacity
      ensures |sttQueue| <= |old(sttQueue)| + 1
    {
      hide Picked, Ring, Enqueued, FatesFit, AudioFrameQueue.Contents;
      withheld := 0;
      match step
      case Arrive(frame) => Receive(frame);
      case Dispatch =>
        if inHand == None {
          Take();
        }
      case Hand(raises, running) =>
        if inHand.Some? {
          PassOn(raises, running);
          withheld := if raises || !running then 1 else 0;
        }
      case Hear =>
        if sttQueue != [] {
          Recognise();
        }
    }
  }

  function Arrivals(steps: seq<Step>): seq<Frame> {
    if steps == [] then []
    else Arrivals(steps[..|steps| - 1]) + if steps[|steps| - 1].Arrive? then [steps[|steps| - 1].frame] else []
  }

  /** How many frames have a given fate. */
  function Count(fates: seq<Fate>, fate: Fate): nat {
    if fates == [] then 0
    else Count(fates[..|fates| - 1], fate) + if fates[|fates| - 1] == fate then 1 else 0
  }

  lemma {:induction false} CountPicked(arrived: seq<Frame>, fates: seq<Fate>, fate: Fate)
    requires |arrived| == |fates|
    ensures Count(fates, fate) == |Picked(arrived, fates, fate)|
  {
    if arrived != [] {
      CountPicked(arrived[..|arrived| - 1], fates[..|fates| - 1], fate);
    }
  }

  /** Every frame has exactly one fate. */
  lemma {:induction false} EveryFrameCounted(fates: seq<Fate>)
    ensures |fates| == Count(fates, Recognised) + Count(fates, InSttQueue) + Count(fates, Fate.InHand)
                     + Count(fates, InAudioQueue) + Count(fates, DroppedOldest) + Count(fates, DroppedNewest)
                     + Count(fates, NotHandedOn)
  {
    if fates != [] {
      EveryFrameCounted(fates[..|fates| - 1]);
    }
  }

  /**
   The whole inbound path under any schedule: the frames given to the recogniser are the
   received frames with fate Recognised, in order of arrival (a subsequence); and every other
   frame is in one of the queues, in the dispatcher's hand, counted by exactly one of the two
   drop counters, or was not handed on because its callback raised or the recogniser was not
   running. If neither ever happens, nothing is lost without being counted.
   */
  method RunPath(steps: seq<Step>, audioCapacity: nat, sttCapacity: int)
      returns (recognised: seq<Frame>, waiting: nat, droppedOldest: nat, droppedNewest: nat, notHandedOn: nat,
               ghost fates: seq<Fate>)
    requires audioCapacity >= 1
    ensures |fates| == |Arrivals(steps)| && Ordered(fates)
    ensures recognised == Picked(Arrivals(steps), fates, Recognised)
    ensures |Arrivals(steps)| == |recognised| + waiting + droppedOldest + droppedNewest + notHandedOn
    ensures droppedOldest == Count(fates, DroppedOldest) && droppedNewest == Count(fates, DroppedNewest)
    ensures notHandedOn == Count(fates, NotHandedOn)
    ensures (forall s :: 0 <= s < |steps| ==> !Withholds(steps[s])) ==> notHandedOn == 0
    ensures waiting <= audioCapacity + 1 + if sttCapacity > 0 then sttCapacity else |steps|
  {
    hide Picked, Ordered, Ring, Arrivals, Enqueued, FatesFit, AudioFrameQueue.Contents;
    var queue := new AudioFrameQueue(audioCapacity);
    var path := new Pipeline(queue, sttCapacity);
    notHandedOn := 0;
    NoArrivals(steps);
    for s := 0 to |steps|
      invariant path.queue == queue && fresh(path) && fresh(queue) && fresh(queue.buf) && path.Valid()
      invariant path.arrived == Arrivals(steps[..s])
      invariant notHandedOn == |Picked(path.arrived, path.fates, NotHandedOn)|
      invariant (forall i :: 0 <= i < s ==> !Withholds(steps[i])) ==> notHandedOn == 0
      invariant queue.maxSize == audioCapacity && path.sttCapacity == sttCapacity
      invariant |path.sttQueue| <= if sttCapacity > 0 then sttCapacity else s
    {
      ArrivalsTake(steps, s);
      var withheld := path.Do(steps[s]);
      notHandedOn := notHandedOn + withheld;
    }
    assert steps[..|steps|] == steps;
    fates, recognised := path.fates, path.recognised;
    queue.Accounted();
    waiting := queue.size + (if path.inHand.Some? then 1 else 0) + |path.sttQueue|;
    droppedOldest, droppedNewest := queue.framesDropped, path.sttDropped;
    AllCounted(path.arrived, fates, queue.Contents(), path.inHand, path.sttQueue, recognised, droppedOldest, droppedNewest);
  }

  /** Where all the frames are. */
  lemma AllCounted(arrived: seq<Frame>, fates: seq<Fate>, waiting: seq<Frame>, inHand: Option<Frame>,
                   sttQueue: seq<Frame>, recognised: seq<Frame>, dropped: nat, sttDropped: nat)
    requires FatesFit(arrived, fates, waiting, inHand, sttQueue, recognised, dropped, sttDropped)
    ensures |arrived| == |fates| && Ordered(fates) && recognised == Picked(arrived, fates, Recognised)
    ensures dropped == Count(fates, DroppedOldest) && sttDropped == Count(fates, DroppedNewest)
    ensures Count(fates, NotHandedOn) == |Picked(arrived, fates, NotHandedOn)|
    ensures |arrived| == |recognised| + |sttQueue| + (if inHand.Some? then 1 else 0) + |waiting| + dropped + sttDropped
                       + Count(fates, NotHandedOn)
  {
    hide Picked, Ordered, Count;
    EveryFrameCounted(fates);
    CountPicked(arrived, fates, Recognised);
    CountPicked(arrived, fates, InSttQueue);
    CountPicked(arrived, fates, Fate.InHand);
    CountPicked(arrived, fates, InAudioQueue);
    CountPicked(arrived, fates, DroppedOldest);
    CountPicked(arrived, fates, DroppedNewest);
    CountPicked(arrived, fates, NotHandedOn);
  }

  lemma NoArrivals(steps: seq<Step>)
    ensures Arrivals(steps[..0]) == []
    ensures Picked([], [], NotHandedOn) == []
  {
  }

  lemma ArrivalsTake(steps: seq<Step>, s: nat)
    requires s < |steps|
    ensures Arrivals(steps[..s + 1]) == if steps[s].Arrive? then Arrivals(steps[..s]) + [steps[s].frame] else Arrivals(steps[..s])
  {
    assert steps[..s + 1][..s] == steps[..s];
  }
}
