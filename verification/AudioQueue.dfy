/** The bounded queue of inbound audio frames: when it is full, the oldest frame makes room. */
module AudioQueue {
  import opened Sequences
  import opened Pcm16

  type Frame = seq<byte>

  /** What the queue holds after one more frame. */
  function Enqueued(frames: seq<Frame>, frame: Frame, maxSize: nat): seq<Frame> {
    (if frames != [] && |frames| >= maxSize then frames[1..] else frames) + [frame]
  }

  /** The n cells from `head` on, going round at the end. */
  function Ring(cells: seq<Frame>, head: nat, n: nat): (frames: seq<Frame>)
    requires head < |cells| && n <= |cells|
    ensures |frames| == n
  {
    if head + n <= |cells| then cells[head..head + n] else cells[head..] + cells[..head + n - |cells|]
  }

  function Next(head: nat, maxSize: nat): nat {
    if head + 1 < maxSize then head + 1 else 0
  }

  function Slot(head: nat, i: nat, maxSize: nat): nat {
    if head + i < maxSize then head + i else head + i - maxSize
  }

  lemma RingTail(cells: seq<Frame>, head: nat, n: nat)
    requires head < |cells| && 1 <= n <= |cells|
    ensures Ring(cells, head, n)[0] == cells[head]
    ensures Ring(cells, Next(head, |cells|), n - 1) == Ring(cells, head, n)[1..]
  {
  }

  lemma RingAppend(cells: seq<Frame>, head: nat, n: nat, frame: Frame)
    requires head < |cells| && n < |cells|
    ensures Ring(cells[Slot(head, n, |cells|) := frame], head, n + 1) == Ring(cells, head, n) + [frame]
  {
  }

  lemma RingReplace(cells: seq<Frame>, head: nat, frame: Frame)
    requires head < |cells|
    ensures Ring(cells[head := frame], Next(head, |cells|), |cells|) == Ring(cells, head, |cells|)[1..] + [frame]
  {
  }

  /** The waiting frames stay the latest ones. */
  lemma LatestFrames(history: seq<Frame>, frame: Frame, waiting: seq<Frame>, maxSize: nat)
    requires |waiting| <= |history| && waiting == history[|history| - |waiting|..] && maxSize >= 1
    ensures var after := Enqueued(waiting, frame, maxSize);
            |after| <= |history + [frame]| && after == (history + [frame])[|history + [frame]| - |after|..]
  {
  }

  class AudioFrameQueue {
    const maxSize: nat
    const buf: array<Frame>   // a ring: the deque with maxlen
    var head: nat
    var size: nat
    var notEmpty: bool        // the event that consumers sleep on
    var framesDropped: nat
    var framesEnqueued: nat
    ghost var history: seq<Frame>   // the frames enqueued since the last clear
    ghost var dequeued: nat         // and how many were dequeued
    ghost var lost: nat             // frames removed by `clear`

    ghost predicate Valid()
      reads this, buf
    {
      && 1 <= maxSize == buf.Length
      && head < maxSize && size <= maxSize
      && (notEmpty <==> size > 0)
      && size <= |history|
      && Contents() == history[|history| - size..]
      && framesEnqueued == dequeued + framesDropped + lost + size
    }

    /** The waiting frames, oldest first. */
    ghost function Contents(): (frames: seq<Frame>)
      requires head < buf.Length && size <= buf.Length
      reads `head, `size, buf
    {
      Ring(buf[..], head, size)
    }

    /** Every frame enqueued was dequeued, dropped or discarded, or waits; and the event says whether any does. */
    lemma Accounted()
      requires Valid()
      ensures framesEnqueued == dequeued + framesDropped + lost + size
      ensures |Contents()| == size <= maxSize && (notEmpty <==> size > 0)
    {
    }

    lemma InBounds()
      requires Valid()
      ensures head < buf.Length && size <= buf.Length
    {
    }

    constructor (maxSize: nat)
      requires maxSize >= 1
      ensures Valid() && fresh(buf) && this.maxSize == maxSize
      ensures Contents() == [] && history == [] && framesDropped == 0 && framesEnqueued == 0 && lost == 0 && dequeued == 0
    {
      this.maxSize := maxSize;
      buf := new Frame[maxSize](i => []);
      head, size, notEmpty, framesDropped, framesEnqueued := 0, 0, false, 0, 0;
      history, dequeued, lost := [], 0, 0;
    }

    method Enqueue(frame: Frame)
      requires Valid()
      modifies this, buf
      ensures Valid()
      ensures Contents() == Enqueued(old(Contents()), frame, maxSize)
      ensures framesEnqueued == old(framesEnqueued) + 1
      ensures framesDropped == old(framesDropped) + if |old(Contents())| == maxSize then 1 else 0
      ensures history == old(history) + [frame] && lost == old(lost) && dequeued == old(dequeued)
    {
      hide Ring;
      ghost var cells := buf[..];
      LatestFrames(history, frame, Contents(), maxSize);
      if size >= maxSize {
        framesDropped := framesDropped + 1;
        RingReplace(cells, head, frame);
        buf[head] := frame;  // a full deque drops its first element when one is appended
        assert buf[..] == cells[head := frame];
        head := Next(head, maxSize);
      } else {
        RingAppend(cells, head, size, frame);
        buf[Slot(head, size, maxSize)] := frame;
        assert buf[..] == cells[Slot(head, size, maxSize) := frame];
        size := size + 1;
      }
      framesEnqueued := framesEnqueued + 1;
      notEmpty := true;
      assert Contents() == Enqueued(old(Contents()), frame, maxSize);
      hide Enqueued;
      history := history + [frame];
    }

    method Dequeue() returns (frame: Option<Frame>)
      requires Valid()
      modifies this
      ensures Valid()
      ensures if old(Contents()) == [] then frame == None && Contents() == []
              else frame == Some(old(Contents())[0]) && Contents() == old(Contents())[1..]
      ensures framesEnqueued == old(framesEnqueued) && framesDropped == old(framesDropped)
      ensures history == old(history) && lost == old(lost)
      ensures dequeued == old(dequeued) + if frame.Some? then 1 else 0
    {
      hide Ring;
      if size == 0 {
        notEmpty := false;
        return None;
      }
      RingTail(buf[..], head, size);
      frame := Some(buf[head]);
      head := Next(head, maxSize);
      size := size - 1;
      dequeued := dequeued + 1;
      if size == 0 {
        notEmpty := false;
      }
    }

    /** Whether the consumer goes to sleep when it waits now: never with a frame in the queue. */
    method WaitSleeps() returns (sleeps: bool)
      requires Valid()
      ensures sleeps <==> Contents() == []
    {
      if size > 0 {
        return false;
      }
      sleeps := !notEmpty;
    }

    method Clear()
      requires Valid()
      modifies this
      ensures Valid() && Contents() == [] && history == []
      ensures lost == old(lost) + |old(Contents())| && dequeued == old(dequeued)
      ensures framesEnqueued == old(framesEnqueued) && framesDropped == old(framesDropped)
    {
      lost := lost + size;
      head, size, notEmpty := 0, 0, false;
      history := [];
    }

    method Apply(use: Use) returns (taken: seq<Frame>, discarded: nat)
      requires Valid()
      modifies this, buf
      ensures Valid()
      ensures Contents() == UsedOn(old(Contents()), use, maxSize)
      ensures taken == if use.Take? && old(Contents()) != [] then [old(Contents())[0]] else []
      ensures framesEnqueued == old(framesEnqueued) + if use.Put? then 1 else 0
      ensures dequeued == old(dequeued) + |taken| && lost == old(lost) + discarded
    {
      hide Ring, Enqueued;
      taken, discarded := [], 0;
      match use
      case Put(frame) => Enqueue(frame);
      case Take =>
        var frame := Dequeue();
        taken := if frame.Some? then [frame.value] else [];
      case Discard =>
        discarded := size;
        Clear();
    }
  }

  // ------------------------------------------------------ whole runs of the queue

  datatype Use = Put(frame: Frame) | Take | Discard

  function UsedOn(waiting: seq<Frame>, use: Use, maxSize: nat): seq<Frame> {
    match use
    case Put(frame) => Enqueued(waiting, frame, maxSize)
    case Take => if waiting == [] then [] else waiting[1..]
    case Discard => []
  }

  /** What waits in the queue, and what has been taken out of it, in order. */
  function Waiting(uses: seq<Use>, maxSize: nat): seq<Frame> {
    if uses == [] then [] else UsedOn(Waiting(uses[..|uses| - 1], maxSize), uses[|uses| - 1], maxSize)
  }

  function Taken(uses: seq<Use>, maxSize: nat): seq<Frame> {
    if uses == [] then []
    else
      var front := uses[..|uses| - 1];
      Taken(front, maxSize)
      + if uses[|uses| - 1].Take? && Waiting(front, maxSize) != [] then [Waiting(front, maxSize)[0]] else []
  }

  function Puts(uses: seq<Use>): nat {
    if uses == [] then 0 else Puts(uses[..|uses| - 1]) + if uses[|uses| - 1].Put? then 1 else 0
  }

  /**
   Any use of the queue, clearing included: frames come out in order, every frame put in is waiting
   or was taken, dropped or discarded, and the event is set exactly while frames wait.
   */
  method UseQueue(uses: seq<Use>, maxSize: nat)
      returns (taken: seq<Frame>, left: nat, dropped: nat, discarded: nat, eventSet: bool)
    requires maxSize >= 1
    ensures taken == Taken(uses, maxSize) && left == |Waiting(uses, maxSize)| <= maxSize
    ensures Puts(uses) == |taken| + dropped + discarded + left
    ensures eventSet <==> left > 0
  {
    hide Waiting, Taken, Puts, AudioFrameQueue.Valid, AudioFrameQueue.Contents, UsedOn;
    var queue := new AudioFrameQueue(maxSize);
    taken, discarded := [], 0;
    NoUse(maxSize);
    assert uses[..0] == [];
    for u := 0 to |uses|
      invariant fresh(queue) && fresh(queue.buf) && queue.Valid() && queue.maxSize == maxSize
      invariant queue.head < queue.buf.Length && queue.size <= queue.buf.Length
      invariant queue.Contents() == Waiting(uses[..u], maxSize) && taken == Taken(uses[..u], maxSize)
      invariant queue.framesEnqueued == Puts(uses[..u]) && queue.dequeued == |taken| && queue.lost == discarded
    {
      assert uses[..u + 1] == uses[..u] + [uses[u]];
      OneMoreUse(uses[..u], uses[u], maxSize);
      var out, gone := queue.Apply(uses[u]);
      taken, discarded := taken + out, discarded + gone;
      queue.InBounds();
    }
    assert uses[..|uses|] == uses;
    queue.Accounted();
    left, dropped, eventSet := queue.size, queue.framesDropped, queue.notEmpty;
  }

  lemma NoUse(maxSize: nat)
    ensures Waiting([], maxSize) == [] && Taken([], maxSize) == [] && Puts([]) == 0
  {
  }

  lemma OneMoreUse(uses: seq<Use>, use: Use, maxSize: nat)
    ensures var waiting := Waiting(uses, maxSize);
            && Waiting(uses + [use], maxSize) == UsedOn(waiting, use, maxSize)
            && Taken(uses + [use], maxSize)
               == Taken(uses, maxSize) + (if use.Take? && waiting != [] then [waiting[0]] else [])
            && Puts(uses + [use]) == Puts(uses) + if use.Put? then 1 else 0
  {
    assert (uses + [use])[..|uses|] == uses;
    hide UsedOn;
  }
}
