/** What a caller is sent in any phone call: the audio of one speech after the other, none after its clear. */
module CallTrace {
  import opened CallSteps
  import opened CallSafety

  /** Speeches do not interleave, and nothing of a speech is sent after the order to drop it. */
  ghost predicate WellOrdered(out: seq<Out>) {
    && (forall i, j :: 0 <= i < j < |out| ==> out[i].number <= out[j].number)
    && (forall i, j :: 0 <= i < j < |out| && out[i].Clear? && out[j].Media? ==> out[i].number < out[j].number)
  }

  ghost predicate OutFits(call: Call) {
    && WellOrdered(call.out)
    && (forall i :: 0 <= i < |call.out| ==> call.out[i].number <= call.voice.number)
    && (forall i :: 0 <= i < |call.out| && call.out[i] == Clear(call.voice.number) ==> !call.voice.active)
  }

  lemma OutKeeps(before: Call, after: Call)
    requires OutFits(before) && Utters(before, after)
    ensures OutFits(after)
  {
    if after.out != before.out {
      var last := after.out[|before.out|];
      assert after.out == before.out + [last];
    }
  }

  /** Over every run: what has begun to be sent to the caller is well ordered. */
  lemma {:induction false} CallerHearsInOrder(calls: seq<Call>, schedule: seq<Event>, i: nat)
    requires IsRun(calls, schedule) && i < |calls|
    ensures OutFits(calls[i])
  {
    hide OutFits, Utters, Sound;
    if i > 0 {
      CallerHearsInOrder(calls, schedule, i - 1);
      RunKeeps(calls, schedule, i);
      OutKeeps(calls[i - 1], calls[i]);
    } else {
      NothingSent();
    }
  }

  lemma NothingSent()
    ensures OutFits(Dialled)
  {
  }
}
