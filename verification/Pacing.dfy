/**
 Real-time pacing of speech audio: how far ahead of playback the sender may run, and whether the
 end of the reply is announced too early. Audio counts from the time its send starts.
 */
module Pacing {
  /** Two bytes are a sample; an odd last byte plays no time, and a rate that is not positive counts as no time at all. */
  function Duration(numBytes: nat, sampleRate: int): (d: real)
    ensures d >= 0.0
  {
    if sampleRate <= 0 then 0.0 else (numBytes / 2) as real / sampleRate as real
  }

  /** How long the loop waits around one frame: for the engine, in the send, and past the end of a sleep. */
  datatype Timing = Timing(synthesis: real, send: real, oversleep: real)

  predicate Passes(t: Timing) {
    t.synthesis >= 0.0 && t.send >= 0.0 && t.oversleep >= 0.0
  }

  /** A frame given to the client: when its send started, and how long it plays. */
  datatype Sent = Sent(at: real, duration: real)

  /** The loop's state. `ready` is when the first frame was there, before the reply was announced. */
  datatype Sender = Sender(now: real, ready: real, cursor: real, sent: seq<Sent>)

  function Max(a: real, b: real): real {
    if a < b then b else a
  }

  function Min(a: real, b: real): real {
    if a < b then a else b
  }

  function Total(sent: seq<Sent>): (t: real) {
    if sent == [] then 0.0 else Total(sent[..|sent| - 1]) + sent[|sent| - 1].duration
  }

  /** When a client that plays each frame as soon as it is there and the one before is over has finished. */
  function PlayedOut(sent: seq<Sent>): real
    requires sent != []
  {
    var last := sent[|sent| - 1];
    if |sent| == 1 then last.at + last.duration
    else Max(PlayedOut(sent[..|sent| - 1]), last.at) + last.duration
  }

  // ------------------------------------------------------ the loop, on values

  /** One frame: announced with tts_start if it is the first, sent, and followed by a sleep if enough is ahead. */
  function SendOne(s: Sender, duration: real, t: Timing, announce: real, maxLead: real): Sender {
    var ready := s.now + t.synthesis;
    var first := s.sent == [];
    var at := if first then ready + announce else ready;
    var cursor := Max(if first then ready else s.cursor, ready) + duration;
    var after := at + t.send;
    Sender(
      if cursor - after > maxLead then after + (cursor - after - maxLead) + t.oversleep else after,
      if first then ready else s.ready, cursor, s.sent + [Sent(at, duration)])
  }

  /** The loop over the engine's frames; empty ones are skipped. */
  function Paced(frames: seq<nat>, timings: seq<Timing>, start: real, announce: real, rate: int, maxLead: real): Sender
    requires |frames| == |timings|
  {
    if frames == [] then Sender(start, start, 0.0, [])
    else
      var n := |frames| - 1;
      var s := Paced(frames[..n], timings[..n], start, announce, rate, maxLead);
      if frames[n] == 0 then s.(now := s.now + timings[n].synthesis)
      else SendOne(s, Duration(frames[n], rate), timings[n], announce, maxLead)
  }

  /** When tts_end is sent: after a sleep up to the cursor, if that is still ahead. */
  function EndedAt(s: Sender, oversleep: real): real {
    if s.cursor > s.now then s.cursor + oversleep else s.now
  }

  /** The sending loop of a reply; `ended` is when tts_end is sent, which it is not for a reply without audio. */
  method PaceReply(frames: seq<nat>, timings: seq<Timing>, start: real, announce: real, oversleep: real,
                   sampleRate: int, maxLeadSeconds: real)
      returns (sent: seq<Sent>, ended: real)
    requires |frames| == |timings|
    ensures var s := Paced(frames, timings, start, announce, sampleRate, Max(0.0, maxLeadSeconds));
            sent == s.sent && ended == EndedAt(s, oversleep)
  {
    var maxLead := Max(0.0, maxLeadSeconds);
    var now, cursor := start, 0.0;
    ghost var firstReady := start;
    sent := [];
    for f := 0 to |frames|
      invariant Sender(now, firstReady, cursor, sent)
             == Paced(frames[..f], timings[..f], start, announce, sampleRate, maxLead)
    {
      assert frames[..f + 1][..f] == frames[..f] && timings[..f + 1][..f] == timings[..f];
      now := now + timings[f].synthesis;
      if frames[f] == 0 {
        continue;
      }
      var ready := now;
      if sent == [] {
        cursor := ready;
        firstReady := ready;
        now := now + announce;
      }
      var duration := Duration(frames[f], sampleRate);
      sent := sent + [Sent(now, duration)];
      now := now + timings[f].send;
      cursor := Max(cursor, ready) + duration;
      var lead := cursor - now;
      if lead > maxLead {
        now := now + (lead - maxLead) + timings[f].oversleep;
      }
    }
    assert frames[..|frames|] == frames && timings[..|timings|] == timings;
    ended := now;
    var remaining := cursor - now;
    if remaining > 0.0 {
      ended := now + remaining + oversleep;
    }
  }

  // ------------------------------------------------------ the end of playback in closed form

  lemma TotalLast(sent: seq<Sent>, i: nat)
    requires i < |sent|
    ensures Total(sent[i..]) == Total(sent[i..|sent| - 1]) + sent[|sent| - 1].duration
  {
    assert sent[i..][..|sent| - 1 - i] == sent[i..|sent| - 1];
  }

  /**
   It is never earlier than any frame's time plus the audio from that frame on, and for some
   frame it is exactly that.
   */
  lemma {:induction false} PlayedOutMeaning(sent: seq<Sent>)
    requires sent != []
    ensures forall i :: 0 <= i < |sent| ==> sent[i].at + Total(sent[i..]) <= PlayedOut(sent)
    ensures exists i :: 0 <= i < |sent| && sent[i].at + Total(sent[i..]) == PlayedOut(sent)
  {
    var n := |sent| - 1;
    var init, last := sent[..n], sent[n];
    assert Total(sent[n..]) == last.duration by {
      TotalLast(sent, n);
    }
    forall i | 0 <= i < n
      ensures Total(sent[i..]) == Total(init[i..]) + last.duration
    {
      TotalLast(sent, i);
      assert init[i..] == sent[i..n];
    }
    if n > 0 {
      PlayedOutMeaning(init);
      if PlayedOut(init) < last.at {
        assert sent[n].at + Total(sent[n..]) == PlayedOut(sent);
      } else {
        var i :| 0 <= i < |init| && init[i].at + Total(init[i..]) == PlayedOut(init);
        assert sent[i].at + Total(sent[i..]) == PlayedOut(sent);
      }
    } else {
      assert sent[0].at + Total(sent[0..]) == PlayedOut(sent);
    }
  }

  lemma PlayedOutFrom(sent: seq<Sent>, i: nat)
    requires i < |sent|
    ensures sent[i].at + Total(sent[i..]) <= PlayedOut(sent)
  {
    PlayedOutMeaning(sent);
    hide Total, PlayedOut;
  }

  lemma PlayedOutBy(sent: seq<Sent>) returns (i: nat)
    requires sent != []
    ensures i < |sent| && sent[i].at + Total(sent[i..]) == PlayedOut(sent)
  {
    PlayedOutMeaning(sent);
    hide Total, PlayedOut;
    i :| 0 <= i < |sent| && sent[i].at + Total(sent[i..]) == PlayedOut(sent);
  }

  // ------------------------------------------------------ what the loop keeps

  /** The frames as the cursor counts them: from when the first one was ready. */
  function Counted(s: Sender): (counted: seq<Sent>)
    requires s.sent != []
    ensures |counted| == |s.sent|
  {
    [s.sent[0].(at := s.ready)] + s.sent[1..]
  }

  /** At every frame, what has been sent is within the lead, that frame and some slack of the time since `since`. */
  ghost predicate WithinLead(sent: seq<Sent>, since: real, slack: real, maxLead: real) {
    forall n :: 0 <= n < |sent| ==>
      Total(sent[..n + 1]) <= sent[n].at - since + maxLead + sent[n].duration + slack
  }

  ghost predicate Kept(s: Sender, announce: real, maxLead: real) {
    s.sent != [] ==>
      && s.sent[0].at == s.ready + announce
      && s.cursor == PlayedOut(Counted(s))
      && s.cursor <= s.now + maxLead
      && s.sent[|s.sent| - 1].at <= s.now
      && (forall i :: 0 <= i < |s.sent| ==> s.sent[0].at <= s.sent[i].at && s.sent[i].duration >= 0.0)
      && WithinLead(s.sent, s.sent[0].at, Min(announce, s.sent[0].duration), maxLead)
  }

  lemma {:induction false} TotalCons(first: Sent, rest: seq<Sent>)
    ensures Total([first] + rest) == first.duration + Total(rest)
  {
    var all := [first] + rest;
    if rest == [] {
      assert all[..0] == [];
    } else {
      TotalCons(first, rest[..|rest| - 1]);
      assert all[..|all| - 1] == [first] + rest[..|rest| - 1];
    }
  }

  /** What has been sent, against the cursor: short by the announcement at most, and by the first frame at most. */
  lemma TotalAgainstCursor(s: Sender, announce: real, maxLead: real)
    requires s.sent != [] && Kept(s, announce, maxLead) && announce >= 0.0
    ensures s.sent[0].at + Total(s.sent) - Min(announce, s.sent[0].duration) <= Max(s.cursor, s.sent[0].at)
  {
    assert Total([]) == 0.0;
    hide WithinLead, PlayedOut, Total;
    var counted, rest := Counted(s), s.sent[1..];
    TotalCons(counted[0], rest);
    TotalCons(s.sent[0], rest);
    assert s.sent == [s.sent[0]] + rest && counted == [counted[0]] + rest && counted[0..] == counted;
    PlayedOutFrom(counted, 0);
    if rest != [] {
      assert counted[1..] == rest && counted[1] == s.sent[1];
      PlayedOutFrom(counted, 1);
    }
  }

  lemma SendOneKeeps(s: Sender, duration: real, t: Timing, announce: real, maxLead: real)
    requires Kept(s, announce, maxLead) && duration >= 0.0 && Passes(t) && announce >= 0.0 && maxLead >= 0.0
    ensures Kept(SendOne(s, duration, t, announce, maxLead), announce, maxLead)
  {
    if s.sent == [] {
      FirstKeeps(s, duration, t, announce, maxLead);
    } else {
      LaterFrameKeeps(s, duration, t, announce, maxLead);
    }
  }

  lemma FirstKeeps(s: Sender, duration: real, t: Timing, announce: real, maxLead: real)
    requires s.sent == [] && duration >= 0.0 && Passes(t) && announce >= 0.0 && maxLead >= 0.0
    ensures Kept(SendOne(s, duration, t, announce, maxLead), announce, maxLead)
  {
    var next := SendOne(s, duration, t, announce, maxLead);
    var frame := next.sent[0];
    assert next.sent == [frame] && Counted(next) == [frame.(at := next.ready)];
    assert [frame][..1] == [frame] && [frame][..0] == [];
    assert Total([frame][..1]) == frame.duration;
    hide Total;
  }

  lemma LaterFrameKeeps(s: Sender, duration: real, t: Timing, announce: real, maxLead: real)
    requires s.sent != [] && Kept(s, announce, maxLead)
    requires duration >= 0.0 && Passes(t) && announce >= 0.0 && maxLead >= 0.0
    ensures Kept(SendOne(s, duration, t, announce, maxLead), announce, maxLead)
  {
    var next := SendOne(s, duration, t, announce, maxLead);
    var frame := next.sent[|s.sent|];
    assert next.sent == s.sent + [frame];
    TotalAgainstCursor(s, announce, maxLead);
    assert Counted(next) == Counted(s) + [frame];
    assert Counted(next)[..|s.sent|] == Counted(s);
    assert PlayedOut(Counted(next)) == Max(PlayedOut(Counted(s)), frame.at) + duration;
    LeadGrows(s.sent, frame, s.sent[0].at, Min(announce, s.sent[0].duration), maxLead);
    hide WithinLead, PlayedOut, Total, Counted;
  }

  lemma LeadGrows(sent: seq<Sent>, frame: Sent, since: real, slack: real, maxLead: real)
    requires WithinLead(sent, since, slack, maxLead)
    requires Total(sent) <= frame.at - since + maxLead + slack
    ensures WithinLead(sent + [frame], since, slack, maxLead)
  {
    var more := sent + [frame];
    assert more[..|sent|] == sent;
    forall n | 0 <= n < |more|
      ensures Total(more[..n + 1]) <= more[n].at - since + maxLead + more[n].duration + slack
    {
      if n < |sent| {
        assert more[..n + 1] == sent[..n + 1];
      } else {
        assert more[..n + 1] == more;
      }
    }
  }

  lemma {:induction false} PacedKeeps(frames: seq<nat>, timings: seq<Timing>, start: real, announce: real, rate: int,
                                      maxLead: real)
    requires |frames| == |timings| && (forall f :: 0 <= f < |timings| ==> Passes(timings[f]))
    requires announce >= 0.0 && maxLead >= 0.0
    ensures Kept(Paced(frames, timings, start, announce, rate, maxLead), announce, maxLead)
  {
    hide SendOne;
    if frames != [] {
      var n := |frames| - 1;
      PacedKeeps(frames[..n], timings[..n], start, announce, rate, maxLead);
      var s := Paced(frames[..n], timings[..n], start, announce, rate, maxLead);
      if frames[n] == 0 {
        LaterKeeps(s, timings[n].synthesis, announce, maxLead);
      } else {
        SendOneKeeps(s, Duration(frames[n], rate), timings[n], announce, maxLead);
      }
    }
  }

  lemma LaterKeeps(s: Sender, passed: real, announce: real, maxLead: real)
    requires Kept(s, announce, maxLead) && passed >= 0.0
    ensures Kept(s.(now := s.now + passed), announce, maxLead)
  {
    hide WithinLead;
    if s.sent != [] {
      assert Counted(s.(now := s.now + passed)) == Counted(s);
    }
  }

  // ------------------------------------------------------ how far ahead, and when the end is announced

  /**
   At every frame, the audio sent so far exceeds the time since the first send by at most the
   lead, that frame, and the smaller of the announcement's time and the first frame.
   */
  lemma SentWithinLead(frames: seq<nat>, timings: seq<Timing>, start: real, announce: real, rate: int, maxLead: real)
    requires |frames| == |timings| && (forall f :: 0 <= f < |timings| ==> Passes(timings[f]))
    requires announce >= 0.0 && maxLead >= 0.0
    ensures var sent := Paced(frames, timings, start, announce, rate, maxLead).sent;
            sent != [] ==> WithinLead(sent, sent[0].at, Min(announce, sent[0].duration), maxLead)
  {
    PacedKeeps(frames, timings, start, announce, rate, maxLead);
  }

  /**
   The end is announced before the client has played everything if and only if, counted from the
   first send, less time has passed than the audio lasts; and it is early by no more than the
   announcement of the start took, and by no more than the first frame lasts.
   */
  lemma EndIsEarlyIff(frames: seq<nat>, timings: seq<Timing>, start: real, announce: real, rate: int, maxLead: real,
                      oversleep: real)
    requires |frames| == |timings| && (forall f :: 0 <= f < |timings| ==> Passes(timings[f]))
    requires announce >= 0.0 && maxLead >= 0.0 && oversleep >= 0.0
    requires Paced(frames, timings, start, announce, rate, maxLead).sent != []
    ensures var s := Paced(frames, timings, start, announce, rate, maxLead);
            var ended := EndedAt(s, oversleep);
            && (ended < PlayedOut(s.sent) <==> ended - s.sent[0].at < Total(s.sent))
            && PlayedOut(s.sent) - ended <= Min(announce, s.sent[0].duration)
  {
    var s := Paced(frames, timings, start, announce, rate, maxLead);
    PacedKeeps(frames, timings, start, announce, rate, maxLead);
    hide Paced;
    EndAgainstPlayback(s, announce, maxLead, EndedAt(s, oversleep));
  }

  lemma EndAgainstPlayback(s: Sender, announce: real, maxLead: real, ended: real)
    requires s.sent != [] && Kept(s, announce, maxLead) && announce >= 0.0
    requires ended >= s.cursor && ended >= s.now
    ensures ended < PlayedOut(s.sent) <==> ended - s.sent[0].at < Total(s.sent)
    ensures PlayedOut(s.sent) - ended <= Min(announce, s.sent[0].duration)
  {
    TotalAgainstCursor(s, announce, maxLead);
    KeptMeans(s, announce, maxLead);
    hide WithinLead, PlayedOut, Total, Kept, Min, Counted;
    assert s.sent[0..] == s.sent;
    PlayedOutFrom(s.sent, 0);
    var i := PlayedOutBy(s.sent);
    if i > 0 {
      CountedFrom(s, i);
      PlayedOutFrom(Counted(s), i);
    }
  }

  lemma KeptMeans(s: Sender, announce: real, maxLead: real)
    requires s.sent != [] && Kept(s, announce, maxLead) && announce >= 0.0
    ensures s.cursor == PlayedOut(Counted(s)) && s.sent[0].at <= s.now && 0.0 <= Min(announce, s.sent[0].duration)
  {
    hide WithinLead, PlayedOut;
  }

  lemma CountedFrom(s: Sender, i: nat)
    requires 0 < i < |s.sent|
    ensures Counted(s)[i] == s.sent[i] && Counted(s)[i..] == s.sent[i..]
  {
  }

  const NO_TIME := Timing(0.0, 0.0, 0.0)

  /** Without the slack the bound fails: behind a long announcement, two frames go out together. */
  lemma LeadFromFirstSend(bytes: nat, announce: real)
    requires bytes > 0 && 0.0 < Duration(bytes, 16000) <= announce
    ensures var sent := Paced([bytes, bytes], [NO_TIME, NO_TIME], 0.0, announce, 16000, 0.0).sent;
            var frame := Sent(announce, Duration(bytes, 16000));
            sent == [frame] + [frame] && !WithinLead(sent, announce, 0.0, 0.0)
  {
    var frames, timings, frame := [bytes, bytes], [NO_TIME, NO_TIME], Sent(announce, Duration(bytes, 16000));
    assert frames[..1] == [bytes] && timings[..1] == [NO_TIME];
    FirstFrame(bytes, announce, frame.duration);
    hide Duration, Paced, WithinLead, SendOne;
    var one := Sender(announce, 0.0, frame.duration, [frame]);
    NextFrame(frames, timings, announce, one, frame.duration);
    SecondFrame(one, frame);
    TwoTogether(frame);
  }

  lemma SecondFrame(one: Sender, frame: Sent)
    requires one == Sender(frame.at, 0.0, frame.duration, [frame]) && frame.duration <= frame.at
    ensures SendOne(one, frame.duration, NO_TIME, frame.at, 0.0).sent == [frame] + [frame]
  {
  }

  lemma NextFrame(frames: seq<nat>, timings: seq<Timing>, announce: real, before: Sender, duration: real)
    requires |frames| == |timings| > 0 && timings[|timings| - 1] == NO_TIME
    requires frames[|frames| - 1] > 0 && Duration(frames[|frames| - 1], 16000) == duration
    requires Paced(frames[..|frames| - 1], timings[..|frames| - 1], 0.0, announce, 16000, 0.0) == before
    ensures Paced(frames, timings, 0.0, announce, 16000, 0.0) == SendOne(before, duration, NO_TIME, announce, 0.0)
  {
    hide Duration, SendOne;
  }

  lemma TwoTogether(frame: Sent)
    requires frame.duration > 0.0
    ensures !WithinLead([frame] + [frame], frame.at, 0.0, 0.0)
  {
    var sent := [frame] + [frame];
    assert sent[..1 + 1] == sent && sent[..1] == [frame] && sent[..1][..0] == [];
    assert Total(sent[..1 + 1]) == Total(sent[..1]) + frame.duration;
  }

  lemma FirstFrame(bytes: nat, announce: real, duration: real)
    requires bytes > 0 && Duration(bytes, 16000) == duration <= announce
    ensures Paced([bytes], [NO_TIME], 0.0, announce, 16000, 0.0)
            == Sender(announce, 0.0, duration, [Sent(announce, duration)])
  {
    hide Duration;
    assert [bytes][..0] == [] && [NO_TIME][..0] == [];
  }

  /** A frame of a second behind an announcement of five: its end is announced when its playing begins. */
  lemma EarlyEnd()
    ensures var s := Paced([32000], [NO_TIME], 0.0, 5.0, 16000, 0.0);
            s.sent == [Sent(5.0, 1.0)] && EndedAt(s, 0.0) == 5.0 && PlayedOut(s.sent) == 6.0
  {
    assert Duration(32000, 16000) == 1.0;
    FirstFrame(32000, 5.0, 1.0);
    hide Paced, Duration;
  }
}
