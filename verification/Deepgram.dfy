/** Assembling Deepgram result messages into transcript events, and what becomes of their words. */
module Deepgram {
  import opened Sequences
  import opened Text
  import opened Words
  import opened TurnTaking

  /** A recogniser message; `transcript` is the first alternative's, if there is one. */
  datatype Message =
    | UtteranceEnd
    | Results(transcript: Option<string>, isFinal: bool, speechFinal: bool)

  /** The segment a message settles for good, if any. */
  function SettledSegment(m: Message): Option<string> {
    if m.Results? && m.transcript.Some? && m.isFinal && Strip(m.transcript.value) != "" then
      Some(Strip(m.transcript.value))
    else None
  }

  function SettledWords(messages: seq<Message>): seq<string> {
    if messages == [] then []
    else SettledWords(messages[..|messages| - 1]) + HeldSegment(SettledSegment(messages[|messages| - 1]))
  }

  function HeldSegment(segment: Option<string>): seq<string> {
    if segment.Some? then WordsOf(segment.value) else []
  }

  lemma SettledWordsSnoc(messages: seq<Message>, last: Message)
    ensures SettledWords(messages + [last]) == SettledWords(messages) + HeldSegment(SettledSegment(last))
  {
    assert (messages + [last])[..|messages|] == messages;
  }

  class Engine {
    var segments: seq<string>
    var utteranceId: Option<string>

    constructor ()
      ensures segments == [] && utteranceId == None
    {
      segments, utteranceId := [], None;
    }

    /** Audio comes in before the next message: the utterance has an ID from then on. */
    method StartUtterance(freshId: string)
      modifies this`utteranceId
      ensures utteranceId == Some(if old(utteranceId).Some? then old(utteranceId).value else freshId)
    {
      if utteranceId == None {
        utteranceId := Some(freshId);
      }
    }

    /** Ends the utterance: nothing settled stays behind, and nothing of it is repeated under the next ID. */
    method FinalEvent(id: string) returns (event: TranscriptEvent)
      modifies this
      ensures event == Final(id, Joined(old(segments)))
      ensures segments == [] && utteranceId == None
    {
      event := Final(id, Joined(segments));
      segments := [];
      utteranceId := None;
    }

    /**
     A final event comes exactly from a message that ends an utterance with something settled, and
     then has all of it; any other message gives a partial at most.
     */
    method ParseResult(m: Message, freshId: string) returns (event: Option<TranscriptEvent>)
      modifies this
      ensures var settled := old(segments) + if SettledSegment(m).Some? then [SettledSegment(m).value] else [];
              var ends := m == UtteranceEnd || (m.transcript.Some? && m.speechFinal);
              if ends && settled != [] then
                && segments == [] && utteranceId == None
                && event == Some(Final(if old(utteranceId).Some? then old(utteranceId).value else freshId, Joined(settled)))
              else
                && segments == settled && utteranceId == old(utteranceId)
                && event == if ends || m.transcript == None || Strip(m.transcript.value) == "" then None
                            else Some(Partial(if utteranceId.Some? then utteranceId.value else freshId,
                                        Joined(if m.isFinal then settled else settled + [Strip(m.transcript.value)])))
    {
      hide Strip;
      var id := if utteranceId.Some? then utteranceId.value else freshId;
      if m == UtteranceEnd {
        assert segments + [] == segments;
        if segments == [] {
          return None;
        }
        var final := FinalEvent(id);
        return Some(final);
      }
      if m.transcript == None {
        assert segments + [] == segments;
        return None;
      }
      var transcript := Strip(m.transcript.value);
      if m.isFinal && transcript != "" {
        segments := segments + [transcript];
      } else {
        assert segments + [] == segments;
      }
      if m.speechFinal {
        if segments == [] {
          return None;
        }
        var final := FinalEvent(id);
        return Some(final);
      }
      if transcript == "" {
        return None;
      }
      return Some(Partial(id, Joined(if m.isFinal then segments else segments + [transcript])));
    }
  }

  /**
   All messages between two resets: the words of the settled segments are those of the
   final transcripts, in order, followed by those of the segments still waiting.
   */
  method ParseAll(messages: seq<Message>, ids: nat -> string, audioBefore: nat -> bool)
      returns (events: seq<TranscriptEvent>, waiting: seq<string>)
    ensures SettledWords(messages) == FinalWords(events) + WordsOfAll(waiting)
  {
    hide WordsOf, Strip, Joined, FinalWords, WordsOfAll, SettledWords;
    var engine := new Engine();
    events := [];
    NothingSettled(messages);
    for i := 0 to |messages|
      invariant fresh(engine)
      invariant SettledWords(messages[..i]) == FinalWords(events) + WordsOfAll(engine.segments)
    {
      assert messages[..i + 1] == messages[..i] + [messages[i]];
      SettledWordsSnoc(messages[..i], messages[i]);
      ghost var settled := SettledSegment(messages[i]);
      Settle(FinalWords(events), engine.segments, settled);
      WordsOfJoined(engine.segments + if settled.Some? then [settled.value] else []);
      if audioBefore(i) {
        engine.StartUtterance(ids(i));
      }
      var event := engine.ParseResult(messages[i], ids(i));
      if event.Some? {
        FinalWordsSnoc(events, event.value);
        events := events + [event.value];
      }
    }
    assert messages[..|messages|] == messages;
    waiting := engine.segments;
  }

  lemma NothingSettled(messages: seq<Message>)
    ensures SettledWords(messages[..0]) == FinalWords([]) + WordsOfAll([])
    ensures WordsOfAll([]) == []
  {
  }

  lemma Settle(before: seq<string>, segments: seq<string>, settled: Option<string>)
    ensures var all := segments + if settled.Some? then [settled.value] else [];
            before + WordsOfAll(segments) + HeldSegment(settled) == before + WordsOfAll(all) == before + WordsOfAll(all) + []
  {
    hide WordsOf;
    if settled.Some? {
      WordsOfAllSnoc(segments, settled.value);
    } else {
      assert segments + [] == segments;
    }
  }

  /**
   From the recogniser to the replies, under any schedule: every word of every settled
   segment is, in order, in a replied turn, in the held turn, in the event in hand, in an
   event not yet taken, or in a segment waiting for the end of its utterance.
   */
  method SettledWordsAreReplied(messages: seq<Message>, ids: nat -> string, audioBefore: nat -> bool, moves: seq<Move>,
                                holds: bool, soundsUnfinished: string -> bool)
      returns (replied: seq<Turn>, held: Option<Turn>, task: TranscriptTask, untaken: seq<TranscriptEvent>, waiting: seq<string>)
    ensures SettledWords(messages)
         == RepliedWords(replied) + HeldWords(held) + PendingWords(task) + FinalWords(untaken) + WordsOfAll(waiting)
  {
    hide WordsOf, FinalWords, SettledWords, RepliedWords, HeldWords, PendingWords, WordsOfAll;
    var events;
    events, waiting := ParseAll(messages, ids, audioBefore);
    var taken, timerPending, userSpeaking, systemSpeaking;
    replied, held, task, taken, timerPending, userSpeaking, systemSpeaking :=
      PlaySession(events, moves, holds, soundsUnfinished);
    untaken := events[taken..];
    FinalWordsConcat(events[..taken], untaken);
    assert events == events[..taken] + untaken;
  }
}
