/** When the texts of the segments do not depend on how the stream is split into tokens. */
module SegmentTexts {
  import opened Sequences
  import opened Text
  import opened SentenceChunking
  import opened Tokenisation

  /** Cuts that each come right after a character that is not whitespace. */
  predicate Marked(text: string, cuts: seq<nat>)
    decreases |cuts|
  {
    cuts != [] ==>
      && 1 <= cuts[0] <= |text| && !IsSpace(text[cuts[0] - 1])
      && Marked(text[cuts[0]..], cuts[1..])
  }

  /** What a list of cuts leaves of a text. */
  function Rest(text: string, cuts: seq<nat>): string
    requires Marked(text, cuts)
    decreases |cuts|
  {
    if cuts == [] then text else Rest(text[cuts[0]..], cuts[1..])
  }

  /** Without a newline, a cut comes after a sentence or clause mark. */
  lemma {:induction false} CutsAreMarked(text: string, l: Limits)
    requires '\n' !in text
    ensures Marked(text, Cuts(text, l)) && Rest(text, Cuts(text, l)) == Remainder(text, l)
    decreases |text|
  {
    hide Cut;
    match Cut(text, l)
    case None =>
    case Some(c) =>
      CutEnds(text, l);
      assert text[c - 1] in text;
      CutsAreMarked(text[c..], l);
      assert Cuts(text, l)[1..] == Cuts(text[c..], l);
  }

  lemma {:induction false} MarkedThen(text: string, more: string, cuts: seq<nat>, later: seq<nat>)
    requires Marked(text, cuts) && Marked(Rest(text, cuts) + more, later)
    ensures Marked(text + more, cuts + later)
    ensures Rest(text + more, cuts + later) == Rest(Rest(text, cuts) + more, later)
    decreases |cuts|
  {
    hide IsSpace;
    if cuts == [] {
      assert cuts + later == later;
    } else {
      var c := cuts[0];
      MarkedThen(text[c..], more, cuts[1..], later);
      assert (text + more)[c..] == text[c..] + more;
      assert (cuts + later)[1..] == cuts[1..] + later;
    }
  }

  /** So do the cuts of a whole token stream, and its leftover is what they leave. */
  lemma {:induction false} FedCutsAreMarked(buffer: string, tokens: seq<string>, l: Limits)
    requires '\n' !in buffer + Spelled(tokens)
    ensures var text, (cuts, rest) := buffer + Spelled(tokens), FeedAll(buffer, tokens, l);
            Marked(text, cuts) && Rest(text, cuts) == rest
    decreases |tokens|
  {
    hide IsSpace, Cuts, Remainder;
    if tokens == [] {
      assert buffer + Spelled(tokens) == buffer;
    } else {
      var text, ahead := buffer + tokens[0], Spelled(tokens[1..]);
      assert buffer + Spelled(tokens) == text + ahead;
      if tokens[0] == "" {
        assert text == buffer;
        FedCutsAreMarked(buffer, tokens[1..], l);
      } else {
        assert forall c :: c in text ==> c in text + ahead;
        CutsAreMarked(text, l);
        RestIsPart(text, Cuts(text, l));
        var left := Remainder(text, l);
        assert forall c :: c in left + ahead ==> c in text + ahead;
        FedCutsAreMarked(left, tokens[1..], l);
        MarkedThen(text, ahead, Cuts(text, l), FeedAll(left, tokens[1..], l).0);
      }
    }
  }

  lemma {:induction false} RestIsPart(text: string, cuts: seq<nat>)
    requires Marked(text, cuts)
    ensures forall c :: c in Rest(text, cuts) ==> c in text
    decreases |cuts|
  {
    if cuts != [] {
      RestIsPart(text[cuts[0]..], cuts[1..]);
    }
  }

  /** The text of a segment tells where it was cut off. */
  lemma StrippedLength(text: string, c: nat)
    requires 1 <= c <= |text| && !IsSpace(text[c - 1])
    ensures |Strip(text[..c])| == c - (|text| - |TrimLeft(text)|)
  {
    hide IsSpace, TrimLeft, TrimRight;
    var head := text[..c];
    var t, t' := TrimLeft(head), TrimLeft(text);
    assert head[c - 1] == text[c - 1];
    assert t != "" && t[|t| - 1] == head[c - 1];
    assert |head| - |t| == |text| - |t'| by {
      assert head[|head| - |t|] == t[0];
      assert t' != "" ==> text[|text| - |t'|] == t'[0];
      assert forall i :: 0 <= i < |head| - |t| ==> head[i] == text[i];
    }
    assert |TrimRight(t)| == |t|;
  }

  lemma FirstSegment(text: string, cuts: seq<nat>)
    requires cuts != [] && Marked(text, cuts)
    ensures Segments(text, cuts) == [Strip(text[..cuts[0]])] + Segments(text[cuts[0]..], cuts[1..])
  {
    hide Strip;
  }

  lemma {:induction false} SegmentsTellCuts(text: string, a: seq<nat>, b: seq<nat>)
    requires Marked(text, a) && Marked(text, b) && Segments(text, a) == Segments(text, b)
    ensures a == b
    decreases |a|
  {
    hide IsSpace, Segments, TrimLeft, TrimRight;
    if a != [] && b != [] {
      FirstCutsAgree(text, a, b);
      SegmentsTellCuts(text[a[0]..], a[1..], b[1..]);
      assert a == [a[0]] + a[1..] && b == [b[0]] + b[1..];
    } else if a != [] {
      FirstSegment(text, a);
      NoCutsNoSegments(text);
    } else if b != [] {
      FirstSegment(text, b);
      NoCutsNoSegments(text);
    }
  }

  lemma FirstCutsAgree(text: string, a: seq<nat>, b: seq<nat>)
    requires a != [] && b != [] && Marked(text, a) && Marked(text, b) && Segments(text, a) == Segments(text, b)
    ensures a[0] == b[0] && Segments(text[a[0]..], a[1..]) == Segments(text[b[0]..], b[1..])
  {
    hide IsSpace, Segments, Strip, TrimLeft;
    StrippedLength(text, a[0]);
    StrippedLength(text, b[0]);
    FirstSegment(text, a);
    FirstSegment(text, b);
    HeadAndTail(Strip(text[..a[0]]), Segments(text[a[0]..], a[1..]), Strip(text[..b[0]]), Segments(text[b[0]..], b[1..]));
  }

  lemma HeadAndTail(a: string, more: seq<string>, b: string, others: seq<string>)
    requires [a] + more == [b] + others
    ensures a == b && more == others
  {
    assert ([a] + more)[0] == a && ([b] + others)[0] == b;
    assert ([a] + more)[1..] == more && ([b] + others)[1..] == others;
  }

  lemma NoCutsNoSegments(text: string)
    ensures Segments(text, []) == []
  {
  }

  /** The segments handed out while the tokens are fed are those of the text fed at once. */
  ghost predicate SpokenLikeWhole(text: string, tokens: seq<string>, l: Limits) {
    Segments(text, FeedAll("", tokens, l).0) == Segments(text, Cuts(text, l))
  }

  /** Without a newline, equal segments mean equal cuts, and an equal leftover. */
  lemma SameSegmentsSameCuts(text: string, tokens: seq<string>, l: Limits)
    requires '\n' !in text && Spelled(tokens) == text
    ensures SpokenLikeWhole(text, tokens, l) <==> FedLikeWhole(text, tokens, l)
  {
    hide Cut, Cuts, Remainder, Segments, FeedAll, Marked, Rest;
    assert "" + Spelled(tokens) == text;
    FedCutsAreMarked("", tokens, l);
    CutsAreMarked(text, l);
    if SpokenLikeWhole(text, tokens, l) {
      SegmentsTellCuts(text, FeedAll("", tokens, l).0, Cuts(text, l));
    }
  }

  /** For texts without a newline: every tokenisation gives the same segments exactly for the unhurried texts. */
  lemma SegmentsIndependentIff(text: string, l: Limits)
    requires '\n' !in text
    ensures Unhurried(text, l)
       <==> forall tokens: seq<string> :: Spelled(tokens) == text ==> SpokenLikeWhole(text, tokens, l)
  {
    hide Unhurried, SpokenLikeWhole, FedLikeWhole;
    TokenisationIndependent(text, l);
    forall tokens: seq<string> | Spelled(tokens) == text
      ensures SpokenLikeWhole(text, tokens, l) <==> FedLikeWhole(text, tokens, l)
    {
      SameSegmentsSameCuts(text, tokens, l);
    }
  }

  // ------------------------------------------------------ any text

  /**
   The buffer is text[..fed], and text[fed..] is still to come. However much comes at a time, every
   buffer is cut, if at all, into the next of the wanted segments, until all have been cut off.
   */
  predicate Settled(text: string, fed: nat, wanted: seq<string>, l: Limits)
    requires fed <= |text|
    decreases |text|, |text| - fed
  {
    match Cut(text[..fed], l)
    case Some(c) => wanted != [] && wanted[0] == Strip(text[..c]) && Settled(text[c..], fed - c, wanted[1..], l)
    case None =>
      if fed == |text| then wanted == [] else forall more :: fed < more <= |text| ==> Settled(text, more, wanted, l)
  }

  /** The segments of a text whose first part is in the buffer and whose rest comes in these tokens. */
  function SpokenFrom(text: string, fed: nat, tokens: seq<string>, l: Limits): seq<string>
    requires fed <= |text|
  {
    Segments(text, Cuts(text[..fed], l) + FeedAll(Remainder(text[..fed], l), tokens, l).0)
  }

  /** If the buffer can be cut, that gives the first segment. */
  lemma SpokenCut(text: string, fed: nat, tokens: seq<string>, l: Limits)
    requires fed <= |text| && Cut(text[..fed], l).Some?
    ensures var c := Cut(text[..fed], l).value;
            SpokenFrom(text, fed, tokens, l) == [Strip(text[..c])] + SpokenFrom(text[c..], fed - c, tokens, l)
  {
    hide Cut, Strip, FeedAll;
    var c := Cut(text[..fed], l).value;
    assert text[..fed][c..] == text[c..][..fed - c];
    var later := Cuts(text[c..][..fed - c], l) + FeedAll(Remainder(text[..fed], l), tokens, l).0;
    ConcatAssociates([c], Cuts(text[c..][..fed - c], l), FeedAll(Remainder(text[..fed], l), tokens, l).0);
    assert ([c] + later)[0] == c && ([c] + later)[1..] == later;
  }

  /** If not, the next token comes in. */
  lemma SpokenNext(text: string, fed: nat, token: string, tokens: seq<string>, l: Limits)
    requires fed <= |text| && Cut(text[..fed], l) == None
    requires fed + |token| <= |text| && text[fed..fed + |token|] == token
    ensures SpokenFrom(text, fed, [token] + tokens, l) == SpokenFrom(text, fed + |token|, tokens, l)
  {
    hide Cut, Strip, Segments;
    var buffer := text[..fed];
    assert ([token] + tokens)[1..] == tokens;
    assert buffer + token == text[..fed + |token|];
    assert [] + FeedAll(buffer, [token] + tokens, l).0 == FeedAll(buffer, [token] + tokens, l).0;
    if token == "" {
      assert text[..fed + |token|] == buffer;
    }
  }

  lemma SpokenAll(text: string, l: Limits)
    requires Cut(text, l) == None
    ensures SpokenFrom(text, |text|, [], l) == []
  {
    hide Cut;
    assert text[..|text|] == text;
    NoCutsNoSegments(text);
  }

  lemma {:induction false} SettledIsSpoken(text: string, fed: nat, wanted: seq<string>, tokens: seq<string>, l: Limits)
    requires fed <= |text| && Settled(text, fed, wanted, l) && text[fed..] == Spelled(tokens)
    ensures SpokenFrom(text, fed, tokens, l) == wanted
    decreases |tokens|, |text|
  {
    hide Cut, SpokenFrom, Strip;
    match Cut(text[..fed], l)
    case Some(c) =>
      SpokenCut(text, fed, tokens, l);
      assert text[c..][fed - c..] == text[fed..];
      SettledIsSpoken(text[c..], fed - c, wanted[1..], tokens, l);
    case None =>
      if tokens == [] {
        assert text[..|text|] == text;
        SpokenAll(text, l);
      } else {
        var token := tokens[0];
        assert token == Spelled(tokens)[..|token|] == text[fed..][..|token|];
        assert text[fed..][..|token|] == text[fed..fed + |token|];
        assert text[fed + |token|..] == text[fed..][|token|..] == Spelled(tokens[1..]);
        assert tokens == [token] + tokens[1..];
        SpokenNext(text, fed, token, tokens[1..], l);
        SettledIsSpoken(text, fed + |token|, wanted, tokens[1..], l);
      }
  }

  /** Otherwise some tokens give other segments. */
  lemma {:induction false} UnsettledIsSpoken(text: string, fed: nat, wanted: seq<string>, l: Limits) returns (tokens: seq<string>)
    requires fed <= |text| && !Settled(text, fed, wanted, l)
    ensures Spelled(tokens) == text[fed..] && SpokenFrom(text, fed, tokens, l) != wanted
    decreases |text|, |text| - fed
  {
    hide Cut, SpokenFrom, Strip;
    match Cut(text[..fed], l)
    case Some(c) =>
      if wanted != [] && wanted[0] == Strip(text[..c]) {
        tokens := UnsettledIsSpoken(text[c..], fed - c, wanted[1..], l);
        assert text[c..][fed - c..] == text[fed..];
        SpokenCut(text, fed, tokens, l);
        var later := SpokenFrom(text[c..], fed - c, tokens, l);
        assert ([Strip(text[..c])] + later)[1..] == later;
      } else {
        tokens := [text[fed..]];
        assert Spelled([]) == "" && tokens[1..] == [];
        SpokenCut(text, fed, tokens, l);
      }
    case None =>
      if fed == |text| {
        tokens := [];
        assert text[..|text|] == text;
        SpokenAll(text, l);
      } else {
        var more :| fed < more <= |text| && !Settled(text, more, wanted, l);
        var token := text[fed..more];
        var later := UnsettledIsSpoken(text, more, wanted, l);
        tokens := [token] + later;
        assert tokens[1..] == later;
        assert token + text[more..] == text[fed..];
        SpokenNext(text, fed, token, later, l);
      }
  }

  /**
   For any text: every tokenisation gives the segments of the text fed at once if and only if the
   text is settled for them. The condition speaks of buffers, not of tokens.
   */
  lemma SegmentsSettledIff(text: string, l: Limits)
    ensures Settled(text, 0, Segments(text, Cuts(text, l)), l)
       <==> forall tokens: seq<string> :: Spelled(tokens) == text ==> SpokenLikeWhole(text, tokens, l)
  {
    hide Cut, Settled, SpokenFrom, Segments;
    var wanted := Segments(text, Cuts(text, l));
    EmptyIsUncut(l);
    assert text[..0] == "" && text[0..] == text;
    forall tokens: seq<string>
      ensures SpokenFrom(text, 0, tokens, l) == Segments(text, FeedAll("", tokens, l).0)
    {
      NothingFed(text, tokens, l);
    }
    if Settled(text, 0, wanted, l) {
      forall tokens: seq<string> | Spelled(tokens) == text
        ensures SpokenLikeWhole(text, tokens, l)
      {
        SettledIsSpoken(text, 0, wanted, tokens, l);
      }
    } else {
      var tokens := UnsettledIsSpoken(text, 0, wanted, l);
      assert !SpokenLikeWhole(text, tokens, l);
    }
  }

  lemma NothingFed(text: string, tokens: seq<string>, l: Limits)
    ensures SpokenFrom(text, 0, tokens, l) == Segments(text, FeedAll("", tokens, l).0)
  {
    hide Cut, FeedAll, Segments;
    EmptyIsUncut(l);
    assert text[..0] == "" && Cuts("", l) == [] && Remainder("", l) == "";
    assert [] + FeedAll("", tokens, l).0 == FeedAll("", tokens, l).0;
  }

  /** Settled texts may be cut elsewhere than at once, but only around newlines. */
  lemma SettledAgainstUnhurried(text: string, l: Limits)
    ensures Unhurried(text, l) ==> Settled(text, 0, Segments(text, Cuts(text, l)), l)
    ensures '\n' !in text ==> (Settled(text, 0, Segments(text, Cuts(text, l)), l) <==> Unhurried(text, l))
  {
    hide Unhurried, Settled, Segments, FeedAll, Cut;
    SegmentsSettledIff(text, l);
    TokenisationIndependent(text, l);
    if '\n' !in text {
      SegmentsIndependentIff(text, l);
    }
  }
}
