/** When sentence cutting does not depend on how the text is split into tokens. */
module Tokenisation {
  import opened Sequences
  import opened Text
  import opened SentenceChunking

  /** All cuts made while the tokens are fed one by one, and the text left in the buffer. */
  function FeedAll(buffer: string, tokens: seq<string>, l: Limits): (seq<nat>, string)
    decreases |tokens|
  {
    if tokens == [] then ([], buffer)
    else if tokens[0] == "" then FeedAll(buffer, tokens[1..], l)
    else
      var text := buffer + tokens[0];
      var (cuts, rest) := FeedAll(Remainder(text, l), tokens[1..], l);
      (Cuts(text, l) + cuts, rest)
  }

  /** The text a list of tokens spells. */
  function Spelled(tokens: seq<string>): string {
    if tokens == [] then "" else tokens[0] + Spelled(tokens[1..])
  }

  /**
   No prefix of the text still to be cut is cut anywhere else than the whole of it is: a
   soft clause cut never fires before the cut that the complete text asks for.
   */
  predicate Unhurried(text: string, l: Limits)
    decreases |text|
  {
    && (forall b :: 0 <= b <= |text| ==> PrefixAgrees(text, b, l))
    && (Cut(text, l).Some? ==> Unhurried(text[Cut(text, l).value..], l))
  }

  predicate PrefixAgrees(text: string, b: nat, l: Limits)
    requires b <= |text|
  {
    Cut(text[..b], l) == None || Cut(text[..b], l) == Cut(text, l)
  }

  // ------------------------------------------------------ unhurried implies independent

  lemma {:induction false} UnhurriedFeedAll(text: string, buffer: string, tokens: seq<string>, l: Limits)
    requires text == buffer + Spelled(tokens)
    requires Cut(buffer, l) == None && Unhurried(text, l)
    ensures FeedAll(buffer, tokens, l) == (Cuts(text, l), Remainder(text, l))
    decreases |tokens|, 0, 0
  {
    hide Cut, Unhurried;
    if tokens == [] {
      assert text == buffer;
    } else if tokens[0] == "" {
      assert buffer + Spelled(tokens) == buffer + Spelled(tokens[1..]);
      UnhurriedFeedAll(text, buffer, tokens[1..], l);
    } else {
      assert buffer + Spelled(tokens) == (buffer + tokens[0]) + Spelled(tokens[1..]);
      UnhurriedDrain(text, buffer + tokens[0], tokens[1..], l);
    }
  }

  lemma {:induction false} UnhurriedDrain(text: string, buffer: string, tokens: seq<string>, l: Limits)
    requires text == buffer + Spelled(tokens) && Unhurried(text, l)
    ensures var (cuts, rest) := FeedAll(Remainder(buffer, l), tokens, l);
            (Cuts(buffer, l) + cuts, rest) == (Cuts(text, l), Remainder(text, l))
    decreases |tokens|, 1, |buffer|
  {
    hide Cut, PrefixAgrees;
    assert text[..|buffer|] == buffer;
    assert PrefixAgrees(text, |buffer|, l);
    AgreeingPrefix(text, |buffer|, l);
    match Cut(buffer, l)
    case None =>
      UnhurriedFeedAll(text, buffer, tokens, l);
      assert Cuts(buffer, l) + FeedAll(buffer, tokens, l).0 == FeedAll(buffer, tokens, l).0;
    case Some(c) =>
      assert text[c..] == buffer[c..] + Spelled(tokens);
      UnhurriedDrain(text[c..], buffer[c..], tokens, l);
      var later := FeedAll(Remainder(buffer[c..], l), tokens, l).0;
      assert ([c] + Cuts(buffer[c..], l)) + later == [c] + (Cuts(buffer[c..], l) + later);
  }

  lemma AgreeingPrefix(text: string, b: nat, l: Limits)
    requires b <= |text| && PrefixAgrees(text, b, l)
    ensures Cut(text[..b], l).Some? ==> Cut(text, l) == Cut(text[..b], l)
  {
    hide Cut;
  }

  // ------------------------------------------------------ independent implies unhurried

  /** Cutting a piece off the front does not take away a cut that the rest alone would allow. */
  lemma CutKeptInFront(text: string, b: nat, l: Limits)
    requires Cut(text, l).Some?
    requires Cut(text, l).value <= b <= |text|
    requires Cut(text[Cut(text, l).value..b], l).Some?
    ensures Cut(text[..b], l).Some?
  {
    hide Cut, IsSpace;
    var c := Cut(text, l).value;
    CutMeetsSpace(text, l);
    CutKept(text[..c], text[c..b], l);
    assert text[..b] == text[..c] + text[c..b];
  }

  lemma CutMeetsSpace(text: string, l: Limits)
    requires Cut(text, l).Some?
    ensures var c := Cut(text, l).value; IsSpace(text[c - 1]) || (c < |text| && IsSpace(text[c]))
  {
    assert IsSpace('\n');
    hide Cut, IsSpace, HasText;
    CutEnds(text, l);
  }

  lemma CutKept(front: string, rest: string, l: Limits)
    requires front != "" && rest != "" && (IsSpace(front[|front| - 1]) || IsSpace(rest[0]))
    requires Cut(rest, l).Some?
    ensures Cut(front + rest, l).Some?
  {
    hide Cut, LastClause, FirstHard, IsSpace, HardCutAt;
    WhyCut(rest, l);
    var h := FirstHard(rest, 0, l);
    if h < |rest| {
      HardCutKept(front, rest, h, l);
      HardMeansCut(front + rest, |front| + h, l);
    } else {
      SoftCutKept(front, rest, l);
      SoftMeansCut(front + rest, l);
    }
  }

  /** A cut is a hard cut, or a soft cut of a long text that does not end in a sentence mark. */
  lemma WhyCut(text: string, l: Limits)
    requires Cut(text, l).Some?
    ensures text != ""
    ensures FirstHard(text, 0, l) < |text|
         || (&& text[|text| - 1] !in SENTENCE_END && |text| >= l.softLimit
             && |text| >= 2 && LastClause(text, |text| - 2, l).Some?)
  {
    hide Strip, HasText, IsSpace, EndsAbbreviated, HardCutAt;
  }

  lemma HardMeansCut(text: string, i: nat, l: Limits)
    requires i < |text| && HardCutAt(text, i, l)
    ensures Cut(text, l).Some?
  {
    hide Strip, HasText, IsSpace, EndsAbbreviated, LastClause, HardCutAt;
  }

  lemma SoftMeansCut(text: string, l: Limits)
    requires text != "" && text[|text| - 1] !in SENTENCE_END && |text| >= l.softLimit
    requires LastClause(text, |text| - 2, l).Some?
    ensures Cut(text, l).Some?
  {
    hide Strip, HasText, IsSpace, EndsAbbreviated, LastClause, HardCutAt;
  }

  lemma SoftCutKept(front: string, rest: string, l: Limits)
    requires |rest| >= 2
    requires LastClause(rest, |rest| - 2, l).Some?
    ensures LastClause(front + rest, |front + rest| - 2, l).Some?
  {
    hide IsSpace;
    var i := LastClause(rest, |rest| - 2, l).value - 1;
    assert ClauseCutAt(front + rest, |front| + i);
  }

  lemma HardCutKept(front: string, rest: string, i: nat, l: Limits)
    requires front != "" && i < |rest| && HardCutAt(rest, i, l)
    requires IsSpace(front[|front| - 1]) || IsSpace(rest[0])
    ensures HardCutAt(front + rest, |front| + i, l)
  {
    hide IsSpace, Strip, EndsAbbreviated;
    var whole := front + rest;
    if rest[i] == '\n' && HasText(rest[..i]) {
      var j :| 0 <= j < |rest[..i]| && !IsSpace(rest[..i][j]);
      assert whole[..|front| + i][|front| + j] == rest[j];
    } else {
      var head := rest[..i + 1];
      assert whole[..|front| + i + 1] == front + head;
      StripLonger(front, head);
      MarkIsText(head);
      if EndsAbbreviated(front + head) {
        AbbreviationKept(front, head);
        assert false;
      }
    }
  }

  lemma MarkIsText(head: string)
    requires head != "" && head[|head| - 1] in SENTENCE_END
    ensures !IsSpace(head[|head| - 1])
  {
  }

  lemma AbbreviationsHaveNoSpace(k: nat, j: nat)
    requires k < |ABBREVIATIONS| && j < |ABBREVIATIONS[k]|
    ensures !IsSpace(ABBREVIATIONS[k][j])
  {
  }

  /** No abbreviation reaches back over a whitespace character. */
  lemma AbbreviationKept(front: string, head: string)
    requires front != "" && head != "" && !IsSpace(head[|head| - 1])
    requires IsSpace(front[|front| - 1]) || IsSpace(head[0])
    requires EndsAbbreviated(front + head)
    ensures EndsAbbreviated(head)
  {
    hide IsSpace;
    var whole := front + head;
    var k := AbbreviationOf(whole);
    var a := ABBREVIATIONS[k];
    assert whole[|whole| - 1] == head[|head| - 1];
    if |head| < |a| {
      var spaceAt := if IsSpace(head[0]) then |front| else |front| - 1;
      SpaceInAbbreviation(whole, k, spaceAt);
      assert false;
    } else {
      AbbreviationAtEnd(front, head, k);
    }
  }

  lemma AbbreviationOf(text: string) returns (k: nat)
    requires text != "" && !IsSpace(text[|text| - 1]) && EndsAbbreviated(text)
    ensures k < |ABBREVIATIONS| && EndsWith(Lower(text), ABBREVIATIONS[k])
  {
    hide IsSpace, Lower, EndsWith;
    k :| 0 <= k < |ABBREVIATIONS| && EndsWith(Lower(TrimRight(text)), ABBREVIATIONS[k]);
  }

  lemma SpaceInAbbreviation(text: string, k: nat, spaceAt: nat)
    requires k < |ABBREVIATIONS|
    requires |text| - |ABBREVIATIONS[k]| <= spaceAt < |text| && IsSpace(text[spaceAt])
    ensures !EndsWith(Lower(text), ABBREVIATIONS[k])
  {
    hide IsSpace, Lower;
    var a := ABBREVIATIONS[k];
    var j := spaceAt - (|text| - |a|);
    if |a| <= |text| {
      AbbreviationsHaveNoSpace(k, j);
      assert Lower(text)[|text| - |a|..][j] == Lower(text)[spaceAt];
    }
  }

  lemma AbbreviationAtEnd(front: string, head: string, k: nat)
    requires head != "" && !IsSpace(head[|head| - 1])
    requires k < |ABBREVIATIONS| && |ABBREVIATIONS[k]| <= |head|
    requires EndsWith(Lower(front + head), ABBREVIATIONS[k])
    ensures EndsAbbreviated(head)
  {
    hide IsSpace;
    var a := ABBREVIATIONS[k];
    assert TrimRight(head) == head;
    assert Lower(head)[|head| - |a|..] == Lower(front + head)[|front + head| - |a|..];
    assert EndsWith(Lower(TrimRight(head)), a);
  }

  /** Splitting a hurried text in two at the right place gives different cuts. */
  lemma {:induction false} HurriedSplit(text: string, l: Limits) returns (b: nat)
    requires !Unhurried(text, l)
    ensures 0 < b <= |text| && Cut(text[..b], l).Some?
    ensures Cuts(text[..b], l) + Cuts(Remainder(text[..b], l) + text[b..], l) != Cuts(text, l)
    decreases |text|
  {
    hide Cut;
    if b' :| 0 <= b' <= |text| && !PrefixAgrees(text, b', l) {
      b := b';
      assert Cut(text[..b], l).Some? && Cut(text[..b], l) != Cut(text, l);
      var later := Cuts(Remainder(text[..b], l) + text[b..], l);
      assert (Cuts(text[..b], l) + later)[0] == Cut(text[..b], l).value;
    } else {
      var c := Cut(text, l).value;
      var rest := text[c..];
      var d := HurriedSplit(rest, l);
      b := c + d;
      assert rest[..d] == text[c..b] && rest[d..] == text[b..];
      CutKeptInFront(text, b, l);
      assert PrefixAgrees(text, b, l);
      assert text[..b][c..] == rest[..d];
      var later := Cuts(Remainder(rest[..d], l) + rest[d..], l);
      assert Cuts(text[..b], l) + later == [c] + (Cuts(rest[..d], l) + later);
      assert ([c] + (Cuts(rest[..d], l) + later))[1..] == Cuts(rest[..d], l) + later;
      assert Cuts(text, l)[1..] == Cuts(rest, l);
    }
  }

  /** Feeding the text in the tokens gives the cuts and the leftover of feeding it whole. */
  ghost predicate FedLikeWhole(text: string, tokens: seq<string>, l: Limits) {
    FeedAll("", tokens, l) == (Cuts(text, l), Remainder(text, l))
  }

  /** Cutting is independent of tokenisation exactly for the unhurried texts. */
  lemma TokenisationIndependent(text: string, l: Limits)
    ensures Unhurried(text, l)
       <==> forall tokens: seq<string> :: Spelled(tokens) == text ==> FedLikeWhole(text, tokens, l)
  {
    hide Cut, Unhurried;
    EmptyIsUncut(l);
    if Unhurried(text, l) {
      forall tokens: seq<string> | Spelled(tokens) == text
        ensures FedLikeWhole(text, tokens, l)
      {
        assert text == "" + Spelled(tokens);
        UnhurriedFeedAll(text, "", tokens, l);
      }
    } else {
      var b := HurriedSplit(text, l);
      var tokens := [text[..b], text[b..]];
      TwoTokens(text[..b], text[b..], l);
      assert text[..b] + text[b..] == text;
      assert !FedLikeWhole(text, tokens, l);
    }
  }

  lemma {:induction false} RemainderIsUncut(text: string, l: Limits)
    ensures Cut(Remainder(text, l), l) == None
    decreases |text|
  {
    hide Cut;
    if Cut(text, l).Some? {
      RemainderIsUncut(text[Cut(text, l).value..], l);
    }
  }

  lemma TwoTokens(u: string, v: string, l: Limits)
    requires u != ""
    ensures Spelled([u, v]) == u + v
    ensures FeedAll("", [u, v], l).0 == Cuts(u, l) + Cuts(Remainder(u, l) + v, l)
  {
    hide Cut, Cuts, Remainder;
    var rest := Remainder(u, l);
    assert [u, v][1..] == [v] && [v][1..] == [] && Spelled([v]) == v + "";
    assert "" + u == u;
    assert FeedAll(rest, [v], l).0 == Cuts(rest + v, l) by {
      if v == "" {
        RemainderIsUncut(u, l);
        assert rest + v == rest;
        UncutHasNoCuts(rest, l);
      } else {
        assert FeedAll(rest, [v], l).0 == Cuts(rest + v, l) + [];
      }
    }
  }

  lemma UncutHasNoCuts(text: string, l: Limits)
    requires Cut(text, l) == None
    ensures Cuts(text, l) == []
  {
  }

  // ------------------------------------------------------ texts that are unhurried

  /** No soft cut can fire: the text is too short for one, or has no clause mark before whitespace. */
  predicate NoSoftCut(text: string, l: Limits) {
    || |text| < l.softLimit
    || forall i :: 0 <= i < |text| - 1 ==> !ClauseCutAt(text, i)
  }

  /** Whether a segment may end after character i shows as soon as the character after it is there. */
  lemma HardCutSame(text: string, b: nat, i: nat, l: Limits)
    requires i + 1 < b <= |text|
    ensures HardCutAt(text[..b], i, l) <==> HardCutAt(text, i, l)
  {
    hide Strip, EndsAbbreviated, HasText, IsSpace;
    assert text[..b][..i] == text[..i] && text[..b][..i + 1] == text[..i + 1];
  }

  /** Appending text never moves a hard cut. */
  lemma HardCutStable(text: string, b: nat, l: Limits)
    requires b <= |text| && FirstHard(text[..b], 0, l) < b
    ensures FirstHard(text, 0, l) == FirstHard(text[..b], 0, l)
  {
    hide Strip, EndsAbbreviated, HasText, IsSpace;
    var h := FirstHard(text[..b], 0, l);
    assert HardCutAt(text, h, l) by {
      assert text[..b][..h] == text[..h] && text[..b][..h + 1] == text[..h + 1];
    }
    forall j | 0 <= j < h
      ensures !HardCutAt(text, j, l)
    {
      HardCutSame(text, b, j, l);
    }
  }

  lemma NoSoftCutPart(text: string, lo: nat, hi: nat, l: Limits)
    requires lo <= hi <= |text| && NoSoftCut(text, l)
    ensures NoSoftCut(text[lo..hi], l)
  {
    hide IsSpace;
    if |text| >= l.softLimit {
      var part := text[lo..hi];
      forall i | 0 <= i < |part| - 1
        ensures !ClauseCutAt(part, i)
      {
        assert !ClauseCutAt(text, lo + i);
      }
    }
  }

  lemma OnlyHardCuts(text: string, l: Limits)
    requires NoSoftCut(text, l)
    ensures Cut(text, l) == if FirstHard(text, 0, l) < |text| then Some(FirstHard(text, 0, l) + 1) else None
  {
    hide HardCutAt, ClauseCutAt;
  }

  lemma {:induction false} NoSoftCutUnhurried(text: string, l: Limits)
    requires NoSoftCut(text, l)
    ensures Unhurried(text, l)
    decreases |text|
  {
    hide Cut, NoSoftCut, FirstHard;
    forall b | 0 <= b <= |text|
      ensures PrefixAgrees(text, b, l)
    {
      assert text[..b] == text[0..b];
      NoSoftCutPart(text, 0, b, l);
      OnlyHardCuts(text[..b], l);
      OnlyHardCuts(text, l);
      if FirstHard(text[..b], 0, l) < b {
        HardCutStable(text, b, l);
      }
    }
    if Cut(text, l).Some? {
      var c := Cut(text, l).value;
      assert text[c..] == text[c..|text|];
      NoSoftCutPart(text, c, |text|, l);
      NoSoftCutUnhurried(text[c..], l);
    }
  }

  /** A text with neither newlines nor sentence marks has no hard cut. */
  lemma NoMarks(text: string, l: Limits)
    requires forall i :: 0 <= i < |text| ==> text[i] != '\n' && text[i] !in SENTENCE_END
    ensures FirstHard(text, 0, l) == |text|
  {
    hide Strip, EndsAbbreviated, HasText, IsSpace;
  }

  /** Soft cuts make the segments depend on the tokens: the same text, two ways of feeding it. */
  lemma SoftCutsDependOnTokens()
    ensures var l := Limits(0, 4);
            var text := "ab, cd, ef";
            && Segments(text, FeedAll("", [text], l).0) == ["ab, cd,"]
            && Segments(text, FeedAll("", ["ab, ", "cd, ef"], l).0) == ["ab,", "cd,"]
            && Spelled(["ab, ", "cd, ef"]) == text
  {
    FedWhole(Limits(0, 4));
    FedInTwo(Limits(0, 4));
    SegmentsOfTwo("ab, cd, ef");
  }

  lemma FedWhole(l: Limits)
    requires l == Limits(0, 4)
    ensures FeedAll("", ["ab, cd, ef"], l).0 == [7]
  {
    hide Cut, LastClause, FirstHard, Cuts, Remainder;
    OneSoftCut("ab, cd, ef", 6, " ef", l);
    assert "" + "ab, cd, ef" == "ab, cd, ef";
  }

  lemma FedInTwo(l: Limits)
    requires l == Limits(0, 4)
    ensures FeedAll("", ["ab, ", "cd, ef"], l).0 == [3, 4]
    ensures Spelled(["ab, ", "cd, ef"]) == "ab, cd, ef"
  {
    hide Cut, LastClause, FirstHard, Cuts, Remainder;
    OneSoftCut("ab, ", 2, " ", l);
    OneSoftCut(" cd, ef", 3, " ef", l);
    assert " " + "cd, ef" == " cd, ef";
    TwoTokens("ab, ", "cd, ef", l);
  }

  lemma SegmentsOfTwo(text: string)
    requires text == "ab, cd, ef"
    ensures Segments(text, [7]) == ["ab, cd,"]
    ensures Segments(text, [3, 4]) == ["ab,", "cd,"]
  {
    hide Strip;
    StripExamples(text);
    assert text[..7] == "ab, cd," && text[..3] == "ab," && text[4..7] == "cd,";
    assert [3, 4][1..] == [4];
    assert Segments(text[3..], [4]) == ["cd,"];
  }

  /** A text that one soft cut makes too short for another. */
  lemma OneSoftCut(text: string, i: nat, tail: string, l: Limits)
    requires forall j :: 0 <= j < |text| ==> text[j] != '\n' && text[j] !in SENTENCE_END
    requires l.softLimit <= |text| && l.minChars < i < |text| - 1 && ClauseCutAt(text, i)
    requires forall j :: i < j < |text| - 1 ==> !ClauseCutAt(text, j)
    requires text[i + 1..] == tail && |tail| < l.softLimit
    ensures Cuts(text, l) == [i + 1] && Remainder(text, l) == tail
  {
    hide Cut, ClauseCutAt, LastClause, FirstHard;
    SoftCutOf(text, i, l);
    assert forall j :: 0 <= j < |tail| ==> tail[j] == text[i + 1 + j];
    UncutTail(tail, l);
  }

  lemma StripExamples(text: string)
    requires text == "ab, cd, ef"
    ensures Strip(text[..7]) == text[..7] && Strip(text[..3]) == text[..3] && Strip(text[3..][..4]) == text[4..7]
  {
    assert !IsSpace(text[0]) && !IsSpace(text[2]) && IsSpace(text[3]) && !IsSpace(text[4]) && !IsSpace(text[6]);
    hide IsSpace, Strip;
    Solid(text[..7]);
    Solid(text[..3]);
    Solid(text[4..7]);
    SpaceBefore(text[3..][..4], text[4..7]);
  }

  /** A text without space at either end. */
  lemma Solid(text: string)
    requires text != "" && !IsSpace(text[0]) && !IsSpace(text[|text| - 1])
    ensures Strip(text) == text
  {
    hide IsSpace;
  }

  lemma SpaceBefore(text: string, rest: string)
    requires text != "" && IsSpace(text[0]) && text[1..] == rest
    ensures Strip(text) == Strip(rest)
  {
    hide IsSpace;
  }

  lemma SoftCutOf(text: string, i: nat, l: Limits)
    requires forall j :: 0 <= j < |text| ==> text[j] != '\n' && text[j] !in SENTENCE_END
    requires l.softLimit <= |text| && l.minChars < i < |text| - 1 && ClauseCutAt(text, i)
    requires forall j :: i < j < |text| - 1 ==> !ClauseCutAt(text, j)
    ensures Cut(text, l) == Some(i + 1)
  {
    hide IsSpace;
    NoMarks(text, l);
    LastClauseIs(text, |text| - 2, i, l);
  }

  lemma {:induction false} LastClauseIs(text: string, from: int, i: nat, l: Limits)
    requires l.minChars < i <= from <= |text| - 2 && ClauseCutAt(text, i)
    requires forall j :: i < j <= from ==> !ClauseCutAt(text, j)
    ensures LastClause(text, from, l) == Some(i + 1)
    decreases from
  {
    hide ClauseCutAt;
    if i < from {
      LastClauseIs(text, from - 1, i, l);
    }
  }

  lemma UncutTail(text: string, l: Limits)
    requires |text| < l.softLimit
    requires forall j :: 0 <= j < |text| ==> text[j] != '\n' && text[j] !in SENTENCE_END
    ensures Cut(text, l) == None && Cuts(text, l) == [] && Remainder(text, l) == text
  {
    NoMarks(text, l);
  }

  // ------------------------------------------------------ segments of a whole stream

  /** The non-whitespace characters of all segments, in order. */
  function InkedAll(segments: seq<string>): string {
    if segments == [] then "" else InkedAll(segments[..|segments| - 1]) + Inked(segments[|segments| - 1])
  }

  lemma {:induction false} InkedAllConcat(a: seq<string>, b: seq<string>)
    ensures InkedAll(a + b) == InkedAll(a) + InkedAll(b)
  {
    hide Inked;
    if b == [] {
      assert a + b == a;
    } else {
      InkedAllConcat(a, b[..|b| - 1]);
      assert (a + b)[..|a + b| - 1] == a + b[..|b| - 1];
    }
  }

  /** Cutting neither loses nor adds a character, except whitespace. */
  lemma {:induction false} CuttingConserves(text: string, l: Limits)
    ensures InkedAll(Segments(text, Cuts(text, l))) + Inked(Remainder(text, l)) == Inked(text)
    decreases |text|
  {
    hide Cut, Strip, Inked;
    match Cut(text, l)
    case None =>
      NoSegment(text, l);
    case Some(c) =>
      CuttingConserves(text[c..], l);
      NextSegment(text, l);
      var head, later := Strip(text[..c]), Segments(text[c..], Cuts(text[c..], l));
      InkedAllConcat([head], later);
      InkedStrip(text[..c]);
      InkedConcat(text[..c], text[c..]);
      assert text == text[..c] + text[c..];
      assert [head][..0] == [] && "" + Inked(head) == Inked(head);
      assert InkedAll([head]) == Inked(head);
  }

  /** Cuts made before more text arrives are cuts of the longer text. */
  lemma {:induction false} SegmentsSplit(text: string, more: string, later: seq<nat>, l: Limits)
    ensures Segments(text + more, Cuts(text, l) + later)
         == Segments(text, Cuts(text, l)) + Segments(Remainder(text, l) + more, later)
    decreases |text|
  {
    hide Cut, Strip;
    match Cut(text, l)
    case None =>
      NoSegment(text, l);
      assert Cuts(text, l) + later == later;
    case Some(c) =>
      SegmentsSplit(text[c..], more, later, l);
      NextSegment(text, l);
      ConcatAssociates([Strip(text[..c])], Segments(text[c..], Cuts(text[c..], l)), Segments(Remainder(text[c..], l) + more, later));
      var cuts := Cuts(text, l) + later;
      assert cuts[0] == c && cuts[1..] == Cuts(text[c..], l) + later;
      assert (text + more)[..c] == text[..c] && (text + more)[c..] == text[c..] + more;
  }

  /** What feeding one token leaves of the segments and of the text still to come. */
  lemma FedOn(segments: seq<string>, whole: string, ahead: string, later: seq<nat>, l: Limits)
    ensures var more, left := Segments(whole, Cuts(whole, l)), Remainder(whole, l);
            && segments + Segments(whole + ahead, Cuts(whole, l) + later) == (segments + more) + Segments(left + ahead, later)
            && InkedAll(segments) + Inked(whole + ahead) == InkedAll(segments + more) + Inked(left + ahead)
  {
    hide Cut, Cuts, Remainder, Segments, Inked, InkedAll;
    var more, left := Segments(whole, Cuts(whole, l)), Remainder(whole, l);
    SegmentsSplit(whole, ahead, later, l);
    ConcatAssociates(segments, more, Segments(left + ahead, later));
    CuttingConserves(whole, l);
    InkedConcat(whole, ahead);
    InkedConcat(left, ahead);
    InkedAllConcat(segments, more);
    ConcatAssociates(InkedAll(more), Inked(left), Inked(ahead));
    ConcatAssociates(InkedAll(segments), InkedAll(more), Inked(left + ahead));
  }

  /**
   A whole token stream through the chunker. Nothing but whitespace is lost, and for an
   unhurried text the segments and the leftover are those of the text fed at once.
   */
  method ChunkStream(tokens: seq<string>, limits: Limits) returns (segments: seq<string>, rest: Option<string>)
    ensures segments == Segments(Spelled(tokens), FeedAll("", tokens, limits).0)
    ensures InkedAll(segments) + (if rest.Some? then Inked(rest.value) else "") == Inked(Spelled(tokens))
    ensures Unhurried(Spelled(tokens), limits) ==>
      && segments == Segments(Spelled(tokens), Cuts(Spelled(tokens), limits))
      && rest == var left := Remainder(Spelled(tokens), limits); if HasText(left) then Some(Strip(left)) else None
  {
    hide Cut, Cuts, Remainder, Segments, Strip, Unhurried, Inked, HasText;
    var chunker := new SentenceChunker(limits);
    segments := [];
    ghost var text := Spelled(tokens);
    assert tokens[0..] == tokens && "" + Spelled(tokens) == Spelled(tokens);
    for i := 0 to |tokens|
      invariant fresh(chunker) && chunker.limits == limits
      invariant FeedAll("", tokens, limits).1 == FeedAll(chunker.buffer, tokens[i..], limits).1
      invariant Segments(text, FeedAll("", tokens, limits).0)
             == segments + Segments(chunker.buffer + Spelled(tokens[i..]), FeedAll(chunker.buffer, tokens[i..], limits).0)
      invariant InkedAll(segments) + Inked(chunker.buffer + Spelled(tokens[i..])) == Inked(text)
    {
      ghost var ahead := Spelled(tokens[i + 1..]);
      assert tokens[i..][1..] == tokens[i + 1..];
      ConcatAssociates(chunker.buffer, tokens[i], ahead);
      ghost var before := chunker.buffer + tokens[i];
      var more := chunker.Feed(tokens[i]);
      if tokens[i] == "" {
        assert before + ahead == chunker.buffer + ahead && segments + more == segments;
      } else {
        FedOn(segments, before, ahead, FeedAll(chunker.buffer, tokens[i + 1..], limits).0, limits);
      }
      segments := segments + more;
    }
    assert tokens[|tokens|..] == [] && chunker.buffer + "" == chunker.buffer;
    FedAll(chunker.buffer, limits);
    InkedStrip(chunker.buffer);
    NoInk(chunker.buffer);
    if Unhurried(text, limits) {
      EmptyIsUncut(limits);
      UnhurriedFeedAll(text, "", tokens, limits);
    }
    rest := chunker.Flush();
  }

  lemma FedAll(buffer: string, l: Limits)
    ensures FeedAll(buffer, [], l) == ([], buffer) && Segments(buffer, []) == []
  {
  }

  lemma EmptyIsUncut(l: Limits)
    ensures Cut("", l) == None
  {
  }

  lemma NoInk(s: string)
    ensures !HasText(s) ==> Inked(s) == ""
  {
    if !HasText(s) {
      InkedBlank(s);
    }
  }
}
