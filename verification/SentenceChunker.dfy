/** Text operations of the sentence chunker, as Python defines them. */
module Text {
  /** Python's str.isspace for one character. */
  predicate IsSpace(c: char) {
    || '\t' <= c <= '\r'
    || '\U{1c}' <= c <= ' '
    || c == '\U{85}' || c == '\U{a0}' || c == '\U{1680}'
    || '\U{2000}' <= c <= '\U{200a}'
    || c == '\U{2028}' || c == '\U{2029}' || c == '\U{202f}' || c == '\U{205f}' || c == '\U{3000}'
  }

  predicate HasText(s: string) {
    exists i :: 0 <= i < |s| && !IsSpace(s[i])
  }

  function TrimLeft(s: string): (t: string)
    ensures |t| <= |s| && t == s[|s| - |t|..]
    ensures t != "" ==> !IsSpace(t[0])
    ensures forall i :: 0 <= i < |s| - |t| ==> IsSpace(s[i])
  {
    if s == "" || !IsSpace(s[0]) then s else TrimLeft(s[1..])
  }

  function TrimRight(s: string): (t: string)
    ensures t <= s
    ensures t != "" ==> !IsSpace(t[|t| - 1])
    ensures forall i :: |t| <= i < |s| ==> IsSpace(s[i])
  {
    if s == "" || !IsSpace(s[|s| - 1]) then s else TrimRight(s[..|s| - 1])
  }

  function Strip(s: string): string {
    TrimRight(TrimLeft(s))
  }

  lemma StripEmpty(s: string)
    ensures Strip(s) == "" <==> !HasText(s)
  {
    var t := TrimLeft(s);
    if t != "" {
      assert s[|s| - |t|] == t[0];
    }
  }

  /** The characters of s that are not whitespace, in order. */
  function Inked(s: string): string {
    if s == "" then "" else Inked(s[..|s| - 1]) + if IsSpace(s[|s| - 1]) then "" else [s[|s| - 1]]
  }

  lemma {:induction false} InkedConcat(a: string, b: string)
    ensures Inked(a + b) == Inked(a) + Inked(b)
  {
    if b == "" {
      assert a + b == a;
    } else {
      InkedConcat(a, b[..|b| - 1]);
      assert (a + b)[..|a + b| - 1] == a + b[..|b| - 1];
    }
  }

  lemma {:induction false} InkedBlank(s: string)
    requires forall i :: 0 <= i < |s| ==> IsSpace(s[i])
    ensures Inked(s) == ""
  {
    if s != "" {
      InkedBlank(s[..|s| - 1]);
    }
  }

  /** Stripping loses nothing but whitespace. */
  lemma InkedStrip(s: string)
    ensures Inked(Strip(s)) == Inked(s)
  {
    hide IsSpace, TrimLeft, TrimRight, Inked;
    var t := TrimLeft(s);
    var lead := s[..|s| - |t|];
    assert s == lead + t;
    InkedConcat(lead, t);
    InkedBlank(lead);
    var u := TrimRight(t);
    var trail := t[|u|..];
    assert t == u + trail;
    InkedConcat(u, trail);
    InkedBlank(trail);
    assert "" + Inked(t) == Inked(t) && Inked(u) + "" == Inked(u);
  }

  /** Text in front never makes the stripped text shorter. */
  lemma StripLonger(a: string, b: string)
    ensures |Strip(b)| <= |Strip(a + b)|
  {
    hide IsSpace, TrimLeft, TrimRight;
    var s := a + b;
    var t, t' := TrimLeft(b), TrimLeft(s);
    if Strip(b) != "" {
      assert s[|s| - |t|] == t[0];
      assert |t| <= |t'|;
      assert t == t'[|t'| - |t|..];
      var u, u' := TrimRight(t), TrimRight(t');
      var last := |t'| - |t| + |u| - 1;
      assert t'[last] == u[|u| - 1];
    }
  }

  /** Lower case, for ASCII; no other letter matters for the abbreviations below. */
  function Lower(s: string): (t: string)
    ensures |t| == |s|
    ensures forall i :: 0 <= i < |s| ==> (IsSpace(t[i]) <==> IsSpace(s[i]))
  {
    seq(|s|, i requires 0 <= i < |s| => if 'A' <= s[i] <= 'Z' then (s[i] as int + 32) as char else s[i])
  }

  predicate EndsWith(s: string, suffix: string) {
    |suffix| <= |s| && s[|s| - |suffix|..] == suffix
  }
}

/** Where buffered text is cut into sentences, as a function of the text, and the scan and buffer that compute it. */
module SentenceChunking {
  import opened Sequences
  import opened Text

  const SENTENCE_END: string := ".!?\U{2026}"
  const CLAUSE_END: string := ",;:\U{2014}"
  const ABBREVIATIONS: seq<string> :=
    ["mr.", "mrs.", "ms.", "dr.", "prof.", "sr.", "jr.", "st.", "vs.", "etc.", "e.g.", "i.e.", "no."]

  datatype Limits = Limits(minChars: nat, softLimit: int)

  const DEFAULT_LIMITS := Limits(12, 90)

  predicate EndsAbbreviated(head: string) {
    exists k :: 0 <= k < |ABBREVIATIONS| && EndsWith(Lower(TrimRight(head)), ABBREVIATIONS[k])
  }

  /** A segment may end right after character i, whatever follows the character after it. */
  predicate HardCutAt(text: string, i: nat, l: Limits)
    requires i < |text|
  {
    || (text[i] == '\n' && HasText(text[..i]))
    || (&& text[i] in SENTENCE_END && i + 1 < |text| && IsSpace(text[i + 1])
        && |Strip(text[..i + 1])| >= l.minChars && !EndsAbbreviated(text[..i + 1]))
  }

  /** The first such character from `start` on, or the length of the text. */
  function FirstHard(text: string, start: nat, l: Limits): (i: nat)
    requires start <= |text|
    ensures start <= i <= |text|
    ensures i < |text| ==> HardCutAt(text, i, l)
    ensures forall j :: start <= j < i ==> !HardCutAt(text, j, l)
    decreases |text| - start
  {
    if start == |text| || HardCutAt(text, start, l) then start else FirstHard(text, start + 1, l)
  }

  predicate ClauseCutAt(text: string, i: nat)
    requires i + 1 < |text|
  {
    text[i] in CLAUSE_END && IsSpace(text[i + 1])
  }

  /** The last clause mark at or before i, beyond the minimum length. */
  function LastClause(text: string, i: int, l: Limits): (cut: Option<nat>)
    requires i <= |text| - 2
    ensures cut.Some? ==> l.minChars < cut.value - 1 <= i && ClauseCutAt(text, cut.value - 1)
    ensures cut.Some? ==> forall j :: cut.value <= j <= i ==> !ClauseCutAt(text, j)
    ensures cut == None ==> forall j :: l.minChars < j <= i ==> !ClauseCutAt(text, j)
    decreases i
  {
    if i <= l.minChars then None
    else if ClauseCutAt(text, i) then Some(i + 1)
    else LastClause(text, i - 1, l)
  }

  /** Where the buffered text is cut next, if it can be cut yet. */
  function Cut(text: string, l: Limits): (cut: Option<nat>)
    ensures cut.Some? ==> 1 <= cut.value <= |text|
  {
    var h := FirstHard(text, 0, l);
    if h < |text| then Some(h + 1)
    else if text != "" && text[|text| - 1] in SENTENCE_END then None
    else if |text| >= l.softLimit then LastClause(text, |text| - 2, l)
    else None
  }

  /** The lengths of the pieces cut off one after the other until the text cannot be cut. */
  function Cuts(text: string, l: Limits): seq<nat>
    decreases |text|
  {
    match Cut(text, l)
    case None => []
    case Some(c) => [c] + Cuts(text[c..], l)
  }

  /** What stays in the buffer. */
  function Remainder(text: string, l: Limits): string
    decreases |text|
  {
    match Cut(text, l)
    case None => text
    case Some(c) => Remainder(text[c..], l)
  }

  /** The segments that a list of cuts makes of a text. */
  function Segments(text: string, cuts: seq<nat>): seq<string>
    decreases |cuts|
  {
    if cuts == [] || |text| < cuts[0] then []
    else [Strip(text[..cuts[0]])] + Segments(text[cuts[0]..], cuts[1..])
  }

  /** Every cut takes at least one character and gives a segment with text in it. */
  lemma CutHasText(text: string, l: Limits)
    ensures Cut(text, l).Some? ==> Strip(text[..Cut(text, l).value]) != ""
  {
    hide Strip, EndsAbbreviated, FirstHard, LastClause;
    if Cut(text, l).Some? {
      var c := Cut(text, l).value;
      var head := text[..c];
      StripEmpty(head);
      CutEnds(text, l);
      if text[c - 1] == '\n' {
        var i :| 0 <= i < c - 1 && !IsSpace(text[..c - 1][i]);
        assert !IsSpace(head[i]);
      } else {
        assert !IsSpace(head[c - 1]);
      }
    }
  }

  /** A cut comes after a newline with text before it, or after a mark that whitespace follows. */
  lemma CutEnds(text: string, l: Limits)
    ensures var cut := Cut(text, l);
            cut.Some? ==>
              || (text[cut.value - 1] == '\n' && HasText(text[..cut.value - 1]))
              || (&& (text[cut.value - 1] in SENTENCE_END || text[cut.value - 1] in CLAUSE_END)
                  && cut.value < |text| && IsSpace(text[cut.value]))
  {
    hide Strip, EndsAbbreviated, IsSpace, HasText;
  }

  lemma NextSegment(text: string, l: Limits)
    requires Cut(text, l).Some?
    ensures var c := Cut(text, l).value;
            Segments(text, Cuts(text, l)) == [Strip(text[..c])] + Segments(text[c..], Cuts(text[c..], l))
  {
    hide Cut, Strip;
    var c := Cut(text, l).value;
    assert Cuts(text, l)[1..] == Cuts(text[c..], l);
  }

  lemma NoSegment(text: string, l: Limits)
    requires Cut(text, l) == None
    ensures Segments(text, Cuts(text, l)) == []
  {
  }

  /** The two ways to a cut, and the open sentence mark that forbids the second. */
  lemma CutCases(text: string, l: Limits)
    ensures FirstHard(text, 0, l) < |text| ==> Cut(text, l) == Some(FirstHard(text, 0, l) + 1)
    ensures FirstHard(text, 0, l) == |text| && text != "" && text[|text| - 1] in SENTENCE_END ==> Cut(text, l) == None
    ensures FirstHard(text, 0, l) == |text| && (text == "" || text[|text| - 1] !in SENTENCE_END) ==>
              Cut(text, l) == if |text| >= l.softLimit then LastClause(text, |text| - 2, l) else None
  {
    hide FirstHard, LastClause;
  }

  class SentenceChunker {
    const limits: Limits
    var buffer: string

    constructor (limits: Limits := DEFAULT_LIMITS)
      ensures buffer == "" && this.limits == limits
    {
      this.limits := limits;
      buffer := "";
    }

    /** Cuts as often as the longer buffer can be cut: what stays cannot be cut yet. */
    method Feed(token: string) returns (segments: seq<string>)
      modifies this`buffer
      ensures token == "" ==> segments == [] && buffer == old(buffer)
      ensures token != "" ==>
        && segments == Segments(old(buffer) + token, Cuts(old(buffer) + token, limits))
        && buffer == Remainder(old(buffer) + token, limits)
    {
      hide Cut, Strip, Segments, Cuts;
      if token == "" {
        return [];
      }
      buffer := buffer + token;
      segments := [];
      ghost var text := buffer;
      while true
        invariant segments + Segments(buffer, Cuts(buffer, limits)) == Segments(text, Cuts(text, limits))
        invariant Remainder(buffer, limits) == Remainder(text, limits)
        decreases |buffer|
      {
        var cut := FindCut();
        if cut == None {
          NoSegment(buffer, limits);
          break;
        }
        CutHasText(buffer, limits);
        NextSegment(buffer, limits);
        var segment := Strip(buffer[..cut.value]);
        buffer := buffer[cut.value..];
        if segment != "" {
          segments := segments + [segment];
        }
      }
    }

    /** Empties the buffer; nothing but whitespace is lost by it. */
    method Flush() returns (rest: Option<string>)
      modifies this`buffer
      ensures buffer == ""
      ensures rest == if HasText(old(buffer)) then Some(Strip(old(buffer))) else None
    {
      StripEmpty(buffer);
      var stripped := Strip(buffer);
      buffer := "";
      rest := if stripped == "" then None else Some(stripped);
    }

    method FindCut() returns (cut: Option<nat>)
      ensures cut == Cut(buffer, limits)
    {
      hide IsSpace, Strip, EndsAbbreviated, HasText, HasTextBefore, EndsWith, Cut;
      var text := buffer;
      CutCases(text, limits);
      for i := 0 to |text|
        invariant FirstHard(text, 0, limits) == FirstHard(text, i, limits)
        invariant forall j :: 0 <= j < i && text[j] in SENTENCE_END ==> j + 1 < |text|
      {
        var ch := text[i];
        if ch == '\n' && HasTextBefore(text, i) {
          return Some(i + 1);
        }
        if ch !in SENTENCE_END {
          continue;
        }
        var next := i + 1;
        if next >= |text| {
          return None;  // no cut is decided while the last character is a sentence mark
        }
        if !IsSpace(text[next]) {
          continue;
        }
        var head := text[..next];
        if |Strip(head)| < limits.minChars {
          continue;
        }
        if EndsAbbreviated(head) {
          continue;
        }
        return Some(next);
      }
      if |text| >= limits.softLimit {
        var i := |text| - 2;
        while i > limits.minChars
          invariant i <= |text| - 2
          invariant LastClause(text, |text| - 2, limits) == LastClause(text, i, limits)
        {
          if text[i] in CLAUSE_END && IsSpace(text[i + 1]) {
            return Some(i + 1);
          }
          i := i - 1;
        }
      }
      return None;
    }
  }

  /** `text[:i].strip()` is not empty. */
  predicate HasTextBefore(text: string, i: nat)
    requires i <= |text|
    ensures HasTextBefore(text, i) <==> HasText(text[..i])
  {
    StripEmpty(text[..i]);
    Strip(text[..i]) != ""
  }
}
