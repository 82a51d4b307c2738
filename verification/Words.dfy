/** The words of a text: its maximal runs of characters that are not whitespace. */
module Words {
  import opened Text

  predicate EndsInWord(s: string) {
    s != "" && !IsSpace(s[|s| - 1])
  }

  function WordsOf(s: string): (words: seq<string>)
    ensures EndsInWord(s) ==> words != []
  {
    if s == "" then []
    else AddChar(WordsOf(s[..|s| - 1]), EndsInWord(s[..|s| - 1]), s[|s| - 1])
  }

  /** The words after one more character; `inWord` tells whether the last word may go on. */
  function AddChar(words: seq<string>, inWord: bool, c: char): (more: seq<string>)
    requires inWord ==> words != []
    ensures !IsSpace(c) ==> more != []
  {
    if IsSpace(c) then words
    else if inWord then words[..|words| - 1] + [words[|words| - 1] + [c]]
    else words + [[c]]
  }

  lemma AddCharConcat(a: seq<string>, words: seq<string>, inWord: bool, c: char)
    requires inWord ==> words != []
    ensures AddChar(a + words, inWord, c) == a + AddChar(words, inWord, c)
  {
    hide IsSpace;
    if inWord {
      assert (a + words)[..|a + words| - 1] == a + words[..|words| - 1];
    }
  }

  /** Texts that meet at whitespace have the words of both. */
  lemma {:induction false} WordsConcat(a: string, b: string)
    requires !EndsInWord(a)
    ensures WordsOf(a + b) == WordsOf(a) + WordsOf(b)
  {
    hide IsSpace, AddChar;
    if b == "" {
      assert a + b == a;
    } else {
      var front, c := b[..|b| - 1], b[|b| - 1];
      WordsConcat(a, front);
      assert (a + b)[..|a + b| - 1] == a + front;
      assert EndsInWord(a + front) == EndsInWord(front) by {
        if front == "" {
          assert a + front == a;
        } else {
          assert (a + front)[|a + front| - 1] == front[|front| - 1];
        }
      }
      AddCharConcat(WordsOf(a), WordsOf(front), EndsInWord(front), c);
    }
  }

  lemma {:induction false} WordsBlank(s: string)
    requires forall i :: 0 <= i < |s| ==> IsSpace(s[i])
    ensures WordsOf(s) == []
  {
    hide IsSpace;
    if s != "" {
      WordsBlank(s[..|s| - 1]);
    }
  }

  lemma {:induction false} WordsTrailing(s: string, blank: string)
    requires forall i :: 0 <= i < |blank| ==> IsSpace(blank[i])
    ensures WordsOf(s + blank) == WordsOf(s)
  {
    hide IsSpace;
    if blank == "" {
      assert s + blank == s;
    } else {
      WordsTrailing(s, blank[..|blank| - 1]);
      assert (s + blank)[..|s + blank| - 1] == s + blank[..|blank| - 1];
    }
  }

  /** Stripping changes no word. */
  lemma WordsStrip(s: string)
    ensures WordsOf(Strip(s)) == WordsOf(s)
  {
    hide IsSpace, TrimLeft, TrimRight, WordsOf;
    var t := TrimLeft(s);
    var lead := s[..|s| - |t|];
    assert s == lead + t;
    WordsBlank(lead);
    WordsConcat(lead, t);
    var u := TrimRight(t);
    assert t == u + t[|u|..];
    WordsTrailing(u, t[|u|..]);
    assert [] + WordsOf(t) == WordsOf(t);
  }

  /** Joining two texts with a space joins their words. */
  lemma WordsJoined(a: string, b: string)
    ensures WordsOf(a + " " + b) == WordsOf(a) + WordsOf(b)
  {
    assert IsSpace(' ');
    hide IsSpace, WordsOf;
    WordsTrailing(a, " ");
    WordsConcat(a + " ", b);
  }

  lemma WordsNone(s: string)
    ensures !HasText(s) ==> WordsOf(s) == []
  {
    if !HasText(s) {
      WordsBlank(s);
    }
  }

  /** " ".join(pieces) */
  function Joined(pieces: seq<string>): string {
    if pieces == [] then ""
    else if |pieces| == 1 then pieces[0]
    else Joined(pieces[..|pieces| - 1]) + " " + pieces[|pieces| - 1]
  }

  function WordsOfAll(pieces: seq<string>): seq<string> {
    if pieces == [] then [] else WordsOfAll(pieces[..|pieces| - 1]) + WordsOf(pieces[|pieces| - 1])
  }

  lemma WordsOfAllSnoc(pieces: seq<string>, last: string)
    ensures WordsOfAll(pieces + [last]) == WordsOfAll(pieces) + WordsOf(last)
  {
    assert (pieces + [last])[..|pieces|] == pieces;
  }

  lemma {:induction false} WordsOfJoined(pieces: seq<string>)
    ensures WordsOf(Joined(pieces)) == WordsOfAll(pieces)
  {
    hide WordsOf;
    if |pieces| == 1 {
      assert pieces[..0] == [] && [] + WordsOf(pieces[0]) == WordsOf(pieces[0]);
    } else if |pieces| > 1 {
      WordsOfJoined(pieces[..|pieces| - 1]);
      WordsJoined(Joined(pieces[..|pieces| - 1]), pieces[|pieces| - 1]);
    } else {
      WordsNone("");
    }
  }
}
