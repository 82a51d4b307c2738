/** Small sequence vocabulary shared by the streaming models. */
module Sequences {
  datatype Option<+T> = None | Some(value: T)

  /** The concatenation of the pieces, in order. */
  function Flatten<T>(pieces: seq<seq<T>>): seq<T> {
    if pieces == [] then [] else Flatten(pieces[..|pieces| - 1]) + pieces[|pieces| - 1]
  }

  lemma ConcatAssociates<T>(a: seq<T>, b: seq<T>, c: seq<T>)
    ensures (a + b) + c == a + (b + c)
  {
  }

  lemma FlattenSnoc<T>(pieces: seq<seq<T>>, last: seq<T>)
    ensures Flatten(pieces + [last]) == Flatten(pieces) + last
  {
    assert (pieces + [last])[..|pieces|] == pieces;
  }

  lemma FlattenTake<T>(pieces: seq<seq<T>>, i: nat)
    requires i < |pieces|
    ensures Flatten(pieces[..i + 1]) == Flatten(pieces[..i]) + pieces[i]
  {
    assert pieces[..i + 1] == pieces[..i] + [pieces[i]];
    FlattenSnoc(pieces[..i], pieces[i]);
  }

  lemma {:induction false} FlattenConcat<T>(a: seq<seq<T>>, b: seq<seq<T>>)
    ensures Flatten(a + b) == Flatten(a) + Flatten(b)
  {
    if b == [] {
      assert a + b == a;
    } else {
      var front, last := b[..|b| - 1], b[|b| - 1];
      FlattenConcat(a, front);
      FlattenSnoc(a + front, last);
      FlattenSnoc(front, last);
      hide Flatten;
      assert b == front + [last];
      ConcatAssociates(a, front, [last]);
      ConcatAssociates(Flatten(a), Flatten(front), last);
    }
  }

  lemma FlattenCons<T>(first: seq<T>, pieces: seq<seq<T>>)
    ensures Flatten([first] + pieces) == first + Flatten(pieces)
  {
    FlattenConcat([first], pieces);
    FlattenSnoc([], first);
    assert [] + [first] == [first];
  }
}
