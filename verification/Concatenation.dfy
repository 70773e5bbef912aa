/** Pieces put together in order. */
module Concatenation {
  function Concat<T>(pieces: seq<seq<T>>): seq<T>
  {
    if pieces == [] then [] else pieces[0] + Concat(pieces[1..])
  }

  lemma {:induction false} ConcatSnoc<T>(pieces: seq<seq<T>>, last: seq<T>)
    ensures Concat(pieces + [last]) == Concat(pieces) + last
  {
    if pieces == [] {
      assert pieces + [last] == [last] && [last][1..] == [];
      assert last + [] == [] + last;
    } else {
      assert (pieces + [last])[1..] == pieces[1..] + [last];
      ConcatSnoc(pieces[1..], last);
    }
  }

  /** Piece i stands behind all pieces before it. */
  lemma {:induction false} PieceAt<T>(pieces: seq<seq<T>>, i: nat)
    requires i < |pieces|
    ensures Concat(pieces[..i]) + pieces[i] <= Concat(pieces)
  {
    var rest := pieces[1..];
    if i == 0 {
      assert pieces[..0] == [];
    } else {
      PieceAt(rest, i - 1);
      assert pieces[..i][1..] == rest[..i - 1];
    }
  }
}
