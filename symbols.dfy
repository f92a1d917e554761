/** The symbols on the reels, the reel strip and the payout table of the slot machine. */
module Symbols {

  /** A value that may be missing: a win-line slot before its reel has stopped. */
  datatype Option<T> = None | Some(value: T)

  /** The five pictures a reel can show. */
  datatype Sign = Star | Ship | Planet | Martian | King

  /** Height of one picture on the strip, in pixels. */
  const SIGN_HEIGHT: nat := 170
  /** Number of pictures on one full turn of the strip. */
  const SIGN_PCS: nat := 10
  /** Number of reels. */
  const SPINNER_COUNT: nat := 4

  /** The strip, top to bottom; every reel uses the same strip. */
  const SIGNS: seq<Sign> := [Star, Ship, Planet, Martian, Star, Ship, King, Star, Martian, Planet]

  /** The multiplier for a line of exactly three kings. */
  const THREE_KINGS: nat := 5

  /** The multiplier for a line of four equal pictures: between the star's 3 and the
      king's 10. */
  function Winnings(s: Sign): (w: nat)
    ensures 3 <= w <= 10
  {
    match s
    case King => 10
    case Martian => 6
    case Ship => 5
    case Planet => 4
    case Star => 3
  }

  /** The king is the top prize, and three kings pay less than four. */
  lemma KingTopsTable()
    ensures forall s :: Winnings(s) <= Winnings(King)
    ensures forall s :: s != King ==> Winnings(s) < Winnings(King)
    ensures THREE_KINGS < Winnings(King)
  {
  }

  /** The literals 170 and 1700 that the reel arithmetic uses are the picture height
      and one full turn of the strip. */
  lemma StripGeometry()
    ensures SIGN_HEIGHT == 170 && SIGN_HEIGHT * SIGN_PCS == 1700
  {
  }

  /** The strip has one full turn of SIGN_PCS pictures and exactly one king, at index 6. */
  lemma StripShape()
    ensures |SIGNS| == SIGN_PCS
    ensures forall i :: 0 <= i < |SIGNS| ==> (SIGNS[i] == King <==> i == 6)
  {
  }
}
