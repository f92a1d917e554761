/** How long a reel spins and which picture it stops on. Arithmetic below writes
    SIGN_PCS (10) and SIGN_HEIGHT (170) as literals, so that every product and
    remainder is by a number the solver sees as constant; StripGeometry ties the
    literals to the constants. */
module Reels {
  import opened Symbols

  /** The number of pictures reel `index` scrolls past in one spin: a base that grows
      with the reel's index plus a random jitter in [0, SIGN_PCS). */
  function SpinTime(index: nat, jitter: int): (t: nat)
    requires 0 <= jitter < SIGN_PCS
    ensures (index + 2) * 10 <= t <= (index + 2) * 10 + 9
  {
    (index + 2) * 10 + jitter
  }

  /** A reel further right always spins strictly longer than its left neighbour,
      whatever the two jitters are. */
  lemma SpinTimesIncrease(index: nat, j0: int, j1: int)
    requires 0 <= j0 < SIGN_PCS && 0 <= j1 < SIGN_PCS
    ensures SpinTime(index, j0) < SpinTime(index + 1, j1)
  {
  }

  /** The strip offset a reel is moved to when it spins `spinTime` pictures from offset `y`. */
  function EndPosition(y: nat, spinTime: nat): (e: nat)
    ensures y <= e
    ensures e % 170 == y % 170
  {
    y + spinTime * 170
  }

  /** The strip index shown once a reel that started at offset `y` has scrolled
      `spinTime` pictures: the end offset modulo one turn of the strip (1700 pixels),
      in whole pictures. */
  function SettledIndex(y: nat, spinTime: nat): (pos: nat)
    ensures pos < |SIGNS|
  {
    (EndPosition(y, spinTime) % 1700) / 170
  }

  /** The picture a reel stops on: the king exactly when the strip index is 6. */
  function SettledSign(y: nat, spinTime: nat): (s: Sign)
    ensures s == King <==> SettledIndex(y, spinTime) == 6
  {
    SIGNS[SettledIndex(y, spinTime)]
  }

  /** When the reel starts on a picture boundary, the picture it stops on is the start
      picture advanced by `spinTime` places around the strip. */
  lemma SettledIndexAligned(y: nat, spinTime: nat)
    requires y % 170 == 0
    ensures SettledIndex(y, spinTime) == (y / 170 + spinTime) % 10
  {
  }

  /** The offset a spin ends on is again a picture boundary when it started on one,
      so a reel that starts aligned stays aligned round after round. */
  lemma EndPositionAligned(y: nat, spinTime: nat)
    requires y % 170 == 0
    ensures EndPosition(y, spinTime) % 170 == 0
    ensures EndPosition(y, spinTime) / 170 == y / 170 + spinTime
  {
  }

  /** Reel `index` started on a picture boundary `k` pictures down the strip and
      stops on the picture `jitter` places further on. */
  lemma AlignedStop(index: nat, k: nat, jitter: int)
    requires 0 <= jitter < SIGN_PCS
    ensures SettledIndex(k * 170, SpinTime(index, jitter)) == (k + jitter) % 10
  {
  }
}
