/** Win evaluation: which lines pay, and how much. */
module WinCheck {
  import opened Symbols

  /** A line of four reels; a slot is None while its reel has not stopped. */
  type Line = seq<Option<Sign>>

  /** The sign that is paid and the multiplier applied to the stake. */
  datatype Win = Win(sign: Sign, multiplier: nat)

  /** How many slots of `line` show `s` (empty slots are not counted). */
  function Count(line: Line, s: Sign): (n: nat)
    ensures n <= |line|
    decreases |line|
  {
    if line == [] then 0
    else Count(line[..|line| - 1], s) + (if line[|line| - 1] == Some(s) then 1 else 0)
  }

  /** Extending a line by one slot adds one to the count of the sign it shows. */
  lemma CountSnoc(line: Line, x: Option<Sign>, s: Sign)
    ensures Count(line + [x], s) == Count(line, s) + (if x == Some(s) then 1 else 0)
  {
  }

  /** A sign fills the count of a line exactly when every slot shows it. */
  lemma {:induction false} CountAllEqual(line: Line, s: Sign)
    ensures Count(line, s) == |line| <==> forall i :: 0 <= i < |line| ==> line[i] == Some(s)
  {
    if line != [] {
      var init := line[..|line| - 1];
      CountAllEqual(init, s);
      assert forall i :: 0 <= i < |init| ==> init[i] == line[i];
    }
  }

  /** Two different signs share the slots of one line. */
  lemma {:induction false} CountDisjoint(line: Line, a: Sign, b: Sign)
    requires a != b
    ensures Count(line, a) + Count(line, b) <= |line|
  {
    if line != [] {
      CountDisjoint(line[..|line| - 1], a, b);
    }
  }

  /** The test applied to each tallied sign: all four slots show it, or it is the
      king and exactly three slots show the king. */
  predicate Qualifies(line: Line, s: Sign)
    ensures Qualifies(line, s) ==> Count(line, s) >= 3
    ensures Qualifies(line, s) && s != King ==> Count(line, s) >= SPINNER_COUNT
  {
    Count(line, s) >= SPINNER_COUNT || (s == King && Count(line, King) == 3)
  }

  /** The multiplier paid for a qualifying sign: never more than four kings pay. */
  function Multiplier(line: Line, s: Sign): (m: nat)
    ensures 3 <= m <= Winnings(King)
  {
    if s == King && Count(line, King) == 3 then THREE_KINGS else Winnings(s)
  }

  /** The win of a full line, stated directly: exactly three kings pay THREE_KINGS;
      four equal pictures pay that picture's Winnings; every other line pays nothing. */
  function LineWin(line: Line): Option<Win>
    requires |line| == SPINNER_COUNT
  {
    if Count(line, King) == 3 then Some(Win(King, THREE_KINGS))
    else if line[0].Some? && forall i :: 0 <= i < |line| ==> line[i] == line[0] then
      Some(Win(line[0].value, Winnings(line[0].value)))
    else None
  }

  /** The amount credited for a line at a given stake. */
  function Payout(line: Line, stake: int): int
    requires |line| == SPINNER_COUNT
  {
    match LineWin(line)
    case None => 0
    case Some(w) => stake * w.multiplier
  }

  /** The per-sign scan agrees with the direct definition: a sign passes the test
      exactly when it is the sign the line wins with, at the scan's multiplier. */
  lemma {:induction false} ScanMatchesLineWin(line: Line)
    requires |line| == SPINNER_COUNT
    ensures forall s :: Qualifies(line, s) <==> LineWin(line) == Some(Win(s, Multiplier(line, s)))
    ensures LineWin(line).Some? ==> Qualifies(line, LineWin(line).value.sign)
  {
    forall s
      ensures Qualifies(line, s) <==> LineWin(line) == Some(Win(s, Multiplier(line, s)))
    {
      CountAllEqual(line, s);
      if line[0].Some? && line[0].value != s {
        CountDisjoint(line, s, line[0].value);
      }
      if s != King {
        CountDisjoint(line, s, King);
      }
    }
    if LineWin(line).Some? {
      var w := LineWin(line).value;
      if w.sign != King {
        CountAllEqual(line, w.sign);
        CountDisjoint(line, w.sign, King);
      }
    }
  }

  /** At most one sign of a line passes the test, so at most one payout is due. */
  lemma AtMostOneQualifies(line: Line, a: Sign, b: Sign)
    requires |line| == SPINNER_COUNT
    requires Qualifies(line, a) && Qualifies(line, b)
    ensures a == b
  {
    ScanMatchesLineWin(line);
  }

  /** No sign passes the test exactly when the line pays nothing. */
  lemma NoQualifierNoWin(line: Line)
    requires |line| == SPINNER_COUNT
    ensures (forall s :: !Qualifies(line, s)) <==> LineWin(line) == None
  {
    ScanMatchesLineWin(line);
  }

  /** The count of a four-slot line, slot by slot. */
  lemma CountOfFour(line: Line, s: Sign)
    requires |line| == SPINNER_COUNT
    ensures Count(line, s) ==
      (if line[0] == Some(s) then 1 else 0) + (if line[1] == Some(s) then 1 else 0) +
      (if line[2] == Some(s) then 1 else 0) + (if line[3] == Some(s) then 1 else 0)
  {
    assert line == [line[0]] + [line[1]] + [line[2]] + [line[3]];
    CountSnoc([], line[0], s);
    CountSnoc([line[0]], line[1], s);
    CountSnoc([line[0]] + [line[1]], line[2], s);
    CountSnoc([line[0]] + [line[1]] + [line[2]], line[3], s);
  }

  /** Four equal pictures pay the stake times that picture's multiplier;
      four kings pay ten times the stake. */
  lemma FourOfAKindPays(line: Line, s: Sign, stake: int)
    requires |line| == SPINNER_COUNT
    requires forall i :: 0 <= i < |line| ==> line[i] == Some(s)
    ensures LineWin(line) == Some(Win(s, Winnings(s)))
    ensures Payout(line, stake) == stake * Winnings(s)
    ensures s == King ==> Payout(line, stake) == stake * 10
  {
    CountOfFour(line, King);
  }

  /** Exactly three kings pay THREE_KINGS times the stake, whatever the fourth slot
      shows (another picture, or nothing). */
  lemma ThreeKingsPay(line: Line, k: nat, stake: int)
    requires |line| == SPINNER_COUNT && k < SPINNER_COUNT
    requires line[k] != Some(King)
    requires forall i :: 0 <= i < |line| && i != k ==> line[i] == Some(King)
    ensures LineWin(line) == Some(Win(King, THREE_KINGS))
    ensures Payout(line, stake) == stake * THREE_KINGS
  {
    CountOfFour(line, King);
  }

  /** Three equal pictures other than the king pay nothing. */
  lemma ThreeOfAKindNotPaid(line: Line, s: Sign, k: nat)
    requires |line| == SPINNER_COUNT && k < SPINNER_COUNT
    requires s != King && line[k] != Some(s)
    requires forall i :: 0 <= i < |line| && i != k ==> line[i] == Some(s)
    ensures LineWin(line) == None
    ensures forall stake :: Payout(line, stake) == 0
  {
    CountOfFour(line, King);
    assert line[k] != line[if k == 0 then 1 else 0];
  }
}
