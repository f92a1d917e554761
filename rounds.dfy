/** Whole rounds driven through the machine's steps, as the page's buttons and
    timers would drive them. */
module Rounds {
  import opened Symbols
  import opened Reels
  import opened WinCheck
  import opened Game

  /** From page load, one round in which every reel stops on the king pays ten times
      the stake and leaves the lock buttons disabled. */
  method FourKingsRound(balance0: int, stake0: int) returns (balanceAfter: int, locksBarred: bool)
    requires 1 <= stake0 <= balance0
    ensures balanceAfter == balance0 - stake0 + stake0 * 10
    ensures locksBarred
  {
    var m := new SlotMachine(balance0, stake0, [0, 0, 0, 0]);
    m.GameOn([6, 6, 6, 6]);
    assert SIGNS[6] == King;
    forall i | 0 <= i < SPINNER_COUNT ensures SettledSign(0, SpinTime(i, 6)) == King {
      AlignedStop(i, 0, 6);
    }
    m.RunTimers();
    FourOfAKindPays(m.winLine[..], King, m.stake);
    m.Settle();
    balanceAfter := m.balance;
    locksBarred := m.lockButtonsDisabled;
  }

  /** A first round that stops on king, king, star, star pays nothing and leaves the
      lock buttons enabled; the two kings are then locked, and the second round, in
      which the third reel stops on a king and the fourth on a star, pays the
      three-king multiplier, not the four-king one. Afterwards the lock buttons are
      disabled while the flag that bars locks is already clear again. */
  method LockedPairRound(balance0: int, stake0: int)
    returns (balanceAfterFirst: int, locksOpenAfterFirst: bool, balanceAfter: int,
             locksBarred: bool, flagBarsLocks: bool)
    requires 1 <= stake0 && 2 * stake0 <= balance0
    ensures balanceAfterFirst == balance0 - stake0 && locksOpenAfterFirst
    ensures balanceAfter == balance0 - 2 * stake0 + stake0 * THREE_KINGS
    ensures locksBarred && !flagBarsLocks
  {
    var m := KingKingStarStar(balance0, stake0);
    balanceAfterFirst := m.balance;
    locksOpenAfterFirst := !m.lockButtonsDisabled;
    m.ToggleLock(0);
    m.ToggleLock(1);
    LockedKingsPlusKing(m);
    balanceAfter := m.balance;
    locksBarred := m.lockButtonsDisabled;
    flagBarsLocks := m.disableLocksNextRound;
  }

  /** The first round of the locked-pair scenario, from page load. */
  method KingKingStarStar(balance0: int, stake0: int) returns (m: SlotMachine)
    requires 1 <= stake0 <= balance0
    ensures fresh(m) && fresh(m.locks) && fresh(m.lockedLine) && fresh(m.winLine)
    ensures m.Valid() && m.pending == NO_SPINS && !m.controlsDisabled
    ensures !m.disableLocksNextRound && !m.lockUsedThisRound && !m.lockButtonsDisabled
    ensures m.balance == balance0 - stake0 && m.stake == stake0
    ensures forall i :: 0 <= i < SPINNER_COUNT ==> !m.locks[i]
    ensures m.winLine[0] == Some(King) && m.winLine[1] == Some(King)
    ensures m.positions[2] == 40 * 170 && m.positions[3] == 50 * 170
  {
    m := StopKingKingStarStar(balance0, stake0);
    CountOfFour(m.winLine[..], King);
    m.Settle();
  }

  /** The play step and the reel stops of that first round. */
  method StopKingKingStarStar(balance0: int, stake0: int) returns (m: SlotMachine)
    requires 1 <= stake0 <= balance0
    ensures fresh(m) && fresh(m.locks) && fresh(m.lockedLine) && fresh(m.winLine)
    ensures m.Valid() && m.pending == NO_SPINS && m.controlsDisabled
    ensures !m.disableLocksNextRound && !m.lockUsedThisRound
    ensures m.balance == balance0 - stake0 && m.stake == stake0
    ensures forall i :: 0 <= i < SPINNER_COUNT ==> !m.locks[i]
    ensures m.winLine[..] == [Some(King), Some(King), Some(Star), Some(Star)]
    ensures m.positions[2] == 40 * 170 && m.positions[3] == 50 * 170
  {
    m := SpinKingKingStarStar(balance0, stake0);
    assert SIGNS[6] == King && SIGNS[0] == Star;
    AlignedStop(0, 0, 6);
    AlignedStop(1, 0, 6);
    AlignedStop(2, 0, 0);
    AlignedStop(3, 0, 0);
    m.RunTimers();
    LineOfFour(m.winLine[..], Some(King), Some(King), Some(Star), Some(Star));
  }

  /** The play step of that first round, from page load. */
  method SpinKingKingStarStar(balance0: int, stake0: int) returns (m: SlotMachine)
    requires 1 <= stake0 <= balance0
    ensures fresh(m) && fresh(m.locks) && fresh(m.lockedLine) && fresh(m.winLine)
    ensures m.Valid() && m.controlsDisabled
    ensures !m.disableLocksNextRound && !m.lockUsedThisRound
    ensures m.balance == balance0 - stake0 && m.stake == stake0
    ensures forall i :: 0 <= i < SPINNER_COUNT ==> !m.locks[i]
    ensures m.pending == [Some(Spin(0, SpinTime(0, 6))), Some(Spin(0, SpinTime(1, 6))),
                          Some(Spin(0, SpinTime(2, 0))), Some(Spin(0, SpinTime(3, 0)))]
    ensures m.positions[2] == 40 * 170 && m.positions[3] == 50 * 170
  {
    m := new SlotMachine(balance0, stake0, [0, 0, 0, 0]);
    m.GameOn([6, 6, 0, 0]);
  }

  /** The second round of the locked-pair scenario: the first two reels are held on
      their kings, the third stops on a king and the fourth on a star. */
  method LockedKingsPlusKing(m: SlotMachine)
    requires m.Valid() && m.pending == NO_SPINS && !m.controlsDisabled
    requires !m.disableLocksNextRound && 1 <= m.stake <= m.balance
    requires m.positions[2] == 40 * 170 && m.positions[3] == 50 * 170
    requires m.locks[0] && m.locks[1] && !m.locks[2] && !m.locks[3]
    requires m.lockedLine[0] == Some(King) && m.lockedLine[1] == Some(King)
    modifies m, m.locks, m.lockedLine
    ensures m.balance == old(m.balance) - m.stake + m.stake * THREE_KINGS
    ensures m.lockButtonsDisabled && !m.disableLocksNextRound && m.stake == old(m.stake)
  {
    m.GameOn([0, 0, 6, 0]);
    assert SIGNS[6] == King && SIGNS[0] == Star;
    AlignedStop(2, 40, 6);
    AlignedStop(3, 50, 0);
    m.RunTimers();
    LineOfFour(m.winLine[..], Some(King), Some(King), Some(King), Some(Star));
    ThreeKingsPay(m.winLine[..], 3, m.stake);
    m.Settle();
  }

  /** A four-slot line, slot by slot. */
  lemma LineOfFour(line: Line, a: Option<Sign>, b: Option<Sign>, c: Option<Sign>, d: Option<Sign>)
    requires |line| == SPINNER_COUNT
    requires line[0] == a && line[1] == b && line[2] == c && line[3] == d
    ensures line == [a, b, c, d]
  {
  }

  /** The bet button cycles the stake 1, 2, 3 and back to 1 when the balance covers
      every stake, and drops to 1 from 3 however large the balance is. */
  method BetCycle(balance0: int) returns (stakes: seq<int>)
    requires balance0 >= 3
    ensures stakes == [2, 3, 1]
  {
    var m := new SlotMachine(balance0, 1, [0, 0, 0, 0]);
    m.BetUp();
    var s1 := m.stake;
    m.BetUp();
    var s2 := m.stake;
    m.BetUp();
    stakes := [s1, s2, m.stake];
  }

  /** With too little balance for the stake, the play button changes nothing. */
  method BrokeRound(stake0: int) returns (balanceAfter: int, started: bool)
    requires stake0 >= 1
    ensures balanceAfter == 0 && !started
  {
    var m := new SlotMachine(0, stake0, [0, 0, 0, 0]);
    m.GameOn([0, 0, 0, 0]);
    balanceAfter := m.balance;
    started := m.controlsDisabled;
  }
}
