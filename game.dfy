/** The round controller: the game state and the steps that change it. */
module Game {
  import opened Symbols
  import opened Reels
  import opened WinCheck

  /** What a scheduled reel-stop callback has captured: the strip offset the reel
      started from and the number of pictures it scrolls. */
  datatype Spin = Spin(origin: nat, spinTime: nat)

  /** No reel-stop callback outstanding. */
  const NO_SPINS: seq<Option<Spin>> := [None, None, None, None]

  /** The stake after one press of the bet button: one more while it is below 3 and
      the balance covers the raised stake, otherwise back to 1. */
  function NextStake(stake: int, balance: int): (r: int)
    ensures 1 <= stake <= 3 ==> 1 <= r <= 3
    ensures r == 1 || (r == stake + 1 && stake < 3 && r <= balance)
    ensures stake >= 3 ==> r == 1
    ensures stake < 3 && balance >= stake + 1 ==> r == stake + 1
  {
    if stake < 3 && balance >= stake + 1 then stake + 1 else 1
  }

  /** The tally at the start of the win check: every sign on the line, in order of
      first appearance, together with the number of slots showing it. */
  method Tally(line: Line) returns (signCount: map<Sign, nat>, signs: seq<Sign>)
    ensures forall s :: s in signCount <==> s in signs
    ensures forall s :: s in signCount ==> signCount[s] == Count(line, s)
    ensures forall s :: s !in signCount ==> Count(line, s) == 0
  {
    signCount, signs := map[], [];
    for i := 0 to |line|
      invariant forall s :: s in signCount <==> s in signs
      invariant forall s :: s in signCount ==> signCount[s] == Count(line[..i], s)
      invariant forall s :: s !in signCount ==> Count(line[..i], s) == 0
    {
      assert line[..i + 1] == line[..i] + [line[i]];
      forall s ensures Count(line[..i + 1], s) == Count(line[..i], s) + (if line[i] == Some(s) then 1 else 0) {
        CountSnoc(line[..i], line[i], s);
      }
      match line[i]
      case Some(sign) =>
        if sign in signCount {
          signCount := signCount[sign := signCount[sign] + 1];
        } else {
          signs := signs + [sign];
          signCount := signCount[sign := 1];
        }
      case None =>
    }
    assert line[..|line|] == line;
  }

  /**
   * The state of one slot machine. The fields up to lockUsedThisRound are the game
   * state itself. controlsDisabled and lockButtonsDisabled stand for the disabled
   * state of the play/bet buttons and of the lock buttons; positions stands for each
   * reel's vertical strip offset; pending[i] holds the reel-stop callback of reel i
   * while it is scheduled and has not run yet.
   */
  class SlotMachine {
    var balance: int
    var stake: int
    var locks: array<bool>
    var winLine: array<Option<Sign>>
    var lockedLine: array<Option<Sign>>
    var disableLocksNextRound: bool
    var lockUsedThisRound: bool

    var controlsDisabled: bool
    var lockButtonsDisabled: bool
    var positions: seq<nat>
    var pending: seq<Option<Spin>>

    /** Shapes of the arrays, plus the round invariant: a locked reel shows its
        snapshot; a reel still spinning is unlocked and shows nothing yet; while any
        reel spins, every button is disabled. */
    ghost predicate Valid()
      reads this, locks, winLine, lockedLine
    {
      locks.Length == SPINNER_COUNT && winLine.Length == SPINNER_COUNT &&
      lockedLine.Length == SPINNER_COUNT && |positions| == SPINNER_COUNT &&
      |pending| == SPINNER_COUNT && winLine != lockedLine &&
      (forall i :: 0 <= i < SPINNER_COUNT && locks[i] ==> winLine[i] == lockedLine[i]) &&
      (forall i :: 0 <= i < SPINNER_COUNT && pending[i].Some? ==> !locks[i] && winLine[i] == None) &&
      (pending != NO_SPINS ==> controlsDisabled && lockButtonsDisabled)
    }

    /** Whether a press of the play button starts a round: charging a positive stake
        then leaves the balance non-negative and strictly lower; with a stake of zero
        or less, any positive balance starts one. */
    predicate CanStart()
      reads this
      ensures CanStart() && stake > 0 ==> 0 <= balance - stake < balance
      ensures stake <= 0 ==> (CanStart() <==> balance > 0)
    {
      balance >= stake && balance > 0
    }

    /** The state on page load: the given balance and stake, nothing locked, an empty
        line, and the lock buttons disabled. */
    constructor (balance0: int, stake0: int, offsets: seq<nat>)
      requires |offsets| == SPINNER_COUNT
      ensures Valid()
      ensures fresh(locks) && fresh(winLine) && fresh(lockedLine)
      ensures balance == balance0 && stake == stake0
      ensures forall i :: 0 <= i < SPINNER_COUNT ==> !locks[i] && winLine[i] == None && lockedLine[i] == None
      ensures positions == offsets
      ensures !disableLocksNextRound && !lockUsedThisRound
      ensures !controlsDisabled && lockButtonsDisabled && pending == NO_SPINS
    {
      balance := balance0;
      stake := stake0;
      locks := new bool[SPINNER_COUNT](_ => false);
      winLine := new Option<Sign>[SPINNER_COUNT](_ => None);
      lockedLine := new Option<Sign>[SPINNER_COUNT](_ => None);
      positions := offsets;
      disableLocksNextRound := false;
      lockUsedThisRound := false;
      controlsDisabled := false;
      lockButtonsDisabled := true;
      pending := NO_SPINS;
    }

    /** A press of lock button `ind`. Ignored while locks are barred for the round;
        otherwise flips that reel's lock, snapshots (or clears) its picture, and records
        whether the last press locked. */
    method ToggleLock(ind: nat)
      requires Valid() && ind < SPINNER_COUNT && !lockButtonsDisabled
      modifies locks, lockedLine, this`lockUsedThisRound
      ensures Valid()
      ensures old(disableLocksNextRound) ==>
        locks[..] == old(locks[..]) && lockedLine[..] == old(lockedLine[..]) &&
        lockUsedThisRound == old(lockUsedThisRound)
      ensures !old(disableLocksNextRound) ==>
        locks[..] == old(locks[..])[ind := !old(locks[ind])] &&
        lockedLine[..] == old(lockedLine[..])[ind := if locks[ind] then winLine[ind] else None] &&
        lockUsedThisRound == locks[ind]
    {
      if disableLocksNextRound {
        return;
      }
      locks[ind] := !locks[ind];
      if locks[ind] {
        lockedLine[ind] := winLine[ind];
        lockUsedThisRound := true;
      } else {
        lockedLine[ind] := None;
        lockUsedThisRound := false;
      }
    }

    /** A press of the play button. When the balance covers the stake, charges it,
        clears the line, shows each locked reel's snapshot, sets each unlocked reel
        spinning by its spin time, and disables the controls until settlement.
        `jitter` holds the random draw for each reel. */
    method GameOn(jitter: seq<int>)
      requires Valid() && !controlsDisabled
      requires |jitter| == SPINNER_COUNT
      requires forall i :: 0 <= i < SPINNER_COUNT ==> 0 <= jitter[i] < SIGN_PCS
      modifies this`balance, this`winLine, this`pending, this`controlsDisabled,
        this`lockButtonsDisabled, this`positions
      ensures Valid()
      ensures stake == old(stake) && locks == old(locks) && lockedLine == old(lockedLine)
      ensures unchanged(locks, lockedLine)
      ensures old(CanStart()) ==>
        balance == old(balance) - stake && balance >= 0 && controlsDisabled && fresh(winLine) &&
        (forall i :: 0 <= i < SPINNER_COUNT ==> winLine[i] == if locks[i] then lockedLine[i] else None) &&
        (forall i :: 0 <= i < SPINNER_COUNT ==>
          pending[i] == if locks[i] then None else Some(Spin(old(positions[i]), SpinTime(i, jitter[i])))) &&
        (forall i :: 0 <= i < SPINNER_COUNT ==>
          positions[i] == if locks[i] then old(positions[i])
                          else EndPosition(old(positions[i]), SpinTime(i, jitter[i]))) &&
        lockButtonsDisabled == (old(lockButtonsDisabled) || exists i :: 0 <= i < SPINNER_COUNT && !locks[i])
      ensures !old(CanStart()) ==>
        balance == old(balance) && winLine == old(winLine) && pending == old(pending) &&
        controlsDisabled == old(controlsDisabled) && lockButtonsDisabled == old(lockButtonsDisabled) &&
        positions == old(positions)
    {
      if balance >= stake && balance > 0 {
        balance := balance - stake;
        winLine := new Option<Sign>[SPINNER_COUNT](_ => None);
        StartReels(jitter);
        controlsDisabled := true;
      }
    }

    /** The loop of the play step over the reels, on a line just wiped: every
        unlocked reel is spun, every locked one shows its snapshot again. */
    method StartReels(jitter: seq<int>)
      requires |jitter| == SPINNER_COUNT
      requires forall i :: 0 <= i < SPINNER_COUNT ==> 0 <= jitter[i] < SIGN_PCS
      requires locks.Length == SPINNER_COUNT && lockedLine.Length == SPINNER_COUNT
      requires winLine.Length == SPINNER_COUNT && winLine != lockedLine
      requires |positions| == SPINNER_COUNT && pending == NO_SPINS
      requires forall i :: 0 <= i < SPINNER_COUNT ==> winLine[i] == None
      modifies this`pending, this`lockButtonsDisabled, this`positions, winLine
      ensures forall i :: 0 <= i < SPINNER_COUNT ==> winLine[i] == if locks[i] then lockedLine[i] else None
      ensures |pending| == SPINNER_COUNT && |positions| == SPINNER_COUNT
      ensures forall i :: 0 <= i < SPINNER_COUNT ==>
        pending[i] == if locks[i] then None else Some(Spin(old(positions[i]), SpinTime(i, jitter[i])))
      ensures forall i :: 0 <= i < SPINNER_COUNT ==>
        positions[i] == if locks[i] then old(positions[i]) else EndPosition(old(positions[i]), SpinTime(i, jitter[i]))
      ensures lockButtonsDisabled == (old(lockButtonsDisabled) || exists i :: 0 <= i < SPINNER_COUNT && !locks[i])
    {
      for i := 0 to SPINNER_COUNT
        invariant forall k :: 0 <= k < i ==> winLine[k] == if locks[k] then lockedLine[k] else None
        invariant forall k :: i <= k < SPINNER_COUNT ==> winLine[k] == None
        invariant |pending| == SPINNER_COUNT
        invariant forall k :: 0 <= k < SPINNER_COUNT ==>
          pending[k] == if k < i && !locks[k] then Some(Spin(old(positions[k]), SpinTime(k, jitter[k]))) else None
        invariant |positions| == SPINNER_COUNT
        invariant forall k :: 0 <= k < SPINNER_COUNT ==>
          positions[k] == if k < i && !locks[k] then EndPosition(old(positions[k]), SpinTime(k, jitter[k])) else old(positions[k])
        invariant lockButtonsDisabled == (old(lockButtonsDisabled) || exists k :: 0 <= k < i && !locks[k])
      {
        if !locks[i] {
          SpinReel(i, jitter[i]);
        } else {
          winLine[i] := lockedLine[i];
        }
      }
    }

    /** The synchronous part of spinning reel `index`: disables the lock buttons,
        moves the reel by its spin time and schedules its stop. */
    method SpinReel(index: nat, jitter: int)
      requires index < SPINNER_COUNT && |positions| == SPINNER_COUNT && |pending| == SPINNER_COUNT
      requires 0 <= jitter < SIGN_PCS
      modifies this`positions, this`pending, this`lockButtonsDisabled
      ensures lockButtonsDisabled
      ensures pending == old(pending)[index := Some(Spin(old(positions[index]), SpinTime(index, jitter)))]
      ensures positions == old(positions)[index := EndPosition(old(positions[index]), SpinTime(index, jitter))]
    {
      lockButtonsDisabled := true;
      var spinTime := SpinTime(index, jitter);
      var y := positions[index];
      positions := positions[index := EndPosition(y, spinTime)];
      pending := pending[index := Some(Spin(y, spinTime))];
    }

    /** The scheduled stop of reel `index`: writes the picture the reel settled on into
        the line. */
    method ResolveReel(index: nat)
      requires Valid() && index < SPINNER_COUNT && pending[index].Some?
      modifies winLine, this`pending
      ensures Valid()
      ensures winLine[index] == Some(SettledSign(old(pending[index]).value.origin, old(pending[index]).value.spinTime))
      ensures forall i :: 0 <= i < SPINNER_COUNT && i != index ==> winLine[i] == old(winLine[i])
      ensures pending == old(pending)[index := None]
    {
      var spin := pending[index].value;
      var pos := SettledIndex(spin.origin, spin.spinTime);
      winLine[index] := Some(SIGNS[pos]);
      pending := pending[index := None];
    }

    /** The reel-stop callbacks of one round, run in the order the play step scheduled
        them (all share the same delay, so they fire in scheduling order, before the
        settlement step). */
    method RunTimers()
      requires Valid()
      modifies winLine, this`pending
      ensures Valid()
      ensures pending == NO_SPINS
      ensures forall i :: 0 <= i < SPINNER_COUNT ==>
        winLine[i] == match old(pending[i])
          case Some(spin) => Some(SettledSign(spin.origin, spin.spinTime))
          case None => old(winLine[i])
    {
      for i := 0 to SPINNER_COUNT
        invariant Valid()
        invariant forall k :: 0 <= k < i ==> pending[k] == None
        invariant forall k :: i <= k < SPINNER_COUNT ==> pending[k] == old(pending[k])
        invariant forall k :: 0 <= k < SPINNER_COUNT ==>
          winLine[k] == if k < i then
            match old(pending[k])
              case Some(spin) => Some(SettledSign(spin.origin, spin.spinTime))
              case None => old(winLine[k])
          else old(winLine[k])
      {
        if pending[i].Some? {
          ResolveReel(i);
        }
      }
      assert pending == NO_SPINS;
    }

    /** Tallies the line and pays the first tallied sign that passes the test; a win
        also bars locks. Returns the paid sign (the one the win banner shows). */
    method CheckWin() returns (won: Option<Sign>)
      requires Valid()
      modifies this`balance, this`disableLocksNextRound
      ensures Valid()
      ensures LineWin(winLine[..]) == None ==>
        won == None && balance == old(balance) && disableLocksNextRound == old(disableLocksNextRound)
      ensures LineWin(winLine[..]).Some? ==>
        won == Some(LineWin(winLine[..]).value.sign) &&
        balance == old(balance) + stake * LineWin(winLine[..]).value.multiplier &&
        disableLocksNextRound
    {
      var line := winLine[..];
      var signCount, signs := Tally(line);
      ScanMatchesLineWin(line);
      won := None;
      var j := 0;
      while j < |signs|
        invariant j <= |signs|
        invariant forall k :: 0 <= k < j ==> !Qualifies(line, signs[k])
        invariant won == None && balance == old(balance) && disableLocksNextRound == old(disableLocksNextRound)
      {
        var sign := signs[j];
        if signCount[sign] >= SPINNER_COUNT || (sign == King && signCount[King] == 3) {
          assert Qualifies(line, sign);
          var winAmount := stake * (if sign == King && signCount[King] == 3 then THREE_KINGS else Winnings(sign));
          balance := balance + winAmount;
          won := Some(sign);
          disableLocksNextRound := true;
          break;
        }
        j := j + 1;
      }
      if won == None {
        forall s ensures !Qualifies(line, s) {
          if s in signs {
            var k :| 0 <= k < |signs| && signs[k] == s;
          } else {
            assert Count(line, s) == 0;
          }
        }
        NoQualifierNoWin(line);
      }
    }

    /** The settlement step after every reel has stopped: pays the line, re-enables
        play and bet, disables the lock buttons when the round won or used a lock
        (clearing both flags) and enables them otherwise, then releases every lock. */
    method Settle()
      requires Valid() && controlsDisabled && pending == NO_SPINS
      modifies this`balance, this`disableLocksNextRound, this`lockUsedThisRound,
        this`controlsDisabled, this`lockButtonsDisabled, locks, lockedLine
      ensures Valid()
      ensures balance == old(balance) + Payout(winLine[..], stake)
      ensures lockButtonsDisabled ==
        (LineWin(winLine[..]).Some? || old(disableLocksNextRound) || old(lockUsedThisRound))
      ensures !controlsDisabled && !disableLocksNextRound && !lockUsedThisRound
      ensures forall i :: 0 <= i < SPINNER_COUNT ==> !locks[i] && lockedLine[i] == None
    {
      var won := CheckWin();
      controlsDisabled := false;
      if disableLocksNextRound || lockUsedThisRound {
        lockButtonsDisabled := true;
        disableLocksNextRound := false;
        lockUsedThisRound := false;
      } else {
        lockButtonsDisabled := false;
      }
      ResetLocks();
    }

    /** A press of the bet button; it is disabled, like the play button, from the
        play step until settlement. */
    method BetUp()
      requires Valid() && !controlsDisabled
      modifies this`stake
      ensures Valid()
      ensures stake == NextStake(old(stake), balance)
    {
      if stake < 3 && balance >= stake + 1 {
        stake := stake + 1;
      } else {
        stake := 1;
      }
    }

    /** Releases every lock and clears every snapshot. */
    method ResetLocks()
      requires Valid()
      modifies locks, lockedLine
      ensures Valid()
      ensures forall i :: 0 <= i < SPINNER_COUNT ==> !locks[i] && lockedLine[i] == None
    {
      forall i | 0 <= i < locks.Length {
        locks[i] := false;
      }
      forall i | 0 <= i < lockedLine.Length {
        lockedLine[i] := None;
      }
    }
  }
}
