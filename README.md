# Slot machine round controller

A Dafny model of the round controller of a four-reel web slot machine. The game runs on
one mutable game state: the balance, the stake, a lock flag per reel, the line of
pictures the reels show (`winLine`), the pictures held by locked reels (`lockedLine`),
and two flags. The flag `disableLocksNextRound` records a win. The flag
`lockUsedThisRound` records whether the last lock press locked a reel.

A round goes as follows:

- The play button charges the stake and wipes the line.
- Each locked reel shows its held picture again. Each unlocked reel spins by a spin time of
  `(i + 2) * 10` plus a random draw below 10, counted in pictures.
- Each unlocked reel later stops on the strip picture given by its final offset.
- A settlement step pays the line and gates the lock buttons. It then releases every lock.

A line pays in two cases:

- four equal pictures pay their table multiple of the stake (king 10, martian 6, ship 5,
  planet 4, star 3);
- exactly three kings pay 5 times the stake, whatever the fourth slot shows.

The bet button cycles the stake through 1, 2 and 3. It raises the stake only while the
balance covers the raised stake.

Modules:

- `Symbols`: the pictures, the reel strip and the payout table.
- `Reels`: the spin-time and strip-index arithmetic, as pure functions with lemmas.
- `WinCheck`: the reference meaning of a paying line (`LineWin`, `Payout`) and its
  properties.
- `Game`: class `SlotMachine`. Its fields are the game state. Its methods are the button
  presses and the timer callbacks. The win check is an explicit tally loop followed by a
  scan that stops at the first winner, and is proved against `LineWin`.
- `Rounds`: whole rounds driven through the methods, with their outcomes proved.

How the parts that are not plain sequential code are modelled:

- **Timers.** The play step records, per spinning reel, the callback it schedules (`pending`:
  start offset and spin time). `ResolveReel` runs one callback and `RunTimers` runs them all.
  All reel stops share one 4000 ms delay, so they fire in the order they were scheduled.
  `Settle` is the 4100 ms callback and so requires that no reel stop is outstanding.
- **Randomness.** The random draw of each reel is the parameter `jitter`, in `[0, 10)`.
- **Buttons.** Two booleans stand for the disabled state of the buttons:
  `controlsDisabled` (play and bet) and `lockButtonsDisabled` (the lock buttons). A
  disabled button delivers no press. So `GameOn` and `BetUp` require enabled controls, and
  `ToggleLock` requires enabled lock buttons.
- **Reel offsets.** A reel's vertical background offset is a natural number, `positions[i]`.

Two behaviours of the code are reproduced as written:

- **The early return in `toggleLock` never fires.** `disableLocksNextRound` is set by the
  win check and cleared again in the same settlement step (`slot.js:97-100`). Between steps
  it is therefore always false. Locks are barred after a win or after a locked round only
  because the lock buttons are disabled. In the model this holds for the button and timer
  steps: the constructor and `Settle` leave the flag clear, and `GameOn`, `ToggleLock`,
  `BetUp`, `RunTimers` and `ResolveReel` do not write it. `CheckWin` is the one method that
  can leave it set. It stands for the call inside the settlement callback and is meant to run
  only from `Settle`.
- **Unlocking clears `lockUsedThisRound`.** Unlocking any reel sets the flag to false, even
  while other reels are still locked (`slot.js:70`).

## Model

| member | source | states |
|---|---|---|
| Symbols.KingTopsTable | slot.js:8-15 | the king pays the most of any picture, strictly more than every other picture, and more than three kings |
| Symbols.StripShape | slot.js:16-17 | the strip holds 10 pictures and the king sits at index 6 only |
| Symbols.Winnings | slot.js:8-15 | the multiple paid for four equal pictures, from the star's 3 up to the king's 10 |
| Symbols.StripGeometry | slot.js:4-5 | the picture height is 170 pixels and one full turn of the strip is 1700 pixels |
| Game.SlotMachine.CanStart | slot.js:77 | the play guard: with a positive stake, charging it leaves the balance non-negative and strictly lower; with a stake of zero or less, any positive balance starts a round |
| Reels.EndPosition | slot.js:123 | the offset after a spin is never below the start offset and keeps its position within a picture (the same remainder modulo 170) |
| Reels.SettledSign | slot.js:127-128 | the strip lookup for a stopped reel: the king exactly when the strip index is 6 |
| WinCheck.Qualifies | slot.js:143 | the scan's test: a passing picture fills at least three slots, and any picture other than the king fills all four |
| WinCheck.Multiplier | slot.js:144 | the multiple paid for a passing picture lies between 3 and the king's 10 |
| Reels.SpinTime | slot.js:116 | the spin time of reel `i` lies in `[(i+2)*10, (i+2)*10+9]` |
| Reels.SpinTimesIncrease | slot.js:116 | whatever the draws, each reel spins strictly longer than the reel before it |
| Reels.SettledIndex | slot.js:127 | the strip index of a stopped reel is within the strip, for every non-negative offset |
| Reels.SettledIndexAligned | slot.js:127 | from an offset that is a multiple of 170, the stop index is `(y/170 + spinTime) mod 10` |
| Reels.EndPositionAligned | slot.js:123 | a spin from an aligned offset ends aligned, `spinTime` pictures further on |
| Reels.AlignedStop | slot.js:116-127 | reel `i` started at picture `k` with draw `j` stops on strip index `(k + j) mod 10`, whatever the reel's base delay |
| WinCheck.Count | slot.js:136-140 | a tally never exceeds the number of slots |
| WinCheck.CountSnoc | slot.js:136-140 | visiting one more slot adds one to the tally of its picture, and nothing for an empty slot |
| WinCheck.CountAllEqual | slot.js:143 | a picture's tally equals the line length exactly when every slot shows that picture |
| WinCheck.CountDisjoint | slot.js:136-140 | the tallies of two different pictures together never exceed the line length |
| WinCheck.ScanMatchesLineWin | slot.js:142-151 | a picture passes the scan's test exactly when the line pays that picture at its multiplier |
| WinCheck.AtMostOneQualifies | slot.js:142-151 | at most one picture passes the test, so at most one payout happens per check |
| WinCheck.NoQualifierNoWin | slot.js:142-151 | no picture passes the test exactly when the line pays nothing |
| WinCheck.CountOfFour | slot.js:136-140 | on a four-slot line a tally is the sum of the four slot indicators |
| WinCheck.FourOfAKindPays | slot.js:143-145 | four equal pictures pay stake times their table value, and four kings pay stake times 10 |
| WinCheck.ThreeKingsPay | slot.js:143-144 | exactly three kings pay stake times 5, whatever (or nothing) the fourth slot shows |
| WinCheck.ThreeOfAKindNotPaid | slot.js:143 | three equal pictures other than the king pay nothing, for every stake |
| Game.NextStake | slot.js:156-160 | for every stake, the bet button raises the stake by one below 3 when the balance covers it, otherwise resets it to 1; a stake in 1..3 stays in 1..3; a raise never exceeds the balance |
| Game.Tally | slot.js:135-140 | the tally loop records exactly the pictures on the line, each with its number of slots |
| Game.SlotMachine.constructor | slot.js:28-36 | page load: the given balance and stake, nothing locked, empty line and held line, both flags false, the lock buttons disabled (lines 46-48) |
| Game.SlotMachine.ToggleLock | slot.js:51-72 | ignored while locks are barred; otherwise flips only that reel's lock, holds its current picture on lock and clears it on unlock, sets `lockUsedThisRound` to whether it locked, leaves every other reel unchanged, and keeps the round invariant |
| Game.SlotMachine.GameOn | slot.js:75-92 | changes nothing unless `balance >= stake && balance > 0`; otherwise charges exactly the stake (the balance stays at least 0), shows each locked reel's held picture and leaves each unlocked slot empty, schedules each unlocked reel with its spin time, moves it by that time, disables the controls, and leaves locks and held pictures unchanged |
| Game.SlotMachine.StartReels | slot.js:83-91 | the reel loop: spins exactly the unlocked reels and copies the held picture of each locked one |
| Game.SlotMachine.SpinReel | slot.js:114-124 | disables the lock buttons, records the reel's start offset and spin time, and moves the reel by spin time times 170 |
| Game.SlotMachine.ResolveReel | slot.js:126-130 | writes into that reel's slot the strip picture at its final offset and touches no other slot |
| Game.SlotMachine.RunTimers | slot.js:126-130 | after every scheduled stop has run, each spun reel shows the picture it settled on and every other slot is unchanged |
| Game.SlotMachine.CheckWin | slot.js:134-152 | a line that pays nothing changes neither the balance nor the flag; a paying line adds stake times its multiplier once, sets `disableLocksNextRound`, and reports the paid picture |
| Game.SlotMachine.Settle | slot.js:94-105 | pays the line, re-enables play and bet, disables the lock buttons exactly when the round won or a lock was in use, clears both flags, and releases every lock |
| Game.SlotMachine.BetUp | slot.js:155-162 | a press while the bet button is enabled sets the stake to `NextStake` of the old stake and the balance, and keeps the round invariant |
| Game.SlotMachine.ResetLocks | slot.js:181-184 | every lock is released and every held picture cleared |
| Rounds.FourKingsRound | slot.js:75-152 | a round from page load in which every reel stops on the king ends with the balance minus the stake plus 10 times the stake, and the lock buttons disabled |
| Rounds.SpinKingKingStarStar | slot.js:75-124 | the play step of the first locked-pair round schedules the four reels from offset 0 with their spin times |
| Rounds.StopKingKingStarStar | slot.js:126-130 | after the reel stops of that round, the line is king, king, star, star |
| Rounds.KingKingStarStar | slot.js:94-105 | that round pays nothing, leaves the lock buttons enabled and clears both flags |
| Rounds.LockedKingsPlusKing | slot.js:75-152 | with the two kings held, a round in which the third reel stops on a king and the fourth on a star pays three-king money, not four-king money, and disables the lock buttons while the win flag is already clear again |
| Rounds.LockedPairRound | slot.js:51-152 | the two rounds of the locked-pair scenario in sequence, with the two lock presses between them: balance after each round, lock buttons enabled after the first, disabled after the second |
| Rounds.BetCycle | slot.js:155-162 | with a balance of at least 3, three bet presses from stake 1 give stakes 2, 3, 1 |
| Rounds.BrokeRound | slot.js:77 | with a zero balance the play button starts nothing and charges nothing |

## Left out

- Page output: element lookups, writes to the balance and stake displays, button styles and
  classes, and the red stake colour when the balance drops below the stake (`slot.js:107-109`).
  These are presentation only. Their only effect on the game, disabled buttons, is kept as
  `controlsDisabled` and `lockButtonsDisabled`.
- Sound effects and the win banner (`winWin`). These are output only; `CheckWin` returns the
  picture the banner would show.
- The CSS transition and its easing curve. These are visual tweening.
- Reading the offset back from the computed style as a float. The model keeps each reel's
  offset as a natural number.
- Timer scheduling itself. Callbacks are explicit steps run in the order the delays imply.
  While a reel stop is pending every button is disabled, so no press can come between the
  play step and the reel stops. In a round where all four reels are locked, no reel spins.
  The lock buttons then stay enabled while settlement is pending, and the model admits lock
  presses between `GameOn` and `Settle`, as the page does.
- `Math.random`. Each reel's draw is a parameter in `[0, 10)`.
- The page-load balance and stake read from the page. They are constructor parameters of
  type `int`. The page converts the displayed text with `Number` (`slot.js:29-30`), which can
  yield a fractional value or NaN; the model does not capture those values.
