# chick-n-spin: a Dafny model of the wheel round and the game store

chick-n-spin is a browser wheel-betting game. This project models two parts of it:

- **The roulette component.** Its fixed table of 20 weighted sectors, the bet map with its increment and reset, and the `spinning`/`result` state that one spin moves through. It also models the resolver that the animation's completion callback runs. The resolver turns the final wheel rotation into the label under the top pointer, in three steps:
  - it brings the angle into [0, 360) with `((x % 360) + 360) % 360`;
  - it takes the complement `(360 - n) % 360`;
  - it indexes the table with `floor(pin / 18)`.
- **The game store.** It holds the score (initially 100) and the betting history. The history is a newest-first log of at most 50 records, and each record is stamped with the clock reading when it is added.

Modules:

- `Wrappers` (`wrappers.dfy`): `Option`, which models a TypeScript `T | null`.
- `Wheel` (`wheel.dfy`): the sector table and the resolver, as pure functions over exact `real` degrees. JavaScript's `%` is written out as a truncated remainder (`Rem360`, whose sign follows the dividend), so negative rotations behave as they do in the browser. The resolver is proved against an independent reference, the floored remainder of the negated angle. The index is proved to be in range, so no clamp is needed and none is added.
- `Roulette` (`roulette.dfy`): the class `RouletteGame`, whose fields are `bets`, `spinning`, `result`, `rotation` (the motion value) and `target` (the `end` angle the pending animation captured). `Spin` takes the two draws of `Math.random()` as parameters. `Complete` is the `onComplete` callback.
- `GameStore` (`game_store.dfy`): the class `Store`, with `score` and `history`. It uses the pure helper `Prepend`, which models prepend-then-`slice(0, 50)`. `Date.now()` is the parameter `now`.

Where the design description and the code differ, the model follows the code:

- The index is not clamped. The model proves it is always in [0, 19].
- `spin` does not check whether any bet was placed.
- Bets are neither locked nor cleared during or after a spin.
- Payouts, streak bonuses, balance checks and the growth log do not appear in the modelled files, so they are not modelled.

## Model

| member | source | states |
|---|---|---|
| `Wheel.SectorTable` | src/components/Roulette.tsx:7-39 | the table has `sectorCount` = 20 entries, the sector angle is 360/20 = 18, and every sector's label is one of the five bet keys |
| `Wheel.SectorWeights` | src/components/Roulette.tsx:7-28 | the weighting by repetition: the labels 1, 3, 5, 10 and 20 occur 8, 6, 3, 2 and 1 times, and no other label occurs |
| `Wheel.Trunc` | src/components/Roulette.tsx:123-124 | rounding toward zero, the quotient JavaScript's `%` uses: within 1 of x, on the side of 0 |
| `Wheel.Rem360` | src/components/Roulette.tsx:123-124 | JavaScript `x % 360`: the result has the sign of x, has magnitude below 360, and differs from x by whole turns |
| `Wheel.Normalize` | src/components/Roulette.tsx:123 | `((x % 360) + 360) % 360` lies in [0, 360) for every x, negative ones included, and differs from x by whole turns |
| `Wheel.PinAngle` | src/components/Roulette.tsx:124 | for a normalized angle n, `(360 - n) % 360` lies in [0, 360) and is the complement of n (0 when n is 0, otherwise 360 - n) |
| `Wheel.SectorIndex` | src/components/Roulette.tsx:125 | `floor(pin / 18)` is the i with 18i <= pin < 18(i+1), and it is in [0, 20) whenever pin is in [0, 360) |
| `Wheel.ResolveIndex` | src/components/Roulette.tsx:123-125 | for every final angle, the computed index is in [0, sectorCount - 1] without a clamp, and the pin angle lies in that sector's half-open range |
| `Wheel.Resolve` | src/components/Roulette.tsx:123-126 | the label stored as the result is always a key of the bet map |
| `Wheel.NormalizeIsFloorMod` | src/components/Roulette.tsx:123 | the normalization equals the mathematical floored remainder x - 360*floor(x/360) |
| `Wheel.PinAngleIsFloorModOfNegation` | src/components/Roulette.tsx:123-124 | the pin angle of a final rotation is the floored remainder of its negation |
| `Wheel.ResolveMatchesReference` | src/components/Roulette.tsx:123-126 | the resolved index and label agree with the reference floor(((-end) mod 360) / 18) |
| `Wheel.ResolvePeriodic` | src/components/Roulette.tsx:123-126 | the final angles end and end + 360k resolve to the same index and the same label, for every integer k |
| `Wheel.SectorIndexIff` | src/components/Roulette.tsx:125 | a pin angle resolves to index i exactly when 18i <= pin < 18(i+1), in both directions |
| `Wheel.EdgeBelongsToNextSector` | src/components/Roulette.tsx:125 | a pin angle exactly 18i resolves to sector i, and one just below it resolves to sector i - 1, so ranges are lower-inclusive |
| `Wheel.EdgeUnderPointerResolves` | src/components/Roulette.tsx:123-126 | stopping at 360k - 18i, with the starting edge of sector i under the pointer, yields index i and label `sectors[i]` |
| `Roulette.FullSpins` | src/components/Roulette.tsx:114 | `6 + floor(random * 3)` is 6, 7 or 8 |
| `Roulette.RandomOffset` | src/components/Roulette.tsx:115 | `random * 180` lies in [0, 180) |
| `Roulette.SpinEnd` | src/components/Roulette.tsx:113-116 | the final angle lies between start + 6*360 and start + 8*360 + 180, the upper bound excluded |
| `Roulette.FullSpinsCover` | src/components/Roulette.tsx:114 | the draw gives n full spins exactly when it lies in [(n-6)/3, (n-5)/3), so each of 6, 7 and 8 takes a third of the range |
| `Roulette.SpinOutcomeIgnoresFullSpins` | src/components/Roulette.tsx:113-126 | the resolved label depends only on the start angle and the random offset, never on the number of full spins |
| `Roulette.RouletteGame.constructor` | src/components/Roulette.tsx:42-51 | initially not spinning, no result, rotation 0, all five bet keys at 0 |
| `Roulette.RouletteGame.HandleBet` | src/components/Roulette.tsx:53-58 | `bets[value]` rises by exactly 1; every other key and the key set are unchanged |
| `Roulette.RouletteGame.ResetBets` | src/components/Roulette.tsx:60-68 | all five keys are 0 afterwards, whatever was bet before |
| `Roulette.RouletteGame.Spin` | src/components/Roulette.tsx:108-116 | while spinning, nothing changes; otherwise `spinning` becomes true, `result` becomes null, and the final angle is fixed at least 6 turns past the current rotation |
| `Roulette.RouletteGame.Complete` | src/components/Roulette.tsx:121-126 | `spinning` becomes false, the wheel rests at the final angle, and `result` becomes `sectors[index]` of the resolved index |
| `Roulette.PlayRound` | src/components/Roulette.tsx:108-128 | a spin followed by its completion leaves the bets untouched; a second spin during the round is ignored; the result is the label resolved from the start plus the offset, and is a bet key |
| `GameStore.Stamp` | src/store/useGameStore.ts:27-30 | the stored record carries the given timestamp, and dropping it gives back the caller's record unchanged |
| `GameStore.Prepend` | src/store/useGameStore.ts:26-32 | the new entry is first; the rest is a prefix of the old history in its old order; the length grows by 1 below 50 and stays 50 at the cap, never exceeding 50 |
| `GameStore.PrependBelowLimit` | src/store/useGameStore.ts:26-32 | with fewer than 50 entries nothing is dropped: new[i+1] == old[i] for every old index |
| `GameStore.PrependAtLimit` | src/store/useGameStore.ts:32 | with 50 entries the oldest (last) entry alone is dropped, and the other 49 follow the new one in order |
| `GameStore.AddKeepsNewestFirst` | src/store/useGameStore.ts:26-31 | if the clock does not run backwards, adding a record keeps the history ordered newest first |
| `GameStore.ReplayKeepsNewest` | src/store/useGameStore.ts:24-33 | after any sequence of additions the history is the newest 50 of all records, newest first: eviction is first in, first out |
| `GameStore.Store.constructor` | src/store/useGameStore.ts:20-22 | initial state: score 100 and an empty history |
| `GameStore.Store.SetScore` | src/store/useGameStore.ts:23 | the score becomes the given value and the history is unchanged |
| `GameStore.Store.AddHistory` | src/store/useGameStore.ts:24-33 | the history becomes the stamped record prepended and capped at 50, its first entry carries the timestamp `now`, and the score is unchanged |
| `GameStore.Store.ClearHistory` | src/store/useGameStore.ts:34 | the history is empty and the score is unchanged |

`Valid()` on `RouletteGame` says three things:
- the bet map's keys are exactly the five labels;
- `spinning` implies no result;
- a result, when there is one, is a bet key.

`Valid()` on `Store` says the history has at most 50 entries. Every method keeps its class's invariant.

## Left out

- The framer-motion animation is left out: the tween from start to end, its easing, its 10-second duration and the per-frame updates of the motion value (src/components/Roulette.tsx:44, 98-106, 118-121). The model keeps only the motion value's resting position, which `Spin` reads and `Complete` sets to the final angle.
- The pin-shake listener that detects tick crossings is left out (src/components/Roulette.tsx:70-106). It is visual feedback and never touches the game state.
- `Math.random()` is left out. Its two draws are the parameters `u1` and `u2` of `Spin`, each in [0, 1).
- IEEE double arithmetic is left out. Angles are exact reals, so float rounding near 360 degrees is not captured.
- Integers are left out. Scores, bet counts, amounts and timestamps are unbounded integers rather than JavaScript numbers.
- The conic-gradient and colour strings and the label positioning are left out, because they are presentation (src/components/Roulette.tsx:30-36, 131-193).
- Zustand's reactivity and React's batching of state updates are left out. Each modelled method applies its updates at once, in the order the handler issues them. `Date.now()` is the parameter `now`.
- Roulette.RouletteGame.HandleBet requires one of the five keys. Its only caller, the bet panel, offers just those buttons (src/components/BatPanel.tsx:13, 48-51). The `NaN` entry that an unknown key would create in JavaScript is not modelled.
- Roulette.RouletteGame.Complete requires `spinning`. The completion callback exists only for an accepted spin, and the model has no animation object that could complete twice.
- GameStore.AddKeepsNewestFirst takes the clock's monotonicity as a hypothesis. `Date.now()` itself makes no such promise.
- Bet-panel and history rendering, navigation, layout, routing and build configuration are left out, because they are presentation with no game state.
- Payouts, streak multipliers, balance deduction and refunds, the insufficient-balance and no-bets checks, bet locking during a spin and the growth log are left out. They are described for the game but are not done by any modelled code.
