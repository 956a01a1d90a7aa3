# Slot machine outcome engine, spin sequencer and settings store

A Dafny model of the logic behind a three-reel browser slot machine:

- the win classification of a result triple (`ReelLogic`);
- the effective max-prize probability and the layered random draw
  of a result (`ProbabilityEngine`);
- the persisted settings record, its updaters and the shared game state
  (`SlotMachineContext`);
- the spin sequence that starts the reels, stops them one after another on
  a timeline, runs reel 3 in slow motion after a matching pair, classifies
  the result and updates the attempt counter (`SpinSequencer`);
- the auto-replay after a dismissed small win and the spin button
  (`SlotMachineView`);
- the 50-entry reel strip and its final pixel offset (`Reel`);
- the constant tables they depend on (`Constants`).

Each call of `Math.random()` is an element of a draw sequence, a real in
[0, 1), consumed in call order. A spin's result is then a function of the
effective probability and the draws (`DrawnResults`), and
`GenerateReelResults` is proved to compute it with the source's own redraw
loop and in-place fix-up. Probabilities are exact reals. Each `await sleep`
of the spin ends one method (`Spin`, `StopReel1`, `StopReel2`,
`StopReel3AndResolve`) and advances a virtual millisecond clock. The
store's invariant `Store.Valid` fixes what the reels look like at every
stage of a spin. `BONUS_INCREMENT` is imported by
`src/context/SlotMachineContext.jsx` but not defined in
`src/utils/constants.js`, so the store takes it as a non-negative
constructor parameter.

What the code does, as the model states it:

- the effective probability is capped at 0.95 in every mode, including
  with progressive mode off;
- the small-win chance is the fixed 0.05, and `MAX_PROBABILITY` is the
  only cap on the max-prize probability;
- a spin never raises the base probability. The spin sequence does not call
  `addBonusIncrement`, so a small win only increments the counter, although
  the small-win display promises "+1% Jackpot Probability!"
  (src/components/WinnerDisplay.jsx:48);
- a base probability of 1.0 does not force the max prize. The effective
  probability stays at most 0.95 (`EffectiveProbabilityNeverCertain`), so a
  first draw of 0.95 or more misses it.

## Model

| member | source | states |
|---|---|---|
| `Constants.SlotImagesIndexed` | src/utils/constants.js:13-25 | ten symbols, each with its index as id; index 0 is the max-prize image |
| `Constants.TimelineOrdered` | src/utils/constants.js:27-33 | reel-1 < reel-2 < reel-3-normal < reel-3-suspense stop times |
| `Constants.DefaultsWithinBounds` | src/utils/constants.js:41-59 | default base probability 0.1 is at most the cap, default rate 0.02 lies in [0.005, 0.1], counter starts at 0 |
| `Constants.MaxProbabilityProper` | src/utils/constants.js:52-53 | the cap lies strictly between 0 and 1 |
| `ReelLogic.ShouldTriggerSlowMotion` | src/utils/reelLogic.js:8-10 | true exactly when the first two ids match, that is, when some third id would still complete a winning triple |
| `ReelLogic.IsWinner` | src/utils/reelLogic.js:18-21 | true exactly when every pair of the three reels shows the same id |
| `ReelLogic.GetWinType` | src/utils/reelLogic.js:18-39 | no win iff not all three equal; max iff all three are 0; small iff all three equal and non-zero |
| `ReelLogic.WinTriggersSlowMotion` | src/utils/reelLogic.js:8-21 | every winning triple has matching first two reels, so it triggers slow motion |
| `ReelLogic.WinTypeExamples` | src/utils/reelLogic.js:32-39 | [0,0,0] is max, [3,3,3] small, [1,2,3] and [0,0,1] no win |
| `ProbabilityEngine.MinReal` | src/utils/probabilityEngine.js:30 | the result is one of the two arguments and at most both |
| `ProbabilityEngine.CalculateEffectiveProbability` | src/utils/probabilityEngine.js:14-31 | the effective probability never exceeds 0.95 |
| `ProbabilityEngine.EffectiveProbabilityFlat` | src/utils/probabilityEngine.js:22-30 | progressive mode off or a counter of at most 0: min(base, 0.95) |
| `ProbabilityEngine.EffectiveProbabilityIgnoresAttempts` | src/utils/probabilityEngine.js:22-26 | with progressive mode off the counter has no influence |
| `ProbabilityEngine.EffectiveProbabilityProgressive` | src/utils/probabilityEngine.js:24-30 | progressive mode with n > 0 attempts: min(base + n * rate, 0.95) |
| `ProbabilityEngine.EffectiveProbabilityMonotone` | src/utils/probabilityEngine.js:24-30 | with a non-negative rate, a larger counter (of any sign) never lowers the effective probability |
| `ProbabilityEngine.EffectiveProbabilityNeverCertain` | src/utils/probabilityEngine.js:29-30 | the effective probability is below 1 for all settings |
| `ProbabilityEngine.GetRandomImageId` | src/utils/probabilityEngine.js:93-96 | for a draw in [0,1) the id lies in [minId, 9] |
| `ProbabilityEngine.GetRandomImageIdInterval` | src/utils/probabilityEngine.js:93-96 | an id is returned exactly for draws in its interval of width 1/(10 - minId) |
| `ProbabilityEngine.GetRandomImageIdReaches` | src/utils/probabilityEngine.js:93-96 | every id in [minId, 9] is returned for some draw |
| `ProbabilityEngine.FirstDifferent` | src/utils/probabilityEngine.js:54-58 | the redraw stops at the first later draw whose id differs from the match id, and all draws before it matched |
| `ProbabilityEngine.GenerateReelResults` | src/utils/probabilityEngine.js:39-85 | the loop and in-place fix-up compute exactly `DrawnResults` of the probability and the draws |
| `ProbabilityEngine.DrawnResultsInRange` | src/utils/probabilityEngine.js:39-85 | every drawn entry is in 0..9 |
| `ProbabilityEngine.JackpotBranch` | src/utils/probabilityEngine.js:40-45 | a first draw below the probability gives [0,0,0] |
| `ProbabilityEngine.CertainJackpot` | src/utils/probabilityEngine.js:40-45 | a probability of at least 1 always gives [0,0,0] |
| `ProbabilityEngine.NearMissBranch` | src/utils/probabilityEngine.js:48-61 | the near-miss branch gives [m, m, d] with d != m |
| `ProbabilityEngine.SmallWinBranch` | src/utils/probabilityEngine.js:64-70 | the small-win branch gives [s, s, s] with s in 1..9 |
| `ProbabilityEngine.LossBranch` | src/utils/probabilityEngine.js:73-84 | the loss branch never gives three equal ids and keeps the first two drawn ids |
| `ProbabilityEngine.WinTypeOfDrawnResults` | src/utils/probabilityEngine.js:39-85 | the win type is max iff the jackpot draw fired, small iff the small-win draw fired, none otherwise |
| `SlotMachineContext.Merge` | src/context/SlotMachineContext.jsx:66-68 | each field present in the patch is overwritten, every other field is kept |
| `SlotMachineContext.ToPatch` | src/context/SlotMachineContext.jsx:26-32 | the saved entry holds every field, so merging it over anything gives the saved settings |
| `SlotMachineContext.LoadSettings` | src/context/SlotMachineContext.jsx:9-21 | no usable entry gives the defaults; a stored entry is merged over the defaults |
| `SlotMachineContext.MergeEmpty` | src/context/SlotMachineContext.jsx:66-68 | an empty update changes nothing |
| `SlotMachineContext.MergeIdempotent` | src/context/SlotMachineContext.jsx:66-68 | applying an update twice equals applying it once |
| `SlotMachineContext.LoadSavedSettings` | src/context/SlotMachineContext.jsx:9-32 | saved settings load back unchanged |
| `SlotMachineContext.LoadEmptyEntry` | src/context/SlotMachineContext.jsx:12-15 | an entry without fields loads as the defaults |
| `SlotMachineContext.FormPatch` | src/components/SettingsModal.jsx:45-50 | the settings form never sends the attempt counter |
| `SlotMachineContext.FormSaveKeepsCounter` | src/components/SettingsModal.jsx:45-50 | saving the form sets the three tuned fields and keeps the counter |
| `SlotMachineContext.Incremented` | src/context/SlotMachineContext.jsx:71-76 | the counter grows by 1 and nothing else changes |
| `SlotMachineContext.Reset` | src/context/SlotMachineContext.jsx:79-84 | the counter becomes 0 and nothing else changes |
| `SlotMachineContext.WithBonus` | src/context/SlotMachineContext.jsx:87-92 | the base probability ends at most 0.95 and no other field changes |
| `SlotMachineContext.BonusRatchets` | src/context/SlotMachineContext.jsx:87-92 | from at most 0.95, a non-negative bonus never lowers the base and keeps it at most 0.95 |
| `SlotMachineContext.BonusSaturates` | src/context/SlotMachineContext.jsx:87-92 | from at least 0.95 the base becomes 0.95 and further bonuses change nothing; at exactly 0.95 the bonus is a no-op |
| `SlotMachineContext.EffectiveProbabilityAfterReset` | src/context/SlotMachineContext.jsx:79-84 | after a reset the effective probability is min(base, 0.95) |
| `SlotMachineContext.Store.constructor` | src/context/SlotMachineContext.jsx:34-63 | settings loaded and persisted; not spinning, three idle reels, results [null, null, null], no win type |
| `SlotMachineContext.Store.UpdateSettings` | src/context/SlotMachineContext.jsx:61-68 | settings become the merge of the old settings and the patch; the persisted copy equals them; nothing else changes |
| `SlotMachineContext.Store.IncrementProgressiveCounter` | src/context/SlotMachineContext.jsx:70-76 | only the counter changes, by +1; persisted copy updated |
| `SlotMachineContext.Store.ResetProgressiveCounter` | src/context/SlotMachineContext.jsx:78-84 | only the counter changes, to 0; persisted copy updated |
| `SlotMachineContext.Store.AddBonusIncrement` | src/context/SlotMachineContext.jsx:86-92 | only the base probability changes, to min(p + bonus, 0.95); persisted copy updated |
| `SpinSequencer.Reel3StopTime` | src/hooks/useSlotMachine.js:79-81 | reel 3 stops after reel 2, at the suspense time exactly when the first two results match |
| `SpinSequencer.ReelStopTimes` | src/hooks/useSlotMachine.js:51-83 | three stop times, strictly increasing from reel 1 to reel 3 |
| `SpinSequencer.StopTimesOrdered` | src/hooks/useSlotMachine.js:51-83 | reels stop in the order 1, 2, 3; reel 3 stops at the suspense time iff results[0] == results[1], else at the normal time |
| `SpinSequencer.WinsEndInSuspense` | src/hooks/useSlotMachine.js:67-83 | every winning result ends with the suspense stop |
| `SpinSequencer.Progressed` | src/hooks/useSlotMachine.js:98-104 | after a max prize the counter is 0, otherwise +1; the base, mode and rate are unchanged |
| `SpinSequencer.StreakCounts` | src/hooks/useSlotMachine.js:98-104 | n spins without the max prize add exactly n to the counter |
| `SpinSequencer.StreakEscalates` | src/hooks/useSlotMachine.js:98-104 | in progressive mode, n spins without the max prize after a reset give min(base + n * rate, 0.95) |
| `SpinSequencer.Spin` | src/hooks/useSlotMachine.js:33-48 | a no-op while spinning; otherwise results drawn once from the current effective probability, spinning set, win type cleared, all reels spinning without slow motion towards their drawn result |
| `SpinSequencer.StopReel1` | src/hooks/useSlotMachine.js:51-56 | at 2000 ms only reel 1 stops |
| `SpinSequencer.StopReel2` | src/hooks/useSlotMachine.js:59-75 | at 3000 ms only reel 2 stops, and reel 3 enters slow motion iff the first two results match |
| `SpinSequencer.StopReel3AndResolve` | src/hooks/useSlotMachine.js:78-104 | reel 3 stops at 4000 or 6000 ms; all reels settled, results published, win type classified, spinning cleared, counter reset on max else incremented |
| `SpinSequencer.RunSpin` | src/hooks/useSlotMachine.js:31-105 | a whole spin: reels settled on the drawn results, win type of the results, clock advanced by the reel-3 stop time, counter updated, base probability unchanged |
| `SlotMachineView.SpinButtonDisabled` | src/components/SlotMachine.jsx:86 | the button is disabled exactly while a spin is in flight |
| `SlotMachineView.HandleDismissWinner` | src/components/SlotMachine.jsx:34-43 | win type becomes null; an auto-spin is scheduled iff the dismissed type was small and no spin is in flight |
| `SlotMachineView.DismissWinner` | src/components/SlotMachine.jsx:34-43 | a scheduled auto-spin starts 100 ms later; otherwise only the win type is cleared; the published results never change |
| `Reel.StripOffset` | src/components/Reel.jsx:24-31 | the offset is in 0..9 and puts the final result at position 22 |
| `Reel.BuildStrip` | src/components/Reel.jsx:33-40 | the nested loops build exactly `ReelStrip`: 50 entries, entry k is (k % 10 + offset) % 10 |
| `Reel.StripShowsResult` | src/components/Reel.jsx:24-40 | position 22 of the strip holds the final result and every entry is in 0..9 |
| `Reel.CycleDistinct` | src/components/Reel.jsx:33-40 | the ten entries of an aligned cycle are pairwise distinct |
| `Reel.CycleCovers` | src/components/Reel.jsx:33-40 | every image id occurs in each aligned cycle |
| `Reel.CycleIsPermutation` | src/components/Reel.jsx:33-40 | each aligned cycle of ten entries holds every id exactly once |
| `Reel.FinalTranslateY` | src/components/Reel.jsx:60-67 | the image at position 22 is centred in the window; the offset is -90 px on desktop and -60 px on mobile |

## Left out

- Audio (sound effects, background music, mute) and the Zeus bonus flag: playback is I/O, and the spin sequence neither sets the flag nor plays a cue.
- Storage internals: `localStorage` and JSON parsing are reduced to an optional parsed entry, where absence stands for a missing or empty entry, a parse failure and a throwing read. A stored field of the wrong JSON type is not modelled.
- Failed storage writes: the logged and ignored write failure of `saveSettings` is not modelled, so the persisted copy always equals the settings.
- Real timers and React scheduling: sleeps and the 100 ms timeout are steps of a virtual clock. State batching is not modelled. A `spin` closure that reads a stale `isSpinning` is not modelled either: the guard is atomic, and the timeout's spin runs in the same step as its delay.
- The 50 ms transition delay, DOM and CSS work, and the `matchMedia` query of the reel: only the pixel arithmetic is kept, with `isMobile` as a parameter.
- Statistics: no frequency is proved. Uniformity shows only as the equal width of each id's draw interval (`GetRandomImageIdInterval`).
- An endless redraw: the source redraws until a different id appears, which happens with probability 1. The model asks that the supplied draws contain such a draw (`DrawsSuffice`).
- Floating point: probabilities are exact reals, so the rounding of JavaScript doubles (as in 0.1 + 3 * 0.02) is not modelled.
- Reel.BuildStrip: requires a final result in 0..9. The strip is built only while its reel spins, and `spin` always gives a spinning reel a drawn result, so the `null` result of an idle reel never reaches it.
- Display formatting and layout components: the percentage strings, the settings form's draft state, the modal visibility, the win-display confetti, the orientation warnings, and the reel's animation class names.
- `ANIMATION_SPEEDS`: it is declared in src/utils/constants.js:36-39 but no file reads it, so the model keeps it only as a constant.
- The context hook's error when it is used outside the provider.
