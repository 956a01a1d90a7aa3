/**
 * The spin sequence: draw the results, start the reels, stop them one by one
 * on a virtual clock (with a slow-motion suspense stop for reel 3 when the
 * first two match), classify the result and update the attempt counter.
 *
 * Each `await sleep` of the source ends one method: `Spin` runs up to the
 * first sleep, `StopReel1`, `StopReel2` and `StopReel3AndResolve` each run
 * one sleep and what follows it, and `RunSpin` runs the whole sequence when
 * nothing happens in between.
 */
module SpinSequencer {
  import opened Wrappers
  import opened Constants
  import opened ReelLogic
  import opened ProbabilityEngine
  import opened SlotMachineContext

  /** Stop time of reel 3 from the start of the spin: later in suspense mode. */
  function Reel3StopTime(results: Results): (t: nat)
    ensures SPIN_DURATIONS.reel2 < t
    ensures t == SPIN_DURATIONS.reel3Suspense <==> results[0] == results[1]
  {
    if ShouldTriggerSlowMotion(results[0], results[1])
    then SPIN_DURATIONS.reel3Suspense
    else SPIN_DURATIONS.reel3Normal
  }

  /** The stop times of reels 1, 2 and 3 for a drawn result. */
  function ReelStopTimes(results: Results): (t: seq<nat>)
    ensures |t| == 3
    ensures t[0] < t[1] < t[2]
  {
    [SPIN_DURATIONS.reel1, SPIN_DURATIONS.reel2, Reel3StopTime(results)]
  }

  /**
   * Reels stop in the order 1, 2, 3, and reel 3 stops at its suspense time
   * exactly when the first two results match.
   */
  lemma StopTimesOrdered(results: Results)
    ensures ReelStopTimes(results)[0] < ReelStopTimes(results)[1] < ReelStopTimes(results)[2]
    ensures ReelStopTimes(results)[2] == SPIN_DURATIONS.reel3Suspense
        <==> results[0] == results[1]
    ensures ReelStopTimes(results)[2] == SPIN_DURATIONS.reel3Normal
        <==> results[0] != results[1]
  {
  }

  /** Every winning spin ends with the suspense stop. */
  lemma WinsEndInSuspense(results: Results)
    requires GetWinType(results).Some?
    ensures ReelStopTimes(results)[2] == SPIN_DURATIONS.reel3Suspense
  {
    WinTriggersSlowMotion(results);
  }

  /** The settings update that ends a spin: reset on a max prize, increment otherwise. */
  function Progressed(s: Settings, win: Option<WinType>): (t: Settings)
    ensures t.trueWinnerProbability == s.trueWinnerProbability
    ensures t.progressiveMode == s.progressiveMode
    ensures t.progressiveIncrementRate == s.progressiveIncrementRate
    ensures t.attemptsSinceMaxPrize == if win == Some(Max) then 0 else s.attemptsSinceMaxPrize + 1
  {
    if win == Some(Max) then Reset(s) else Incremented(s)
  }

  /** The settings after `n` consecutive spins without the max prize. */
  function AfterSpinsWithoutMaxPrize(s: Settings, n: nat): Settings
  {
    if n == 0 then s else Progressed(AfterSpinsWithoutMaxPrize(s, n - 1), None)
  }

  /** A streak of `n` spins without the max prize adds exactly `n` to the counter. */
  lemma {:induction false} StreakCounts(s: Settings, n: nat)
    ensures AfterSpinsWithoutMaxPrize(s, n)
         == s.(attemptsSinceMaxPrize := s.attemptsSinceMaxPrize + n)
  {
    if n > 0 {
      StreakCounts(s, n - 1);
    }
  }

  /**
   * In progressive mode, `n` spins without the max prize after a reset raise
   * the effective probability to the base plus `n` times the rate, capped.
   */
  lemma StreakEscalates(s: Settings, n: nat)
    requires s.progressiveMode
    ensures CalculateEffectiveProbability(AfterSpinsWithoutMaxPrize(Reset(s), n))
         == MinReal(s.trueWinnerProbability + n as real * s.progressiveIncrementRate, MAX_PROBABILITY)
  {
    StreakCounts(Reset(s), n);
  }

  /**
   * Entry of `spin`: a no-op while a spin is in flight; otherwise the results
   * are drawn from the effective probability of the current settings, the win
   * display is cleared and all three reels spin towards their drawn results.
   */
  method Spin(m: Store, draws: seq<real>)
    requires m.Valid() && ValidDraws(draws)
    requires !m.isSpinning ==> DrawsSuffice(CalculateEffectiveProbability(m.settings), draws)
    modifies m`isSpinning, m`winType, m`reelStates, m`pending, m`spinStart
    ensures m.Valid()
    ensures old(m.isSpinning) ==> unchanged(m)
    ensures !old(m.isSpinning) ==>
      var results := DrawnResults(CalculateEffectiveProbability(m.settings), draws);
      && m.pending == AwaitReel1(results)
      && m.isSpinning
      && m.winType == None
      && m.reelStates == [SpinningReel(results[0]), SpinningReel(results[1]), SpinningReel(results[2])]
      && m.spinStart == m.clock
  {
    if m.isSpinning {
      return;
    }
    var effectiveProbability := CalculateEffectiveProbability(m.settings);
    var results := GenerateReelResults(effectiveProbability, draws);
    m.isSpinning := true;
    m.winType := None;
    m.reelStates := [SpinningReel(results[0]), SpinningReel(results[1]), SpinningReel(results[2])];
    m.pending := AwaitReel1(results);
    m.spinStart := m.clock;
  }

  /** After the first sleep, reel 1 stops; nothing else changes. */
  method StopReel1(m: Store)
    requires m.Valid() && m.pending.AwaitReel1?
    modifies m`reelStates, m`pending, m`clock
    ensures m.Valid()
    ensures m.pending == AwaitReel2(old(m.pending).results)
    ensures m.clock == m.spinStart + ReelStopTimes(m.pending.results)[0]
    ensures m.reelStates == old(m.reelStates)[0 := old(m.reelStates)[0].(isSpinning := false)]
  {
    var results := m.pending.results;
    m.clock := m.clock + SPIN_DURATIONS.reel1;
    m.reelStates := [m.reelStates[0].(isSpinning := false), m.reelStates[1], m.reelStates[2]];
    m.pending := AwaitReel2(results);
  }

  /**
   * After the second sleep, reel 2 stops; when the first two results match,
   * reel 3 enters slow motion.
   */
  method StopReel2(m: Store)
    requires m.Valid() && m.pending.AwaitReel2?
    modifies m`reelStates, m`pending, m`clock
    ensures m.Valid()
    ensures var results := old(m.pending).results;
      m.pending == AwaitReel3(results, ShouldTriggerSlowMotion(results[0], results[1]))
    ensures m.clock == m.spinStart + ReelStopTimes(m.pending.results)[1]
    ensures m.reelStates
         == old(m.reelStates)[1 := old(m.reelStates)[1].(isSpinning := false)]
                             [2 := old(m.reelStates)[2].(slowMotion := m.pending.slowMo)]
  {
    var results := m.pending.results;
    m.clock := m.clock + (SPIN_DURATIONS.reel2 - SPIN_DURATIONS.reel1);
    m.reelStates := [m.reelStates[0], m.reelStates[1].(isSpinning := false), m.reelStates[2]];
    var shouldSlowMo := ShouldTriggerSlowMotion(results[0], results[1]);
    if shouldSlowMo {
      m.reelStates := [m.reelStates[0], m.reelStates[1], m.reelStates[2].(slowMotion := true)];
    }
    m.pending := AwaitReel3(results, shouldSlowMo);
  }

  /**
   * After the third sleep, reel 3 stops; the result is published with its win
   * type, the spin ends, and the attempt counter is reset on a max prize and
   * incremented otherwise.
   */
  method StopReel3AndResolve(m: Store)
    requires m.Valid() && m.pending.AwaitReel3?
    modifies m`reelStates, m`pending, m`clock, m`currentResults, m`winType, m`isSpinning,
             m`settings, m`storage
    ensures m.Valid()
    ensures var results := old(m.pending).results;
      && m.clock == m.spinStart + ReelStopTimes(results)[2]
      && m.reelStates == [StoppedReel(results[0]), StoppedReel(results[1]), StoppedReel(results[2])]
      && m.currentResults == [Some(results[0]), Some(results[1]), Some(results[2])]
      && m.winType == GetWinType(results)
      && !m.isSpinning && m.pending == Idle
      && m.settings == Progressed(old(m.settings), GetWinType(results))
  {
    var results := m.pending.results;
    var reel3Duration := if m.pending.slowMo then SPIN_DURATIONS.reel3Suspense else SPIN_DURATIONS.reel3Normal;
    m.clock := m.clock + (reel3Duration - SPIN_DURATIONS.reel2);
    m.reelStates := [m.reelStates[0], m.reelStates[1], m.reelStates[2].(isSpinning := false, slowMotion := false)];

    var winResult := GetWinType(results);
    m.currentResults := [Some(results[0]), Some(results[1]), Some(results[2])];
    m.winType := winResult;
    m.isSpinning := false;
    m.pending := Idle;

    if winResult == Some(Max) {
      m.ResetProgressiveCounter();
    } else {
      m.IncrementProgressiveCounter();
    }
  }

  /**
   * A whole spin with nothing in between its stages: a no-op while a spin is
   * in flight; otherwise it ends with every reel stopped on its drawn result
   * at the stop time for that result, the win type of the result shown, and
   * the attempt counter reset or incremented. The base probability is never
   * changed by a spin.
   */
  method RunSpin(m: Store, draws: seq<real>)
    requires m.Valid() && ValidDraws(draws)
    requires !m.isSpinning ==> DrawsSuffice(CalculateEffectiveProbability(m.settings), draws)
    modifies m
    ensures m.Valid()
    ensures old(m.isSpinning) ==> unchanged(m)
    ensures !old(m.isSpinning) ==>
      var results := DrawnResults(CalculateEffectiveProbability(old(m.settings)), draws);
      && m.reelStates == [StoppedReel(results[0]), StoppedReel(results[1]), StoppedReel(results[2])]
      && m.currentResults == [Some(results[0]), Some(results[1]), Some(results[2])]
      && m.winType == GetWinType(results)
      && !m.isSpinning
      && m.spinStart == old(m.clock)
      && m.clock == old(m.clock) + ReelStopTimes(results)[2]
      && m.settings == Progressed(old(m.settings), GetWinType(results))
      && m.settings.trueWinnerProbability == old(m.settings.trueWinnerProbability)
  {
    if m.isSpinning {
      return;
    }
    Spin(m, draws);
    StopReel1(m);
    StopReel2(m);
    StopReel3AndResolve(m);
  }
}
