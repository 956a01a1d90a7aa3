/**
 * The effective max-prize probability and the layered draw of a spin result.
 *
 * Every `Math.random()` call of the source is one element of a draw sequence
 * `r`, consumed in call order: `r[k]` is the value of the k-th call, a real
 * in [0, 1).
 */
module ProbabilityEngine {
  import opened Constants
  import opened Wrappers
  import opened ReelLogic

  /** Fixed chance of a near miss (first two reels equal, third different). */
  const NEAR_MISS_PROBABILITY: real := 0.15

  /** Fixed chance of a small win (a triple of a non-max-prize image). */
  const SMALL_WIN_PROBABILITY: real := 0.05

  /** `Math.min` on exact reals. */
  function MinReal(a: real, b: real): (m: real)
    ensures m <= a && m <= b
    ensures m == a || m == b
  {
    if a <= b then a else b
  }

  /**
   * The max-prize probability of the next spin: the base probability, plus
   * attempts times rate in progressive mode after at least one attempt,
   * capped at MAX_PROBABILITY in every mode.
   */
  function CalculateEffectiveProbability(settings: Settings): (p: real)
    ensures p <= MAX_PROBABILITY
  {
    var effectiveProbability :=
      if settings.progressiveMode && settings.attemptsSinceMaxPrize > 0 then
        settings.trueWinnerProbability
          + settings.attemptsSinceMaxPrize as real * settings.progressiveIncrementRate
      else
        settings.trueWinnerProbability;
    MinReal(effectiveProbability, MAX_PROBABILITY)
  }

  /** Outside progressive growth the effective probability is the capped base. */
  lemma EffectiveProbabilityFlat(settings: Settings)
    requires !settings.progressiveMode || settings.attemptsSinceMaxPrize <= 0
    ensures CalculateEffectiveProbability(settings)
         == MinReal(settings.trueWinnerProbability, MAX_PROBABILITY)
  {
  }

  /** With progressive mode off, the attempt counter has no influence. */
  lemma EffectiveProbabilityIgnoresAttempts(settings: Settings, attempts: int)
    requires !settings.progressiveMode
    ensures CalculateEffectiveProbability(settings.(attemptsSinceMaxPrize := attempts))
         == CalculateEffectiveProbability(settings)
  {
  }

  /** In progressive mode after n > 0 attempts the probability grows by n times the rate, capped. */
  lemma EffectiveProbabilityProgressive(settings: Settings)
    requires settings.progressiveMode && settings.attemptsSinceMaxPrize > 0
    ensures CalculateEffectiveProbability(settings)
         == MinReal(settings.trueWinnerProbability
                      + settings.attemptsSinceMaxPrize as real * settings.progressiveIncrementRate,
                    MAX_PROBABILITY)
  {
  }

  /** With a non-negative rate, more attempts never lower the effective probability. */
  lemma EffectiveProbabilityMonotone(settings: Settings, fewer: int, more: int)
    requires settings.progressiveIncrementRate >= 0.0
    requires fewer <= more
    ensures CalculateEffectiveProbability(settings.(attemptsSinceMaxPrize := fewer))
         <= CalculateEffectiveProbability(settings.(attemptsSinceMaxPrize := more))
  {
    var base := settings.trueWinnerProbability;
    var rate := settings.progressiveIncrementRate;
    var lower := settings.(attemptsSinceMaxPrize := fewer);
    var higher := settings.(attemptsSinceMaxPrize := more);
    if settings.progressiveMode && fewer > 0 {
      EffectiveProbabilityProgressive(lower);
      EffectiveProbabilityProgressive(higher);
      CappedSumMonotone(base, fewer as real, more as real, rate);
    } else if settings.progressiveMode && more > 0 {
      EffectiveProbabilityFlat(lower);
      EffectiveProbabilityProgressive(higher);
      CappedSumMonotone(base, 0.0, more as real, rate);
    } else {
      EffectiveProbabilityFlat(lower);
      EffectiveProbabilityFlat(higher);
    }
  }

  lemma CappedSumMonotone(base: real, fewer: real, more: real, rate: real)
    requires 0.0 <= fewer <= more && 0.0 <= rate
    ensures MinReal(base + fewer * rate, MAX_PROBABILITY) <= MinReal(base + more * rate, MAX_PROBABILITY)
  {
    MulMonotone(fewer, more, rate);
    MinMonotone(base + fewer * rate, base + more * rate, MAX_PROBABILITY);
  }

  lemma MinMonotone(a: real, b: real, c: real)
    requires a <= b
    ensures MinReal(a, c) <= MinReal(b, c)
  {
  }

  lemma MulMonotone(a: real, b: real, c: real)
    requires 0.0 <= a <= b && 0.0 <= c
    ensures 0.0 <= a * c <= b * c
  {
    assert b * c - a * c == (b - a) * c;
  }

  /** The effective probability never reaches 1: the max prize is never certain. */
  lemma EffectiveProbabilityNeverCertain(settings: Settings)
    ensures CalculateEffectiveProbability(settings) < 1.0
  {
  }

  /** A value returned by `Math.random()`. */
  predicate IsDraw(x: real)
  {
    0.0 <= x < 1.0
  }

  predicate ValidDraws(r: seq<real>)
  {
    forall k :: 0 <= k < |r| ==> IsDraw(r[k])
  }

  /** Number of ids from `minId` to the last image id. */
  function IdCount(minId: int): (n: int)
    requires minId < |SLOT_IMAGES|
    ensures n >= 1
  {
    |SLOT_IMAGES| - 1 - minId + 1
  }

  /** A uniformly drawn image id from `minId` up to the last image id. */
  function GetRandomImageId(minId: int, draw: real): (id: int)
    requires minId < |SLOT_IMAGES| && IsDraw(draw)
    ensures minId <= id <= |SLOT_IMAGES| - 1
  {
    var maxId := |SLOT_IMAGES| - 1;
    MulBelow(draw, IdCount(minId) as real);
    (draw * (maxId - minId + 1) as real).Floor + minId
  }

  lemma MulBelow(a: real, b: real)
    requires 0.0 <= a < 1.0 && b > 0.0
    ensures 0.0 <= a * b < b
  {
    assert b - a * b == (1.0 - a) * b;
  }

  /**
   * Each id is returned exactly for the draws in an interval of width
   * 1 / IdCount(minId): the draw is uniform over the ids.
   */
  lemma GetRandomImageIdInterval(minId: int, draw: real, id: int)
    requires minId < |SLOT_IMAGES| && IsDraw(draw)
    ensures GetRandomImageId(minId, draw) == id
        <==> (id - minId) as real / IdCount(minId) as real <= draw
             < (id - minId + 1) as real / IdCount(minId) as real
  {
    var n := IdCount(minId) as real;
    var k := (id - minId) as real;
    var x := draw * n;
    assert x / n == draw;
    DivMonotone(k, x, n);
    DivMonotone(x, k + 1.0, n);
    DivStrict(x, k + 1.0, n);
    DivStrict(k, x, n);
  }

  lemma DivMonotone(a: real, b: real, n: real)
    requires n > 0.0
    ensures a <= b <==> a / n <= b / n
  {
    assert b / n - a / n == (b - a) / n;
  }

  lemma DivStrict(a: real, b: real, n: real)
    requires n > 0.0
    ensures a < b <==> a / n < b / n
  {
    assert b / n - a / n == (b - a) / n;
  }

  /** Every id from `minId` to the last one is reachable. */
  lemma GetRandomImageIdReaches(minId: int, id: int)
    requires minId <= id < |SLOT_IMAGES|
    ensures IsDraw((id - minId) as real / IdCount(minId) as real)
    ensures GetRandomImageId(minId, (id - minId) as real / IdCount(minId) as real) == id
  {
    var n := IdCount(minId) as real;
    var d := (id - minId) as real / n;
    DivStrict((id - minId) as real, n, n);
    DivMonotone(0.0, (id - minId) as real, n);
    GetRandomImageIdInterval(minId, d, id);
    DivStrict((id - minId) as real, (id - minId + 1) as real, n);
  }

  /**
   * The index of the first draw, from `from` on, whose image id differs from
   * `matchId`: where the near-miss redraw loop stops.
   */
  function FirstDifferent(matchId: int, r: seq<real>, from: nat): (j: nat)
    requires ValidDraws(r)
    requires exists k :: from <= k < |r| && GetRandomImageId(0, r[k]) != matchId
    ensures from <= j < |r|
    ensures GetRandomImageId(0, r[j]) != matchId
    ensures forall k :: from <= k < j ==> GetRandomImageId(0, r[k]) == matchId
    decreases |r| - from
  {
    if GetRandomImageId(0, r[from]) != matchId then from
    else FirstDifferent(matchId, r, from + 1)
  }

  /**
   * The draw sequence is long enough for the branch it selects. In the
   * near-miss branch it holds, after the match draw, a draw of a different
   * id, so the redraw loop ends inside it.
   */
  predicate DrawsSuffice(p: real, r: seq<real>)
    requires ValidDraws(r)
  {
    && 1 <= |r|
    && (r[0] >= p ==>
          && 3 <= |r|
          && (r[1] < NEAR_MISS_PROBABILITY ==>
                exists k :: 3 <= k < |r| && GetRandomImageId(0, r[k]) != GetRandomImageId(0, r[2]))
          && (r[1] >= NEAR_MISS_PROBABILITY && r[2] < SMALL_WIN_PROBABILITY ==> 4 <= |r|)
          && (r[1] >= NEAR_MISS_PROBABILITY && r[2] >= SMALL_WIN_PROBABILITY ==> 6 <= |r|))
  }

  /** The plain-loss fix-up: an accidental triple gets its third id moved on by one. */
  function BreakTriple(a: int, b: int, c: int): Results
  {
    if a == b && b == c then [a, b, (c + 1) % |SLOT_IMAGES|] else [a, b, c]
  }

  /** The result the layered decision tree draws from `r` for max-prize probability `p`. */
  function DrawnResults(p: real, r: seq<real>): Results
    requires ValidDraws(r) && DrawsSuffice(p, r)
  {
    if r[0] < p then [0, 0, 0]
    else if r[1] < NEAR_MISS_PROBABILITY then
      var matchImageId := GetRandomImageId(0, r[2]);
      [matchImageId, matchImageId, GetRandomImageId(0, r[FirstDifferent(matchImageId, r, 3)])]
    else if r[2] < SMALL_WIN_PROBABILITY then
      var imageId := GetRandomImageId(1, r[3]);
      [imageId, imageId, imageId]
    else
      BreakTriple(GetRandomImageId(0, r[3]), GetRandomImageId(0, r[4]), GetRandomImageId(0, r[5]))
  }

  /** Draws the three reel results, one `Math.random()` value of `r` per call, in call order. */
  method GenerateReelResults(maxPrizeProbability: real, r: seq<real>) returns (results: Results)
    requires ValidDraws(r) && DrawsSuffice(maxPrizeProbability, r)
    ensures results == DrawnResults(maxPrizeProbability, r)
  {
    var next := 0;
    var shouldWinMaxPrize := r[next] < maxPrizeProbability;
    next := next + 1;
    if shouldWinMaxPrize {
      return [0, 0, 0];
    }

    var createNearMiss := r[next] < NEAR_MISS_PROBABILITY;
    next := next + 1;
    if createNearMiss {
      var matchImageId := GetRandomImageId(0, r[next]);
      next := next + 1;
      var differentImageId := GetRandomImageId(0, r[next]);
      next := next + 1;
      while differentImageId == matchImageId
        invariant 4 <= next <= |r|
        invariant matchImageId == GetRandomImageId(0, r[2])
        invariant differentImageId == GetRandomImageId(0, r[next - 1])
        invariant forall k :: 3 <= k < next - 1 ==> GetRandomImageId(0, r[k]) == matchImageId
        invariant FirstDifferent(matchImageId, r, 3) == FirstDifferent(matchImageId, r, next - 1)
        decreases |r| - next
      {
        differentImageId := GetRandomImageId(0, r[next]);
        next := next + 1;
      }
      return [matchImageId, matchImageId, differentImageId];
    }

    var createSmallWin := r[next] < SMALL_WIN_PROBABILITY;
    next := next + 1;
    if createSmallWin {
      var imageId := GetRandomImageId(1, r[next]);
      return [imageId, imageId, imageId];
    }

    var a := new int[3];
    a[0] := GetRandomImageId(0, r[next]);
    a[1] := GetRandomImageId(0, r[next + 1]);
    a[2] := GetRandomImageId(0, r[next + 2]);
    if a[0] == a[1] && a[1] == a[2] {
      a[2] := (a[2] + 1) % |SLOT_IMAGES|;
    }
    results := a[..];
  }

  /** Every drawn id is an image id. */
  lemma DrawnResultsInRange(p: real, r: seq<real>)
    requires ValidDraws(r) && DrawsSuffice(p, r)
    ensures forall i :: 0 <= i < 3 ==> 0 <= DrawnResults(p, r)[i] < |SLOT_IMAGES|
  {
  }

  /** A first draw below the probability gives the max-prize triple. */
  lemma JackpotBranch(p: real, r: seq<real>)
    requires ValidDraws(r) && DrawsSuffice(p, r)
    requires r[0] < p
    ensures DrawnResults(p, r) == [0, 0, 0]
  {
  }

  /** A probability of at least 1 always gives the max-prize triple. */
  lemma CertainJackpot(p: real, r: seq<real>)
    requires ValidDraws(r) && DrawsSuffice(p, r)
    requires p >= 1.0
    ensures DrawnResults(p, r) == [0, 0, 0]
  {
  }

  /** A near miss shows [m, m, d] with d != m, m from the third draw. */
  lemma NearMissBranch(p: real, r: seq<real>)
    requires ValidDraws(r) && DrawsSuffice(p, r)
    requires r[0] >= p && r[1] < NEAR_MISS_PROBABILITY
    ensures var res := DrawnResults(p, r);
      && res[0] == res[1] == GetRandomImageId(0, r[2])
      && res[2] != res[0]
  {
  }

  /** A small win shows a triple of one id in 1..9, never the max-prize id. */
  lemma SmallWinBranch(p: real, r: seq<real>)
    requires ValidDraws(r) && DrawsSuffice(p, r)
    requires r[0] >= p && r[1] >= NEAR_MISS_PROBABILITY && r[2] < SMALL_WIN_PROBABILITY
    ensures var res := DrawnResults(p, r);
      && res[0] == res[1] == res[2]
      && 1 <= res[0] < |SLOT_IMAGES|
  {
  }

  /** A plain loss never shows three equal ids, and keeps the first two drawn ids. */
  lemma LossBranch(p: real, r: seq<real>)
    requires ValidDraws(r) && DrawsSuffice(p, r)
    requires r[0] >= p && r[1] >= NEAR_MISS_PROBABILITY && r[2] >= SMALL_WIN_PROBABILITY
    ensures var res := DrawnResults(p, r);
      && !IsWinner(res)
      && res[0] == GetRandomImageId(0, r[3])
      && res[1] == GetRandomImageId(0, r[4])
  {
  }

  /**
   * The classification of a drawn result names the branch that drew it:
   * a max prize exactly when the jackpot draw fired, a small win exactly
   * when the small-win draw fired, and no win otherwise.
   */
  lemma WinTypeOfDrawnResults(p: real, r: seq<real>)
    requires ValidDraws(r) && DrawsSuffice(p, r)
    ensures GetWinType(DrawnResults(p, r)) == Some(Max) <==> r[0] < p
    ensures GetWinType(DrawnResults(p, r)) == Some(Small)
        <==> r[0] >= p && r[1] >= NEAR_MISS_PROBABILITY && r[2] < SMALL_WIN_PROBABILITY
  {
    var res := DrawnResults(p, r);
    if r[0] < p {
      JackpotBranch(p, r);
    } else if r[1] < NEAR_MISS_PROBABILITY {
      NearMissBranch(p, r);
    } else if r[2] < SMALL_WIN_PROBABILITY {
      SmallWinBranch(p, r);
    } else {
      LossBranch(p, r);
    }
  }
}
