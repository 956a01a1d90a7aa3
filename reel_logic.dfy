/** Win classification of a spin result. */
module ReelLogic {
  import opened Wrappers

  /** The image ids shown by reels 1, 2 and 3. */
  type Results = r: seq<int> | |r| == 3 witness [0, 0, 0]

  /** A win category; the absence of a win is `None` of `Option<WinType>`. */
  datatype WinType = Max | Small

  /**
   * The first two reels match, so reel 3 runs in slow motion: exactly when
   * some third result would still complete a winning triple.
   */
  predicate ShouldTriggerSlowMotion(reel1Result: int, reel2Result: int): (slowMo: bool)
    ensures slowMo ==> IsWinner([reel1Result, reel2Result, reel2Result])
    ensures !slowMo ==> forall third :: !IsWinner([reel1Result, reel2Result, third])
  {
    reel1Result == reel2Result
  }

  /** All three reels match: every pair of reels shows the same id. */
  predicate IsWinner(results: Results): (win: bool)
    ensures win <==> forall i, j :: 0 <= i < 3 && 0 <= j < 3 ==> results[i] == results[j]
  {
    results[0] == results[1] && results[1] == results[2]
  }

  /** The category of a result: a triple of the max-prize image, another triple, or nothing. */
  function GetWinType(results: Results): (w: Option<WinType>)
    ensures w.None? <==> !IsWinner(results)
    ensures w == Some(Max) <==> results == [0, 0, 0]
    ensures w == Some(Small) <==> results[0] == results[1] == results[2] != 0
  {
    if !IsWinner(results) then None
    else if results[0] == 0 then Some(Max)
    else Some(Small)
  }

  /** Every win has its first two reels matching, so every win passes through the suspense stop. */
  lemma WinTriggersSlowMotion(results: Results)
    requires GetWinType(results).Some?
    ensures ShouldTriggerSlowMotion(results[0], results[1])
  {
  }

  /** The classification of a few fixed results. */
  lemma WinTypeExamples()
    ensures GetWinType([0, 0, 0]) == Some(Max)
    ensures GetWinType([3, 3, 3]) == Some(Small)
    ensures GetWinType([1, 2, 3]) == None
    ensures GetWinType([0, 0, 1]) == None
  {
  }
}
