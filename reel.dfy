/**
 * The reel strip: fifty image ids, five full cycles of the ten images,
 * rotated so that the drawn result sits at position 22, and the vertical
 * offset that centres position 22 in the reel window.
 */
module Reel {
  import opened Constants

  /** Index of the strip entry that shows the drawn result. */
  const TARGET_POSITION: nat := 22

  /** Number of image cycles in a strip. */
  const NUM_REPEATS: nat := 5

  /** The rotation applied to every cycle so that TARGET_POSITION holds `finalResult`. */
  function StripOffset(finalResult: int): (offset: int)
    requires 0 <= finalResult < |SLOT_IMAGES|
    ensures 0 <= offset < |SLOT_IMAGES|
    ensures (TARGET_POSITION % |SLOT_IMAGES| + offset) % |SLOT_IMAGES| == finalResult
  {
    var numImages := |SLOT_IMAGES|;
    var naturalImageAtTarget := TARGET_POSITION % numImages;
    (finalResult - naturalImageAtTarget + numImages) % numImages
  }

  /** The strip as a whole: entry k shows the image k positions after the offset, in cycles of ten. */
  function ReelStrip(finalResult: int): (strip: seq<int>)
    requires 0 <= finalResult < |SLOT_IMAGES|
    ensures |strip| == NUM_REPEATS * |SLOT_IMAGES|
  {
    var offset := StripOffset(finalResult);
    seq(NUM_REPEATS * |SLOT_IMAGES|, k => (k % |SLOT_IMAGES| + offset) % |SLOT_IMAGES|)
  }

  /** Builds the strip cycle by cycle, as the reel does when it starts spinning. */
  method BuildStrip(finalResult: int) returns (strip: seq<int>)
    requires 0 <= finalResult < |SLOT_IMAGES|
    ensures strip == ReelStrip(finalResult)
  {
    var numImages := |SLOT_IMAGES|;
    var offset := StripOffset(finalResult);
    strip := [];
    for i := 0 to NUM_REPEATS
      invariant |strip| == i * numImages
      invariant forall k :: 0 <= k < |strip| ==> strip[k] == (k % numImages + offset) % numImages
    {
      for j := 0 to numImages
        invariant |strip| == i * numImages + j
        invariant forall k :: 0 <= k < |strip| ==> strip[k] == (k % numImages + offset) % numImages
      {
        CycleIndex(i, j);
        var imageIndex := (j + offset) % numImages;
        strip := strip + [imageIndex];
      }
    }
  }

  lemma CycleIndex(i: nat, j: nat)
    requires j < 10
    ensures (i * 10 + j) % 10 == j
  {
  }

  /** The drawn result sits at the target position, and every entry is an image id. */
  lemma StripShowsResult(finalResult: int)
    requires 0 <= finalResult < |SLOT_IMAGES|
    ensures ReelStrip(finalResult)[TARGET_POSITION] == finalResult
    ensures forall k :: 0 <= k < |ReelStrip(finalResult)| ==> 0 <= ReelStrip(finalResult)[k] < |SLOT_IMAGES|
  {
  }

  /** The aligned cycle number `cycle` of the strip: entries 10 * cycle up to 10 * cycle + 9. */
  function Cycle(finalResult: int, cycle: nat): (c: seq<int>)
    requires 0 <= finalResult < |SLOT_IMAGES| && cycle < NUM_REPEATS
    ensures |c| == |SLOT_IMAGES|
  {
    ReelStrip(finalResult)[cycle * 10 .. cycle * 10 + 10]
  }

  /** Within a cycle, entry j shows the image j positions after the offset. */
  lemma CycleEntry(finalResult: int, cycle: nat, j: nat)
    requires 0 <= finalResult < |SLOT_IMAGES| && cycle < NUM_REPEATS && j < 10
    ensures Cycle(finalResult, cycle)[j] == (j + StripOffset(finalResult)) % 10
  {
    CycleIndex(cycle, j);
    assert Cycle(finalResult, cycle)[j] == ReelStrip(finalResult)[cycle * 10 + j];
  }

  lemma RotationInjective(a: nat, b: nat, offset: nat)
    requires a < b < 10 && offset < 10
    ensures (a + offset) % 10 != (b + offset) % 10
  {
    if a + offset >= 10 {
      assert (a + offset) % 10 == a + offset - 10;
    }
    if b + offset >= 10 {
      assert (b + offset) % 10 == b + offset - 10;
    }
  }

  /** No image id repeats within an aligned cycle. */
  lemma CycleDistinct(finalResult: int, cycle: nat)
    requires 0 <= finalResult < |SLOT_IMAGES| && cycle < NUM_REPEATS
    ensures forall a, b :: 0 <= a < b < 10 ==> Cycle(finalResult, cycle)[a] != Cycle(finalResult, cycle)[b]
  {
    var offset := StripOffset(finalResult);
    var c := Cycle(finalResult, cycle);
    forall a, b | 0 <= a < b < 10
      ensures c[a] != c[b]
    {
      CycleEntry(finalResult, cycle, a);
      CycleEntry(finalResult, cycle, b);
      RotationInjective(a, b, offset);
    }
  }

  /** Every image id occurs within an aligned cycle. */
  lemma CycleCovers(finalResult: int, cycle: nat)
    requires 0 <= finalResult < |SLOT_IMAGES| && cycle < NUM_REPEATS
    ensures forall id :: 0 <= id < |SLOT_IMAGES| ==> id in Cycle(finalResult, cycle)
  {
    var offset := StripOffset(finalResult);
    var c := Cycle(finalResult, cycle);
    forall id | 0 <= id < |SLOT_IMAGES|
      ensures id in c
    {
      var j := if id >= offset then id - offset else id - offset + 10;
      CycleEntry(finalResult, cycle, j);
      assert (j + offset) % 10 == id by {
        if id >= offset {
          assert j + offset == id;
        } else {
          assert j + offset == id + 10;
        }
      }
      assert c[j] == id;
    }
  }

  /**
   * Each aligned cycle of ten entries is a permutation of the ten image ids:
   * no id repeats within it and every id occurs in it.
   */
  lemma CycleIsPermutation(finalResult: int, cycle: nat)
    requires 0 <= finalResult < |SLOT_IMAGES| && cycle < NUM_REPEATS
    ensures forall a, b :: 0 <= a < b < 10 ==> Cycle(finalResult, cycle)[a] != Cycle(finalResult, cycle)[b]
    ensures forall id :: 0 <= id < |SLOT_IMAGES| ==> id in Cycle(finalResult, cycle)
  {
    CycleDistinct(finalResult, cycle);
    CycleCovers(finalResult, cycle);
  }

  /** Height of one strip image in pixels. */
  function ImageHeight(isMobile: bool): int
  {
    if isMobile then 140 else 180
  }

  /** Distance of the reel window's centre from its top, in pixels. */
  function ViewportCenter(isMobile: bool): int
  {
    if isMobile then 150 else 200
  }

  /** Initial top of the strip, in pixels, set by the stylesheet. */
  function StripInitialTop(isMobile: bool): int
  {
    if isMobile then -2940 else -3760
  }

  /**
   * The translation that lands the strip on its final position: the centre of
   * the image at the target position falls on the window's centre. It is -90
   * pixels on desktop and -60 on mobile.
   */
  function FinalTranslateY(isMobile: bool): (y: int)
    ensures StripInitialTop(isMobile) + y + TARGET_POSITION * ImageHeight(isMobile) + ImageHeight(isMobile) / 2
         == ViewportCenter(isMobile)
    ensures y == if isMobile then -60 else -90
  {
    var imageHeight := ImageHeight(isMobile);
    var targetPosition := ViewportCenter(isMobile) - imageHeight / 2;
    targetPosition - StripInitialTop(isMobile) - TARGET_POSITION * imageHeight
  }
}
