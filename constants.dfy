/**
 * The fixed tables of the slot machine: the reel symbols, the reel-stop
 * timeline, the default settings, the probability cap and the slider bounds.
 */
module Constants {

  /** One reel symbol. Id 0 is the max-prize image; the image asset is not modelled. */
  datatype SlotImage = SlotImage(id: nat, name: string)

  const SLOT_IMAGES: seq<SlotImage> := [
    SlotImage(0, "winner_tiago"),
    SlotImage(1, "borges"),
    SlotImage(2, "daniel"),
    SlotImage(3, "david"),
    SlotImage(4, "hugo"),
    SlotImage(5, "joao"),
    SlotImage(6, "melo"),
    SlotImage(7, "picoito"),
    SlotImage(8, "samuel"),
    SlotImage(9, "tomas")
  ]

  /** Cumulative stop times of the reels, in milliseconds from the start of a spin. */
  datatype SpinDurations = SpinDurations(reel1: nat, reel2: nat, reel3Normal: nat, reel3Suspense: nat)

  const SPIN_DURATIONS: SpinDurations := SpinDurations(2000, 3000, 4000, 6000)

  /** Milliseconds per image change of the spinning animation. */
  datatype AnimationSpeeds = AnimationSpeeds(normal: nat, slowMotion: nat)

  const ANIMATION_SPEEDS: AnimationSpeeds := AnimationSpeeds(50, 200)

  /**
   * The persistent game settings. Probabilities are exact reals; the counter
   * is an integer because a stored or edited value is not checked for sign.
   */
  datatype Settings = Settings(
    trueWinnerProbability: real,
    progressiveMode: bool,
    progressiveIncrementRate: real,
    attemptsSinceMaxPrize: int)

  const DEFAULT_SETTINGS: Settings := Settings(0.1, true, 0.02, 0)

  /** The key under which the settings are persisted. */
  const STORAGE_KEY: string := "slotMachineSettings"

  /** Upper cap on the effective max-prize probability. */
  const MAX_PROBABILITY: real := 0.95

  datatype Bounds = Bounds(min: real, max: real)

  /** Range offered by the increment-rate slider. */
  const PROGRESSIVE_INCREMENT_BOUNDS: Bounds := Bounds(0.005, 0.1)

  /** Ten symbols, each carrying its own index as id, with the max prize first. */
  lemma SlotImagesIndexed()
    ensures |SLOT_IMAGES| == 10
    ensures forall i :: 0 <= i < |SLOT_IMAGES| ==> SLOT_IMAGES[i].id == i
    ensures SLOT_IMAGES[0].name == "winner_tiago"
  {
  }

  /** The reels stop in order, and the suspense stop of reel 3 comes after its normal stop. */
  lemma TimelineOrdered()
    ensures 0 < SPIN_DURATIONS.reel1 < SPIN_DURATIONS.reel2
    ensures SPIN_DURATIONS.reel2 < SPIN_DURATIONS.reel3Normal < SPIN_DURATIONS.reel3Suspense
  {
  }

  /** The defaults lie within the cap and the slider range, and the counter starts at zero. */
  lemma DefaultsWithinBounds()
    ensures 0.0 <= DEFAULT_SETTINGS.trueWinnerProbability <= MAX_PROBABILITY
    ensures PROGRESSIVE_INCREMENT_BOUNDS.min <= DEFAULT_SETTINGS.progressiveIncrementRate <= PROGRESSIVE_INCREMENT_BOUNDS.max
    ensures DEFAULT_SETTINGS.attemptsSinceMaxPrize == 0
  {
  }

  /** The cap is a proper probability: the max prize is never certain nor impossible by the cap. */
  lemma MaxProbabilityProper()
    ensures 0.0 < MAX_PROBABILITY < 1.0
  {
  }
}
