/**
 * The shared game state: the persisted settings with their record updaters,
 * and the store that holds the settings, the reel states, the last results
 * and the win type.
 */
module SlotMachineContext {
  import opened Wrappers
  import opened Constants
  import opened ReelLogic
  import ProbabilityEngine

  /**
   * A partial settings object, as stored or as passed to an update: each
   * field is present or absent.
   */
  datatype SettingsPatch = SettingsPatch(
    trueWinnerProbability: Option<real>,
    progressiveMode: Option<bool>,
    progressiveIncrementRate: Option<real>,
    attemptsSinceMaxPrize: Option<int>)

  const EMPTY_PATCH: SettingsPatch := SettingsPatch(None, None, None, None)

  /** `{ ...prev, ...patch }`: the fields present in the patch replace those of `prev`. */
  function Merge(prev: Settings, patch: SettingsPatch): (s: Settings)
    ensures s.trueWinnerProbability
         == if patch.trueWinnerProbability.Some? then patch.trueWinnerProbability.value else prev.trueWinnerProbability
    ensures s.progressiveMode
         == if patch.progressiveMode.Some? then patch.progressiveMode.value else prev.progressiveMode
    ensures s.progressiveIncrementRate
         == if patch.progressiveIncrementRate.Some? then patch.progressiveIncrementRate.value else prev.progressiveIncrementRate
    ensures s.attemptsSinceMaxPrize
         == if patch.attemptsSinceMaxPrize.Some? then patch.attemptsSinceMaxPrize.value else prev.attemptsSinceMaxPrize
  {
    Settings(
      patch.trueWinnerProbability.GetOr(prev.trueWinnerProbability),
      patch.progressiveMode.GetOr(prev.progressiveMode),
      patch.progressiveIncrementRate.GetOr(prev.progressiveIncrementRate),
      patch.attemptsSinceMaxPrize.GetOr(prev.attemptsSinceMaxPrize))
  }

  /** The stored form of a settings record: every field present. */
  function ToPatch(s: Settings): (patch: SettingsPatch)
    ensures forall prev :: Merge(prev, patch) == s
  {
    SettingsPatch(Some(s.trueWinnerProbability), Some(s.progressiveMode),
                  Some(s.progressiveIncrementRate), Some(s.attemptsSinceMaxPrize))
  }

  /**
   * The settings at start-up. `stored` is the parsed storage entry; `None`
   * stands for a missing or empty entry, unparseable text and a storage
   * access that throws.
   */
  function LoadSettings(stored: Option<SettingsPatch>): (s: Settings)
    ensures stored.None? ==> s == DEFAULT_SETTINGS
    ensures stored.Some? ==> s == Merge(DEFAULT_SETTINGS, stored.value)
  {
    match stored
    case None => DEFAULT_SETTINGS
    case Some(parsed) => Merge(DEFAULT_SETTINGS, parsed)
  }

  /** An empty patch changes nothing. */
  lemma MergeEmpty(prev: Settings)
    ensures Merge(prev, EMPTY_PATCH) == prev
  {
  }

  /** Applying the same update twice is applying it once. */
  lemma MergeIdempotent(prev: Settings, patch: SettingsPatch)
    ensures Merge(Merge(prev, patch), patch) == Merge(prev, patch)
  {
  }

  /** Saved settings load back unchanged. */
  lemma LoadSavedSettings(s: Settings)
    ensures LoadSettings(Some(ToPatch(s))) == s
  {
  }

  /** A stored entry without fields loads as the defaults. */
  lemma LoadEmptyEntry()
    ensures LoadSettings(Some(EMPTY_PATCH)) == DEFAULT_SETTINGS
  {
  }

  /** The patch the settings form saves: the three tunable fields, never the counter. */
  function FormPatch(baseProbability: real, progressiveMode: bool, incrementRate: real): (patch: SettingsPatch)
    ensures patch.attemptsSinceMaxPrize.None?
  {
    SettingsPatch(Some(baseProbability), Some(progressiveMode), Some(incrementRate), None)
  }

  /** Saving the settings form keeps the attempt counter and sets the three tuned fields. */
  lemma FormSaveKeepsCounter(prev: Settings, baseProbability: real, progressiveMode: bool, incrementRate: real)
    ensures Merge(prev, FormPatch(baseProbability, progressiveMode, incrementRate))
         == Settings(baseProbability, progressiveMode, incrementRate, prev.attemptsSinceMaxPrize)
  {
  }

  /** The counter updater used after a spin that did not win the max prize. */
  function Incremented(s: Settings): (t: Settings)
    ensures t.attemptsSinceMaxPrize == s.attemptsSinceMaxPrize + 1
    ensures t.(attemptsSinceMaxPrize := s.attemptsSinceMaxPrize) == s
  {
    s.(attemptsSinceMaxPrize := s.attemptsSinceMaxPrize + 1)
  }

  /** The counter updater used after a max-prize win. */
  function Reset(s: Settings): (t: Settings)
    ensures t.attemptsSinceMaxPrize == 0
    ensures t.(attemptsSinceMaxPrize := s.attemptsSinceMaxPrize) == s
  {
    s.(attemptsSinceMaxPrize := 0)
  }

  /**
   * The bonus updater: the base probability grows by `bonus`, capped at
   * MAX_PROBABILITY (the source writes the same value, 0.95, as a literal).
   */
  function WithBonus(s: Settings, bonus: real): (t: Settings)
    ensures t.trueWinnerProbability <= MAX_PROBABILITY
    ensures t.(trueWinnerProbability := s.trueWinnerProbability) == s
  {
    s.(trueWinnerProbability := ProbabilityEngine.MinReal(s.trueWinnerProbability + bonus, MAX_PROBABILITY))
  }

  /** Below the cap, a bonus never lowers the base probability and stays under the cap. */
  lemma BonusRatchets(s: Settings, bonus: real)
    requires bonus >= 0.0 && s.trueWinnerProbability <= MAX_PROBABILITY
    ensures s.trueWinnerProbability <= WithBonus(s, bonus).trueWinnerProbability <= MAX_PROBABILITY
  {
  }

  /**
   * At or above the cap a bonus sets the base probability to the cap, and
   * further bonuses change nothing. Exactly at the cap the first one is
   * already a no-op.
   */
  lemma BonusSaturates(s: Settings, bonus: real)
    requires bonus >= 0.0 && s.trueWinnerProbability >= MAX_PROBABILITY
    ensures WithBonus(s, bonus).trueWinnerProbability == MAX_PROBABILITY
    ensures WithBonus(WithBonus(s, bonus), bonus) == WithBonus(s, bonus)
    ensures s.trueWinnerProbability == MAX_PROBABILITY ==> WithBonus(s, bonus) == s
  {
  }

  /** After a reset the effective probability is the capped base probability. */
  lemma EffectiveProbabilityAfterReset(s: Settings)
    ensures ProbabilityEngine.CalculateEffectiveProbability(Reset(s))
         == ProbabilityEngine.MinReal(s.trueWinnerProbability, MAX_PROBABILITY)
  {
  }

  /** One reel as the store holds it. */
  datatype ReelState = ReelState(isSpinning: bool, slowMotion: bool, result: Option<int>)

  const IDLE_REEL: ReelState := ReelState(false, false, None)

  function SpinningReel(id: int): ReelState
  {
    ReelState(true, false, Some(id))
  }

  function StoppedReel(id: int): ReelState
  {
    ReelState(false, false, Some(id))
  }

  predicate Settled(reel: ReelState)
  {
    !reel.isSpinning && !reel.slowMotion
  }

  /**
   * Where the spin sequence of the current spin is suspended: before the
   * sleep that ends with the stop of reel 1, 2 or 3, holding the results
   * drawn at entry (and, before reel 3, the slow-motion decision).
   */
  datatype Stage =
    | Idle
    | AwaitReel1(results: Results)
    | AwaitReel2(results: Results)
    | AwaitReel3(results: Results, slowMo: bool)

  /**
   * The game state shared by the components. `storage` is the persisted
   * settings entry; `clock` is a virtual clock in milliseconds that only the
   * spin's sleeps and scheduled timeouts advance; `spinStart` is its value
   * when the current spin began.
   */
  class Store {
    var settings: Settings
    var storage: Option<SettingsPatch>
    var isSpinning: bool
    var reelStates: seq<ReelState>
    var currentResults: seq<Option<int>>
    var winType: Option<WinType>
    var pending: Stage
    var clock: nat
    var spinStart: nat
    /** The imported BONUS_INCREMENT, whose value is not part of this model. */
    const bonusIncrement: real

    /**
     * The store invariant: the persisted entry mirrors the settings, a spin
     * is in flight exactly while `isSpinning`, and each stage of a spin has
     * its reels in the state the sequence put them in, with every reel's
     * result equal to the drawn entry.
     */
    ghost predicate Valid()
      reads this
    {
      && |reelStates| == 3
      && |currentResults| == 3
      && bonusIncrement >= 0.0
      && storage == Some(ToPatch(settings))
      && isSpinning == !pending.Idle?
      && spinStart <= clock
      && (!pending.Idle? ==> winType == None)
      && match pending
         case Idle =>
           forall i :: 0 <= i < 3 ==> Settled(reelStates[i])
         case AwaitReel1(res) =>
           && clock == spinStart
           && reelStates == [SpinningReel(res[0]), SpinningReel(res[1]), SpinningReel(res[2])]
         case AwaitReel2(res) =>
           && clock == spinStart + SPIN_DURATIONS.reel1
           && reelStates == [StoppedReel(res[0]), SpinningReel(res[1]), SpinningReel(res[2])]
         case AwaitReel3(res, slowMo) =>
           && clock == spinStart + SPIN_DURATIONS.reel2
           && slowMo == ShouldTriggerSlowMotion(res[0], res[1])
           && reelStates == [StoppedReel(res[0]), StoppedReel(res[1]), ReelState(true, slowMo, Some(res[2]))]
    }

    /** The provider on mount: settings loaded and persisted, nothing spinning, nothing shown. */
    constructor (stored: Option<SettingsPatch>, bonusIncrement: real)
      requires bonusIncrement >= 0.0
      ensures Valid()
      ensures settings == LoadSettings(stored)
      ensures storage == Some(ToPatch(settings))
      ensures !isSpinning
      ensures reelStates == [IDLE_REEL, IDLE_REEL, IDLE_REEL]
      ensures currentResults == [None, None, None]
      ensures winType == None
      ensures pending == Idle && clock == 0 && spinStart == 0
      ensures this.bonusIncrement == bonusIncrement
    {
      settings := LoadSettings(stored);
      storage := Some(ToPatch(LoadSettings(stored)));
      isSpinning := false;
      reelStates := [IDLE_REEL, IDLE_REEL, IDLE_REEL];
      currentResults := [None, None, None];
      winType := None;
      pending := Idle;
      clock := 0;
      spinStart := 0;
      this.bonusIncrement := bonusIncrement;
    }

    /** Settings are replaced field by field from the patch, then persisted. */
    method UpdateSettings(newSettings: SettingsPatch)
      requires Valid()
      modifies this`settings, this`storage
      ensures Valid()
      ensures settings == Merge(old(settings), newSettings)
      ensures storage == Some(ToPatch(settings))
    {
      settings := Merge(settings, newSettings);
      storage := Some(ToPatch(settings));
    }

    method IncrementProgressiveCounter()
      requires Valid()
      modifies this`settings, this`storage
      ensures Valid()
      ensures settings == Incremented(old(settings))
      ensures storage == Some(ToPatch(settings))
    {
      settings := Incremented(settings);
      storage := Some(ToPatch(settings));
    }

    method ResetProgressiveCounter()
      requires Valid()
      modifies this`settings, this`storage
      ensures Valid()
      ensures settings == Reset(old(settings))
      ensures storage == Some(ToPatch(settings))
    {
      settings := Reset(settings);
      storage := Some(ToPatch(settings));
    }

    method AddBonusIncrement()
      requires Valid()
      modifies this`settings, this`storage
      ensures Valid()
      ensures settings == WithBonus(old(settings), bonusIncrement)
      ensures storage == Some(ToPatch(settings))
    {
      settings := WithBonus(settings, bonusIncrement);
      storage := Some(ToPatch(settings));
    }
  }
}
