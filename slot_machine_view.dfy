/** The slot machine screen: the spin button and the dismissal of the win display. */
module SlotMachineView {
  import opened Wrappers
  import opened ReelLogic
  import opened ProbabilityEngine
  import opened SlotMachineContext
  import opened SpinSequencer

  /** Delay, in milliseconds, between dismissing a small win and the automatic spin. */
  const AUTO_SPIN_DELAY: nat := 100

  /** The spin button is disabled exactly while a spin is in flight. */
  function SpinButtonDisabled(m: Store): (disabled: bool)
    reads m
    requires m.Valid()
    ensures disabled <==> !m.pending.Idle?
  {
    m.isSpinning
  }

  /**
   * Dismissing the win display clears the win type, and reports whether an
   * automatic spin is scheduled: only after a small win, and only when no
   * spin is in flight.
   */
  method HandleDismissWinner(m: Store) returns (autoSpin: bool)
    requires m.Valid()
    modifies m`winType
    ensures m.Valid()
    ensures m.winType == None
    ensures autoSpin <==> old(m.winType) == Some(Small) && !m.isSpinning
  {
    var wasBonus := m.winType == Some(Small);
    m.winType := None;
    autoSpin := wasBonus && !m.isSpinning;
  }

  /**
   * Dismissal followed by its scheduled timeout: when an automatic spin is
   * scheduled, the clock advances by AUTO_SPIN_DELAY and a spin starts,
   * drawing from `draws`; otherwise only the win type is cleared.
   */
  method DismissWinner(m: Store, draws: seq<real>) returns (autoSpin: bool)
    requires m.Valid() && ValidDraws(draws)
    requires !m.isSpinning ==> DrawsSuffice(CalculateEffectiveProbability(m.settings), draws)
    modifies m`winType, m`clock, m`isSpinning, m`reelStates, m`pending, m`spinStart
    ensures m.Valid()
    ensures autoSpin <==> old(m.winType) == Some(Small) && !old(m.isSpinning)
    ensures !autoSpin ==>
      && m.winType == None
      && m.clock == old(m.clock)
      && m.spinStart == old(m.spinStart)
      && m.isSpinning == old(m.isSpinning)
      && m.pending == old(m.pending)
      && m.reelStates == old(m.reelStates)
      && m.settings == old(m.settings)
    ensures autoSpin ==>
      var results := DrawnResults(CalculateEffectiveProbability(old(m.settings)), draws);
      && m.pending == AwaitReel1(results)
      && m.spinStart == m.clock == old(m.clock) + AUTO_SPIN_DELAY
      && m.winType == None
      && m.settings == old(m.settings)
  {
    autoSpin := HandleDismissWinner(m);
    if autoSpin {
      m.clock := m.clock + AUTO_SPIN_DELAY;
      Spin(m, draws);
    }
  }
}
