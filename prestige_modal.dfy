/**
 * The figures the prestige dialog shows (components/PrestigeModal.tsx) and when its reset
 * button is enabled. The preview must match what the reset then does.
 */
module PrestigeModal {
  import opened GameTypes
  import opened Economy
  import opened Reducer

  /** `potentialCurrency`: the shards a reset would grant now, floor(cbrt(total / 1000)). */
  function PotentialCurrency(s: GameState): (g: int)
    ensures (Cube(g) as real) <= s.totalResourcesGenerated / 1000.0 < (Cube(g + 1) as real)
    ensures g > 0 <==> s.totalResourcesGenerated >= 1000.0
    ensures s.totalResourcesGenerated >= 0.0 ==> g >= 0
  {
    GainSign(s.totalResourcesGenerated);
    PrestigeGain(s.totalResourcesGenerated)
  }

  lemma GainSign(total: real)
    ensures PrestigeGain(total) > 0 <==> total >= 1000.0
    ensures total >= 0.0 ==> PrestigeGain(total) >= 0
  {
    PrestigeGainPositiveIff(total);
    if total >= 0.0 {
      PrestigeGainNonNegative(total);
    }
  }

  /** `currentBonus`: the multiplier's surplus over 1, in percent; ten percent per shard held. */
  function CurrentBonus(s: GameState): (r: real)
    ensures MultiplierInvariant(s) ==> r == s.prestigeCurrency * 10.0
  {
    (s.prestigeMultiplier - 1.0) * 100.0
  }

  /** `newMultiplier`: one plus a tenth per shard, counting the shards held and the ones on offer. */
  function NewMultiplier(s: GameState): (r: real)
    ensures r == MultiplierFor(s.prestigeCurrency + PotentialCurrency(s) as real)
    ensures MultiplierInvariant(s) && s.totalResourcesGenerated >= 0.0 ==> r >= s.prestigeMultiplier
  {
    1.0 + (s.prestigeCurrency + PotentialCurrency(s) as real) * 0.1
  }

  /** `newBonus`: the new multiplier's surplus over 1, in percent. */
  function NewBonus(s: GameState): (r: real)
    ensures r == (s.prestigeCurrency + PotentialCurrency(s) as real) * 10.0
  {
    (NewMultiplier(s) - 1.0) * 100.0
  }

  /** The reset button is enabled when at least one shard is on offer: from 1000 lifetime resources on. */
  predicate ResetEnabled(s: GameState) {
    !(PotentialCurrency(s) <= 0)
  }

  lemma ResetEnabledIff(s: GameState)
    ensures ResetEnabled(s) <==> s.totalResourcesGenerated >= 1000.0
  {
  }

  /** The preview is honest: PRESTIGE with the offered gain yields exactly the shards and multiplier shown. */
  lemma PreviewMatchesPrestige(s: GameState, theme: string, resource: string, now: int)
    ensures var t := Step(s, Prestige(theme, resource, PotentialCurrency(s) as real), now);
      t.prestigeMultiplier == NewMultiplier(s) &&
      t.prestigeCurrency == s.prestigeCurrency + PotentialCurrency(s) as real &&
      CurrentBonus(t) == NewBonus(s)
  {
    var t := Step(s, Prestige(theme, resource, PotentialCurrency(s) as real), now);
    assert MultiplierInvariant(t);
  }

  /** With the multiplier in step with the shards and a non-negative lifetime total, the preview never shows a loss. */
  lemma {:induction false} BonusNeverDrops(s: GameState)
    requires MultiplierInvariant(s) && s.totalResourcesGenerated >= 0.0
    ensures NewBonus(s) >= CurrentBonus(s)
    ensures ResetEnabled(s) ==> NewBonus(s) >= CurrentBonus(s) + 10.0
  {
    var g := PotentialCurrency(s);
    assert g >= 0;
    assert NewBonus(s) - CurrentBonus(s) == g as real * 10.0;
  }

  /** With a million produced the dialog offers ten shards, a bonus of 100 percent from a fresh start. */
  lemma AMillionOffersTen(s: GameState)
    requires s.totalResourcesGenerated == 1000000.0 && s.prestigeCurrency == 0.0
    ensures PotentialCurrency(s) == 10 && NewMultiplier(s) == 2.0 && NewBonus(s) == 100.0
  {
    PrestigeGainOfAMillion();
  }
}
