/** The power-law fair value: elapsed days since the genesis block, and the
    log-log regression `10^(A + B * log10(days))` evaluated at that age.
    The wall clock is a parameter (`nowMs`, milliseconds since the Unix
    epoch); `Math.log10` and `Math.pow(10, _)` are the parameters `log10`
    and `pow10`, about which the lemmas state what they assume. */
module PowerLaw {
  import opened JsMath

  /** 2009-01-03T18:15:05Z, the genesis block's timestamp, in milliseconds. */
  const GenesisMs: real := 1231006505000.0
  /** 1000 * 60 * 60 * 24 */
  const MsPerDay: real := 86400000.0
  /** Intercept and slope of the regression line in log-log space. */
  const PowerLawA: real := -17.01
  const PowerLawB: real := 5.82

  /** Days elapsed since genesis at the instant `nowMs`: positive exactly
      after genesis, and converting back to milliseconds gives `nowMs` again. */
  function DaysSinceGenesis(nowMs: real): (days: real)
    ensures days > 0.0 <==> nowMs > GenesisMs
    ensures GenesisMs + days * MsPerDay == nowMs
  {
    (nowMs - GenesisMs) / MsPerDay
  }

  /** Later instants are more days after genesis. */
  lemma DaysIncrease(nowMs: real, laterMs: real)
    requires nowMs < laterMs
    ensures DaysSinceGenesis(nowMs) < DaysSinceGenesis(laterMs)
  {
  }

  /** `Math.pow(10, PL_A + PL_B * Math.log10(days))`. For a positive number of
      days it is a power of ten, hence positive, and the model is a straight
      line in log-log space: `log10(fair) == A + B * log10(days)`. */
  function PowerLawPrice(log10: real -> real, pow10: real -> real, days: real): (fair: real)
    ensures days > 0.0 && PositiveValued(pow10) ==> fair > 0.0
    ensures days > 0.0 && LogUndoesPow(log10, pow10) ==> log10(fair) == PowerLawA + PowerLawB * log10(days)
  {
    pow10(PowerLawA + PowerLawB * log10(days))
  }

  /** With a positive slope the fair value strictly grows with age. */
  lemma PowerLawIncreasing(log10: real -> real, pow10: real -> real, days: real, later: real)
    requires StrictlyIncreasingOnPositives(log10) && StrictlyIncreasing(pow10)
    requires 0.0 < days < later
    ensures PowerLawPrice(log10, pow10, days) < PowerLawPrice(log10, pow10, later)
  {
  }

  /** The fair value at the instant `nowMs`, as the widget computes it from the clock.
      Only instants after genesis are meaningful: at genesis `Math.log10(0)` is
      -Infinity and the fair value 0, before it the result is NaN. */
  function FairValueAt(log10: real -> real, pow10: real -> real, nowMs: real): (fair: real)
    requires PositiveValued(pow10) && GenesisMs < nowMs
    ensures fair > 0.0
  {
    PowerLawPrice(log10, pow10, DaysSinceGenesis(nowMs))
  }

  /** After genesis, the fair value only rises as time passes. */
  lemma FairValueRisesOverTime(log10: real -> real, pow10: real -> real, nowMs: real, laterMs: real)
    requires StrictlyIncreasingOnPositives(log10) && StrictlyIncreasing(pow10) && PositiveValued(pow10)
    requires GenesisMs < nowMs < laterMs
    ensures FairValueAt(log10, pow10, nowMs) < FairValueAt(log10, pow10, laterMs)
  {
    PowerLawIncreasing(log10, pow10, DaysSinceGenesis(nowMs), DaysSinceGenesis(laterMs));
  }
}
