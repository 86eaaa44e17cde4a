/** The valuation rule of the widget: from the live price and the power-law
    fair value it derives the support/resistance band, the deviation from
    fair value in percent, one of five statuses and a gauge position on a
    log scale between support and resistance. In the widget this is done
    inline before the layout is built; here it is the single function
    `Evaluate`. */
module Valuation {
  import opened JsMath
  import PowerLaw

  /** Support and resistance as multiples of the fair value. */
  const SupportMult: real := 0.35
  const ResistMult: real := 3.5
  /** The "Fair Value" status covers prices from 0.7 up to (not including) 1.3 times fair value. */
  const FairLow: real := 0.7
  const FairHigh: real := 1.3

  /** The five statuses, in the order of increasing price relative to fair value. */
  datatype Status = DeeplyUndervalued | Undervalued | Fair | AboveFair | Overvalued
  {
    /** Position of the status in that order, 0 for the cheapest. */
    function Rank(): (k: nat)
      ensures k < 5
    {
      match this
      case DeeplyUndervalued => 0
      case Undervalued => 1
      case Fair => 2
      case AboveFair => 3
      case Overvalued => 4
    }
  }

  /** What the widget shows for a status: label, badge emoji and text colour. */
  datatype StatusDisplay = StatusDisplay(text: string, emoji: string, color: string)

  /** The fixed presentation of each status: a seven-character hex colour, and
      the green badge and colour exactly for the two undervalued statuses. */
  function Display(s: Status): (d: StatusDisplay)
    ensures |d.color| == 7 && d.color[0] == '#'
    ensures d.emoji == "\U{1F7E2}" <==> s.Rank() <= 1
    ensures d.color == "#00d395" <==> s.Rank() <= 1
  {
    match s
    case DeeplyUndervalued => StatusDisplay("Deeply Undervalued", "\U{1F7E2}", "#00d395")
    case Undervalued => StatusDisplay("Undervalued", "\U{1F7E2}", "#00d395")
    case Fair => StatusDisplay("Fair Value", "\U{1F535}", "#4da6ff")
    case AboveFair => StatusDisplay("Above Fair", "\U{1F7E0}", "#ff9500")
    case Overvalued => StatusDisplay("Overvalued", "\U{1F534}", "#ff6b6b")
  }

  /** Each status has its own label; only the two undervalued statuses share
      badge and colour, and two statuses share a colour exactly when they share a badge. */
  lemma DisplayDistinguishesStatuses(s: Status, t: Status)
    ensures Display(s).text == Display(t).text <==> s == t
    ensures Display(s).color == Display(t).color <==> s == t || (s.Rank() <= 1 && t.Rank() <= 1)
    ensures Display(s).emoji == Display(t).emoji <==> Display(s).color == Display(t).color
  {
  }

  /** Support and resistance derived from one fair value. */
  datatype Band = Band(support: real, resist: real)

  /** `support = fairValue * SUPPORT_MULT`, `resist = fairValue * RESIST_MULT`:
      resistance is always ten times support, and for a positive fair value
      the band's edges and the "Fair Value" status's edges are strictly ordered. */
  function BandOf(fairValue: real): (b: Band)
    ensures b.resist == 10.0 * b.support
    ensures fairValue > 0.0 ==>
      0.0 < b.support < FairLow * fairValue < fairValue < FairHigh * fairValue < b.resist
  {
    Band(fairValue * SupportMult, fairValue * ResistMult)
  }

  /** `(price - fairValue) / fairValue * 100`: its sign says on which side of
      fair value the price lies, and scaling the fair value by it gives the price back. */
  function Deviation(price: real, fairValue: real): (d: real)
    requires fairValue > 0.0
    ensures d > 0.0 <==> price > fairValue
    ensures d == 0.0 <==> price == fairValue
    ensures d < 0.0 <==> price < fairValue
    ensures fairValue * (1.0 + d / 100.0) == price
  {
    (price - fairValue) / fairValue * 100.0
  }

  /** For a fixed fair value the deviation is strictly increasing in the price. */
  lemma DeviationStrictlyIncreasing(fairValue: real, price: real, higher: real)
    requires fairValue > 0.0 && price < higher
    ensures Deviation(price, fairValue) < Deviation(higher, fairValue)
  {
    var d, d' := Deviation(price, fairValue), Deviation(higher, fairValue);
    assert fairValue * (1.0 + d / 100.0) < fairValue * (1.0 + d' / 100.0);
  }

  /** The four thresholds `getStatus` tests the price against, in the order it tests them. */
  function Cutoffs(fairValue: real, support: real, resist: real): (cuts: seq<real>)
  {
    [support, fairValue * FairLow, fairValue * FairHigh, resist]
  }

  /** `getStatus`: the tests `price < support`, `price < fairValue * 0.7`,
      `price < fairValue * 1.3`, `price < resist` run in this order and the
      first that holds decides. So the status's rank is the index of the first
      threshold strictly above the price (4 if there is none): every earlier
      threshold is at or below the price, and a price exactly on a threshold
      goes on to the next status. */
  function GetStatus(price: real, fairValue: real, support: real, resist: real): (s: Status)
    ensures forall i :: 0 <= i < s.Rank() ==> Cutoffs(fairValue, support, resist)[i] <= price
    ensures s.Rank() < 4 ==> price < Cutoffs(fairValue, support, resist)[s.Rank()]
  {
    if price < support then DeeplyUndervalued
    else if price < fairValue * FairLow then Undervalued
    else if price < fairValue * FairHigh then Fair
    else if price < resist then AboveFair
    else Overvalued
  }

  /** A threshold list in ascending order. */
  ghost predicate Ascending(cuts: seq<real>)
  {
    forall i, j :: 0 <= i < j < |cuts| ==> cuts[i] <= cuts[j]
  }

  /** Independent reference for the status: how many thresholds lie at or below the price. */
  function CountAtOrBelow(price: real, cuts: seq<real>): (n: nat)
    ensures n <= |cuts|
  {
    if cuts == [] then 0
    else (if cuts[0] <= price then 1 else 0) + CountAtOrBelow(price, cuts[1..])
  }

  /** If the first `k` thresholds are at or below the price and the rest above it,
      exactly `k` are counted. */
  lemma {:induction false} CountOfSplit(price: real, cuts: seq<real>, k: nat)
    requires k <= |cuts|
    requires forall i :: 0 <= i < k ==> cuts[i] <= price
    requires forall i :: k <= i < |cuts| ==> price < cuts[i]
    ensures CountAtOrBelow(price, cuts) == k
  {
    if cuts != [] {
      var rest := cuts[1..];
      if k == 0 {
        assert forall i :: 0 <= i < |rest| ==> price < rest[i] by {
          forall i | 0 <= i < |rest| ensures price < rest[i] { assert rest[i] == cuts[i + 1]; }
        }
        CountOfSplit(price, rest, 0);
      } else {
        assert forall i :: 0 <= i < k - 1 ==> rest[i] <= price by {
          forall i | 0 <= i < k - 1 ensures rest[i] <= price { assert rest[i] == cuts[i + 1]; }
        }
        assert forall i :: k - 1 <= i < |rest| ==> price < rest[i] by {
          forall i | k - 1 <= i < |rest| ensures price < rest[i] { assert rest[i] == cuts[i + 1]; }
        }
        CountOfSplit(price, rest, k - 1);
      }
    }
  }

  /** A higher price has at least as many thresholds at or below it. */
  lemma {:induction false} CountMonotoneInPrice(price: real, higher: real, cuts: seq<real>)
    requires price <= higher
    ensures CountAtOrBelow(price, cuts) <= CountAtOrBelow(higher, cuts)
  {
    if cuts != [] {
      CountMonotoneInPrice(price, higher, cuts[1..]);
    }
  }

  /** Raising every threshold can only lower the count at a fixed price. */
  lemma {:induction false} CountAntitoneInCutoffs(price: real, cuts: seq<real>, raised: seq<real>)
    requires |cuts| == |raised|
    requires forall i :: 0 <= i < |cuts| ==> cuts[i] <= raised[i]
    ensures CountAtOrBelow(price, raised) <= CountAtOrBelow(price, cuts)
  {
    if cuts != [] {
      assert forall i :: 0 <= i < |cuts| - 1 ==> cuts[1..][i] <= raised[1..][i] by {
        forall i | 0 <= i < |cuts| - 1 ensures cuts[1..][i] <= raised[1..][i] {
          assert cuts[1..][i] == cuts[i + 1] && raised[1..][i] == raised[i + 1];
        }
      }
      CountAntitoneInCutoffs(price, cuts[1..], raised[1..]);
    }
  }

  /** With ascending thresholds, the first-match rule of `getStatus` agrees with the count. */
  lemma StatusRankIsCount(price: real, fairValue: real, support: real, resist: real)
    requires Ascending(Cutoffs(fairValue, support, resist))
    ensures GetStatus(price, fairValue, support, resist).Rank()
         == CountAtOrBelow(price, Cutoffs(fairValue, support, resist))
  {
    var cuts := Cutoffs(fairValue, support, resist);
    var k := GetStatus(price, fairValue, support, resist).Rank();
    assert forall i :: k <= i < |cuts| ==> price < cuts[i] by {
      forall i | k <= i < |cuts| ensures price < cuts[i] {
        assert cuts[k] <= cuts[i];
      }
    }
    CountOfSplit(price, cuts, k);
  }

  /** With ascending thresholds the status never moves to a cheaper one as the price rises. */
  lemma StatusMonotone(price: real, higher: real, fairValue: real, support: real, resist: real)
    requires Ascending(Cutoffs(fairValue, support, resist)) && price <= higher
    ensures GetStatus(price, fairValue, support, resist).Rank()
         <= GetStatus(higher, fairValue, support, resist).Rank()
  {
    StatusRankIsCount(price, fairValue, support, resist);
    StatusRankIsCount(higher, fairValue, support, resist);
    CountMonotoneInPrice(price, higher, Cutoffs(fairValue, support, resist));
  }

  /** With strictly ascending thresholds, a price exactly on the `i`-th threshold
      gets the status of rank `i + 1`: boundaries belong to the dearer status. */
  lemma ThresholdGoesToDearerStatus(fairValue: real, support: real, resist: real, i: nat)
    requires i < 4
    requires forall j :: 0 <= j < 3 ==> Cutoffs(fairValue, support, resist)[j] < Cutoffs(fairValue, support, resist)[j + 1]
    ensures GetStatus(Cutoffs(fairValue, support, resist)[i], fairValue, support, resist).Rank() == i + 1
  {
    var cuts := Cutoffs(fairValue, support, resist);
    assert cuts[0] < cuts[1] < cuts[2] < cuts[3];
  }

  /** The widget's band makes the thresholds strictly ascending. */
  lemma BandCutoffsAscending(fairValue: real)
    requires fairValue > 0.0
    ensures forall j :: 0 <= j < 3 ==>
      Cutoffs(fairValue, BandOf(fairValue).support, BandOf(fairValue).resist)[j]
        < Cutoffs(fairValue, BandOf(fairValue).support, BandOf(fairValue).resist)[j + 1]
    ensures Ascending(Cutoffs(fairValue, BandOf(fairValue).support, BandOf(fairValue).resist))
  {
  }

  /** Under the widget's band every status is reached by some positive price. */
  lemma EveryStatusReachable(fairValue: real, s: Status)
    requires fairValue > 0.0
    ensures exists price :: (price > 0.0 &&
      GetStatus(price, fairValue, BandOf(fairValue).support, BandOf(fairValue).resist) == s)
  {
    var b := BandOf(fairValue);
    var price := match s
      case DeeplyUndervalued => fairValue * 0.2
      case Undervalued => fairValue * 0.5
      case Fair => fairValue
      case AboveFair => fairValue * 2.0
      case Overvalued => fairValue * 4.0;
    assert price > 0.0 && GetStatus(price, fairValue, b.support, b.resist) == s;
  }

  /** `getGaugePosition`: where the price sits between support and resistance on
      a log scale, clamped to [0,1]. It is never an infinity; it is NaN only in the
      degenerate case where the log of the price, of support and of resistance coincide. */
  function GaugePosition(log10: real -> real, price: real, support: real, resist: real): (g: Num)
    ensures g.NaN? <==> log10(resist) == log10(support) && log10(price) == log10(support)
    ensures !g.NaN? ==> g.Finite? && 0.0 <= g.value <= 1.0
  {
    Clamp01(Divide(log10(price) - log10(support), log10(resist) - log10(support)))
  }

  /** When resistance is above support the gauge's denominator is nonzero and it is always a number. */
  lemma GaugeDefined(log10: real -> real, price: real, support: real, resist: real)
    requires StrictlyIncreasingOnPositives(log10) && 0.0 < support < resist && price > 0.0
    ensures log10(resist) - log10(support) > 0.0
    ensures GaugePosition(log10, price, support, resist).Finite?
  {
  }

  /** Dividing by a positive number keeps order, and takes a numerator at or
      above the divisor to at least 1. */
  lemma DivideByPositive(a: real, b: real, den: real)
    requires den > 0.0 && a <= b
    ensures a / den <= b / den
    ensures a >= den ==> a / den >= 1.0
  {
    assert (b / den - a / den) * den == b - a;
    if a >= den {
      assert (a / den - 1.0) * den == a - den;
    }
  }

  /** The gauge is 0 at or below support and 1 at or above resistance. */
  lemma GaugeEnds(log10: real -> real, price: real, support: real, resist: real)
    requires StrictlyIncreasingOnPositives(log10) && 0.0 < support < resist && price > 0.0
    ensures price <= support ==> GaugePosition(log10, price, support, resist) == Finite(0.0)
    ensures price >= resist ==> GaugePosition(log10, price, support, resist) == Finite(1.0)
  {
    var den := log10(resist) - log10(support);
    var num := log10(price) - log10(support);
    assert den > 0.0;
    if price <= support {
      assert num <= 0.0;
      DivideByPositive(num, 0.0, den);
    }
    if price >= resist {
      assert num >= den;
      DivideByPositive(num, num, den);
    }
  }

  /** Inside the band the gauge is the log-scale position of the price:
      its value times the log width of the band is the log distance of the price above support. */
  lemma GaugeIsLogPosition(log10: real -> real, price: real, support: real, resist: real)
    requires StrictlyIncreasingOnPositives(log10) && 0.0 < support <= price <= resist && support < resist
    ensures GaugePosition(log10, price, support, resist).Finite?
    ensures GaugePosition(log10, price, support, resist).value * (log10(resist) - log10(support))
         == log10(price) - log10(support)
  {
    var den := log10(resist) - log10(support);
    var num := log10(price) - log10(support);
    assert 0.0 < den && 0.0 <= num <= den;
    DivideByPositive(0.0, num, den);
    DivideByPositive(num, den, den);
    assert den / den == 1.0;
    assert 0.0 <= num / den <= 1.0;
    assert Divide(num, den) == Finite(num / den);
  }

  /** The gauge never moves left as the price rises. */
  lemma GaugeMonotone(log10: real -> real, price: real, higher: real, support: real, resist: real)
    requires StrictlyIncreasingOnPositives(log10) && 0.0 < support < resist && 0.0 < price <= higher
    ensures GaugePosition(log10, price, support, resist).value <= GaugePosition(log10, higher, support, resist).value
  {
    var den := log10(resist) - log10(support);
    var num, num' := log10(price) - log10(support), log10(higher) - log10(support);
    assert den > 0.0 && num <= num';
    DivideByPositive(num, num', den);
    ClampMonotone(Divide(num, den), Divide(num', den));
  }

  /** What the widget computes before laying itself out. */
  datatype Valuation = Valuation(
    price: real, fairValue: real, support: real, resist: real,
    deviation: real, status: Status, gauge: Num)

  /** Band, deviation, status and gauge for one price against one fair value.
      The status is fixed by the five half-open price ranges, each closed at its
      lower end; the gauge is a number in [0,1] or NaN. */
  function Evaluate(log10: real -> real, price: real, fairValue: real): (v: Valuation)
    requires fairValue > 0.0
    ensures v.price == price && v.fairValue == fairValue
    ensures 0.0 < v.support < fairValue < v.resist
    ensures v.deviation > 0.0 <==> price > fairValue
    ensures v.deviation == 0.0 <==> price == fairValue
    ensures v.status == DeeplyUndervalued <==> price < SupportMult * fairValue
    ensures v.status == Undervalued <==> SupportMult * fairValue <= price < FairLow * fairValue
    ensures v.status == Fair <==> FairLow * fairValue <= price < FairHigh * fairValue
    ensures v.status == AboveFair <==> FairHigh * fairValue <= price < ResistMult * fairValue
    ensures v.status == Overvalued <==> ResistMult * fairValue <= price
    ensures v.gauge.NaN? || (v.gauge.Finite? && 0.0 <= v.gauge.value <= 1.0)
  {
    var b := BandOf(fairValue);
    Valuation(price, fairValue, b.support, b.resist,
              Deviation(price, fairValue),
              GetStatus(price, fairValue, b.support, b.resist),
              GaugePosition(log10, price, b.support, b.resist))
  }

  /** With a strictly increasing log10 and a positive price, the gauge of an
      evaluation is a number, and it is 0 at or below support and 1 at or above resistance. */
  lemma EvaluateGauge(log10: real -> real, price: real, fairValue: real)
    requires StrictlyIncreasingOnPositives(log10) && price > 0.0 && fairValue > 0.0
    ensures Evaluate(log10, price, fairValue).gauge.Finite?
    ensures price <= SupportMult * fairValue ==> Evaluate(log10, price, fairValue).gauge == Finite(0.0)
    ensures price >= ResistMult * fairValue ==> Evaluate(log10, price, fairValue).gauge == Finite(1.0)
  {
    var b := BandOf(fairValue);
    GaugeDefined(log10, price, b.support, b.resist);
    GaugeEnds(log10, price, b.support, b.resist);
  }

  /** The whole rule at instant `nowMs`: the fair value from the power law, then `Evaluate`. */
  function ValuationAt(log10: real -> real, pow10: real -> real, nowMs: real, price: real): (v: Valuation)
    requires PositiveValued(pow10) && PowerLaw.GenesisMs < nowMs
    ensures v.fairValue > 0.0 && v.price == price
  {
    Evaluate(log10, price, PowerLaw.FairValueAt(log10, pow10, nowMs))
  }

  /** Because the fair value rises over time and every threshold scales with it,
      a price that stays the same can only move to a cheaper status as time passes. */
  lemma StatusCheapensOverTime(log10: real -> real, pow10: real -> real, nowMs: real, laterMs: real, price: real)
    requires StrictlyIncreasingOnPositives(log10) && StrictlyIncreasing(pow10) && PositiveValued(pow10)
    requires PowerLaw.GenesisMs < nowMs < laterMs
    ensures ValuationAt(log10, pow10, laterMs, price).status.Rank()
         <= ValuationAt(log10, pow10, nowMs, price).status.Rank()
  {
    var f := PowerLaw.FairValueAt(log10, pow10, nowMs);
    var f' := PowerLaw.FairValueAt(log10, pow10, laterMs);
    PowerLaw.FairValueRisesOverTime(log10, pow10, nowMs, laterMs);
    var b, b' := BandOf(f), BandOf(f');
    var cuts, cuts' := Cutoffs(f, b.support, b.resist), Cutoffs(f', b'.support, b'.resist);
    BandCutoffsAscending(f);
    BandCutoffsAscending(f');
    StatusRankIsCount(price, f, b.support, b.resist);
    StatusRankIsCount(price, f', b'.support, b'.resist);
    CountAntitoneInCutoffs(price, cuts, cuts');
  }

  /** Three prices against a fair value of 50000: 15000 is below support (17500),
      52000 is 4% above fair value and inside the "Fair Value" range, and
      200000 is above resistance (175000), where the gauge is clamped to 1. */
  lemma WorkedExamples(log10: real -> real)
    requires StrictlyIncreasingOnPositives(log10)
    ensures Evaluate(log10, 15000.0, 50000.0).support == 17500.0
    ensures Evaluate(log10, 15000.0, 50000.0).status == DeeplyUndervalued
    ensures Evaluate(log10, 52000.0, 50000.0).status == Fair
    ensures Evaluate(log10, 52000.0, 50000.0).deviation == 4.0
    ensures Evaluate(log10, 200000.0, 50000.0).resist == 175000.0
    ensures Evaluate(log10, 200000.0, 50000.0).status == Overvalued
    ensures Evaluate(log10, 200000.0, 50000.0).gauge == Finite(1.0)
  {
    EvaluateGauge(log10, 200000.0, 50000.0);
  }
}
