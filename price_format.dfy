/** `formatPrice`: which of its three display formats a dollar amount gets.
    The digits themselves come from `toFixed`, `Math.round` and
    `toLocaleString` and are not modelled. */
module PriceFormat {

  const Thousand: real := 1000.0
  const Million: real := 1000000.0

  /** The three formats, from small amounts to large ones. */
  datatype Format =
    | TwoDecimals   // "$" + price.toFixed(2)
    | Grouped       // "$" + Math.round(price).toLocaleString()
    | Millions      // "$" + (price / 1000000).toFixed(2) + "M"
  {
    function Rank(): (k: nat)
      ensures k < 3
    {
      match this
      case TwoDecimals => 0
      case Grouped => 1
      case Millions => 2
    }
  }

  /** The guards `price >= 1000000` and `price >= 1000` tried in that order:
      each format owns one interval of prices, the three intervals are disjoint
      and together cover every price. */
  function FormatOf(price: real): (f: Format)
    ensures f == Millions <==> Million <= price
    ensures f == Grouped <==> Thousand <= price < Million
    ensures f == TwoDecimals <==> price < Thousand
  {
    if price >= Million then Millions
    else if price >= Thousand then Grouped
    else TwoDecimals
  }

  /** A larger amount never gets a format meant for smaller amounts. */
  lemma FormatMonotone(price: real, higher: real)
    requires price <= higher
    ensures FormatOf(price).Rank() <= FormatOf(higher).Rank()
  {
  }

  /** The amount written before any suffix: millions for the "M" format, the price otherwise. */
  function ShownAmount(price: real): (a: real)
    ensures FormatOf(price) == Millions ==> a * Million == price && a >= 1.0
    ensures FormatOf(price) != Millions ==> a == price
  {
    if FormatOf(price) == Millions then price / Million else price
  }
}
