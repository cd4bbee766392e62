/**
  The delinquency "thermostat": the three-level tag that `eval_data` gives a
  customer from the money the customer's delinquency has cost so far.
*/
module Impact {

  /** The values of the `thermostat` column. */
  datatype Tag = Green | Yellow | Red

  /** The cut-off between a medium and a high impact. It is fixed in the
      classifier; the `threshold` argument of `eval_data` is never read. */
  const Cutoff: real := 75.0

  /** The string stored in the `thermostat` column for a tag. */
  function Name(t: Tag): string {
    match t
    case Green => "green"
    case Yellow => "yellow"
    case Red => "red"
  }

  /** Distinct tags are stored as distinct strings, so counting the column's
      strings counts the tags. */
  lemma NameInjective(t: Tag, u: Tag)
    requires Name(t) == Name(u)
    ensures t == u
  {
  }

  /** The order no impact < medium impact < high impact. */
  function Rank(t: Tag): nat {
    match t
    case Green => 0
    case Yellow => 1
    case Red => 2
  }

  /** `_measure_impact`: green exactly when nothing was lost, red exactly when
      the loss is above the cut-off, yellow for everything else (a negative
      cost included). */
  function MeasureImpact(cost: real): (t: Tag)
    ensures t == Green <==> cost == 0.0
    ensures t == Red <==> cost > Cutoff
    ensures t == Yellow <==> cost != 0.0 && cost <= Cutoff
  {
    if cost == 0.0 then Green
    else if cost <= Cutoff then Yellow
    else Red
  }

  /** Over non-negative costs a larger loss never gives a lower tag. */
  lemma MeasureImpactMonotone(a: real, b: real)
    requires 0.0 <= a <= b
    ensures Rank(MeasureImpact(a)) <= Rank(MeasureImpact(b))
  {
  }

  /** A negative cost is not "no impact": it falls through to yellow. */
  lemma NegativeCostIsYellow(cost: real)
    requires cost < 0.0
    ensures MeasureImpact(cost) == Yellow
  {
  }
}
