/**
  `eval_data`: adds `daily_recurrent_revenue`, `cost_to_fragile` and
  `thermostat` to the caller's table, in place, one column after the other.
*/
module Evaluate {
  import opened Rounding
  import opened Impact
  import opened Frame

  /** `round(mrr / 31, 2)`: the revenue of one day of a 31-day month. */
  function DailyRevenue(mrr: real): (d: real)
    ensures -0.005 <= d - mrr / 31.0 <= 0.005
    ensures mrr >= 0.0 ==> d >= 0.0
    ensures (d * 100.0).Floor as real == d * 100.0
    ensures (d - mrr / 31.0) * 100.0 == 0.5 || (mrr / 31.0 - d) * 100.0 == 0.5 ==> (d * 100.0).Floor % 2 == 0
  {
    Round2(mrr / 31.0)
  }

  /** The row after the assignment of the `daily_recurrent_revenue` column. */
  function WithDaily(r: Row): Row {
    r.(dailyRecurrentRevenue := Some(DailyRevenue(r.base.monthlyRecurrRevenue)))
  }

  /** The row after the assignment of the `cost_to_fragile` column, which
      reads the daily revenue column. */
  function WithCost(r: Row): Row
    requires r.dailyRecurrentRevenue.Some?
  {
    r.(costToFragile := Some(r.dailyRecurrentRevenue.value * r.base.daysDelinquent as real))
  }

  /** The row after the assignment of the `thermostat` column, which reads
      the cost column. */
  function WithThermostat(r: Row): Row
    requires r.costToFragile.Some?
  {
    r.(thermostat := Some(MeasureImpact(r.costToFragile.value)))
  }

  /** A row as `eval_data` leaves it. */
  function Evaluated(r: Row): Row {
    WithThermostat(WithCost(WithDaily(r)))
  }

  /** What `eval_data` promises of every row it returns: the base columns are
      those it was given, daily revenue is the rounded monthly revenue over 31,
      cost is daily revenue times days delinquent, and the tag classifies that
      cost. Any derived columns the row already had are overwritten. */
  ghost predicate IsEvaluationOf(e: Row, r: Row) {
    && e.base == r.base
    && e.dailyRecurrentRevenue == Some(Round2(r.base.monthlyRecurrRevenue / 31.0))
    && e.costToFragile.Some?
    && e.costToFragile.value == e.dailyRecurrentRevenue.value * r.base.daysDelinquent as real
    && e.thermostat == Some(MeasureImpact(e.costToFragile.value))
  }

  lemma EvaluatedMeetsContract(r: Row)
    ensures IsEvaluationOf(Evaluated(r), r)
  {
  }

  /** The contract determines the row completely. */
  lemma EvaluationIsUnique(e: Row, r: Row)
    requires IsEvaluationOf(e, r)
    ensures e == Evaluated(r)
  {
    var d := WithDaily(r);
    var c := WithCost(d);
    var v := WithThermostat(c);
    assert d.base == r.base;
    assert d.dailyRecurrentRevenue.value == DailyRevenue(r.base.monthlyRecurrRevenue);
    assert c.costToFragile.value == d.dailyRecurrentRevenue.value * d.base.daysDelinquent as real;
    assert e.costToFragile.value == c.costToFragile.value;
    assert e == Row(v.base, v.dailyRecurrentRevenue, v.costToFragile, v.thermostat);
  }

  /** Evaluating an evaluated table again changes nothing. */
  lemma EvaluatedIdempotent(r: Row)
    ensures Evaluated(Evaluated(r)) == Evaluated(r)
  {
    EvaluatedMeetsContract(Evaluated(r));
    EvaluationIsUnique(Evaluated(r), Evaluated(r));
  }

  /** A customer is tagged green exactly when they are not delinquent or
      their daily revenue rounds to zero. */
  lemma EvaluatedGreenIff(r: Row)
    ensures Evaluated(r).thermostat == Some(Green)
        <==> r.base.daysDelinquent == 0 || DailyRevenue(r.base.monthlyRecurrRevenue) == 0.0
  {
  }

  /** A monthly revenue of 100.00 and 30 days delinquent: 3.23 a day, 96.90
      lost, red. */
  lemma ExampleRed(r: Row)
    requires r.base.monthlyRecurrRevenue == 100.0 && r.base.daysDelinquent == 30
    ensures Evaluated(r).dailyRecurrentRevenue == Some(3.23)
    ensures Evaluated(r).costToFragile == Some(96.9)
    ensures Evaluated(r).thermostat == Some(Red)
  {
  }

  /** A monthly revenue of 100.00 and no days delinquent: nothing lost, green. */
  lemma ExampleGreen(r: Row)
    requires r.base.monthlyRecurrRevenue == 100.0 && r.base.daysDelinquent == 0
    ensures Evaluated(r).costToFragile == Some(0.0)
    ensures Evaluated(r).thermostat == Some(Green)
  {
  }

  /** A monthly revenue of 66.67 and 10 days delinquent: 2.15 a day, 21.50
      lost, yellow. */
  lemma ExampleYellow(r: Row)
    requires r.base.monthlyRecurrRevenue == 66.67 && r.base.daysDelinquent == 10
    ensures Evaluated(r).dailyRecurrentRevenue == Some(2.15)
    ensures Evaluated(r).costToFragile == Some(21.5)
    ensures Evaluated(r).thermostat == Some(Yellow)
  {
  }

  /** `eval_data(data, threshold)`: three column assignments, each applied to
      every row; the row count and the row order are kept and nothing but
      the three derived columns changes. `threshold` is not read. */
  method EvalData(data: array<Row>, threshold: int := 90)
    modifies data
    ensures forall i :: 0 <= i < data.Length ==> data[i] == Evaluated(old(data[i]))
    ensures forall i :: 0 <= i < data.Length ==> IsEvaluationOf(data[i], old(data[i]))
  {
    // daily_recurrent_revenue
    var i := 0;
    while i < data.Length
      invariant 0 <= i <= data.Length
      invariant forall k :: 0 <= k < i ==> data[k] == WithDaily(old(data[k]))
      invariant forall k :: i <= k < data.Length ==> data[k] == old(data[k])
    {
      data[i] := WithDaily(data[i]);
      i := i + 1;
    }
    // cost_to_fragile
    i := 0;
    while i < data.Length
      invariant 0 <= i <= data.Length
      invariant forall k :: 0 <= k < i ==> data[k] == WithCost(WithDaily(old(data[k])))
      invariant forall k :: i <= k < data.Length ==> data[k] == WithDaily(old(data[k]))
    {
      data[i] := WithCost(data[i]);
      i := i + 1;
    }
    // thermostat
    i := 0;
    while i < data.Length
      invariant 0 <= i <= data.Length
      invariant forall k :: 0 <= k < i ==> data[k] == Evaluated(old(data[k]))
      invariant forall k :: i <= k < data.Length ==> data[k] == WithCost(WithDaily(old(data[k])))
    {
      data[i] := WithThermostat(data[i]);
      i := i + 1;
    }
    forall k | 0 <= k < data.Length
      ensures IsEvaluationOf(data[k], old(data[k]))
    {
      EvaluatedMeetsContract(old(data[k]));
    }
  }
}
