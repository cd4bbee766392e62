/**
  `generate_mock_data`: builds `num_customers` synthetic customers from random
  draws. The draws are inputs here (one raw value per customer and per
  column); what the function does with them is deterministic.
*/
module MockData {
  import opened Rounding
  import opened Frame

  /** The device prices `random.choice` picks from. */
  const DevicePrices: seq<int> := [800, 1200, 2000, 3000]

  /** Raw random draws, one per customer in each sequence. `delinquencyRoll`
      holds the results of `random.random()`; the other sequences hold raw
      values that `RandInt` and `Choice` reduce into their ranges. */
  datatype Draws = Draws(
    pivotMonth: seq<nat>,
    pivotDay: seq<nat>,
    approvedMonth: seq<nat>,
    approvedDay: seq<nat>,
    delinquencyRoll: seq<real>,
    delinquentDays: seq<nat>,
    deviceChoice: seq<nat>)
  {
    /** There is a draw for each of `n` customers in every sequence. */
    predicate Covers(n: int) {
      && n <= |pivotMonth| && n <= |pivotDay|
      && n <= |approvedMonth| && n <= |approvedDay|
      && n <= |delinquencyRoll| && n <= |delinquentDays| && n <= |deviceChoice|
    }
  }

  /** `random.randint(lo, hi)`: a value in the closed range [lo, hi]. */
  function RandInt(lo: int, hi: int, raw: nat): (r: int)
    requires lo <= hi
    ensures lo <= r <= hi
  {
    lo + raw % (hi - lo + 1)
  }

  /** Every value of the range is drawn by some raw value. */
  lemma RandIntReachesRange(lo: int, hi: int, v: int)
    requires lo <= v <= hi
    ensures RandInt(lo, hi, v - lo) == v
  {
  }

  /** `random.choice(xs)`: one of the elements of a non-empty list. */
  function Choice<T>(xs: seq<T>, raw: nat): (r: T)
    requires |xs| > 0
    ensures r in xs
  {
    xs[raw % |xs|]
  }

  /** `range(num_customers)` is empty for a negative count. */
  function RowCount(n: int): nat {
    if n < 0 then 0 else n
  }

  /** `pivot_dates`: month and day each drawn with `randint`. */
  function PivotDates(count: nat, draws: Draws): (dates: seq<DateStamp>)
    requires draws.Covers(count)
    ensures |dates| == count
    ensures forall i :: 0 <= i < count ==>
      dates[i].year == 2024 && 1 <= dates[i].month <= 12 && 1 <= dates[i].day <= 31
  {
    seq(count, i requires 0 <= i < count =>
      DateStamp(2024, RandInt(1, 12, draws.pivotMonth[i]), RandInt(1, 31, draws.pivotDay[i])))
  }

  /** `approved_dates`: month and day drawn no lower than the pivot's. */
  function ApprovedDates(pivots: seq<DateStamp>, draws: Draws): (dates: seq<DateStamp>)
    requires draws.Covers(|pivots|)
    requires forall i :: 0 <= i < |pivots| ==> pivots[i].month <= 12 && pivots[i].day <= 31
    ensures |dates| == |pivots|
    ensures forall i :: 0 <= i < |pivots| ==>
      && dates[i].year == 2024
      && pivots[i].month <= dates[i].month <= 12
      && pivots[i].day <= dates[i].day <= 31
  {
    seq(|pivots|, i requires 0 <= i < |pivots| =>
      DateStamp(2024, RandInt(pivots[i].month, 12, draws.approvedMonth[i]),
                      RandInt(pivots[i].day, 31, draws.approvedDay[i])))
  }

  /** `days_delinquent`: a draw in [0, 65] multiplied by the 0/1 flag
      `random.random() > 0.75`. */
  function DaysDelinquent(count: nat, draws: Draws): (days: seq<int>)
    requires draws.Covers(count)
    ensures |days| == count
    ensures forall i :: 0 <= i < count ==>
      && 0 <= days[i] <= 65
      && (draws.delinquencyRoll[i] <= 0.75 ==> days[i] == 0)
      && (draws.delinquencyRoll[i] > 0.75 ==> days[i] == RandInt(0, 65, draws.delinquentDays[i]))
  {
    var probs := seq(count, i requires 0 <= i < count =>
      if draws.delinquencyRoll[i] > 0.75 then 1 else 0);
    var drawn := seq(count, i requires 0 <= i < count => RandInt(0, 65, draws.delinquentDays[i]));
    seq(count, i requires 0 <= i < count => probs[i] * drawn[i])
  }

  /** `device_values`: each chosen from the price list. */
  function DeviceValues(count: nat, draws: Draws): (values: seq<int>)
    requires draws.Covers(count)
    ensures |values| == count
    ensures forall i :: 0 <= i < count ==> values[i] in DevicePrices
  {
    seq(count, i requires 0 <= i < count => Choice(DevicePrices, draws.deviceChoice[i]))
  }

  /** The table `generate_mock_data(num_customers)` builds from the draws;
      the count defaults to 20 as in the source. */
  function GenerateMockData(draws: Draws, n: int := 20): (rows: seq<Customer>)
    requires draws.Covers(n)
    ensures |rows| == RowCount(n)
    ensures forall i :: 0 <= i < |rows| ==> rows[i].customerId == i + 1
    ensures forall i :: 0 <= i < |rows| ==>
      && rows[i].pivotDate.year == 2024 && rows[i].approvedAt.year == 2024
      && 1 <= rows[i].pivotDate.month <= rows[i].approvedAt.month <= 12
      && 1 <= rows[i].pivotDate.day <= rows[i].approvedAt.day <= 31
    ensures forall i :: 0 <= i < |rows| ==>
      && 0 <= rows[i].daysDelinquent <= 65
      && (draws.delinquencyRoll[i] <= 0.75 ==> rows[i].daysDelinquent == 0)
      && (draws.delinquencyRoll[i] > 0.75 ==> rows[i].daysDelinquent == RandInt(0, 65, draws.delinquentDays[i]))
    ensures forall i :: 0 <= i < |rows| ==>
      && rows[i].deviceValue in DevicePrices
      && rows[i].monthlyRecurrRevenue == Round2(rows[i].deviceValue as real / 12.0)
  {
    var count := RowCount(n);
    var pivotDates := PivotDates(count, draws);
    var customerIds := seq(count, i => i + 1);
    var approvedDates := ApprovedDates(pivotDates, draws);
    var daysDelinquent := DaysDelinquent(count, draws);
    var deviceValues := DeviceValues(count, draws);
    var monthlyRecurrRevenue := seq(count, i requires 0 <= i < count => Round2(deviceValues[i] as real / 12.0));
    seq(count, i requires 0 <= i < count =>
      Customer(pivotDates[i], customerIds[i], approvedDates[i],
               daysDelinquent[i], monthlyRecurrRevenue[i], deviceValues[i]))
  }

  /** Called without a count, `generate_mock_data` builds 20 customers. */
  lemma DefaultCount(draws: Draws)
    requires draws.Covers(20)
    ensures |GenerateMockData(draws)| == 20
  {
  }

  /** Customer ids are strictly increasing, hence unique. */
  lemma GeneratedIdsIncreasing(n: int, draws: Draws, i: int, j: int)
    requires draws.Covers(n)
    requires 0 <= i < j < RowCount(n)
    ensures GenerateMockData(draws, n)[i].customerId < GenerateMockData(draws, n)[j].customerId
  {
  }

  /** The monthly revenue of each device price, `round(price / 12, 2)`. */
  function MonthlyRevenueOfPrice(price: int): real {
    if price == 800 then 66.67
    else if price == 1200 then 100.0
    else if price == 2000 then 166.67
    else 250.0
  }

  lemma MonthlyRevenueOfPriceCorrect(price: int)
    requires price in DevicePrices
    ensures Round2(price as real / 12.0) == MonthlyRevenueOfPrice(price)
  {
  }

  /** Every generated customer pays one of four monthly amounts. */
  lemma GeneratedRevenueValues(n: int, draws: Draws, i: int)
    requires draws.Covers(n)
    requires 0 <= i < RowCount(n)
    ensures GenerateMockData(draws, n)[i].monthlyRecurrRevenue in [66.67, 100.0, 166.67, 250.0]
  {
  }
}
