/**
  Properties of the data flow generate -> evaluate: what the thermostat says
  about customers built by `generate_mock_data`.
*/
module Pipeline {
  import opened Impact
  import opened Frame
  import opened Evaluate
  import opened MockData
  import opened PieChart

  /** The daily revenue of each device price, `round(round(price / 12, 2) / 31, 2)`. */
  function DailyRevenueOfPrice(price: int): real {
    if price == 800 then 2.15
    else if price == 1200 then 3.23
    else if price == 2000 then 5.38
    else 8.06
  }

  lemma DailyRevenueOfPriceCorrect(price: int)
    requires price in DevicePrices
    ensures DailyRevenue(Rounding.Round2(price as real / 12.0)) == DailyRevenueOfPrice(price)
  {
  }

  /** Every generated customer has a positive daily revenue, so a generated
      customer is green exactly when they are not delinquent. */
  lemma GeneratedGreenIff(n: int, draws: Draws, i: int)
    requires draws.Covers(n)
    requires 0 <= i < RowCount(n)
    ensures Evaluated(Table(GenerateMockData(draws, n))[i]).thermostat == Some(Green)
        <==> GenerateMockData(draws, n)[i].daysDelinquent == 0
  {
    var c := GenerateMockData(draws, n)[i];
    var row := Table(GenerateMockData(draws, n))[i];
    assert row.base == c;
    DailyRevenueOfPriceCorrect(c.deviceValue);
    EvaluatedGreenIff(row);
  }

  /** A customer whose delinquency roll did not exceed 0.75 is green. */
  lemma NotDelinquentIsGreen(n: int, draws: Draws, i: int)
    requires draws.Covers(n)
    requires 0 <= i < RowCount(n)
    requires draws.delinquencyRoll[i] <= 0.75
    ensures Evaluated(Table(GenerateMockData(draws, n))[i]).thermostat == Some(Green)
  {
    GeneratedGreenIff(n, draws, i);
  }

  /** The evaluated table of `generate_mock_data(n)`. */
  function EvaluatedMockData(n: int, draws: Draws): (rows: seq<Row>)
    requires draws.Covers(n)
    ensures |rows| == RowCount(n)
    ensures forall i :: 0 <= i < |rows| ==> rows[i].thermostat.Some?
    ensures forall i :: 0 <= i < |rows| ==> rows[i].base == GenerateMockData(draws, n)[i]
    ensures forall i :: 0 <= i < |rows| ==> IsEvaluationOf(rows[i], Table(GenerateMockData(draws, n))[i])
  {
    var table := Table(GenerateMockData(draws, n));
    forall i | 0 <= i < |table| ensures IsEvaluationOf(Evaluated(table[i]), table[i]) {
      EvaluatedMeetsContract(table[i]);
    }
    seq(|table|, i requires 0 <= i < |table| => Evaluated(table[i]))
  }

  /** The green-iff fact of GeneratedGreenIff, about the same table whose pie
      GeneratedPieTotal sizes. */
  lemma EvaluatedMockDataGreenIff(n: int, draws: Draws, i: int)
    requires draws.Covers(n)
    requires 0 <= i < RowCount(n)
    ensures EvaluatedMockData(n, draws)[i].thermostat == Some(Green)
        <==> EvaluatedMockData(n, draws)[i].base.daysDelinquent == 0
  {
    GeneratedGreenIff(n, draws, i);
  }

  /** The pie of the evaluated generated table has one wedge unit per
      customer: its slice sizes add up to the number of customers. */
  lemma GeneratedPieTotal(n: int, draws: Draws)
    requires draws.Covers(n)
    ensures Total(PieSlices(Thermostats(EvaluatedMockData(n, draws)))) == RowCount(n)
  {
    PieTotal(Thermostats(EvaluatedMockData(n, draws)));
  }
}
