# fragile_thermostat in Dafny

A model of the delinquency "thermostat" of `utils.py`:

- `generate_mock_data` builds a table of synthetic customers (pivot date,
  customer id, approval date, days delinquent, monthly recurring revenue,
  device value) from random draws;
- `eval_data` adds three columns to that table in place: the daily recurring
  revenue `round(mrr / 31, 2)`, the cost to Fragile (daily revenue times days
  delinquent) and the thermostat tag computed by `_measure_impact`
  (green when the cost is zero, yellow up to 75, red above);
- `generate_pie_chart` counts the thermostat column per tag and draws one
  slice per tag that occurs.

Modules, one per concern of the source file:

- `Rounding` (rounding.dfy): exact money arithmetic; `round(x, 2)` written out
  as round-half-to-even on hundredths, as numpy and pandas round.
- `Impact` (impact.dfy): the tags and the `_measure_impact` classifier.
- `Frame` (frame.dfy): the table as rows of base columns plus optional
  derived columns; dates as `DateStamp(year, month, day)`.
- `Evaluate` (evaluate.dfy): `eval_data` as a method over an `array<Row>` that
  assigns the three columns in three passes, as the source's three column
  assignments do, with the function `Evaluated` that specifies it.
- `MockData` (mock_data.dfy): `generate_mock_data` over given draws; the
  pivot dates, approval dates, days delinquent and device values are each a
  function of their own, while the customer ids and the monthly revenue are
  built inside `GenerateMockData`.
- `PieChart` (pie_chart.dfy): `value_counts` of the thermostat column and the
  slices built from it.
- `Pipeline` (pipeline.dfy): what evaluation says about generated customers.

`eval_data` declares a `threshold` argument with default 90 that it never
reads; the cut-off 75 is written into `_measure_impact` (utils.py:82, 112).
`Evaluate.EvalData` takes the argument and ignores it, and its contract does
not mention it.

## Model

| member | source | states |
|---|---|---|
| `Rounding.RoundHalfEven` | utils.py:101 | the result is an integer within 1/2 of the argument, and at distance exactly 1/2 it is even (half-to-even) |
| `Rounding.RoundHalfEvenUnique` | utils.py:101 | any integer meeting those two conditions is the rounded value, so the rounding is fully determined |
| `Rounding.RoundHalfEvenOfInteger` | utils.py:101 | a whole number rounds to itself |
| `Rounding.Round2` | utils.py:101 | `round(x, 2)` is within 0.005 of `x`, is a whole number of hundredths, and at a tie (exactly half a cent away) is an even number of cents |
| `Rounding.Round2Idempotent` | utils.py:66 | rounding an amount that is already rounded to cents (the generated mrr) changes nothing |
| `Rounding.Round2Monotone` | utils.py:101 | rounding to cents preserves the order of amounts |
| `Impact.MeasureImpact` | utils.py:109-115 | green exactly when cost is 0, red exactly when cost is above 75, yellow exactly when cost is non-zero and at most 75 |
| `Impact.MeasureImpactMonotone` | utils.py:109-115 | for non-negative costs a larger cost never gives a lower tag in the order green < yellow < red |
| `Impact.NegativeCostIsYellow` | utils.py:110-113 | a negative cost is classified yellow |
| `Impact.NameInjective` | utils.py:111-115 | the three strings stored in the thermostat column are distinct |
| `Frame.Table` | utils.py:70-79 | the generated table has one row per customer, with that customer's columns and none of the three derived columns |
| `Frame.Thermostats` | utils.py:193 | `data['thermostat']` of an evaluated table has one entry per row, in row order, holding that row's tag |
| `Evaluate.DailyRevenue` | utils.py:101 | the daily revenue is a whole number of cents within half a cent of mrr/31 (an even number of cents at a tie) and is non-negative for a non-negative mrr |
| `Evaluate.EvaluatedMeetsContract` | utils.py:101-117 | an evaluated row keeps its base columns, has daily = round(mrr/31, 2), cost = daily * days delinquent and thermostat = `_measure_impact(cost)` |
| `Evaluate.EvaluationIsUnique` | utils.py:101-117 | any row meeting that contract is the evaluated row: the three columns are determined by the base columns |
| `Evaluate.EvaluatedIdempotent` | utils.py:101-119 | evaluating an evaluated table again overwrites the three columns with the same values |
| `Evaluate.EvaluatedGreenIff` | utils.py:105-117 | a row is green exactly when days delinquent is 0 or the daily revenue rounds to 0 |
| `Evaluate.ExampleRed` | utils.py:101-117 | mrr 100.00 and 30 days give daily 3.23, cost 96.9, red |
| `Evaluate.ExampleGreen` | utils.py:101-117 | mrr 100.00 and 0 days give cost 0, green |
| `Evaluate.ExampleYellow` | utils.py:101-117 | mrr 66.67 and 10 days give daily 2.15, cost 21.5, yellow |
| `Evaluate.EvalData` | utils.py:82-119 | the table is changed in place; row count and row order are kept and every row becomes its evaluation (base columns unchanged, the three derived columns set as above), whatever the threshold, which defaults to 90 |
| `MockData.RandInt` | utils.py:45 | a `randint(lo, hi)` draw lies in the closed range [lo, hi] |
| `MockData.RandIntReachesRange` | utils.py:45 | every value of the range is the draw for some raw value |
| `MockData.Choice` | utils.py:65 | a `random.choice` draw is an element of the list |
| `MockData.PivotDates` | utils.py:45 | n pivot dates in 2024 with month in 1..12 and day in 1..31 |
| `MockData.ApprovedDates` | utils.py:53-54 | each approval month is between the pivot month and 12, each approval day between the pivot day and 31 |
| `MockData.DaysDelinquent` | utils.py:58-60 | n entries in 0..65; 0 when the roll is at most 0.75, otherwise the drawn number of days |
| `MockData.DeviceValues` | utils.py:41-65 | n device values, each one of 800, 1200, 2000, 3000 |
| `MockData.GenerateMockData` | utils.py:20-79 | the count defaults to 20; all columns have num_customers entries (none for a count of 0 or below), ids are 1..n, dates, days and devices as above, mrr = round(device value / 12, 2) |
| `MockData.DefaultCount` | utils.py:20 | called without a count, the generator builds 20 customers |
| `MockData.GeneratedIdsIncreasing` | utils.py:49 | customer ids are strictly increasing, hence unique |
| `MockData.MonthlyRevenueOfPriceCorrect` | utils.py:66 | the four prices give mrr 66.67, 100.00, 166.67, 250.00 |
| `MockData.GeneratedRevenueValues` | utils.py:65-66 | every generated mrr is one of 66.67, 100.00, 166.67, 250.00 |
| `PieChart.Count` | utils.py:193 | a tag's count is at most the number of rows |
| `PieChart.CountIsMultiplicity` | utils.py:193 | a tag's count equals its multiplicity in the multiset of the column |
| `PieChart.CountPositiveIff` | utils.py:193 | a tag's count is positive exactly when the tag occurs in the column |
| `PieChart.CountsSumToLength` | utils.py:193 | the green, yellow and red counts add up to the number of rows |
| `PieChart.ValueCounts` | utils.py:193 | `value_counts` has a key exactly for each tag that occurs, mapped to its positive count |
| `PieChart.SliceOf` | utils.py:210-211 | a tag has a slice exactly when it is a key of the counts, and that slice carries the tag, `labels[tag]`, `colors[tag]` and the tag's count |
| `PieChart.PieSlices` | utils.py:193-211 | one slice per tag that occurs and for no other tag, no tag twice, each with its own label, colour and positive count |
| `PieChart.PieTotal` | utils.py:193-217 | the slice sizes sum to the number of rows |
| `Pipeline.DailyRevenueOfPriceCorrect` | utils.py:101 | the four generated mrr values give daily revenues 2.15, 3.23, 5.38, 8.06 |
| `Pipeline.GeneratedGreenIff` | utils.py:58-117 | a generated customer is tagged green exactly when their days delinquent is 0 |
| `Pipeline.NotDelinquentIsGreen` | utils.py:58-60 | a generated customer whose delinquency roll is at most 0.75 is tagged green |
| `Pipeline.EvaluatedMockData` | utils.py:45-117 | the evaluated generated table has one row per customer, in order; each row keeps that customer's base columns and is its evaluation (daily revenue, cost and tag as `eval_data` sets them) |
| `Pipeline.EvaluatedMockDataGreenIff` | utils.py:58-117 | in the evaluated generated table, a row is green exactly when its days delinquent is 0 |
| `Pipeline.GeneratedPieTotal` | utils.py:193-217 | the pie slices of the evaluated generated table add up to the number of customers |

## Left out

- `generate_plot` (utils.py:122-178) and the drawing part of `generate_pie_chart` (utils.py:215-229): matplotlib figures, bar annotations, legends and layout are UI code of a foreign library.
- The `random` module and `random.seed(12)` (utils.py:15-17): the draws are inputs. A `randint(lo, hi)` is modelled as `lo + raw % (hi - lo + 1)` for a raw natural number and `choice` as indexing by `raw % len`, so the bounds hold and every value is reachable; the distribution and the order in which draws are consumed are not modelled.
- Floating point: money is exact `real`. The IEEE results of `/`, `*` and `round` (for instance `2.15 * 3`, which in binary floating point is 6.449999999999999 rather than 6.45) are not modelled.
- Date strings: the pivot and approval dates are kept as numbers `DateStamp(2024, month, day)`; formatting them as `2024-m-d`, reading them back with `split("-")` and `int`, and calendar validity (the code can produce `2024-2-31`) are not modelled.
- pandas mechanics: `apply`, column assignment, the aliasing of the returned DataFrame with the argument (`Evaluate.EvalData` updates the caller's array and returns nothing), and the failure of `eval_data` on a table missing a column or holding non-numeric values (the `Row` type always has every base column with a numeric value).
- `PieChart.PieSlices`: `value_counts` orders its index by descending count; the model lists the slices in the order green, yellow, red, so the order of the wedges is not modelled.
