/**
  The customer table. A pandas DataFrame is modelled as a sequence (or an
  array) of rows; a row holds the six columns that `generate_mock_data`
  produces and the three columns that `eval_data` may have added.
*/
module Frame {
  import opened Impact

  datatype Option<T> = None | Some(value: T)

  /** A date column entry `2024-<month>-<day>`. The source stores it as a
      string and reads month and day back with `split("-")`; here they are
      kept as numbers and no calendar validity is implied. */
  datatype DateStamp = DateStamp(year: int, month: int, day: int)

  /** The base columns of one customer. */
  datatype Customer = Customer(
    pivotDate: DateStamp,
    customerId: int,
    approvedAt: DateStamp,
    daysDelinquent: int,
    monthlyRecurrRevenue: real,
    deviceValue: int)

  /** A row of the table: the base columns and the three derived columns,
      each `None` until `eval_data` assigns it. */
  datatype Row = Row(
    base: Customer,
    dailyRecurrentRevenue: Option<real>,
    costToFragile: Option<real>,
    thermostat: Option<Tag>)

  /** The table built from freshly generated customers: no derived column yet. */
  function Table(cs: seq<Customer>): (rows: seq<Row>)
    ensures |rows| == |cs|
    ensures forall i :: 0 <= i < |cs| ==> rows[i] == Row(cs[i], None, None, None)
  {
    seq(|cs|, i requires 0 <= i < |cs| => Row(cs[i], None, None, None))
  }

  /** `data['thermostat']`: the tag column of a table in which every row has
      been evaluated. */
  function Thermostats(rows: seq<Row>): (tags: seq<Tag>)
    requires forall i :: 0 <= i < |rows| ==> rows[i].thermostat.Some?
    ensures |tags| == |rows|
    ensures forall i :: 0 <= i < |rows| ==> Some(tags[i]) == rows[i].thermostat
  {
    seq(|rows|, i requires 0 <= i < |rows| => rows[i].thermostat.value)
  }
}
