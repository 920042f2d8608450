/**
 * Flattening of the upstream result rows into response records
 * (timestream-test/app.ts lines 56-59 and 101-104): every row's cells are
 * read by position, as the select list of its query orders them.
 */
module Rows {
  import opened Wrappers
  import opened Text
  import opened DeviceQuery

  /**
   * A result row: the `ScalarValue` of each cell in order, `None` where the
   * cell carries none (a null or non-scalar cell).
   */
  type Row = seq<Option<string>>

  /** A record of the several-devices response. */
  datatype MultiRecord = MultiRecord(
    time: Option<string>, id: Option<string>, value: Option<int>, measureName: Option<string>)

  /** A record of the single-device response: the device is known, so no `id`. */
  datatype SingleRecord = SingleRecord(
    time: Option<string>, value: Option<int>, measureName: Option<string>)

  /** Array destructuring: a position past the end of the row reads as `undefined`. */
  function Cell(row: Row, i: nat): (c: Option<string>)
    ensures i < |row| ==> c == row[i]
    ensures i >= |row| ==> c == None
  {
    if i < |row| then row[i] else None
  }

  /**
   * `parseInt(value, 10)`; `parseInt(undefined, 10)` reads the text
   * "undefined" and is NaN, here `None`.
   */
  function ParseValue(cell: Option<string>): Option<int>
  {
    match cell
    case Some(s) => ParseInt(s)
    case None => None
  }

  /** `[time, id, value, measureName]` read from cells 0 to 3. */
  function DecodeMultiRow(row: Row): MultiRecord
  {
    MultiRecord(Cell(row, 0), Cell(row, 1), ParseValue(Cell(row, 2)), Cell(row, 3))
  }

  /** `[time, value, measureName]` read from cells 0 to 2. */
  function DecodeSingleRow(row: Row): SingleRecord
  {
    SingleRecord(Cell(row, 0), ParseValue(Cell(row, 1)), Cell(row, 2))
  }

  /** The row a several-devices query returns for one reading, plus any further cells. */
  function MultiRowOf(time: string, id: string, value: int, measureName: string, extra: Row): Row
  {
    [Some(time), Some(id), Some(IntString(value)), Some(measureName)] + extra
  }

  /** The row a single-device query returns for one reading, plus any further cells. */
  function SingleRowOf(time: string, value: int, measureName: string, extra: Row): Row
  {
    [Some(time), Some(IntString(value)), Some(measureName)] + extra
  }

  /** A several-devices reading comes back out of its row unchanged. */
  lemma DecodeMultiRowOf(time: string, id: string, value: int, measureName: string, extra: Row)
    ensures DecodeMultiRow(MultiRowOf(time, id, value, measureName, extra))
         == MultiRecord(Some(time), Some(id), Some(value), Some(measureName))
  {
    ParseIntOfString(value, "");
    assert IntString(value) + "" == IntString(value);
  }

  /** A single-device reading comes back out of its row unchanged. */
  lemma DecodeSingleRowOf(time: string, value: int, measureName: string, extra: Row)
    ensures DecodeSingleRow(SingleRowOf(time, value, measureName, extra))
         == SingleRecord(Some(time), Some(value), Some(measureName))
  {
    ParseIntOfString(value, "");
    assert IntString(value) + "" == IntString(value);
  }

  /**
   * Each field of a several-devices record is read from the cell in which
   * the select list of its query places that column.
   */
  lemma MultiRecordFollowsColumns(q: Query, row: Row)
    requires q.MultiDevice?
    ensures var cols := Columns(q); var r := DecodeMultiRow(row);
      && r.time == Cell(row, IndexOf(cols, "time"))
      && r.id == Cell(row, IndexOf(cols, "id"))
      && r.value == ParseValue(Cell(row, IndexOf(cols, ValueColumn)))
      && r.measureName == Cell(row, IndexOf(cols, "measure_name"))
  {
    var cols := Columns(q);
    assert IndexOf(cols, "time") == 0;
    assert IndexOf(cols, "id") == 1;
    assert IndexOf(cols, ValueColumn) == 2;
    assert IndexOf(cols, "measure_name") == 3;
  }

  /**
   * Each field of a single-device record is read from the cell in which
   * the select list of its query places that column.
   */
  lemma SingleRecordFollowsColumns(q: Query, row: Row)
    requires q.SingleDevice?
    ensures var cols := Columns(q); var r := DecodeSingleRow(row);
      && r.time == Cell(row, IndexOf(cols, "time"))
      && r.value == ParseValue(Cell(row, IndexOf(cols, ValueColumn)))
      && r.measureName == Cell(row, IndexOf(cols, "measure_name"))
  {
    var cols := Columns(q);
    assert IndexOf(cols, "time") == 0;
    assert IndexOf(cols, ValueColumn) == 1;
    assert IndexOf(cols, "measure_name") == 2;
  }
}
