/**
 Parsed CSV records, as the CSV parser hands them to the application.

 With the header option on, every record is an object keyed by the header's
 column names; with dynamic typing on, numeric-looking fields become numbers,
 `true`/`false` become booleans and empty fields become `null`. Reading a key
 the record does not have yields `undefined`.
 */
module Rows {

  /** One typed field value, or the absence of one. This is the subset of the
      parser's values the model represents; date values and the array of
      surplus fields are not among them, as the builder passes every cell
      through untouched whatever it holds. */
  datatype Cell =
    | Undefined          // the record has no such column
    | Null               // an empty field under dynamic typing
    | Bool(b: bool)
    | Number(x: real)    // a numeric field; floating point is modelled exactly
    | Text(s: string)

  /** One CSV record: column name to typed value. */
  type Row = map<string, Cell>

  /** The category column read for the chart labels. */
  const MonthKey: string := "Month"

  /** The numeric column read for the chart values. */
  const SalesKey: string := "Sales"

  /** Property access on a record: a missing column reads as `undefined`. */
  function Field(row: Row, key: string): Cell
  {
    if key in row then row[key] else Undefined
  }

  /** The category of a record, `row.Month`. */
  function Month(row: Row): Cell
  {
    Field(row, MonthKey)
  }

  /** The value of a record, `row.Sales`. */
  function Sales(row: Row): Cell
  {
    Field(row, SalesKey)
  }
}
