/** Shared vocabulary of the data-access layer: optional values, the outcome
    of a remote read, spreadsheet rows and the remote spreadsheet service
    seen as input data. */
module Base {

  datatype Option<+T> = None | Some(value: T) {
    function GetOr(default: T): T {
      match this
      case Some(v) => v
      case None => default
    }
  }

  /** What a thrown value can be: an `Error` object carrying a message, or
      any other value. */
  datatype Fault = ErrorValue(message: string) | OtherValue

  /** The settled outcome of an awaited call: a value, or a rejection. */
  datatype Read<+T> = Ok(value: T) | Failed(fault: Fault)

  /** A spreadsheet row as the values endpoint returns it: its cells in
      column order; trailing empty cells may be missing. */
  type Row = seq<string>

  /** The cell idiom `row[k] || ''`: a missing cell and an empty cell both
      read as the empty string. */
  function Cell(row: Row, k: nat): string {
    if k < |row| then row[k] else ""
  }

  /** The spreadsheet service as data: for a spreadsheet id, the outcome of
      reading its tab names; for a spreadsheet id and a range, the outcome
      of reading its rows. Transport and HTTP failures are `Failed`. */
  datatype Remote = Remote(
    sheetNames: string -> Read<seq<string>>,
    values: (string, string) -> Read<seq<Row>>)
}
