/**
 * The message reads of internal/database/postgres.go: GetMessages (the same scan-then-reverse
 * shape as pkg/database) and GetLatestMessageID (mapping of the "no rows" error).
 */
module Postgres {
  import opened Wrappers
  import opened Models
  import Database

  /**
   * GetMessages: the query error or the first scan error is returned alone; otherwise the
   * rows, scanned newest first, come back reversed, i.e. oldest first.
   */
  method GetMessages(query: Result<seq<Database.RowScan>, DbError>) returns (r: Result<seq<Message>, DbError>)
    ensures query.Failure? ==> r == Failure(query.error)
    ensures query.Success? && Database.ScanAll(query.value).Failure? ==> r == Database.ScanAll(query.value)
    ensures query.Success? && Database.ScanAll(query.value).Success?
      ==> r == Success(Database.Reversed(Database.ScanAll(query.value).value))
    ensures query.Success? && Database.ScanAll(query.value).Success? && Database.NewestFirst(Database.ScanAll(query.value).value)
      ==> r.Success? && Database.Chronological(r.value)
  {
    if query.Failure? {
      return Failure(query.error);
    }
    r := Database.ScanAndReverse(query.value);
    if Database.ScanAll(query.value).Success? && Database.NewestFirst(Database.ScanAll(query.value).value) {
      Database.NewestFirstReversedIsChronological(Database.ScanAll(query.value).value);
    }
  }

  /** Rows that all scan are kept in full, in scan order. */
  lemma GetMessagesKeepsEveryRow(rows: seq<Message>)
    ensures Database.ScanAll(seq(|rows|, i requires 0 <= i < |rows| => Database.Scanned(rows[i]))) == Success(rows)
  {
    var scans := seq(|rows|, i requires 0 <= i < |rows| => Database.Scanned(rows[i]));
    Database.ScanAllWithoutErrors(scans);
    var ms := Database.ScanAll(scans).value;
    assert ms == rows;
  }

  /** The outcome of `QueryRowContext(...).Scan(&messageID)`. */
  datatype RowResult = Row(id: int) | NoRows | RowFailed(err: DbError)

  /**
   * GetLatestMessageID: `sql.ErrNoRows` becomes (0, no error); any other error passes
   * through with the zero id; a row passes its id through. Message ids are assigned from 1
   * on, so the id 0 can only mean "no messages yet".
   */
  function GetLatestMessageID(row: RowResult): (r: (int, Option<DbError>))
    ensures r.1.Some? <==> row.RowFailed?
    ensures row.RowFailed? ==> r == (0, Some(row.err))
    ensures row.Row? ==> r == (row.id, None)
    ensures row.NoRows? ==> r == (0, None)
  {
    match row
    case NoRows => (0, None)
    case Row(id) => (id, None)
    case RowFailed(e) => (0, Some(e))
  }
}
