/**
 The three HTTP calls, reduced to what the component can observe of them.
 A `...Failed` outcome stands for any exception inside the `try` block:
 `fetch` rejecting or `response.json()` failing to decode the body.
 */
module Gateway {
  import opened Options
  import opened AtmState

  /** Result of `POST /auth/login`. */
  datatype LoginOutcome =
    | LoginOk(user: User)        // 2xx with a decoded user object
    | LoginRejected              // any non-2xx status
    | LoginFailed                // transport or decoding failure

  /** Result of `POST /withdraw`; a rejection carries the body's `message`,
      taken to be a string or absent. */
  datatype WithdrawOutcome =
    | WithdrawOk(receipt: Receipt)
    | WithdrawRejected(message: Option<string>)
    | WithdrawFailed

  /** The decoded body of `GET /report`: an array of rows, or anything else. */
  datatype ReportData = RowArray(rows: seq<ReportRow>) | NotAnArray

  /** Result of `GET /report`; the status code is never looked at. */
  datatype ReportOutcome = ReportDecoded(data: ReportData) | ReportFailed

  /** The body the client sends to `POST /withdraw`. */
  datatype WithdrawRequest = WithdrawRequest(userId: int, amount: real)
}
