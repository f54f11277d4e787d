/**
 The five handlers of the component as pure functions from the state before
 the handler runs, plus what the server answered, to the state after it has
 settled. Requests are sequential: no handler is interleaved with another.
 */
module Transitions {
  import opened Options
  import opened AtmState
  import opened Gateway
  import AmountGuard

  /** Submitting the login form. */
  function Login(s: State, outcome: LoginOutcome): (r: State)
    ensures r.username == s.username && r.password == s.password
    ensures r.amount == s.amount && r.result == s.result && r.report == s.report
    ensures outcome.LoginOk? ==>
      r.view == AtmView && r.currentUser == Some(outcome.user) && r.error == ""
    ensures !outcome.LoginOk? ==> r.view == s.view && r.currentUser == s.currentUser
    ensures outcome.LoginRejected? ==> r.error == CredentialsRejected
    ensures outcome.LoginFailed? ==> r.error == ConnectionError
  {
    match outcome
    case LoginOk(user) => s.(currentUser := Some(user), view := AtmView, error := "")
    case LoginRejected => s.(error := CredentialsRejected)
    case LoginFailed => s.(error := ConnectionError)
  }

  /** The state after the synchronous part of `withdraw`, and the request it
      sends, if any. */
  datatype Attempt = Attempt(state: State, request: Option<WithdrawRequest>)

  /** The synchronous part of `withdraw`: clear the error and the receipt,
      then run the amount guard. A request goes out only for an accepted
      amount and a present user; a missing user makes `currentUser.id`
      throw inside the `try`, which reports a connection error. Whatever
      happens, only `error` and `result` change. */
  function BeginWithdraw(s: State, parsed: Option<real>): (r: Attempt)
    ensures r.state == s.(error := r.state.error, result := None)
    ensures r.request.Some? <==>
      parsed.Some? && AmountGuard.InRange(parsed.value) && s.currentUser.Some?
    ensures r.request.Some? ==>
      r.state.error == "" &&
      r.request.value == WithdrawRequest(s.currentUser.value.id, parsed.value)
    ensures !(parsed.Some? && AmountGuard.InRange(parsed.value)) ==>
      r.state.error == AmountOutOfRange
    ensures parsed.Some? && AmountGuard.InRange(parsed.value) && s.currentUser.None? ==>
      r.state.error == ConnectionError
  {
    var cleared := s.(error := "", result := None);
    match AmountGuard.Check(parsed)
    case None => Attempt(cleared.(error := AmountOutOfRange), None)
    case Some(a) =>
      match s.currentUser
      case None => Attempt(cleared.(error := ConnectionError), None)
      case Some(u) => Attempt(cleared, Some(WithdrawRequest(u.id, a)))
  }

  /** The error line for a rejected withdrawal: the server's message unless
      it is absent or empty. */
  function RejectionText(message: Option<string>): (t: string)
    ensures t != ""
    ensures message.Some? && message.value != "" ==> t == message.value
    ensures message.None? || message.value == "" ==> t == WithdrawFallback
  {
    if message.Some? && message.value != "" then message.value else WithdrawFallback
  }

  /** The asynchronous part of `withdraw`, once the server has answered.
      `user` is the user the handler captured when it started. On success
      the balance is the one the server reports, not computed locally. */
  function SettleWithdraw(s: State, user: User, outcome: WithdrawOutcome): (r: State)
    ensures r.view == s.view && r.username == s.username && r.password == s.password
    ensures r.report == s.report
    ensures outcome.WithdrawOk? ==>
      && r.result == Some(outcome.receipt)
      && r.currentUser == Some(User(user.id, user.name, outcome.receipt.newBalance))
      && r.amount == ""
      && r.error == s.error
    ensures !outcome.WithdrawOk? ==>
      r.currentUser == s.currentUser && r.result == s.result && r.amount == s.amount
    ensures outcome.WithdrawRejected? ==> r.error == RejectionText(outcome.message)
    ensures outcome.WithdrawFailed? ==> r.error == ConnectionError
  {
    match outcome
    case WithdrawOk(receipt) =>
      s.(result := Some(receipt),
         currentUser := Some(user.(balance := receipt.newBalance)),
         amount := "")
    case WithdrawRejected(message) => s.(error := RejectionText(message))
    case WithdrawFailed => s.(error := ConnectionError)
  }

  /** Pressing "Retirar": `parseFloat` reads the amount buffer (`None` is NaN);
      `outcome` is consulted only if a request was actually sent. */
  function Withdraw(s: State, parseFloat: string -> Option<real>, outcome: WithdrawOutcome): (r: State)
    ensures r.view == s.view && r.username == s.username && r.password == s.password
    ensures r.report == s.report
    ensures
      var parsed := parseFloat(s.amount);
      && (!(parsed.Some? && AmountGuard.InRange(parsed.value)) ==>
            r == s.(error := AmountOutOfRange, result := None))
      && (r.result.Some? <==>
            parsed.Some? && AmountGuard.InRange(parsed.value) &&
            s.currentUser.Some? && outcome.WithdrawOk?)
    ensures r.result.Some? ==>
      && r.result == Some(outcome.receipt)
      && s.currentUser.Some?
      && r.currentUser == Some(s.currentUser.value.(balance := outcome.receipt.newBalance))
      && r.amount == ""
    ensures r.result.None? ==> r.currentUser == s.currentUser && r.amount == s.amount
    ensures r.result.Some? <==> r.error == ""
    ensures
      var parsed := parseFloat(s.amount);
      parsed.Some? && AmountGuard.InRange(parsed.value) && s.currentUser.Some? ==>
        && (outcome.WithdrawRejected? ==> r.error == RejectionText(outcome.message))
        && (outcome.WithdrawFailed? ==> r.error == ConnectionError)
  {
    var attempt := BeginWithdraw(s, parseFloat(s.amount));
    match attempt.request
    case None => attempt.state
    case Some(_) => SettleWithdraw(attempt.state, s.currentUser.value, outcome)
  }

  /** Pressing "Reporte". A decoded body always opens the report screen,
      whatever the status code; a body that is not an array shows no rows.
      A failure stays on the current screen and empties the rows. */
  function LoadReport(s: State, outcome: ReportOutcome): (r: State)
    ensures r.username == s.username && r.password == s.password
    ensures r.currentUser == s.currentUser && r.amount == s.amount && r.result == s.result
    ensures outcome.ReportDecoded? ==> r.view == ReportView && r.error == ""
    ensures outcome.ReportDecoded? && outcome.data.RowArray? ==> r.report == outcome.data.rows
    ensures outcome.ReportDecoded? && outcome.data.NotAnArray? ==> r.report == []
    ensures outcome.ReportFailed? ==>
      r.view == s.view && r.error == ReportError && r.report == []
    ensures r.error != "" ==> r.report == []
  {
    match outcome
    case ReportDecoded(data) =>
      var rows := if data.RowArray? then data.rows else [];
      s.(report := rows, view := ReportView, error := "")
    case ReportFailed => s.(error := ReportError, report := [])
  }

  /** Pressing "Salir": back to the login screen with the session and every
      input buffer cleared. The report rows are kept. */
  function Logout(s: State): (r: State)
    ensures r.view == LoginView && r.currentUser.None? && r.result.None?
    ensures r.username == "" && r.password == "" && r.amount == "" && r.error == ""
    ensures r.report == s.report
  {
    s.(currentUser := None, view := LoginView, username := "", password := "",
       amount := "", result := None, error := "")
  }

  /** Pressing "Volver al Cajero" on the report screen: only the screen changes. */
  function ReturnToTerminal(s: State): (r: State)
    ensures r.view == AtmView
    ensures r.(view := s.view) == s
  {
    s.(view := AtmView)
  }

  /** Logging out twice is the same as logging out once. */
  lemma LogoutIdempotent(s: State)
    ensures Logout(Logout(s)) == Logout(s)
  {
  }

  /** What survives a logout is exactly the report: two states log out to
      the same state if and only if their report rows agree. */
  lemma LogoutKeepsOnlyReport(s: State, t: State)
    ensures Logout(s) == Logout(t) <==> s.report == t.report
  {
  }

  /** A login, whatever its outcome, leaves no trace once the user logs out. */
  lemma LoginThenLogout(s: State, outcome: LoginOutcome)
    ensures Logout(Login(s, outcome)) == Logout(s)
  {
  }

  /** A withdrawal, whatever its outcome, leaves no trace once the user logs out. */
  lemma WithdrawThenLogout(s: State, parseFloat: string -> Option<real>, outcome: WithdrawOutcome)
    ensures Logout(Withdraw(s, parseFloat, outcome)) == Logout(s)
  {
  }

  /** When the guard rejects, no server answer can influence the result. */
  lemma GuardRejectionIgnoresServer(s: State, parseFloat: string -> Option<real>,
                                    o1: WithdrawOutcome, o2: WithdrawOutcome)
    requires AmountGuard.Check(parseFloat(s.amount)).None?
    ensures Withdraw(s, parseFloat, o1) == Withdraw(s, parseFloat, o2)
  {
  }

  /** Opening the report and coming back leaves the terminal as it was,
      receipt included; only the rows and the cleared error differ. */
  lemma ReportDetourKeepsReceipt(s: State, data: ReportData)
    requires s.view == AtmView
    ensures
      var t := ReturnToTerminal(LoadReport(s, ReportDecoded(data)));
      t == s.(report := t.report, error := "")
  {
  }
}
