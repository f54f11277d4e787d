/** Concrete sessions of the component, stated over the machine. */
module Scenarios {
  import opened Options
  import opened AtmState
  import opened Gateway
  import opened Transitions
  import opened Machine

  const Demo: User := User(1, "usuario1", 200000.0)

  /** Typing 500 and pressing "Retirar" shows the range error, sends no
      request and stays on the terminal, whatever the server would answer. */
  lemma AmountBelowMinimum(parseFloat: string -> Option<real>, outcome: WithdrawOutcome)
    requires parseFloat("500") == Some(500.0)
    ensures
      var s := Run(parseFloat, Init, [SubmitLogin(LoginOk(Demo)), TypeAmount("500"),
                                      SubmitWithdraw(outcome)]);
      && s.Some?
      && s.value.view == AtmView
      && s.value.error == AmountOutOfRange
      && s.value.currentUser == Some(Demo)
      && s.value.amount == "500"
      && s.value.result.None?
  {
    var events := [SubmitLogin(LoginOk(Demo)), TypeAmount("500"), SubmitWithdraw(outcome)];
    var s1 := Login(Init, LoginOk(Demo));
    var s2 := s1.(amount := "500");
    var s3 := Withdraw(s2, parseFloat, outcome);
    assert events[1..][1..] == [SubmitWithdraw(outcome)];
    assert Run(parseFloat, s2, [SubmitWithdraw(outcome)]) == Some(s3);
    assert Run(parseFloat, s1, events[1..]) == Some(s3);
    assert Run(parseFloat, Init, events) == Some(s3);
  }

  /** A withdrawal of 50,000 answered with one 50,000 bill and a new
      balance of 150,000 shows that receipt, takes the balance from it and
      empties the amount buffer. */
  lemma SuccessfulWithdrawal(parseFloat: string -> Option<real>)
    requires parseFloat("50000") == Some(50000.0)
    ensures
      var receipt := Receipt(50000.0, 150000.0, [Bill(50000.0, 1)]);
      var s := Run(parseFloat, Init, [SubmitLogin(LoginOk(Demo)), TypeAmount("50000"),
                                      SubmitWithdraw(WithdrawOk(receipt))]);
      && s.Some?
      && s.value.view == AtmView
      && s.value.result == Some(receipt)
      && s.value.currentUser == Some(User(1, "usuario1", 150000.0))
      && s.value.amount == ""
      && s.value.error == ""
  {
    var receipt := Receipt(50000.0, 150000.0, [Bill(50000.0, 1)]);
    var events := [SubmitLogin(LoginOk(Demo)), TypeAmount("50000"), SubmitWithdraw(WithdrawOk(receipt))];
    var s1 := Login(Init, LoginOk(Demo));
    var s2 := s1.(amount := "50000");
    var s3 := Withdraw(s2, parseFloat, WithdrawOk(receipt));
    assert events[1..][1..] == [SubmitWithdraw(WithdrawOk(receipt))];
    assert Run(parseFloat, s2, [SubmitWithdraw(WithdrawOk(receipt))]) == Some(s3);
    assert Run(parseFloat, s1, events[1..]) == Some(s3);
    assert Run(parseFloat, Init, events) == Some(s3);
  }

  /** Logging in and straight out again returns to the first render. */
  lemma LoginLogoutRoundTrip(parseFloat: string -> Option<real>, user: User)
    ensures Run(parseFloat, Init, [SubmitLogin(LoginOk(user)), SignOut]) == Some(Init)
  {
    var events := [SubmitLogin(LoginOk(user)), SignOut];
    var s1 := Login(Init, LoginOk(user));
    assert Run(parseFloat, s1, events[1..]) == Some(Logout(s1));
  }
}

/**
 Two orders of events the sequential machine does not produce: a logout
 pressed while a request is still pending, after which the pending request
 settles. Each handler then writes its late result over the login screen.
 */
module Interleavings {
  import opened Options
  import opened AtmState
  import opened Gateway
  import opened Transitions
  import opened Machine

  /** A report answer arriving after a logout opens the report screen with
      no user; "back to terminal" then shows a terminal without a user. */
  lemma LateReportAfterLogout(s: State, data: ReportData)
    ensures LoadReport(Logout(s), ReportDecoded(data)).view == ReportView
    ensures !Inv(ReturnToTerminal(LoadReport(Logout(s), ReportDecoded(data))))
  {
  }

  /** A withdrawal answer arriving after a logout sets a receipt on the
      login screen, and the next login does not clear it. */
  lemma LateReceiptSurvivesNextLogin(s: State, user: User, next: User, receipt: Receipt)
    ensures !Inv(SettleWithdraw(Logout(s), user, WithdrawOk(receipt)))
    ensures Login(SettleWithdraw(Logout(s), user, WithdrawOk(receipt)), LoginOk(next)).result
              == Some(receipt)
  {
  }
}
