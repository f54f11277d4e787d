/**
 The component as a state machine driven by user events. Each screen wires
 only some handlers: the login screen its two inputs and the login button
 (also Enter in either input), the terminal its amount input and the
 withdraw, report and logout buttons, the report screen only its "back"
 button. An event the current screen does not offer cannot happen.
 Events are applied one after another: each request settles before the
 next event, which is the order a user who waits for every answer sees.
 */
module Machine {
  import opened Options
  import opened AtmState
  import opened Gateway
  import opened Transitions

  /** A user action, together with what the server answered to it. */
  datatype Event =
    | TypeUsername(text: string)
    | TypePassword(text: string)
    | SubmitLogin(login: LoginOutcome)
    | TypeAmount(text: string)
    | SubmitWithdraw(withdrawal: WithdrawOutcome)
    | OpenReport(reportOutcome: ReportOutcome)
    | SignOut
    | BackToTerminal

  /** Whether the screen `v` renders a control that raises `e`. */
  predicate Enabled(v: View, e: Event) {
    match e
    case TypeUsername(_) => v == LoginView
    case TypePassword(_) => v == LoginView
    case SubmitLogin(_) => v == LoginView
    case TypeAmount(_) => v == AtmView
    case SubmitWithdraw(_) => v == AtmView
    case OpenReport(_) => v == AtmView
    case SignOut => v == AtmView
    case BackToTerminal => v == ReportView
  }

  /** One event; `None` when the current screen does not offer it. */
  function Step(parseFloat: string -> Option<real>, s: State, e: Event): (r: Option<State>)
    ensures r.Some? <==> Enabled(s.view, e)
    ensures r.Some? && e.TypeAmount? ==> r.value == s.(amount := e.text)
    ensures r.Some? && e.TypeUsername? ==> r.value == s.(username := e.text)
    ensures r.Some? && e.TypePassword? ==> r.value == s.(password := e.text)
    ensures r.Some? && e.SubmitLogin? ==> r.value == Login(s, e.login)
    ensures r.Some? && e.SubmitWithdraw? ==> r.value == Withdraw(s, parseFloat, e.withdrawal)
    ensures r.Some? && e.OpenReport? ==> r.value == LoadReport(s, e.reportOutcome)
    ensures r.Some? && e.SignOut? ==> r.value == Logout(s)
    ensures r.Some? && e.BackToTerminal? ==> r.value == ReturnToTerminal(s)
  {
    if !Enabled(s.view, e) then None
    else
      match e
      case TypeUsername(text) => Some(s.(username := text))
      case TypePassword(text) => Some(s.(password := text))
      case SubmitLogin(o) => Some(Login(s, o))
      case TypeAmount(text) => Some(s.(amount := text))
      case SubmitWithdraw(o) => Some(Withdraw(s, parseFloat, o))
      case OpenReport(o) => Some(LoadReport(s, o))
      case SignOut => Some(Logout(s))
      case BackToTerminal => Some(ReturnToTerminal(s))
  }

  /** Runs the events in order; `None` if any of them is not offered when
      it comes. */
  function Run(parseFloat: string -> Option<real>, s: State, events: seq<Event>): Option<State>
    decreases |events|
  {
    if |events| == 0 then Some(s)
    else
      match Step(parseFloat, s, events[0])
      case None => None
      case Some(next) => Run(parseFloat, next, events[1..])
  }

  /** The states some sequence of events leads to from the first render. */
  ghost predicate Reachable(parseFloat: string -> Option<real>, s: State) {
    exists events :: Run(parseFloat, Init, events) == Some(s)
  }

  /** A user is present exactly off the login screen, and the login screen
      holds no amount and no receipt. In runs where every request settles
      before the next event, this is what makes reading `currentUser.name`
      and `currentUser.balance` on the terminal safe; `Interleavings` shows
      two orders of events outside those runs that break it. */
  predicate Inv(s: State) {
    && (s.view == LoginView <==> s.currentUser.None?)
    && (s.view == LoginView ==> s.amount == "" && s.result.None?)
  }

  lemma InitSatisfiesInv()
    ensures Inv(Init)
  {
  }

  /** Every offered event preserves the invariant. */
  lemma StepPreservesInv(parseFloat: string -> Option<real>, s: State, e: Event)
    requires Inv(s)
    requires Step(parseFloat, s, e).Some?
    ensures Inv(Step(parseFloat, s, e).value)
  {
  }

  /** The invariant holds after any run of events. */
  lemma {:induction false} RunPreservesInv(parseFloat: string -> Option<real>, s: State, events: seq<Event>)
    requires Inv(s)
    requires Run(parseFloat, s, events).Some?
    ensures Inv(Run(parseFloat, s, events).value)
    decreases |events|
  {
    if |events| > 0 {
      StepPreservesInv(parseFloat, s, events[0]);
      var next := Step(parseFloat, s, events[0]).value;
      RunPreservesInv(parseFloat, next, events[1..]);
    }
  }

  /** Every reachable state satisfies the invariant. */
  lemma ReachableSatisfiesInv(parseFloat: string -> Option<real>, s: State)
    requires Reachable(parseFloat, s)
    ensures Inv(s)
  {
    var events :| Run(parseFloat, Init, events) == Some(s);
    InitSatisfiesInv();
    RunPreservesInv(parseFloat, Init, events);
  }

  /** A terminal session starts fresh when every request has settled before
      the login: after a successful login from a state satisfying the
      invariant, no amount, receipt or error is carried over. */
  lemma FreshTerminalAfterLogin(parseFloat: string -> Option<real>, s: State, user: User)
    requires Inv(s) && s.view == LoginView
    ensures
      var t := Step(parseFloat, s, SubmitLogin(LoginOk(user)));
      && t.Some?
      && t.value.view == AtmView
      && t.value.currentUser == Some(user)
      && t.value.amount == "" && t.value.result.None? && t.value.error == ""
  {
  }

  /** Whether event `e` carries `b` as a balance from the server: the user
      object of a successful login or the new balance of a withdrawal. */
  predicate ReportsBalance(e: Event, b: real) {
    || (e.SubmitLogin? && e.login.LoginOk? && e.login.user.balance == b)
    || (e.SubmitWithdraw? && e.withdrawal.WithdrawOk? && e.withdrawal.receipt.newBalance == b)
  }

  /** A balance one step shows either was already shown or came from the
      server in that step. */
  lemma StepBalanceFromServer(parseFloat: string -> Option<real>, s: State, e: Event)
    requires Step(parseFloat, s, e).Some?
    requires Step(parseFloat, s, e).value.currentUser.Some?
    ensures
      var b := Step(parseFloat, s, e).value.currentUser.value.balance;
      (s.currentUser.Some? && s.currentUser.value.balance == b) || ReportsBalance(e, b)
  {
  }

  /** The client never computes a balance: any balance shown after a run
      was shown before it or was sent by the server during it. */
  lemma {:induction false} BalanceFromServer(parseFloat: string -> Option<real>, s: State, events: seq<Event>)
    requires Run(parseFloat, s, events).Some?
    requires Run(parseFloat, s, events).value.currentUser.Some?
    ensures
      var b := Run(parseFloat, s, events).value.currentUser.value.balance;
      || (s.currentUser.Some? && s.currentUser.value.balance == b)
      || exists i :: 0 <= i < |events| && ReportsBalance(events[i], b)
    decreases |events|
  {
    if |events| > 0 {
      var next := Step(parseFloat, s, events[0]).value;
      var b := Run(parseFloat, s, events).value.currentUser.value.balance;
      assert Run(parseFloat, next, events[1..]) == Run(parseFloat, s, events);
      BalanceFromServer(parseFloat, next, events[1..]);
      if next.currentUser.Some? && next.currentUser.value.balance == b {
        StepBalanceFromServer(parseFloat, s, events[0]);
        if !(s.currentUser.Some? && s.currentUser.value.balance == b) {
          assert ReportsBalance(events[0], b);
        }
      } else {
        var i :| 0 <= i < |events[1..]| && ReportsBalance(events[1..][i], b);
        assert ReportsBalance(events[i + 1], b);
      }
    }
  }

  /** Only the report button touches the report rows. */
  lemma {:induction false} RowsChangeOnlyByReport(parseFloat: string -> Option<real>, s: State, events: seq<Event>)
    requires Run(parseFloat, s, events).Some?
    requires forall i :: 0 <= i < |events| ==> !events[i].OpenReport?
    ensures Run(parseFloat, s, events).value.report == s.report
    decreases |events|
  {
    if |events| > 0 {
      var next := Step(parseFloat, s, events[0]).value;
      assert !events[0].OpenReport?;
      assert forall i :: 0 <= i < |events[1..]| ==> !events[1..][i].OpenReport? by {
        forall i | 0 <= i < |events[1..]|
          ensures !events[1..][i].OpenReport?
        {
          assert events[1..][i] == events[i + 1];
        }
      }
      RowsChangeOnlyByReport(parseFloat, next, events[1..]);
    }
  }
}
