/**
 The state record of the cash-machine client component: which screen is
 shown, the input buffers, the logged-in user, the last withdrawal receipt,
 the error line and the report rows. Money is `real` because the client
 stores whatever numbers the server and `parseFloat` give it, fractions
 included; no state update computes an amount or a balance.
 */
module AtmState {
  import opened Options

  /** The screen being rendered; exactly one at a time. */
  datatype View = LoginView | AtmView | ReportView

  /** The user object returned by the login endpoint. */
  datatype User = User(id: int, name: string, balance: real)

  /** One line of the denomination breakdown chosen by the server. */
  datatype Bill = Bill(denomination: real, count: int)

  /** The body of a successful withdrawal response. */
  datatype Receipt = Receipt(amount: real, newBalance: real, bills: seq<Bill>)

  /** One row of the per-user report; the client never inspects it. */
  datatype ReportRow = ReportRow(
    userName: string,
    totalWithdrawals: int,
    maxSuccessful: real,
    avgSuccessful: real,
    maxRejected: real,
    totalSuccessful: real,
    totalRejected: real,
    avgRejected: real,
    totalAll: real,
    lastSuccessful: Option<string>)

  /** The eight pieces of component state; `null` is `None`. */
  datatype State = State(
    view: View,
    username: string,
    password: string,
    currentUser: Option<User>,
    amount: string,
    result: Option<Receipt>,
    error: string,
    report: seq<ReportRow>)

  /** The state on first render: login screen, everything empty. */
  const Init: State := State(LoginView, "", "", None, "", None, "", [])

  const CredentialsRejected: string := "Credenciales incorrectas"
  const ConnectionError: string := "Error de conexión con el servidor"
  const AmountOutOfRange: string := "El monto debe estar entre $1,000 y $2,000,000"
  const WithdrawFallback: string := "Error en el retiro"
  const ReportError: string := "Error al cargar el reporte"
}
