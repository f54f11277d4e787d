# Cash-machine client: screen state machine

A Dafny model of the `ATMSystem` component of a single-page cash-machine
client (`src/App.js`). The component keeps eight pieces of state: the
screen (`login`, `atm`, `report`), the username, password and amount input
buffers, the logged-in user, the last withdrawal receipt, the error line and
the report rows. Five handlers change that state: `login`, `withdraw`
(guarded by the inclusive amount range 1,000 to 2,000,000), `loadReport`,
`logout`, and the report screen's "back to terminal" button.

Every handler is a pure function from the state before it runs, plus what
the server answered, to the state after it has settled. The HTTP answers
are abstract outcome datatypes (`Gateway`): success with its decoded body,
rejection (a non-2xx status), or failure (the `fetch` call or the JSON
decoding threw). `parseFloat` is a function parameter that returns `None`
for NaN. On top of the handlers, `Machine` drives the component with user
events. It offers each event only on the screen that renders its control.
Events are applied one at a time, each request settling before the next
event. For such runs it proves that a user is present exactly when the
screen is not the login screen, which makes `currentUser.name` and
`currentUser.balance` safe to read on the terminal screen. A logout pressed
while a request is pending falls outside this (see "## Left out").

Modules: `Options` (the `Option` type), `AtmState` (state record, payloads,
messages), `Gateway` (server outcomes and the withdrawal request body),
`AmountGuard` (the range check), `Transitions` (the handlers),
`Machine` (events, runs, invariant), `Scenarios` (concrete sessions),
`Interleavings` (late answers after a logout).

Behaviours of the code worth noting:
- `logout` does not clear the report rows.
- The report screen offers only "back to terminal", not logout.
- `loadReport` never checks the status code. Any decoded body opens the
  report screen. Only a thrown error reaches the failure branch.
- The guard does not tell NaN, too small and too large apart. All three
  show the same message.
- `withdraw` clears `error` and `result` before the guard runs, so a
  rejected amount also hides the previous receipt.
- A receipt is not cleared when going to the report screen. It is shown
  again on return.

## Model

| member | source | states |
|---|---|---|
| AmountGuard.Check | src/App.js:40-45 | The guard lets an amount through iff it is a number in 1,000..2,000,000, both ends included, and passes it on unchanged |
| AmountGuard.Boundaries | src/App.js:42 | 1,000 and 2,000,000 pass; 999.99, 2,000,000.01 and NaN are rejected |
| Transitions.Login | src/App.js:15-34 | Success stores the server's user, opens the terminal and clears the error. A non-2xx answer shows "Credenciales incorrectas"; a thrown error shows the connection message. On both failures the screen and the user stay, and no buffer, receipt or report row changes |
| Transitions.BeginWithdraw | src/App.js:36-55 | Only the error and the receipt change, and the receipt is cleared. A request `{userId, amount}` goes out iff the amount passes the guard and a user is present. An out-of-range or NaN amount shows the range message. A missing user shows the connection message |
| Transitions.RejectionText | src/App.js:64 | A rejected withdrawal shows the server's message unless it is absent or empty, else "Error en el retiro"; the text is never empty |
| Transitions.SettleWithdraw | src/App.js:57-68 | Success shows the receipt, empties the amount, keeps the user's id and name and takes the balance from `newBalance`. Rejection or failure changes only the error line; the user and balance stay. The screen never changes |
| Transitions.Withdraw | src/App.js:36-69 | A guard rejection sets only the range error and clears the receipt. A receipt is shown iff the amount passed, a user was present and the server accepted. In that case the balance is the server's `newBalance` and the amount buffer is empty. Otherwise the user and amount are untouched. After a request, a server rejection shows the server message or its fallback, and a thrown error shows the connection message. Afterwards exactly one of receipt and error is shown |
| Transitions.LoadReport | src/App.js:71-84 | A decoded body opens the report screen with the error cleared: an array becomes the rows, anything else no rows. A failure keeps the screen, empties the rows and shows "Error al cargar el reporte". An error is never shown with stale rows |
| Transitions.Logout | src/App.js:86-94 | Back to the login screen with no user or receipt, and username, password, amount and error emptied; the report rows are kept |
| Transitions.ReturnToTerminal | src/App.js:278 | Opens the terminal and changes nothing else |
| Transitions.LogoutIdempotent | src/App.js:86-94 | Logging out twice equals logging out once |
| Transitions.LogoutKeepsOnlyReport | src/App.js:86-94 | Two states log out to the same state iff their report rows agree |
| Transitions.LoginThenLogout | src/App.js:15-94 | A login, whatever its outcome, leaves no trace after a logout |
| Transitions.WithdrawThenLogout | src/App.js:36-94 | A withdrawal, whatever its outcome, leaves no trace after a logout |
| Transitions.GuardRejectionIgnoresServer | src/App.js:40-45 | When the guard rejects, no server answer can affect the resulting state |
| Transitions.ReportDetourKeepsReceipt | src/App.js:71-84 | From the terminal, opening the report and returning restores the terminal with its receipt, user and amount. Only the rows and the cleared error differ |
| Machine.Step | src/App.js:128-282 | An event happens iff the current screen renders its control (login screen: inputs, button and Enter; terminal: amount, withdraw, report, logout; report: back only). Typing changes only its buffer. The login button and Enter run `login` (134, 145, 149); "Reporte" runs `loadReport` (177); "Salir" runs `logout` (184); "Retirar" runs `withdraw` (257); "Volver al Cajero" runs the return to the terminal (278) |
| Machine.InitSatisfiesInv | src/App.js:4-11 | The first render (login screen, no user, everything empty) satisfies the invariant |
| Machine.StepPreservesInv | src/App.js:15-94 | Every offered event keeps the invariant: a user is present iff the screen is not login, and the login screen holds no amount and no receipt |
| Machine.RunPreservesInv | src/App.js:15-94 | Any run of offered events keeps the invariant |
| Machine.ReachableSatisfiesInv | src/App.js:172-197 | Every state reachable from the first render, with each request settling before the next event, satisfies the invariant. In such runs the user read on the terminal screen is present |
| Machine.FreshTerminalAfterLogin | src/App.js:23-27 | When every request has settled before the login, a successful login from an invariant state opens a terminal with the new user, no amount, no receipt and no error |
| Machine.StepBalanceFromServer | src/App.js:23-62 | A balance shown after one event was shown before it or came from the server in that event |
| Machine.BalanceFromServer | src/App.js:59-62 | Any balance shown after a run was shown before it or was sent by the server during it (a login user or a `newBalance`): the client never computes a balance |
| Machine.RowsChangeOnlyByReport | src/App.js:76-82 | A run without a report request leaves the report rows unchanged |
| Scenarios.AmountBelowMinimum | src/App.js:40-45 | After login, typing 500 and withdrawing shows the range error on the terminal. The user and the buffer are kept, and no server answer matters |
| Scenarios.SuccessfulWithdrawal | src/App.js:59-62 | After login, withdrawing 50,000 answered with one 50,000 bill and balance 150,000 shows that receipt. The balance becomes 150,000, the amount is emptied and no error is shown |
| Scenarios.LoginLogoutRoundTrip | src/App.js:15-94 | Logging in and straight out returns to the first-render state |
| Interleavings.LateReportAfterLogout | src/App.js:71-94 | A report answer settling after a logout opens the report screen with no user, and returning to the terminal gives a state that breaks the invariant |
| Interleavings.LateReceiptSurvivesNextLogin | src/App.js:15-94 | A withdrawal answer settling after a logout puts a receipt on the login screen, breaking the invariant, and the next successful login keeps showing it |

## Left out

- Rendering (src/App.js:104-330): markup and styles only. The model keeps just which controls each screen offers (`Machine.Enabled`).
- HTTP transport, headers, `JSON.stringify`, `response.json()` and the base URL (src/App.js:13, 17-21, 48-57, 73-74): I/O. They are replaced by the outcome datatypes in `Gateway`.
- Payload shapes: a login body is taken to be a user object and a success body a receipt. A 2xx login answering `null`, or a withdrawal body missing `newBalance`, is outside the model. A rejection message is taken to be a string or absent; a `0`, `false` or non-string value in `message` is not represented.
- `formatCurrency` (src/App.js:96-102): a locale library call (es-CO, COP) whose rules are not visible.
- `parseFloat` (src/App.js:40): JavaScript number parsing is a parameter. Infinities are not represented; the guard would reject them anyway, since they lie outside the range.
- Floating-point behaviour: amounts and balances are exact reals. Rounding of very long decimal inputs is not modelled.
- `console.log` and `console.error` (src/App.js:75, 80): debugging output only.
- Asynchrony: handlers are modelled as settling one at a time, each request before the next event. The invariant, `Machine.ReachableSatisfiesInv` and `Machine.FreshTerminalAfterLogin` hold only for such runs. In the code, a logout pressed while a request is pending breaks them. A report answer arriving after the logout opens the report screen with no user, and "back" then renders `currentUser.name` on a null user (src/App.js:77, 173). A withdrawal answer arriving after the logout sets a receipt and a user on the login screen, and the next login shows that receipt (src/App.js:60-61, 25-27). `Interleavings` states both outcomes. Overlapping requests from a double click are not modelled either, and neither is a busy flag (the code has none).
