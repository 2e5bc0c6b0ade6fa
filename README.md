# ATM terminal: banking rules of the Python ATM interface

This project models the banking rules of a single-account ATM terminal. In
`atm.py` those rules live inside the button handlers of a tkinter window. The
model keeps the rules and the state they change, and drops the widgets.

The state is one object, `Atm.ATM`:

- the stored PIN;
- the balance, in integer cents;
- the failed-login counter, with at most 3 attempts;
- the last verification code issued by the forgotten-PIN flow;
- the selected operation (withdraw or deposit);
- the frame on screen (`Login`, `Menu`, `Transaction`), or `Locked` / `Closed` once the window is destroyed;
- the append-only event log.

Each handler is a method with a `modifies` clause. It requires the frame
that carries its button to be on screen. Its `ensures` state the whole new
state in terms of the old one. The invariant `Valid()` holds before
and after every handler. It says:

- the PIN is four digits;
- the balance is never negative;
- the counter stays below 3 until the terminal locks, and is exactly 3 once it has;
- the counter is 0 on the menu, transaction and closed frames, since only a successful login leaves the login frame;
- any issued code is a well-formed six-digit code;
- the log still starts with the creation of the default user.

Dialogs become parameters. An entered text is an `Option<string>`, where
`None` means the dialog was cancelled. A yes/no question is a `bool`. The
random draw of the recovery code is the parameter `n`.

The pure parts are functions with lemmas:

- `Text`: the characters Python's `str.isspace` accepts, and `str.strip`;
- `RecoveryCode`: the `"{:06d}"` rendering of the code and its parse, with the round trip in both directions;
- `PinRules`: the four-digit rule and the new-PIN/confirmation gate shared by both PIN flows.

`Scenarios` holds button sequences proved from the handler contracts alone:

- three wrong PINs lock the terminal;
- a correct PIN resets the counter;
- after a forgotten-PIN reset the new PIN admits and the old one is refused;
- a deposit/withdraw sequence on a fresh terminal.

Behaviour of the program the model keeps:

- the program has one account and no registration;
- the verification code is not consumed after a check, it is only replaced by the next flow;
- a successful PIN reset does not clear the failed-login counter;
- lockout destroys the window, so nothing is accepted afterwards;
- the PIN change compares the current PIN as entered, without stripping;
- a cancelled current-PIN dialog counts, and is logged, as a wrong current PIN.

## Model

| member | source | states |
|---|---|---|
| `Atm.ATM.constructor` | atm.py:67-87 | a fresh database: PIN "1234", balance 1000.00 (100000 cents), counter 0, no code, no operation, login frame, and a log holding exactly the default-user creation event; the invariant holds |
| `Atm.ATM.LogEvent` | atm.py:89-93 | appends exactly one event and leaves every earlier row as it was |
| `Atm.ATM.UpdateBalance` | atm.py:310-314 | the balance becomes the given value and nothing else changes |
| `Atm.ATM.UpdatePin` | atm.py:316-320 | the PIN becomes the given value and nothing else changes |
| `Atm.ATM.Authenticate` | atm.py:170-191 | an entry that strips to the PIN grants access: counter 0, menu, one login event. Any other entry adds exactly 1 to the counter. When 3 - counter reaches 0 the terminal is Locked with one lock event; otherwise the frame stays and one "attempts left: 3 - counter" event is logged. PIN, balance, code and operation are untouched, and the invariant (counter below 3 until Locked) is kept |
| `Atm.ATM.CheckBalance` | atm.py:196-198 | returns the current balance and appends one balance-viewed event, changing nothing else |
| `Atm.ATM.SelectOperation` | atm.py:200-216 | selects withdraw or deposit and opens the transaction frame |
| `Atm.ATM.CancelTransaction` | atm.py:251-253 | returns to the menu, changing nothing else |
| `Atm.ATM.PerformTransaction` | atm.py:218-249 | an unparsable amount, an amount <= 0, a withdrawal above the balance, and no selected operation are each rejected (each exactly when its condition holds) with balance, log and frame unchanged. Otherwise the confirmation decides: yes subtracts (withdraw) or adds (deposit) the amount and appends one event naming it, no changes neither balance nor log; both return to the menu. The balance stays non-negative |
| `Atm.ATM.ChangePin` | atm.py:255-276 | the PIN becomes the new one exactly when the current entry equals the stored PIN and the new-PIN gate accepts; otherwise it is unchanged and the outcome is the gate's own rejection reason. A wrong (or cancelled) current PIN logs one failure event, a change logs one success event, every other outcome logs nothing; the balance, counter and frame are untouched |
| `Atm.ATM.ForgotPassword` | atm.py:278-308 | issues the code `FormatCode(n)` first. A cancelled code dialog stops silently, and is the only way to get that outcome. A code differing from it logs one failure event and leaves the PIN. The PIN is reset exactly when the code matches and the new-PIN gate accepts, with one reset event; after a matching code any refusal is the gate's own reason. Balance, counter and frame are untouched |
| `Atm.ATM.Exit` | atm.py:322-327 | on yes logs one exit event and closes the terminal; on no changes nothing |
| `PinRules.CheckNewPin` | atm.py:262-272 | accepts exactly when the new-PIN dialog returned four digits and the confirmation returned the same text, and then yields that PIN. A cancelled new PIN, a PIN of the wrong shape and a differing or cancelled confirmation are each reported exactly when they occur |
| `PinRules.EntryMatches` | atm.py:171-173 | comparing the stripped entry with the stripped stored PIN holds exactly when the entry strips to the PIN |
| `PinRules.StrippedEntryMatches` | atm.py:172 | for a well-formed stored PIN, stripping it is a no-op in the login comparison |
| `Text.Strip` | atm.py:171 | the result is never longer than the input |
| `Text.StripTrimsEnds` | atm.py:171 | the result of stripping has no whitespace character (in the sense of Python's `str.isspace`) at either end |
| `Text.StripKeepsMiddle` | atm.py:171 | stripping removes exactly the leading and trailing whitespace: the result is the slice of the input after its leading whitespace, and all that follows the slice is whitespace |
| `RecoveryCode.FormatCode` | atm.py:280 | every draw 0..999999 renders as exactly six characters, all digits |
| `RecoveryCode.ParseCode` | atm.py:286-289 | a text parses exactly when it is six digits, and then to a number in 0..999999 |
| `RecoveryCode.FormatThenParse` | atm.py:280 | every rendered code parses back to the number it was drawn from |
| `RecoveryCode.ParseThenFormat` | atm.py:280 | every six-digit text is the rendering of the number it parses to |
| `RecoveryCode.FixedDigitsValue` | atm.py:280 | reading back the lowest w digits of n gives n mod 10^w |
| `RecoveryCode.CodeMatchesIffParses` | atm.py:289 | an entered text equals the issued code exactly when it parses to the drawn number |
| `RecoveryCode.FormatCodeInjective` | atm.py:280 | different draws give different codes |
| `Scenarios.ThreeFailuresLock` | atm.py:181-187 | from a clean counter, three non-matching entries answer "2 left", "1 left", then lock. The log gains exactly those two failure events and one lock event, and PIN and balance are unchanged |
| `Scenarios.SuccessResetsCounter` | atm.py:173-183 | a failure followed by the right PIN leaves the counter at 0 and the menu open |
| `Scenarios.ResetPinAuthenticates` | atm.py:278-308 | on the login frame with a clean counter, entering the issued code and a different four-digit PIN twice resets the PIN; then the old PIN is refused with "2 left" and the new one admits, with the balance untouched |
| `Scenarios.DepositThenWithdraw` | atm.py:218-247 | on a fresh terminal: depositing 100.00 gives 1100.00, withdrawing 2000.00 is refused as insufficient funds, withdrawing 40.00 gives 1060.00, and the log is creation, login, deposit, withdrawal |

## Left out

- The tkinter window is not modelled: frames, labels, fonts, message boxes and the status-label texts. Each dialog's result is a parameter, and `root.destroy` is the terminal `Locked` or `Closed` frame.
- Every handler requires its own frame on screen (login, menu or transaction), because only that frame's buttons deliver presses and a destroyed window delivers none. Calls after lockout or exit are not modelled.
- SQLite is not modelled: no connect, no `CREATE TABLE`, no commit or close. The user row and the logs table are the fields in memory.
- The branch of `load_user_data` that reads an existing row is left out, and so is persistence across restarts. The constructor models a fresh database only.
- Floats are not modelled. Amounts and the balance are integer cents; `None` stands for the text that `float()` rejects. Fractional cents, `nan` and `inf` amounts (which Python's float parse accepts) and float rounding are not captured.
- Log rows are `Event` values, one constructor per message. Their rendering to text, including the `:,.2f` amount formatting, is left out, and so are timestamps.
- `random.randint` is not modelled: the drawn number is the parameter `n`, and only its formatting is modelled.
- `update_balance_display` is not modelled, because it only renders the balance into a label.
- PinRules.CheckNewPin: it treats only ASCII `0`-`9` as digits. Python's `str.isdigit` also accepts other Unicode digit characters, such as superscripts and Arabic-Indic digits, so the source accepts some PINs that the model rejects.
