/**
 * The ATM terminal: one account (a PIN and a balance), a failed-login counter
 * with lockout, the withdraw/deposit screen, change-PIN, the forgotten-PIN
 * recovery flow, and the append-only event log every handler writes to.
 *
 * Every dialog the terminal shows is a parameter of the handler that shows it:
 * the entered text is an `Option<string>` (`None` when the dialog is
 * cancelled), a yes/no confirmation a `bool`. Money is in integer cents.
 */
module Atm {
  import opened Wrappers
  import opened Text
  import opened RecoveryCode
  import opened PinRules

  const MaxAttempts: nat := 3
  const DefaultPin: string := "1234"
  /** 1000.00 in cents. */
  const DefaultBalance: int := 100000

  /** Which frame the window shows; `Locked` and `Closed` are after the window is destroyed. */
  datatype Screen = Login | Menu | Transaction | Locked | Closed

  datatype Operation = Withdraw | Deposit

  /** One row of the event log, one constructor per distinct message. */
  datatype Event =
    | UserCreated
    | LoggedIn
    | FailedLogin(remaining: nat)
    | AccountLocked
    | CheckedBalance
    | Withdrew(amount: int)
    | Deposited(amount: int)
    | PinChangeRejected
    | PinChanged
    | ResetRejected
    | PinReset
    | Exited

  datatype AuthOutcome = Granted | Denied(remaining: nat) | LockedOut

  datatype TxOutcome =
    | InvalidInput       // the amount text is not a number
    | NonPositive        // amount <= 0
    | InsufficientFunds  // withdrawal larger than the balance
    | UnknownOperation   // no withdraw/deposit selected
    | Declined           // the user answered "no" to the confirmation
    | Applied

  class ATM {
    var pin: string
    /** In cents. */
    var balance: int
    var attempts: nat
    var verificationCode: Option<string>
    var currentOperation: Option<Operation>
    var screen: Screen
    var log: seq<Event>

    /**
     * The state every handler keeps: a four-digit PIN, a non-negative
     * balance, fewer than `MaxAttempts` failures unless the terminal has
     * locked (and exactly that many once it has), none at all past the
     * login frame (only a successful login leaves it), any issued code a
     * well-formed six-digit code, and the log starting with the creation of
     * the default user.
     */
    ghost predicate Valid()
      reads this
    {
      IsValidPin(pin) && balance >= 0
      && attempts <= MaxAttempts && (attempts == MaxAttempts <==> screen == Locked)
      && (screen == Menu || screen == Transaction || screen == Closed ==> attempts == 0)
      && (verificationCode.Some? ==> ParseCode(verificationCode.value).Some?)
      && |log| > 0 && log[0] == UserCreated
    }

    /** The window still exists and delivers button presses. */
    predicate Running()
      reads this
    {
      screen != Locked && screen != Closed
    }

    /** A fresh database: the default user is inserted and its creation logged. */
    constructor ()
      ensures Valid() && Running()
      ensures pin == DefaultPin && balance == DefaultBalance && attempts == 0
      ensures verificationCode == None && currentOperation == None
      ensures screen == Login && log == [UserCreated]
    {
      pin := DefaultPin;
      balance := DefaultBalance;
      log := [UserCreated];
      attempts := 0;
      verificationCode := None;
      currentOperation := None;
      screen := Login;
    }

    /** Appends one row to the log; earlier rows are never changed. */
    method LogEvent(e: Event)
      modifies this`log
      ensures log == old(log) + [e]
    {
      log := log + [e];
    }

    method UpdateBalance(newBalance: int)
      modifies this`balance
      ensures balance == newBalance
    {
      balance := newBalance;
    }

    method UpdatePin(newPin: string)
      modifies this`pin
      ensures pin == newPin
    {
      pin := newPin;
    }

    /**
     * The Login button. The entered text is compared with the stored PIN
     * after stripping surrounding whitespace from both. A match resets the
     * counter and opens the menu; a mismatch counts one failure and, when no
     * attempts remain, locks the terminal.
     */
    method Authenticate(entered: string) returns (outcome: AuthOutcome)
      requires Valid() && screen == Login
      modifies this`attempts, this`screen, this`log
      ensures Valid()
      ensures Strip(entered) == pin ==>
        outcome == Granted && attempts == 0 && screen == Menu && log == old(log) + [LoggedIn]
      ensures Strip(entered) != pin ==> attempts == old(attempts) + 1
      ensures Strip(entered) != pin && attempts == MaxAttempts ==>
        outcome == LockedOut && screen == Locked && log == old(log) + [AccountLocked]
      ensures Strip(entered) != pin && attempts < MaxAttempts ==>
        outcome == Denied(MaxAttempts - attempts) && screen == old(screen)
        && log == old(log) + [FailedLogin(MaxAttempts - attempts)]
    {
      var matched := EntryMatches(entered, pin);
      if matched {
        attempts := 0;
        screen := Menu;
        LogEvent(LoggedIn);
        outcome := Granted;
      } else {
        attempts := attempts + 1;
        var remaining := MaxAttempts - attempts;
        if remaining == 0 {
          LogEvent(AccountLocked);
          screen := Locked;
          outcome := LockedOut;
        } else {
          LogEvent(FailedLogin(remaining));
          outcome := Denied(remaining);
        }
      }
    }

    /** The Check Balance button: shows the balance and logs that it was viewed. */
    method CheckBalance() returns (shown: int)
      requires Valid() && screen == Menu
      modifies this`log
      ensures Valid()
      ensures shown == balance && log == old(log) + [CheckedBalance]
    {
      shown := balance;
      LogEvent(CheckedBalance);
    }

    /** The Withdraw Cash and Deposit Cash buttons: select the operation and open its screen. */
    method SelectOperation(op: Operation)
      requires Valid() && screen == Menu
      modifies this`currentOperation, this`screen
      ensures Valid() && Running()
      ensures currentOperation == Some(op) && screen == Transaction
    {
      currentOperation := Some(op);
      screen := Transaction;
    }

    /** The Cancel button of the transaction screen. */
    method CancelTransaction()
      requires Valid() && screen == Transaction
      modifies this`screen
      ensures Valid() && Running()
      ensures screen == Menu
    {
      screen := Menu;
    }

    /**
     * The Confirm button of the transaction screen. `amount` is the entered
     * amount in cents, `None` when it is not a number; `confirm` is the answer
     * to the yes/no dialog, which is asked only once the amount has passed
     * every check. Only a confirmed transaction touches the balance and the
     * log; a checked one returns to the menu whether or not it was confirmed.
     */
    method PerformTransaction(amount: Option<int>, confirm: bool) returns (outcome: TxOutcome)
      requires Valid() && screen == Transaction
      modifies this`balance, this`log, this`screen
      ensures Valid()
      ensures outcome == InvalidInput <==> amount.None?
      ensures outcome == NonPositive <==> amount.Some? && amount.value <= 0
      ensures outcome == InsufficientFunds <==>
        amount.Some? && amount.value > 0 && currentOperation == Some(Withdraw) && amount.value > old(balance)
      ensures outcome == UnknownOperation <==> amount.Some? && amount.value > 0 && currentOperation.None?
      ensures outcome == Applied <==>
        amount.Some? && amount.value > 0 && confirm
        && (currentOperation == Some(Deposit) || (currentOperation == Some(Withdraw) && amount.value <= old(balance)))
      ensures outcome == Applied && currentOperation == Some(Withdraw) ==>
        balance == old(balance) - amount.value && log == old(log) + [Withdrew(amount.value)]
      ensures outcome == Applied && currentOperation == Some(Deposit) ==>
        balance == old(balance) + amount.value && log == old(log) + [Deposited(amount.value)]
      ensures outcome != Applied ==> balance == old(balance) && log == old(log)
      ensures screen == if outcome == Applied || outcome == Declined then Menu else old(screen)
    {
      if amount.None? {
        return InvalidInput;
      }
      var value := amount.value;
      if value <= 0 {
        return NonPositive;
      }
      match currentOperation {
        case Some(Withdraw) =>
          if value > balance {
            return InsufficientFunds;
          }
          if confirm {
            var newBalance := balance - value;
            UpdateBalance(newBalance);
            LogEvent(Withdrew(value));
          }
        case Some(Deposit) =>
          if confirm {
            var newBalance := balance + value;
            UpdateBalance(newBalance);
            LogEvent(Deposited(value));
          }
        case None =>
          return UnknownOperation;
      }
      outcome := if confirm then Applied else Declined;
      screen := Menu;
    }

    /**
     * The Change PIN button: current PIN, new PIN, confirmation. The current
     * PIN is compared as entered (no stripping), and a cancelled first dialog
     * counts as a wrong PIN. Only a wrong current PIN and a successful change
     * are logged.
     */
    method ChangePin(current: Option<string>, newPin: Option<string>, confirmPin: Option<string>)
      returns (outcome: PinOutcome)
      requires Valid() && screen == Menu
      modifies this`pin, this`log
      ensures Valid()
      ensures outcome == WrongCurrentPin <==> current != Some(old(pin))
      ensures outcome == Updated <==> current == Some(old(pin)) && CheckNewPin(newPin, confirmPin).Accept?
      ensures current == Some(old(pin)) && outcome != Updated ==> outcome == Rejected(CheckNewPin(newPin, confirmPin).reason)
      ensures pin == if outcome == Updated then newPin.value else old(pin)
      ensures log == old(log) + (if outcome == WrongCurrentPin then [PinChangeRejected]
                                 else if outcome == Updated then [PinChanged] else [])
    {
      if current != Some(pin) {
        LogEvent(PinChangeRejected);
        return WrongCurrentPin;
      }
      match CheckNewPin(newPin, confirmPin)
      case Reject(reason) =>
        return Rejected(reason);
      case Accept(p) =>
        UpdatePin(p);
        LogEvent(PinChanged);
        outcome := Updated;
    }

    /**
     * The Forgot Password button. `n` is the number drawn for the code; the
     * code is issued (replacing any earlier one) before anything is asked.
     * The entered code is compared with it as text, then the new PIN passes
     * the same gate as in `ChangePin`. Only a wrong code and a successful
     * reset are logged; the failed-login counter is left as it is.
     */
    method ForgotPassword(n: nat, enteredCode: Option<string>, newPin: Option<string>, confirmPin: Option<string>)
      returns (outcome: PinOutcome)
      requires Valid() && screen == Login
      requires n <= MaxCode
      modifies this`verificationCode, this`pin, this`log
      ensures Valid()
      ensures verificationCode == Some(FormatCode(n))
      ensures outcome == CodeCancelled <==> enteredCode.None?
      ensures outcome == WrongCode <==> enteredCode.Some? && enteredCode.value != FormatCode(n)
      ensures outcome == Updated <==> enteredCode == Some(FormatCode(n)) && CheckNewPin(newPin, confirmPin).Accept?
      ensures enteredCode == Some(FormatCode(n)) && outcome != Updated ==>
        outcome == Rejected(CheckNewPin(newPin, confirmPin).reason)
      ensures pin == if outcome == Updated then newPin.value else old(pin)
      ensures log == old(log) + (if outcome == WrongCode then [ResetRejected]
                                 else if outcome == Updated then [PinReset] else [])
    {
      verificationCode := Some(FormatCode(n));
      FormatThenParse(n);
      if enteredCode.None? {
        return CodeCancelled;
      }
      if enteredCode != verificationCode {
        LogEvent(ResetRejected);
        return WrongCode;
      }
      match CheckNewPin(newPin, confirmPin)
      case Reject(reason) =>
        return Rejected(reason);
      case Accept(p) =>
        UpdatePin(p);
        LogEvent(PinReset);
        outcome := Updated;
    }

    /** The Exit button: on "yes" the exit is logged and the window closed. */
    method Exit(confirm: bool)
      requires Valid() && screen == Menu
      modifies this`log, this`screen
      ensures Valid()
      ensures confirm ==> screen == Closed && log == old(log) + [Exited]
      ensures !confirm ==> screen == old(screen) && log == old(log)
    {
      if confirm {
        LogEvent(Exited);
        screen := Closed;
      }
    }
  }
}
