/**
 * Sequences of button presses on one terminal, proved from the handlers'
 * contracts alone.
 */
module Scenarios {
  import opened Wrappers
  import opened Text
  import opened RecoveryCode
  import opened PinRules
  import opened Atm

  /** Three wrong entries in a row from a clean counter lock the terminal, writing one lock event. */
  method ThreeFailuresLock(atm: ATM, e1: string, e2: string, e3: string)
    returns (r1: AuthOutcome, r2: AuthOutcome, r3: AuthOutcome)
    requires atm.Valid() && atm.screen == Login && atm.attempts == 0
    requires Strip(e1) != atm.pin && Strip(e2) != atm.pin && Strip(e3) != atm.pin
    modifies atm
    ensures r1 == Denied(2) && r2 == Denied(1) && r3 == LockedOut
    ensures atm.screen == Locked && !atm.Running() && atm.attempts == MaxAttempts
    ensures atm.log == old(atm.log) + [FailedLogin(2), FailedLogin(1), AccountLocked]
    ensures atm.pin == old(atm.pin) && atm.balance == old(atm.balance)
  {
    r1 := atm.Authenticate(e1);
    r2 := atm.Authenticate(e2);
    r3 := atm.Authenticate(e3);
  }

  /** A failure followed by the right PIN clears the counter, so the next three failures are needed to lock. */
  method SuccessResetsCounter(atm: ATM, wrong: string, right: string) returns (r1: AuthOutcome, r2: AuthOutcome)
    requires atm.Valid() && atm.screen == Login && atm.attempts == 0
    requires Strip(wrong) != atm.pin && Strip(right) == atm.pin
    modifies atm
    ensures r1 == Denied(2) && r2 == Granted
    ensures atm.attempts == 0 && atm.screen == Menu
    ensures atm.log == old(atm.log) + [FailedLogin(2), LoggedIn]
  {
    r1 := atm.Authenticate(wrong);
    r2 := atm.Authenticate(right);
  }

  /**
   * After the forgotten-PIN flow resets the PIN to a different one, the old
   * PIN is refused at the login screen and the new one admits.
   */
  method ResetPinAuthenticates(atm: ATM, n: nat, newPin: string) returns (reset: PinOutcome, withOld: AuthOutcome, withNew: AuthOutcome)
    requires atm.Valid() && atm.screen == Login && atm.attempts == 0
    requires n <= MaxCode && IsValidPin(newPin) && newPin != atm.pin
    modifies atm
    ensures reset == Updated && withOld == Denied(2) && withNew == Granted
    ensures atm.pin == newPin && atm.balance == old(atm.balance) && atm.screen == Menu
    ensures atm.log == old(atm.log) + [PinReset, FailedLogin(2), LoggedIn]
  {
    var oldPin := atm.pin;
    reset := atm.ForgotPassword(n, Some(FormatCode(n)), Some(newPin), Some(newPin));
    StrippedEntryMatches(oldPin, oldPin);
    StrippedEntryMatches(newPin, newPin);
    withOld := atm.Authenticate(oldPin);
    withNew := atm.Authenticate(newPin);
  }

  /**
   * On a fresh terminal: log in, deposit 100.00, try to withdraw more than
   * the balance, then withdraw 40.00. Amounts in cents.
   */
  method DepositThenWithdraw() returns (afterDeposit: int, refused: TxOutcome, afterWithdrawal: int, log: seq<Event>)
    ensures afterDeposit == 110000 && refused == InsufficientFunds && afterWithdrawal == 106000
    ensures log == [UserCreated, LoggedIn, Deposited(10000), Withdrew(4000)]
  {
    var atm := new ATM();
    StrippedEntryMatches(DefaultPin, DefaultPin);
    var granted := atm.Authenticate(DefaultPin);
    atm.SelectOperation(Deposit);
    var applied := atm.PerformTransaction(Some(10000), true);
    afterDeposit := atm.balance;
    atm.SelectOperation(Withdraw);
    refused := atm.PerformTransaction(Some(200000), true);
    applied := atm.PerformTransaction(Some(4000), true);
    afterWithdrawal := atm.balance;
    log := atm.log;
  }
}
