/**
 * The PIN format rule and the "new PIN, then confirm it" gate shared by the
 * change-PIN and forgotten-PIN flows.
 */
module PinRules {
  import opened Wrappers
  import opened Text

  const PinLength: nat := 4

  /** Exactly four (ASCII) digits. */
  predicate IsValidPin(s: string) {
    |s| == PinLength && AllDigits(s)
  }

  /** Why the new-PIN gate refuses. */
  datatype PinRejection =
    | Cancelled        // the new-PIN dialog was dismissed; the flow stopped silently
    | InvalidFormat    // the new PIN is not exactly four digits
    | Mismatch         // the confirmation differs from the new PIN

  /** What the PIN dialogs of the two flows can end in. */
  datatype PinOutcome =
    | Updated                      // the stored PIN was replaced
    | WrongCurrentPin              // change-PIN: the current PIN did not match
    | WrongCode                    // forgotten PIN: the verification code did not match
    | CodeCancelled                // forgotten PIN: the code dialog was dismissed
    | Rejected(reason: PinRejection)

  datatype PinCheck = Accept(pin: string) | Reject(reason: PinRejection)

  /**
   * The gate after the identity check: the new-PIN dialog must not be
   * cancelled, its text must be four digits, and the confirmation dialog must
   * return the same text (a cancelled confirmation never matches).
   */
  function CheckNewPin(newPin: Option<string>, confirmPin: Option<string>): (r: PinCheck)
    ensures r.Accept? <==> newPin.Some? && IsValidPin(newPin.value) && confirmPin == newPin
    ensures r.Accept? ==> r.pin == newPin.value
    ensures r == Reject(Cancelled) <==> newPin.None?
    ensures r == Reject(InvalidFormat) <==> newPin.Some? && !IsValidPin(newPin.value)
    ensures r == Reject(Mismatch) <==> newPin.Some? && IsValidPin(newPin.value) && confirmPin != newPin
  {
    match newPin
    case None => Reject(Cancelled)
    case Some(p) =>
      if !IsValidPin(p) then Reject(InvalidFormat)
      else if confirmPin != Some(p) then Reject(Mismatch)
      else Accept(p)
  }

  /**
   * The login comparison: the entered text and the stored PIN, each with
   * surrounding whitespace stripped, are equal. For a well-formed stored PIN
   * this accepts exactly the entries that strip to the PIN.
   */
  function EntryMatches(entered: string, stored: string): (b: bool)
    requires IsValidPin(stored)
    ensures b <==> Strip(entered) == stored
  {
    StrippedEntryMatches(entered, stored);
    Strip(entered) == Strip(stored)
  }

  /**
   * Login strips both the entered text and the stored PIN before comparing;
   * against a well-formed stored PIN that is the same as comparing the
   * stripped entry with the PIN itself.
   */
  lemma StrippedEntryMatches(entered: string, stored: string)
    requires IsValidPin(stored)
    ensures (Strip(entered) == Strip(stored)) <==> Strip(entered) == stored
  {
    assert IsDigit(stored[0]) && IsDigit(stored[|stored| - 1]);
    StripMatchesUnpadded(entered, stored);
  }
}
