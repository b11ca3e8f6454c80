/**
 * The dialog for a direct donation to an organization: an amount, an e-mail address for the
 * receipt, and a submission to the donation service.
 */
module DonationDialog {
  import opened Wrappers
  import opened Strings
  import opened AmountInput
  import opened Promises
  import opened EmailPattern
  import opened DemoData

  const QuickAmounts: seq<real> := [5.0, 10.0, 25.0, 50.0, 100.0]

  /** What `submitDonation` is given. */
  datatype DonationRequest = DonationRequest(organization: Organization, amount: real, email: string)

  /** `canConfirm` on an amount and the e-mail text: the amount is positive and the trimmed address is valid. */
  predicate Confirmable(amount: Option<real>, email: string) {
    amount.Some? && amount.value > 0.0 && Trim(email) != "" && IsValidEmail(Trim(email))
  }

  /** The warning tests the text as typed. */
  predicate EmailWarning(email: string) {
    email != "" && !IsValidEmail(email)
  }

  /** Confirmation needs a positive amount and a trimmed address that matches the pattern, and nothing else. */
  lemma ConfirmableIffPattern(amount: Option<real>, email: string)
    ensures Confirmable(amount, email) <==> amount.Some? && amount.value > 0.0 && MatchesPattern(Trim(email))
  {
    IsValidEmailMatchesPattern(Trim(email));
  }

  /** The warning shows exactly when something is typed that does not match the pattern. */
  lemma EmailWarningIffNoMatch(email: string)
    ensures EmailWarning(email) <==> email != "" && !MatchesPattern(email)
  {
    IsValidEmailMatchesPattern(email);
  }

  class DialogState {
    const organization: Organization
    /** `parseFloat`, with `None` for NaN. */
    const parseFloat: string -> Option<real>
    var selectedAmount: Option<real>
    var customAmount: string
    var email: string
    var isLoading: bool
    var error: Option<string>
    /** Whether `onClose` has been called. */
    var closed: bool

    constructor (organization: Organization, parseFloat: string -> Option<real>)
      ensures this.organization == organization && this.parseFloat == parseFloat
      ensures selectedAmount.None? && customAmount == "" && email == ""
      ensures !isLoading && error.None? && !closed
    {
      this.organization, this.parseFloat := organization, parseFloat;
      selectedAmount, customAmount, email := None, "", "";
      isLoading, error, closed := false, None, false;
    }

    function DonationAmount(): Option<real>
      reads this
    {
      ChosenAmount(parseFloat, selectedAmount, customAmount)
    }

    /** `canConfirm`. */
    function CanConfirm(): bool
      reads this
    {
      Confirmable(DonationAmount(), email)
    }

    /** The inline warning under the e-mail field. */
    function ShowsEmailWarning(): bool
      reads this
    {
      EmailWarning(email)
    }

    method SelectQuick(amount: real)
      requires amount in QuickAmounts
      modifies this
      ensures selectedAmount == Some(amount) && customAmount == "" && DonationAmount() == Some(amount)
      ensures email == old(email) && isLoading == old(isLoading) && error == old(error) && closed == old(closed)
    {
      selectedAmount := Some(amount);
      customAmount := "";
    }

    method SelectCustom()
      modifies this
      ensures selectedAmount.None? && customAmount == "" && DonationAmount() == ParseAmount(parseFloat, "")
      ensures email == old(email) && isLoading == old(isLoading) && error == old(error) && closed == old(closed)
    {
      selectedAmount := None;
      customAmount := "";
    }

    /** Typing in the custom field, which is shown only while no quick amount is selected. */
    method EditCustom(text: string)
      requires selectedAmount.None?
      modifies this
      ensures customAmount == text && selectedAmount.None? && DonationAmount() == ParseAmount(parseFloat, text)
      ensures email == old(email) && isLoading == old(isLoading) && error == old(error) && closed == old(closed)
    {
      customAmount := text;
    }

    method EditEmail(text: string)
      modifies this
      ensures email == text
      ensures selectedAmount == old(selectedAmount) && customAmount == old(customAmount)
      ensures isLoading == old(isLoading) && error == old(error) && closed == old(closed)
    {
      email := text;
    }

    /**
     * `handleConfirm`, with `outcome` for how `submitDonation` settles (any fulfilled value is
     * success). Returns what was submitted, if anything.
     */
    method HandleConfirm(outcome: Settled) returns (request: Option<DonationRequest>)
      modifies this
      ensures !old(CanConfirm()) ==> request.None? && isLoading == old(isLoading) && error == old(error) && closed == old(closed)
      ensures old(CanConfirm()) ==> request == Some(DonationRequest(organization, old(DonationAmount()).value, Trim(email))) && !isLoading
      ensures old(CanConfirm()) && outcome.Fulfilled? ==> closed && error.None?
      ensures old(CanConfirm()) && outcome.Rejected? ==> closed == old(closed) && error == Some(ThrownMessage(outcome.thrown, "Error processing donation"))
      ensures selectedAmount == old(selectedAmount) && customAmount == old(customAmount) && email == old(email)
    {
      if !CanConfirm() {
        return None;
      }
      isLoading := true;
      error := None;
      request := Some(DonationRequest(organization, DonationAmount().value, Trim(email)));
      match outcome {
        case Fulfilled(_) =>
          closed := true;
        case Rejected(thrown) =>
          error := Some(ThrownMessage(thrown, "Error processing donation"));
      }
      isLoading := false;
    }
  }

  /** Trimming removes one leading space from a word without whitespace. */
  lemma TrimPadded(t: string)
    requires t != [] && NoWhitespace(t)
    ensures Trim(" " + t) == t
  {
    var s := " " + t;
    assert s[1..] == t && IsWhitespace(s[0]);
    assert !IsWhitespace(t[0]) && !IsWhitespace(t[|t| - 1]);
    assert TrimStart(s) == TrimStart(t) == t;
    assert TrimEnd(t) == t;
  }

  /**
   * An address typed with a leading space shows the warning, since the warning tests the untrimmed
   * text, while the trimmed address it confirms with matches the pattern.
   */
  lemma WarningDisagreesWithConfirm(t: string)
    requires MatchesPattern(t)
    ensures var typed := " " + t; typed != "" && !MatchesPattern(typed) && MatchesPattern(Trim(typed))
  {
    IsValidEmailMatchesPattern(t);
    IsValidEmailMatchesPattern(" " + t);
    assert IsWhitespace((" " + t)[0]);
    TrimPadded(t);
  }
}
