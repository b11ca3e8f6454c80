/** The dialog that tops up the wallet: a quick amount or a custom amount, then one confirmation. */
module AddFundsDialog {
  import opened Wrappers
  import opened AmountInput
  import opened Promises

  const QuickAmounts: seq<real> := [10.0, 25.0, 50.0, 100.0, 250.0, 500.0]

  class DialogState {
    /** `parseFloat`, with `None` for NaN. */
    const parseFloat: string -> Option<real>
    var selectedAmount: Option<real>
    var customAmount: string
    var isLoading: bool
    var error: Option<string>
    /** Whether `onClose` has been called. */
    var closed: bool

    constructor (parseFloat: string -> Option<real>)
      ensures this.parseFloat == parseFloat
      ensures selectedAmount.None? && customAmount == "" && !isLoading && error.None? && !closed
    {
      this.parseFloat := parseFloat;
      selectedAmount, customAmount, isLoading, error, closed := None, "", false, None, false;
    }

    function Amount(): Option<real>
      reads this
    {
      ChosenAmount(parseFloat, selectedAmount, customAmount)
    }

    /** `canConfirm`: there is an amount and it is positive. */
    function CanConfirm(): bool
      reads this
    {
      Amount().Some? && Amount().value > 0.0
    }

    /** A quick-amount button: selects it and clears the custom text. */
    method SelectQuick(amount: real)
      requires amount in QuickAmounts
      modifies this
      ensures selectedAmount == Some(amount) && customAmount == ""
      ensures Amount() == Some(amount) && CanConfirm()
      ensures isLoading == old(isLoading) && error == old(error) && closed == old(closed)
    {
      selectedAmount := Some(amount);
      customAmount := "";
    }

    /** Typing in the custom field: takes the text and clears the quick selection. */
    method EditCustom(text: string)
      modifies this
      ensures customAmount == text && selectedAmount.None?
      ensures Amount() == ParseAmount(parseFloat, text)
      ensures isLoading == old(isLoading) && error == old(error) && closed == old(closed)
    {
      customAmount := text;
      selectedAmount := None;
    }

    /**
     * `handleConfirm`, with `outcome` for how the `onConfirm` promise settles. Returns the
     * amount passed to `onConfirm`, if it was called.
     */
    method HandleConfirm(outcome: Settled) returns (confirmed: Option<real>)
      modifies this
      ensures confirmed.Some? <==> old(CanConfirm())
      ensures confirmed.Some? ==> confirmed.value > 0.0
      ensures !old(CanConfirm()) ==> confirmed.None? && isLoading == old(isLoading) && error == old(error) && closed == old(closed)
      ensures old(CanConfirm()) ==> confirmed == old(Amount()) && !isLoading
      ensures old(CanConfirm()) && outcome == Fulfilled(true) ==> closed && error.None?
      ensures old(CanConfirm()) && outcome == Fulfilled(false) ==> closed == old(closed) && error == Some("Failed to add funds. Please try again.")
      ensures old(CanConfirm()) && outcome.Rejected? ==> closed == old(closed) && error == Some(ThrownMessage(outcome.thrown, "Error adding funds"))
      ensures selectedAmount == old(selectedAmount) && customAmount == old(customAmount)
    {
      if !CanConfirm() {
        return None;
      }
      isLoading := true;
      error := None;
      confirmed := Amount();
      match outcome {
        case Fulfilled(success) =>
          if success {
            closed := true;
          } else {
            error := Some("Failed to add funds. Please try again.");
          }
        case Rejected(thrown) =>
          error := Some(ThrownMessage(thrown, "Error adding funds"));
      }
      isLoading := false;
    }
  }
}
