/**
 * The dialog in which a signed-in individual donates from the wallet to a fundraising post:
 * the chosen amount, whether the wallet covers it, and the confirmation.
 */
module PostDonationDialog {
  import opened Wrappers
  import opened AmountInput
  import opened Promises
  import opened AuthContext

  const QuickAmounts: seq<real> := [5.0, 10.0, 25.0, 50.0, 100.0]

  /** `user?.walletBalanceUsd || 0`. */
  function UserBalance(user: Option<Account>): real {
    if user.Some? then user.value.Balance() else 0.0
  }

  /** A quick-amount button is disabled when it is more than the wallet holds. */
  predicate QuickAmountDisabled(amount: real, balance: real) {
    amount > balance
  }

  class DialogState {
    /** The signed-in account, as `useAuth` gives it. */
    const user: Option<Account>
    /** `parseFloat`, with `None` for NaN. */
    const parseFloat: string -> Option<real>
    var selectedAmount: Option<real>
    var customAmount: string
    var isLoading: bool
    var error: Option<string>
    /** Whether `onClose` has been called. */
    var closed: bool

    constructor (user: Option<Account>, parseFloat: string -> Option<real>)
      ensures this.user == user && this.parseFloat == parseFloat
      ensures selectedAmount.None? && customAmount == "" && !isLoading && error.None? && !closed
    {
      this.user, this.parseFloat := user, parseFloat;
      selectedAmount, customAmount, isLoading, error, closed := None, "", false, None, false;
    }

    function DonationAmount(): Option<real>
      reads this
    {
      ChosenAmount(parseFloat, selectedAmount, customAmount)
    }

    function CanAfford(): bool
      reads this
    {
      DonationAmount().Some? && DonationAmount().value <= UserBalance(user)
    }

    /** `canConfirm`: a positive amount the wallet covers, and an individual account signed in. */
    function CanConfirm(): bool
      reads this
    {
      DonationAmount().Some? && DonationAmount().value > 0.0 && CanAfford() && user.Some? && user.value.IsUser()
    }

    /** The insufficient-balance warning. */
    function ShowsInsufficientBalance(): (r: bool)
      reads this
      ensures r <==> DonationAmount().Some? && !CanAfford()
      ensures r ==> !CanConfirm()
    {
      DonationAmount().Some? && DonationAmount().value > UserBalance(user)
    }

    /** A quick-amount button; a disabled one cannot be pressed. */
    method SelectQuick(amount: real)
      requires amount in QuickAmounts && !QuickAmountDisabled(amount, UserBalance(user))
      modifies this
      ensures selectedAmount == Some(amount) && customAmount == ""
      ensures DonationAmount() == Some(amount) && CanAfford() && !ShowsInsufficientBalance()
      ensures CanConfirm() <==> user.Some? && user.value.IsUser()
      ensures isLoading == old(isLoading) && error == old(error) && closed == old(closed)
    {
      selectedAmount := Some(amount);
      customAmount := "";
    }

    /** The Custom button: no selection and an empty custom text. */
    method SelectCustom()
      modifies this
      ensures selectedAmount.None? && customAmount == ""
      ensures DonationAmount() == ParseAmount(parseFloat, "")
      ensures isLoading == old(isLoading) && error == old(error) && closed == old(closed)
    {
      selectedAmount := None;
      customAmount := "";
    }

    /** Typing in the custom field, which is shown only while no quick amount is selected. */
    method EditCustom(text: string)
      requires selectedAmount.None?
      modifies this
      ensures customAmount == text && selectedAmount.None?
      ensures DonationAmount() == ParseAmount(parseFloat, text)
      ensures isLoading == old(isLoading) && error == old(error) && closed == old(closed)
    {
      customAmount := text;
    }

    /**
     * `handleConfirm`, with `outcome` for how the `onConfirm` promise settles. Returns the
     * amount passed to `onConfirm`, if it was called.
     */
    method HandleConfirm(outcome: Settled) returns (confirmed: Option<real>)
      modifies this
      ensures confirmed.Some? <==> old(CanConfirm())
      ensures confirmed.Some? ==> user.Some? && user.value.IsUser() && 0.0 < confirmed.value <= UserBalance(user)
      ensures !old(CanConfirm()) ==> confirmed.None? && isLoading == old(isLoading) && error == old(error) && closed == old(closed)
      ensures old(CanConfirm()) ==> confirmed == old(DonationAmount()) && !isLoading
      ensures old(CanConfirm()) && outcome == Fulfilled(true) ==> closed && error.None?
      ensures old(CanConfirm()) && outcome == Fulfilled(false) ==> closed == old(closed) && error == Some("Failed to process donation. Please try again.")
      ensures old(CanConfirm()) && outcome.Rejected? ==> closed == old(closed) && error == Some(ThrownMessage(outcome.thrown, "Error processing donation"))
      ensures selectedAmount == old(selectedAmount) && customAmount == old(customAmount)
    {
      if !CanConfirm() {
        return None;
      }
      isLoading := true;
      error := None;
      confirmed := DonationAmount();
      match outcome {
        case Fulfilled(success) =>
          if success {
            closed := true;
          } else {
            error := Some("Failed to process donation. Please try again.");
          }
        case Rejected(thrown) =>
          error := Some(ThrownMessage(thrown, "Error processing donation"));
      }
      isLoading := false;
    }
  }

  /** An amount that is confirmed is covered by the wallet, so deducting it leaves a balance of at least 0. */
  lemma ConfirmedAmountIsCovered(user: Option<Account>, parse: string -> Option<real>, selected: Option<real>, custom: string)
    requires ChosenAmount(parse, selected, custom).Some?
    requires 0.0 < ChosenAmount(parse, selected, custom).value <= UserBalance(user)
    ensures user.Some? && UserBalance(user) - ChosenAmount(parse, selected, custom).value >= 0.0
  {
    assert user.None? ==> UserBalance(user) == 0.0;
  }
}
