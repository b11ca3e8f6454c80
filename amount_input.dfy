/**
 * What the three amount dialogs share: reading an amount from a quick selection or from the
 * custom text field.
 */
module AmountInput {
  import opened Wrappers

  /**
   * `parseFloat(text) || null`. `parse` stands for `parseFloat`, with `None` for NaN; both NaN
   * and 0 are falsy, so both give no amount.
   */
  function ParseAmount(parse: string -> Option<real>, text: string): Option<real>
  {
    match parse(text)
    case None => None
    case Some(x) => if x == 0.0 then None else Some(x)
  }

  /** `selectedAmount === null ? parseFloat(customAmount) || null : selectedAmount`. */
  function ChosenAmount(parse: string -> Option<real>, selected: Option<real>, custom: string): Option<real>
  {
    if selected.None? then ParseAmount(parse, custom) else selected
  }
}
