/** What the screens hand to the navigator: a target screen and a parameter
    mapping, pushed (`navigate`) or swapped in for the current screen
    (`replace`). */
module Navigation {
  import opened Ledger

  datatype Screen = Login | SignUp | HomePage | PaymentPage

  /** A route parameter: a string, or the list of transactions the payment
      screen reads. */
  datatype Param = StrParam(s: string) | ListParam(ts: seq<Transaction>)

  type Params = map<string, Param>

  datatype Nav =
    | Navigate(screen: Screen, params: Params)
    | Replace(screen: Screen, params: Params)
}
