/** The token transfer screen: its session state and the transitions the
    user's actions trigger, each a pure function from the old state to the
    new one. Toast notifications become the returned `Outcome`. */
module TokenScreen {
  import opened Amounts
  import opened Conversion

  const DAU: string := "DAU"
  const USD: string := "USD"

  /** The fee tier name the fee calculation tests for; every other name is
      charged the fast fee. */
  const STANDARD: string := "standard"

  /** Tier fees, in US dollars before any conversion. */
  const STANDARD_FEE_USD: real := 3.76
  const FAST_FEE_USD: real := 10.3

  /** The flat transfer fee. */
  const TRANSFER_FEE: real := 0.005

  /** The DAU balance the screen starts with. */
  const INITIAL_BALANCE_DAU: real := 7.0

  /** The component's fields apart from the popup-visibility flags. */
  datatype State = State(
    balanceInDAU: real,
    balanceInUSD: real,
    amountBeforeDeduction: Amount,
    amountAfterDeduction: Amount,
    feeType: string,
    sendPrimary: string,
    sendSecondary: string,
    receivePrimary: string,
    receiveSecondary: string,
    isAmountValid: bool)

  /** The toast an action raises: `Ok` for the success toast or for no toast,
      one constructor per error toast. */
  datatype Outcome =
    | Ok
    | EmptyAmount
    | NonPositive
    | ExceedsBalance
    | InsufficientAfterFees
    | InvalidToken

  /** The state after an action together with the toast it raised. */
  datatype Step = Step(state: State, outcome: Outcome)

  /** What `convertingCurrency` hands to the template: the amount itself, or
      a converted amount to be printed with a fixed number of fractional
      digits. */
  datatype Shown = AsEntered(amount: Amount) | Fixed(value: Amount, fractionDigits: nat)

  /** Balances are never negative. */
  ghost predicate BalancesNonNegative(s: State) {
    s.balanceInDAU >= 0.0 && s.balanceInUSD >= 0.0
  }

  /** The screen after field initialisation and `ngOnInit`: 7 DAU, its dollar
      value, no amount entered, standard fees, DAU sent and received. */
  function Init(): (s: State)
    ensures s.balanceInDAU == 7.0 && s.balanceInUSD == 523285.91
    ensures s.balanceInUSD == s.balanceInDAU * DAU_TO_USD_RATE
    ensures s.amountBeforeDeduction.Unset? && s.amountAfterDeduction == BigZero
    ensures s.feeType == STANDARD
    ensures s.sendPrimary == DAU && s.sendSecondary == USD
    ensures s.receivePrimary == DAU && s.receiveSecondary == USD
    ensures !s.isAmountValid
    ensures BalancesNonNegative(s)
  {
    State(
      balanceInDAU := INITIAL_BALANCE_DAU,
      balanceInUSD := ConvertDauToUsd(Fin(INITIAL_BALANCE_DAU)).value,
      amountBeforeDeduction := Unset,
      amountAfterDeduction := BigZero,
      feeType := STANDARD,
      sendPrimary := DAU,
      sendSecondary := USD,
      receivePrimary := DAU,
      receiveSecondary := USD,
      isAmountValid := false)
  }

  /** The fee-tier choice `toggleNetworkPopup` records: only the fee type
      changes. */
  function SelectFeeType(s: State, tier: string): (r: State)
    ensures r.feeType == tier
    ensures r.balanceInDAU == s.balanceInDAU && r.balanceInUSD == s.balanceInUSD
    ensures r.amountBeforeDeduction == s.amountBeforeDeduction
    ensures r.amountAfterDeduction == s.amountAfterDeduction
    ensures r.sendPrimary == s.sendPrimary && r.sendSecondary == s.sendSecondary
    ensures r.receivePrimary == s.receivePrimary && r.receiveSecondary == s.receiveSecondary
    ensures r.isAmountValid == s.isAmountValid
  {
    s.(feeType := tier)
  }

  /** `gettingSendCurrencyType`: the old primary send currency becomes the
      secondary one, the chosen one becomes primary, and both amounts are reset
      to a BigNumber zero; balances, receive currencies, fee type and validity
      stay. */
  function SwitchSendCurrency(s: State, currency: string): (r: State)
    ensures r.sendPrimary == currency && r.sendSecondary == s.sendPrimary
    ensures r.amountBeforeDeduction == BigZero && r.amountAfterDeduction == BigZero
    ensures r.balanceInDAU == s.balanceInDAU && r.balanceInUSD == s.balanceInUSD
    ensures r.receivePrimary == s.receivePrimary && r.receiveSecondary == s.receiveSecondary
    ensures r.feeType == s.feeType && r.isAmountValid == s.isAmountValid
  {
    var moved := s.(sendSecondary := s.sendPrimary);
    moved.(sendPrimary := currency,
           amountBeforeDeduction := BigZero,
           amountAfterDeduction := BigZero)
  }

  /** `gettingRecieveCurrencyType`: only the receive currencies move; amounts
      and balances are left as they are. */
  function SwitchReceiveCurrency(s: State, currency: string): (r: State)
    ensures r.receivePrimary == currency && r.receiveSecondary == s.receivePrimary
    ensures r.amountBeforeDeduction == s.amountBeforeDeduction
    ensures r.amountAfterDeduction == s.amountAfterDeduction
    ensures r.balanceInDAU == s.balanceInDAU && r.balanceInUSD == s.balanceInUSD
    ensures r.sendPrimary == s.sendPrimary && r.sendSecondary == s.sendSecondary
    ensures r.feeType == s.feeType && r.isAmountValid == s.isAmountValid
  {
    var moved := s.(receiveSecondary := s.receivePrimary);
    moved.(receivePrimary := currency)
  }

  /** `checkingAmountValidity`. The outer guard only turns NaN away, and a NaN
      argument leaves the flag as it was; otherwise the flag records whether
      the argument is a finite, strictly positive number. */
  function CheckAmountValidity(s: State, amount: Amount): (r: State)
    ensures amount.NaN? ==> r == s
    ensures !amount.NaN? ==> r.isAmountValid == (amount.Fin? && amount.value > 0.0)
    ensures r == s.(isAmountValid := r.isAmountValid)
  {
    if !GlobalIsNaN(amount) || GlobalIsFinite(amount) || GreaterThan(amount, 0.0) then
      var big := ToBigNumber(amount);
      if BigIsNaN(big) || !BigIsFinite(big) || BigIsNegative(big) || BigIsZero(big) then
        s.(isAmountValid := false)
      else
        s.(isAmountValid := true)
    else
      s
  }

  /** The tier fee and transfer fee subtracted from an amount received in
      `receive` at fee tier `feeType`. Receiving DAU converts the tier fees
      from dollars to DAU; receiving USD replaces the transfer fee by the
      dollar value of 10.3 DAU. */
  function TotalFees(receive: string, feeType: string): (fees: real)
    ensures receive == DAU ==>
      fees == TRANSFER_FEE + (if feeType == STANDARD then STANDARD_FEE_USD else FAST_FEE_USD) * USD_TO_DAU_RATE
    ensures receive == USD ==>
      fees == FAST_FEE_USD * DAU_TO_USD_RATE + (if feeType == STANDARD then STANDARD_FEE_USD else FAST_FEE_USD)
    ensures receive != DAU && receive != USD ==>
      fees == TRANSFER_FEE + (if feeType == STANDARD then STANDARD_FEE_USD else FAST_FEE_USD)
    ensures fees > 0.0
  {
    var standardAmount := Fin(STANDARD_FEE_USD);
    var fastAmount := Fin(FAST_FEE_USD);
    var transferFees := Fin(TRANSFER_FEE);
    var (standard, fast, transfer) :=
      if receive == DAU then
        (ConvertUsdToDau(standardAmount), ConvertUsdToDau(fastAmount), transferFees)
      else if receive == USD then
        (standardAmount, fastAmount, ConvertDauToUsd(fastAmount))
      else
        (standardAmount, fastAmount, transferFees);
    transfer.value + (if feeType == STANDARD then standard.value else fast.value)
  }

  /** `calculatingAmountToRecieve`: re-checks the entered amount (as a
      BigNumber, so an unset amount counts as NaN and leaves the flag as it
      was), then either subtracts the fees from it or raises the invalid-token
      error and leaves the deducted amount alone. The result is not clamped. */
  function CalculateAmountToReceive(s: State): (r: Step)
    ensures (s.amountBeforeDeduction.Unset? || s.amountBeforeDeduction.NaN?) ==>
      r.state.isAmountValid == s.isAmountValid
    ensures !(s.amountBeforeDeduction.Unset? || s.amountBeforeDeduction.NaN?) ==>
      r.state.isAmountValid == (s.amountBeforeDeduction.Fin? && s.amountBeforeDeduction.value > 0.0)
    ensures r.outcome == Ok <==> r.state.isAmountValid
    ensures r.outcome != Ok ==> r.outcome == InvalidToken && r.state.amountAfterDeduction == s.amountAfterDeduction
    ensures r.outcome == Ok && s.amountBeforeDeduction.Fin? ==>
      r.state.amountAfterDeduction ==
        Fin(s.amountBeforeDeduction.value - TotalFees(s.receivePrimary, s.feeType))
    ensures r.outcome == Ok && !s.amountBeforeDeduction.Fin? ==> r.state.amountAfterDeduction == NaN
    ensures r.state == s.(isAmountValid := r.state.isAmountValid,
                          amountAfterDeduction := r.state.amountAfterDeduction)
  {
    var entered := ToBigNumber(s.amountBeforeDeduction);
    var checked := CheckAmountValidity(s, entered);
    if checked.isAmountValid then
      var fees := TotalFees(s.receivePrimary, s.feeType);
      Step(checked.(amountAfterDeduction := BigMinus(entered, fees)), Ok)
    else
      Step(checked, InvalidToken)
  }

  /** `convertingCurrency`: an amount asked for in the current send currency
      is shown as it is; one asked for in DAU is converted from dollars and
      printed with 18 fractional digits; any other is converted from DAU and
      printed with 2. The value held is the conversion before `toFixed`
      rounds it to those digits. */
  function ConvertingCurrency(s: State, amount: Amount, currency: string): (r: Shown)
    ensures r.AsEntered? <==> currency == s.sendPrimary
    ensures r.AsEntered? ==> r.amount == amount
    ensures r.Fixed? && currency == DAU ==> r == Fixed(ConvertUsdToDau(amount), 18)
    ensures r.Fixed? && currency != DAU ==> r == Fixed(ConvertDauToUsd(amount), 2)
  {
    if currency == s.sendPrimary then AsEntered(amount)
    else if currency == DAU then Fixed(ConvertUsdToDau(amount), 18)
    else Fixed(ConvertDauToUsd(amount), 2)
  }

  /** The balance check of `validatingTokens`: the entered amount exceeds the
      balance of the send currency. Any other send currency is not checked. */
  predicate ExceedsSendBalance(s: State) {
    || (s.sendPrimary == DAU && GreaterThan(s.amountBeforeDeduction, s.balanceInDAU))
    || (s.sendPrimary == USD && GreaterThan(s.amountBeforeDeduction, s.balanceInUSD))
  }

  /** The debit of a successful transfer. Sending DAU subtracts from the DAU
      balance and revalues the dollar balance from what is left; sending USD
      subtracts from the dollar balance and sets the DAU balance to the value
      of the amount SENT. A balance that reaches zero zeroes the other one. */
  function Settle(s: State): (r: State)
    requires s.sendPrimary == DAU || s.sendPrimary == USD ==> s.amountBeforeDeduction.Fin?
    ensures s.sendPrimary == DAU ==>
      && r.balanceInDAU == s.balanceInDAU - s.amountBeforeDeduction.value
      && r.balanceInUSD == r.balanceInDAU * DAU_TO_USD_RATE
    ensures s.sendPrimary == USD ==>
      && r.balanceInUSD == s.balanceInUSD - s.amountBeforeDeduction.value
      && r.balanceInDAU == (if r.balanceInUSD == 0.0 then 0.0
                            else s.amountBeforeDeduction.value * USD_TO_DAU_RATE)
    ensures s.sendPrimary != DAU && s.sendPrimary != USD ==> r == s
    ensures r == s.(balanceInDAU := r.balanceInDAU, balanceInUSD := r.balanceInUSD)
  {
    if s.sendPrimary == DAU then
      var dau := s.balanceInDAU - s.amountBeforeDeduction.value;
      s.(balanceInDAU := dau,
         balanceInUSD := if dau == 0.0 then 0.0 else ConvertDauToUsd(Fin(dau)).value)
    else if s.sendPrimary == USD then
      var usd := s.balanceInUSD - s.amountBeforeDeduction.value;
      s.(balanceInUSD := usd,
         balanceInDAU := if usd == 0.0 then 0.0 else ConvertUsdToDau(s.amountBeforeDeduction).value)
    else
      s
  }

  /** `validatingTokens`: four checks in a fixed order, each raising its own
      error and changing nothing; when all pass, the send balance is debited,
      the other one recomputed, and both amounts reset to a BigNumber zero.
      The last check reads the deducted amount the latest fee calculation
      left, whatever amount it was calculated for. */
  function ValidateTokens(s: State): (r: Step)
    ensures r.outcome == EmptyAmount <==> IsFalsy(s.amountBeforeDeduction)
    ensures r.outcome == NonPositive <==>
      !IsFalsy(s.amountBeforeDeduction)
      && ((s.amountBeforeDeduction.Fin? && s.amountBeforeDeduction.value <= 0.0)
          || s.amountBeforeDeduction == Inf(true)
          || s.amountBeforeDeduction.BigZero?)
    ensures r.outcome == ExceedsBalance <==>
      !IsFalsy(s.amountBeforeDeduction) && !BigLessOrEqual(s.amountBeforeDeduction, 0.0)
      && ExceedsSendBalance(s)
    ensures r.outcome == InsufficientAfterFees <==>
      !IsFalsy(s.amountBeforeDeduction) && !BigLessOrEqual(s.amountBeforeDeduction, 0.0)
      && !ExceedsSendBalance(s) && BigLessOrEqual(s.amountAfterDeduction, 0.0)
    ensures r.outcome != InvalidToken
    ensures r.outcome != Ok ==> r.state == s
    ensures r.outcome == Ok ==>
      && r.state.amountBeforeDeduction == BigZero
      && r.state.amountAfterDeduction == BigZero
      && r.state.feeType == s.feeType
      && r.state.sendPrimary == s.sendPrimary && r.state.sendSecondary == s.sendSecondary
      && r.state.receivePrimary == s.receivePrimary && r.state.receiveSecondary == s.receiveSecondary
      && r.state.isAmountValid == s.isAmountValid
    ensures r.outcome == Ok && s.sendPrimary == DAU ==>
      && s.amountBeforeDeduction.Fin?
      && 0.0 < s.amountBeforeDeduction.value <= s.balanceInDAU
      && r.state.balanceInDAU == s.balanceInDAU - s.amountBeforeDeduction.value
      && r.state.balanceInDAU >= 0.0
      && r.state.balanceInUSD == r.state.balanceInDAU * DAU_TO_USD_RATE
    ensures r.outcome == Ok && s.sendPrimary == USD ==>
      && s.amountBeforeDeduction.Fin?
      && 0.0 < s.amountBeforeDeduction.value <= s.balanceInUSD
      && r.state.balanceInUSD == s.balanceInUSD - s.amountBeforeDeduction.value
      && r.state.balanceInUSD >= 0.0
      && r.state.balanceInDAU == (if r.state.balanceInUSD == 0.0 then 0.0
                                  else s.amountBeforeDeduction.value * USD_TO_DAU_RATE)
    ensures r.outcome == Ok && s.sendPrimary != DAU && s.sendPrimary != USD ==>
      r.state.balanceInDAU == s.balanceInDAU && r.state.balanceInUSD == s.balanceInUSD
  {
    var entered := s.amountBeforeDeduction;
    if IsFalsy(entered) then
      Step(s, EmptyAmount)
    else if BigLessOrEqual(ToBigNumber(entered), 0.0) then
      Step(s, NonPositive)
    else if ExceedsSendBalance(s) then
      Step(s, ExceedsBalance)
    else if BigLessOrEqual(s.amountAfterDeduction, 0.0) then
      Step(s, InsufficientAfterFees)
    else
      var settled := Settle(s);
      Step(settled.(amountBeforeDeduction := BigZero, amountAfterDeduction := BigZero), Ok)
  }
}
