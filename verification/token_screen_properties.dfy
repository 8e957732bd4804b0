/** Properties that relate several transitions of the token screen, or hold
    over any sequence of user actions. */
module TokenScreenProperties {
  import opened Amounts
  import opened Conversion
  import opened TokenScreen

  /** A user action on the screen. `Enter` is the input field's two-way
      binding writing the typed value into `amountBeforeDeduction`. */
  datatype Event =
    | Enter(amount: Amount)
    | ChooseFeeType(tier: string)
    | ChooseSendCurrency(currency: string)
    | ChooseReceiveCurrency(currency: string)
    | CheckValidity(amount: Amount)
    | Calculate
    | Validate

  /** The state after one action. */
  function Apply(s: State, e: Event): (r: State)
    ensures BalancesNonNegative(s) ==> BalancesNonNegative(r)
    ensures !e.Validate? ==> r.balanceInDAU == s.balanceInDAU && r.balanceInUSD == s.balanceInUSD
  {
    match e
    case Enter(amount) => s.(amountBeforeDeduction := amount)
    case ChooseFeeType(tier) => SelectFeeType(s, tier)
    case ChooseSendCurrency(currency) => SwitchSendCurrency(s, currency)
    case ChooseReceiveCurrency(currency) => SwitchReceiveCurrency(s, currency)
    case CheckValidity(amount) => CheckAmountValidity(s, amount)
    case Calculate => CalculateAmountToReceive(s).state
    case Validate => ValidateTokens(s).state
  }

  /** The state after a sequence of actions, in order. */
  function Run(s: State, events: seq<Event>): State
    decreases |events|
  {
    if |events| == 0 then s else Run(Apply(s, events[0]), events[1..])
  }

  /** No sequence of actions drives either balance below zero. */
  lemma {:induction false} RunKeepsBalancesNonNegative(s: State, events: seq<Event>)
    requires BalancesNonNegative(s)
    ensures BalancesNonNegative(Run(s, events))
    decreases |events|
  {
    if |events| > 0 {
      RunKeepsBalancesNonNegative(Apply(s, events[0]), events[1..]);
    }
  }

  /** Every state reachable from the initial screen has non-negative
      balances. */
  lemma ReachableBalancesNonNegative(events: seq<Event>)
    ensures BalancesNonNegative(Run(Init(), events))
  {
    RunKeepsBalancesNonNegative(Init(), events);
  }

  /** A run that never validates leaves both balances where they were. */
  lemma {:induction false} RunWithoutValidateKeepsBalances(s: State, events: seq<Event>)
    requires forall i :: 0 <= i < |events| ==> !events[i].Validate?
    ensures Run(s, events).balanceInDAU == s.balanceInDAU
    ensures Run(s, events).balanceInUSD == s.balanceInUSD
    decreases |events|
  {
    if |events| > 0 {
      assert !events[0].Validate?;
      RunWithoutValidateKeepsBalances(Apply(s, events[0]), events[1..]);
    }
  }

  /** For the same entered amount and receive currency, the fast tier never
      leaves more to receive than the standard tier. */
  lemma FastTierNeverReceivesMore(s: State, tier: string)
    requires s.amountBeforeDeduction.Fin? && s.amountBeforeDeduction.value > 0.0
    ensures CalculateAmountToReceive(SelectFeeType(s, tier)).state.amountAfterDeduction.value
         <= CalculateAmountToReceive(SelectFeeType(s, STANDARD)).state.amountAfterDeduction.value
  {
  }

  /** Receiving USD charges the dollar value of 10.3 DAU as transfer fee,
      769977.839 dollars, so every amount up to that plus the standard fee is
      left with nothing to receive. */
  lemma UsdReceiveFeeSwallowsAmount(s: State, amount: real)
    requires s.receivePrimary == USD
    requires 0.0 < amount <= FAST_FEE_USD * DAU_TO_USD_RATE + STANDARD_FEE_USD
    ensures TotalFees(USD, s.feeType) >= 769981.599
    ensures BigLessOrEqual(
      CalculateAmountToReceive(s.(amountBeforeDeduction := Fin(amount))).state.amountAfterDeduction, 0.0)
  {
  }

  /** Hence, on the initial screen switched to receive USD, entering any
      amount that the DAU balance covers and computing the fees ends in the
      insufficient-funds error. */
  lemma InitialUsdReceiveAlwaysInsufficient(amount: real)
    requires 0.0 < amount <= INITIAL_BALANCE_DAU
    ensures
      var entered := SwitchReceiveCurrency(Init(), USD).(amountBeforeDeduction := Fin(amount));
      ValidateTokens(CalculateAmountToReceive(entered).state).outcome == InsufficientAfterFees
  {
  }

  /** Changing the send currency resets the amount to a BigNumber zero, which
      is truthy, so validating straight afterwards is refused as a non-positive
      amount (not as an empty one) and changes nothing. */
  lemma ValidateAfterSendSwitchRefused(s: State, currency: string)
    ensures ValidateTokens(SwitchSendCurrency(s, currency)).outcome == NonPositive
    ensures ValidateTokens(SwitchSendCurrency(s, currency)).state == SwitchSendCurrency(s, currency)
  {
  }

  /** Switching the send currency away and back restores both send currencies. */
  lemma SwitchSendCurrencyBack(s: State, currency: string)
    ensures SwitchSendCurrency(SwitchSendCurrency(s, currency), s.sendPrimary).sendPrimary == s.sendPrimary
    ensures SwitchSendCurrency(SwitchSendCurrency(s, currency), s.sendPrimary).sendSecondary == currency
  {
  }

  /** Sending the whole balance of the send currency leaves exactly zero in
      both currencies, with no residue from conversion. */
  lemma SendingWholeBalanceZeroesBoth(s: State)
    requires s.sendPrimary == DAU || s.sendPrimary == USD
    requires s.amountBeforeDeduction.Fin?
    requires s.sendPrimary == DAU ==> s.amountBeforeDeduction.value == s.balanceInDAU
    requires s.sendPrimary == USD ==> s.amountBeforeDeduction.value == s.balanceInUSD
    requires ValidateTokens(s).outcome == Ok
    ensures ValidateTokens(s).state.balanceInDAU == 0.0
    ensures ValidateTokens(s).state.balanceInUSD == 0.0
  {
  }

  /** A successful DAU send keeps the dollar balance the exact dollar value
      of the DAU balance. */
  lemma DauSendKeepsBalancesConsistent(s: State)
    requires s.sendPrimary == DAU
    requires ValidateTokens(s).outcome == Ok
    ensures ValidateTokens(s).state.balanceInUSD == ValidateTokens(s).state.balanceInDAU * DAU_TO_USD_RATE
  {
  }

  /** A successful USD send does not: from the initial balances, sending 100
      dollars sets the DAU balance to the DAU value of the 100 dollars sent,
      far below the DAU value of the 523185.91 dollars that remain. */
  lemma UsdSendLeavesDauBalanceAtAmountSent()
    ensures
      var entered := SwitchSendCurrency(Init(), USD).(amountBeforeDeduction := Fin(100.0));
      var calculated := CalculateAmountToReceive(entered);
      var r := ValidateTokens(calculated.state);
      && calculated.outcome == Ok
      && r.outcome == Ok
      && r.state.balanceInUSD == 523185.91
      && r.state.balanceInDAU == 100.0 * USD_TO_DAU_RATE
      && r.state.balanceInDAU < r.state.balanceInUSD * USD_TO_DAU_RATE
  {
  }

  /** The first transfer of one DAU from the initial screen succeeds and
      leaves 6 DAU, valued at 6 * 74755.13 dollars. */
  lemma FirstTransferOfOneDau()
    ensures
      var entered := Init().(amountBeforeDeduction := Fin(1.0));
      var calculated := CalculateAmountToReceive(entered);
      var validated := ValidateTokens(calculated.state);
      && calculated.outcome == Ok
      && calculated.state.amountAfterDeduction.value > 0.99
      && validated.outcome == Ok
      && validated.state.balanceInDAU == 6.0
      && validated.state.balanceInUSD == 448530.78
  {
  }

  /** A freshly opened screen refuses to validate: no amount has been entered. */
  lemma InitialValidateRefused()
    ensures ValidateTokens(Init()).outcome == EmptyAmount
    ensures ValidateTokens(Init()).state == Init()
  {
  }

  /** Checking validity twice with the same argument is the same as checking
      it once. */
  lemma CheckAmountValidityIdempotent(s: State, amount: Amount)
    ensures CheckAmountValidity(CheckAmountValidity(s, amount), amount) == CheckAmountValidity(s, amount)
  {
  }

  /** The converted value a display shows, taken before `toFixed` rounds it,
      has the sign of the finite amount it was converted from. */
  lemma ConvertingCurrencyKeepsSign(s: State, amount: Amount, currency: string)
    requires amount.Fin?
    ensures ConvertingCurrency(s, amount, currency).Fixed? ==>
      && ConvertingCurrency(s, amount, currency).value.Fin?
      && (ConvertingCurrency(s, amount, currency).value.value > 0.0 <==> amount.value > 0.0)
      && (ConvertingCurrency(s, amount, currency).value.value == 0.0 <==> amount.value == 0.0)
  {
  }

  /** A successful settlement resets the amount to a BigNumber zero, so
      settling again at once is refused as a non-positive amount and changes
      nothing. */
  lemma SecondValidateRefused(s: State)
    requires ValidateTokens(s).outcome == Ok
    ensures ValidateTokens(ValidateTokens(s).state).outcome == NonPositive
    ensures ValidateTokens(ValidateTokens(s).state).state == ValidateTokens(s).state
  {
  }

  /** Settlement tests the deducted amount the last fee calculation left, not
      one for the amount now entered: after calculating for 7 DAU, entering
      0.001 DAU, less than the fees, still settles. */
  lemma StaleDeductionLetsSmallAmountThrough()
    ensures
      var calculated := CalculateAmountToReceive(Init().(amountBeforeDeduction := Fin(7.0)));
      var entered := calculated.state.(amountBeforeDeduction := Fin(0.001));
      var settled := ValidateTokens(entered);
      && 0.001 < TotalFees(DAU, STANDARD)
      && calculated.outcome == Ok
      && settled.outcome == Ok
      && settled.state.balanceInDAU == 6.999
  {
  }

  /** A sharper form of the same: once a fee calculation has succeeded,
      clearing the input and calculating again keeps the validity flag (the
      unset amount becomes a NaN BigNumber, which the validity check ignores)
      and stores a NaN deducted amount. NaN is not at most 0, so any amount
      the balance covers then settles, whatever the receive currency and its
      fees. */
  lemma ClearedEntryLetsAnyAmountThrough(receive: string, amount: real)
    requires 0.0 < amount <= INITIAL_BALANCE_DAU
    ensures
      var start := SwitchReceiveCurrency(Init(), receive);
      var first := CalculateAmountToReceive(start.(amountBeforeDeduction := Fin(1.0)));
      var cleared := CalculateAmountToReceive(first.state.(amountBeforeDeduction := Unset));
      var settled := ValidateTokens(cleared.state.(amountBeforeDeduction := Fin(amount)));
      && first.outcome == Ok
      && cleared.outcome == Ok
      && cleared.state.amountAfterDeduction.NaN?
      && settled.outcome == Ok
      && settled.state.balanceInDAU == INITIAL_BALANCE_DAU - amount
  {
  }
}
