# Token screen transfer logic in Dafny

This project models the arithmetic and state machine of `TokenScreenComponent`,
an Angular view for sending a crypto token. It holds a DAU balance and its
US-dollar value, and an amount the user enters. It has a fee tier
(`'standard'` or anything else, which is charged as fast) and a send currency
and a receive currency (`'DAU'` or `'USD'`). Actions on the screen:

- convert between DAU and USD at 74755.13 dollars per DAU;
- check that the entered amount is a valid positive number;
- subtract the transfer fee and the tier fee from it;
- convert an amount for display;
- settle the transfer. Settlement runs four checks in a fixed order and then
  debits the balance of the send currency.

The component's fields are an immutable `State` record, and every action is a
pure function from the old state to the new one. The toasts it shows become a
returned `Outcome` (`Ok`, `EmptyAmount`, `NonPositive`, `ExceedsBalance`,
`InsufficientAfterFees`, `InvalidToken`). bignumber.js works in exact decimal,
so a finite amount is a Dafny `real`. An entered amount is
`Unset | NaN | Inf(negative) | Fin(value) | BigZero`. `Unset` is the initial
`null` and the empty input. `BigZero` is the `new BigNumber(0)` the component
stores when it resets an amount.

Files:

- `amounts.dfy`: the `Amount` datatype and the JavaScript and bignumber.js
  tests applied to it (falsiness, `isNaN`, `isFinite`, `>`, `isNegative`,
  `isZero`, `lessThanOrEqualTo`, `minus`, `new BigNumber(null)`).
- `conversion.dfy`: the two rates and the two conversions.
- `token_screen.dfy`: the state, the outcome, and each action.
- `token_screen_properties.dfy`: properties that relate several actions, and
  an induction over any sequence of user actions.

The code keeps several quirks, and the model keeps them too:

- The conversions do not round. The doc-comments at lines 43 and 61 promise
  18 decimal places, and the inline comments at lines 51 and 69 name 18 and
  2, but the `toFixed` calls there are commented out.
- When the receive currency is USD, the transfer fee is the dollar value of
  10.3 DAU (769977.839 dollars). It is not a conversion of the 0.005 fee.
- After a USD send, the DAU balance is set to the DAU value of the amount
  sent, not of the dollars that remain.
- `checkingAmountValidity` ignores a NaN argument. Since `new BigNumber(null)`
  is NaN, calculating the fees with no amount entered leaves the validity
  flag at whatever it was before.
- Resets store `new BigNumber(0)`, an object and so truthy. Settling right
  after a send-currency change, or right after a successful settlement,
  fails as "negative or zero", not as "no amount".
- Settlement tests the deducted amount that the latest fee calculation left,
  even if that calculation was for a different amount. After calculating for
  7 DAU, an entry of 0.001 DAU (less than the fees) still settles. Worse,
  after one successful calculation, clearing the input and calculating again
  keeps the validity flag and stores a NaN deducted amount. NaN is not at most
  0, so any amount the balance covers then settles, whatever the fees.

## Model

| member | source | states |
|---|---|---|
| Amounts.ToBigNumber | src/app/token-screen/token-screen.component.ts:112 | `new BigNumber(a)` never yields an unset value. It is NaN exactly when the input is null or NaN, and any other input is kept as it is |
| Amounts.BigMinus | src/app/token-screen/token-screen.component.ts:128-130 | Subtracting a finite fee leaves a finite result exactly when the amount is finite (or a BigNumber zero), and then result + fee equals the amount. Infinity is kept, and NaN or null give NaN |
| Conversion.Scale | src/app/token-screen/token-screen.component.ts:45-72 | A falsy amount (null, NaN, the number 0) and a BigNumber zero both convert to 0. A finite amount converts to exactly amount × rate, with no rounding. Infinity keeps its sign under a positive rate, flips it under a negative rate, and becomes NaN at rate 0 |
| Conversion.ConvertUsdToDau | src/app/token-screen/token-screen.component.ts:45-54 | At the default rate, a falsy amount gives 0, a finite amount gives exactly amount × USD_TO_DAU_RATE, a positive amount stays positive, and infinity is kept |
| Conversion.ConvertDauToUsd | src/app/token-screen/token-screen.component.ts:63-72 | At the default rate 74755.13, a falsy amount gives 0, a finite amount gives exactly amount × 74755.13, a positive amount stays positive, and infinity is kept |
| Conversion.ScaleRoundTrip | src/app/token-screen/token-screen.component.ts:49-53 | Converting a finite amount at a positive rate and then at its exact reciprocal returns the original amount. No rounding conversion could do this for every input |
| Conversion.ScaleKeepsSign | src/app/token-screen/token-screen.component.ts:45-72 | At a positive rate, zero maps to zero, positive to positive and negative to negative, in both directions |
| Conversion.ScaleAdditiveAndMonotone | src/app/token-screen/token-screen.component.ts:45-72 | At a positive rate, converting a sum equals the sum of the conversions, and conversion preserves order |
| TokenScreen.Init | src/app/token-screen/token-screen.component.ts:18-36 | The initial screen holds 7 DAU and 523285.91 USD, the exact dollar value of the DAU. No amount is entered, the deducted amount is a BigNumber zero, fees are standard, DAU is primary for send and receive with USD secondary, and the amount is not valid |
| TokenScreen.SelectFeeType | src/app/token-screen/token-screen.component.ts:74-77 | Choosing a fee tier sets the fee type to the chosen name. Balances, amounts, currencies and the validity flag are unchanged |
| TokenScreen.SwitchSendCurrency | src/app/token-screen/token-screen.component.ts:83-88 | The old primary send currency becomes the secondary and the chosen one becomes primary. Both amounts become a BigNumber zero. Balances, receive currencies, fee type and flag are unchanged |
| TokenScreen.SwitchReceiveCurrency | src/app/token-screen/token-screen.component.ts:90-93 | The old primary receive currency becomes the secondary and the chosen one becomes primary. Amounts, balances, send currencies, fee type and flag are unchanged |
| TokenScreen.CheckAmountValidity | src/app/token-screen/token-screen.component.ts:95-109 | A NaN argument changes nothing. For any other argument, the flag becomes true exactly when the argument is finite and strictly positive. No other field changes |
| TokenScreen.TotalFees | src/app/token-screen/token-screen.component.ts:115-127 | Receiving DAU costs 0.005 plus the tier fee (3.76 standard, 10.3 otherwise) converted from USD. Receiving USD costs 10.3 × 74755.13 plus the unconverted tier fee. Any other receive currency costs 0.005 plus the unconverted tier fee. The total is always positive |
| TokenScreen.CalculateAmountToReceive | src/app/token-screen/token-screen.component.ts:111-137 | An unset or NaN amount leaves the flag as it was. Otherwise the flag is true exactly for a finite positive amount. An invalid amount raises InvalidToken and leaves the deducted amount unchanged. A valid finite amount gives amount − total fees, with no clamping. A still-set flag with no finite amount gives NaN. Nothing else changes |
| TokenScreen.ConvertingCurrency | src/app/token-screen/token-screen.component.ts:139-147 | An amount requested in the primary send currency is returned unchanged. A DAU request is converted from USD and is to be shown with 18 digits. Any other request is converted from DAU and is to be shown with 2 digits. The value held is the conversion before rounding |
| TokenScreen.Settle | src/app/token-screen/token-screen.component.ts:177-191 | Sending DAU debits the DAU balance and sets USD to the remaining DAU × 74755.13, or to 0 when the DAU balance is 0. Sending USD debits the USD balance and sets DAU to the amount sent × USD_TO_DAU_RATE, or to 0 when the USD balance is 0. Any other send currency changes nothing |
| TokenScreen.ValidateTokens | src/app/token-screen/token-screen.component.ts:159-196 | Each error is raised exactly when all earlier checks pass and its own fails, in this order: empty amount (null, NaN or the number 0), amount ≤ 0 (including a BigNumber zero), amount above the send-currency balance, deducted amount ≤ 0. An error changes nothing. On success, the debited balance stays ≥ 0, the DAU branch keeps USD = DAU × rate, both amounts reset to a BigNumber zero, and no other field changes |
| TokenScreenProperties.Apply | src/app/token-screen/token-screen.component.ts:74-196 | No single action makes a balance negative, and only settlement touches the balances |
| TokenScreenProperties.RunKeepsBalancesNonNegative | src/app/token-screen/token-screen.component.ts:177-191 | From non-negative balances, every sequence of actions keeps both balances non-negative |
| TokenScreenProperties.ReachableBalancesNonNegative | src/app/token-screen/token-screen.component.ts:27-36 | Every state reachable from the initial screen has non-negative balances |
| TokenScreenProperties.RunWithoutValidateKeepsBalances | src/app/token-screen/token-screen.component.ts:74-147 | A sequence of actions without a settlement leaves both balances unchanged |
| TokenScreenProperties.FastTierNeverReceivesMore | src/app/token-screen/token-screen.component.ts:115-127 | For the same positive amount and receive currency, any non-standard tier leaves at most as much to receive as the standard tier |
| TokenScreenProperties.UsdReceiveFeeSwallowsAmount | src/app/token-screen/token-screen.component.ts:119-124 | Receiving USD costs at least 769981.599. Any amount up to 10.3 × 74755.13 + 3.76 leaves a deducted amount ≤ 0 |
| TokenScreenProperties.InitialUsdReceiveAlwaysInsufficient | src/app/token-screen/token-screen.component.ts:111-175 | On the initial screen switched to receive USD, every amount the DAU balance covers ends in InsufficientAfterFees |
| TokenScreenProperties.ValidateAfterSendSwitchRefused | src/app/token-screen/token-screen.component.ts:83-163 | Right after a send-currency change, settlement reports a non-positive amount (the stored BigNumber zero is truthy) and changes nothing |
| TokenScreenProperties.SwitchSendCurrencyBack | src/app/token-screen/token-screen.component.ts:83-88 | Switching the send currency away and back restores the original primary, with the intermediate choice as secondary |
| TokenScreenProperties.SendingWholeBalanceZeroesBoth | src/app/token-screen/token-screen.component.ts:177-191 | A successful send of the whole send-currency balance leaves exactly 0 in both currencies |
| TokenScreenProperties.DauSendKeepsBalancesConsistent | src/app/token-screen/token-screen.component.ts:177-183 | After a successful DAU send, the USD balance is exactly the DAU balance × 74755.13 |
| TokenScreenProperties.UsdSendLeavesDauBalanceAtAmountSent | src/app/token-screen/token-screen.component.ts:111-191 | Entering 100 USD on the initial screen switched to send USD, the fee step succeeds, and settlement leaves 523185.91 USD. DAU becomes the value of the 100 dollars sent, which is less than the value of the dollars left |
| TokenScreenProperties.FirstTransferOfOneDau | src/app/token-screen/token-screen.component.ts:111-196 | Entering 1 DAU on the initial screen: the fee step succeeds and leaves more than 0.99, and settlement succeeds with 6 DAU and 448530.78 USD |
| TokenScreenProperties.InitialValidateRefused | src/app/token-screen/token-screen.component.ts:159-161 | Settlement on a freshly opened screen reports an empty amount and changes nothing |
| TokenScreenProperties.CheckAmountValidityIdempotent | src/app/token-screen/token-screen.component.ts:95-109 | Checking validity twice with the same argument equals checking it once |
| TokenScreenProperties.ConvertingCurrencyKeepsSign | src/app/token-screen/token-screen.component.ts:139-147 | The converted value behind a display of a finite amount, before `toFixed` rounds it, is finite and has the amount's sign |
| TokenScreenProperties.SecondValidateRefused | src/app/token-screen/token-screen.component.ts:159-196 | Right after a successful settlement, settling again reports a non-positive amount and changes nothing |
| TokenScreenProperties.StaleDeductionLetsSmallAmountThrough | src/app/token-screen/token-screen.component.ts:111-196 | After a fee calculation for 7 DAU, entering 0.001 DAU, which is less than the fees, still settles and leaves 6.999 DAU |
| TokenScreenProperties.ClearedEntryLetsAnyAmountThrough | src/app/token-screen/token-screen.component.ts:95-196 | For any receive currency: calculate for 1 DAU, clear the input and calculate again. The second calculation succeeds and stores NaN, and then any amount up to the 7 DAU balance settles and is debited |

## Left out

- Toasts: `ToastrService`, `showError` and `showSuccess` are external notifications. They are replaced by the returned `Outcome`, without the message texts, titles or time-outs.
- UI flags: the Angular decorator, the template and styles, and the popup-visibility flags toggled in `toggleNetworkPopup` and `toggleNetworkFeePopup` are not modelled. They carry no logic.
- Entering an amount: the template's binding that writes the input into `amountBeforeDeduction` is part of the template, not the component. It appears only as the `Enter` event of the action sequences.
- Reciprocal rate: `USD_TO_DAU_RATE` is written as the 20-digit quotient bignumber.js computes for 1 / 74755.13. The general lemmas rely only on its being positive, and the two rates are not claimed to be inverses. Two concrete lemmas also rely on its size. `TokenScreenProperties.FirstTransferOfOneDau` needs 3.76 × USD_TO_DAU_RATE < 0.005 for its "more than 0.99". `TokenScreenProperties.StaleDeductionLetsSmallAmountThrough` needs 7 − 0.005 − 3.76 × USD_TO_DAU_RATE > 0. A round trip through both conversions is therefore stated only for an exact reciprocal, in `Conversion.ScaleRoundTrip`.
- TokenScreen.ConvertingCurrency: returns the converted value and the number of fractional digits (18 or 2) instead of the `toFixed` string. The library's rounding to those digits is not modelled.
- TokenScreenProperties.ConvertingCurrencyKeepsSign: holds of the value before `toFixed`. A printed value can lose the sign: 0.00000001 DAU shown in USD prints as "0.00".
- Library version: the model assumes a bignumber.js in which `new BigNumber(null)` is NaN rather than an error, `add` is addition (`plus`), and `lessThanOrEqualTo` is the comparison of that name. Under a release whose constructor throws on null, line 112 throws on an unset amount, and the stale-flag path for an unset amount does not exist.
- Falsiness: the truthiness tests at lines 49, 67 and 160 are modelled for raw numbers (null, NaN and 0 are falsy) and for the BigNumber zero the component itself stores (truthy). Other BigNumber objects reaching those tests are treated like the numbers they hold. So a NaN BigNumber passed to a conversion gives 0 in the model, where JavaScript would multiply it and give NaN.
- Comparison: lines 166-168 compare a raw value with a BigNumber through JavaScript coercion. For a number entry that is binary floating point, and the model's exact comparison is stricter: it refuses amounts a rounding error lets through (see the example below). For a string entry it is string comparison, which can go either way (see "Other inputs").
- Other inputs: string entries are represented by the number they parse to. The program treats them differently in three ways:
  - At lines 166-168 a string entry is compared with the balance's decimal string, character by character. `"10" > "7"` is false, so the program lets 10 DAU through against a 7 DAU balance, where the model reports ExceedsBalance.
  - The same comparison can also refuse what the model accepts. On the initial screen, switch the send currency to USD, enter "6", calculate the fees and settle. `"6" > "523285.91"` is true, so the program reports that the amount exceeds the balance, where the model settles 6 dollars.
  - The string "0" is truthy at line 160, so the program reports a non-positive amount at line 162, where the model (which sees the number 0) reports an empty amount.

  Negative zero is not distinguished from zero.
- TokenScreenProperties.RunKeepsBalancesNonNegative: non-negative balances hold only because the model's balance check compares exact decimals. The program does not guarantee them. Example from the initial screen:
  1. Switch the send currency to USD, enter 457.76, calculate the fees, and settle. Line 190 sets DAU to exactly 0.0061234593532243196272.
  2. Switch the send currency to DAU, enter 0.00612345935322432, and calculate the fees (about 0.00107 is left).
  3. Settle. At line 166 both sides become the same double, so the check passes. Line 178 then leaves −3.728E-19 DAU, and line 183 leaves about −2.79E-14 USD.

  On the same sequence the model reports ExceedsBalance.
- TokenScreenProperties.ReachableBalancesNonNegative: holds in the exact-decimal model only, for the same reason and with the same example.
- TokenScreenProperties.Apply: its preservation of non-negative balances holds in the exact-decimal model only, for the same reason.
- TokenScreen.ValidateTokens: "the debited balance stays ≥ 0" follows from the exact comparison of the entered amount with the balance. The program's coerced comparison at lines 166-168 can let through an amount slightly above the balance, as in the example above.
- Lifecycle: `balanceInUSD` is undefined until `ngOnInit` runs. The model's initial state is the one after `ngOnInit`.
