/** The amount entry, the Max button, the bridge-fee table and the fee-info
    gating of the send and swap forms (`SendForm` and `SwapForm`). The store
    cells these handlers write are the fields of `FormState`; what the
    handlers compute is given first as functions over values. */
module SendForm {
  import opened NetworkTypes

  /** ASSET.TERRA_DECIMAL: base units per displayed unit for Terra-side amounts. */
  const TERRA_DECIMAL: real := 1000000.0
  /** ASSET.ETHER_BASE_DECIMAL: base units per displayed unit for EVM amounts. */
  const ETHER_BASE_DECIMAL: real := 1000000000000000000.0
  /** What the Max button keeps back for the Terra transaction fee: 0.3 UST in uusd. */
  const UUSD_TX_FEE_RESERVE: real := 300000.0

  /** The selected asset, as far as these handlers look at it. A balance of
      `None` stands for an empty balance string. */
  datatype Asset = Asset(terraToken: string, balance: Option<real>)

  /** `ValidateItemResultType`: the verdict of the send-data validation. */
  datatype ValidationResult = ValidationResult(isValid: bool, errorMessage: map<string, string>)

  /** What the form shows while validation is in flight: `{ isValid: false }`. */
  const PENDING: ValidationResult := ValidationResult(false, map[])

  /** One entry of the Terra gas-fee list. */
  datatype GasFee = GasFee(denom: string, amount: real)

  /** Which of the two forms a state belongs to. */
  datatype Form = SendPage | SwapPage

  // ---------------------------------------------------------------------
  // Amount entry

  /** Base units per displayed unit: Terra decimals when the transfer starts
      on Terra or goes over IBC, Axelar or Wormhole, 18 decimals otherwise. */
  function DecimalFactor(from: BlockChain, bridge: Bridge): (r: real)
    ensures r > 0.0
    ensures r == ETHER_BASE_DECIMAL <==> from != Terra && (bridge == Shuttle || bridge == Thorswap)
    ensures r != ETHER_BASE_DECIMAL ==> r == TERRA_DECIMAL
  {
    if from == Terra || bridge == Ibc || bridge == Axelar || bridge == Wormhole
    then TERRA_DECIMAL
    else
      assert bridge.Shuttle? || bridge.Thorswap?;
      ETHER_BASE_DECIMAL
  }

  /** What `onChangeAmount` writes: both cells cleared, both set, or nothing. */
  datatype AmountEdit = Cleared | Accepted(input: string, amount: real) | Ignored

  /** The effect of typing `value`, whose numeric reading is `reading`
      (`None` when lodash reads it as NaN). */
  function EditAmount(value: string, reading: Option<real>, from: BlockChain, bridge: Bridge): (e: AmountEdit)
    ensures e.Cleared? <==> value == ""
    ensures e.Ignored? <==> value != "" && reading.None?
    ensures e.Accepted? ==> e.input == value
    ensures e.Accepted? ==> reading == Some(e.amount / DecimalFactor(from, bridge))
    ensures e.Accepted? ==> (e.amount > 0.0 <==> reading.value > 0.0)
  {
    if value == "" then Cleared
    else if reading.Some? then
      var f := DecimalFactor(from, bridge);
      assert reading.value * f / f == reading.value;
      Accepted(value, reading.value * f)
    else Ignored
  }

  // ---------------------------------------------------------------------
  // Max button

  /** `asset?.balance || 0`. */
  function Balance(asset: Option<Asset>): (r: real) {
    if asset.Some? && asset.value.balance.Some? then asset.value.balance.value else 0.0
  }

  /** The amount the Max button holds back for the transaction fee. */
  function TxFeeReserve(asset: Option<Asset>, from: BlockChain): (r: real)
    ensures r == UUSD_TX_FEE_RESERVE <==> asset.Some? && asset.value.terraToken == "uusd" && from == Terra
    ensures r != UUSD_TX_FEE_RESERVE ==> r == 0.0
  {
    if asset.Some? && asset.value.terraToken == "uusd" && from == Terra then UUSD_TX_FEE_RESERVE else 0.0
  }

  /** The base-unit amount the Max button puts in the form: the balance less
      the fee reserve, never below zero. */
  function MaxAmount(asset: Option<Asset>, from: BlockChain): (r: real)
    ensures r >= 0.0
    ensures Balance(asset) >= 0.0 ==> r <= Balance(asset)
    ensures Balance(asset) >= TxFeeReserve(asset, from) ==> r + TxFeeReserve(asset, from) == Balance(asset)
    ensures Balance(asset) < TxFeeReserve(asset, from) ==> r == 0.0
    ensures TxFeeReserve(asset, from) == 0.0 && Balance(asset) >= 0.0 ==> r == Balance(asset)
  {
    var left := Balance(asset) - TxFeeReserve(asset, from);
    if left < 0.0 then 0.0 else left
  }

  // ---------------------------------------------------------------------
  // Bridge fee

  /** `new BigNumber(amount)` for the stored amount string; the empty string reads as NaN. */
  function AmountAsBig(amount: Option<real>): (r: Big)
    ensures r.NaN? <==> amount.None?
    ensures r.Num? ==> amount == Some(r.v)
  {
    if amount.Some? then Num(amount.value) else NaN
  }

  /** The amount left once the bridge takes `fee`, clamped at zero; an
      amount that is NaN leaves nothing. */
  function AmountAfterFee(amount: Big, fee: real): (r: real)
    ensures r >= 0.0
    ensures amount.Num? && amount.v >= 0.0 && fee >= 0.0 ==> r <= amount.v
    ensures amount.Num? && amount.v > fee ==> r + fee == amount.v
    ensures r > 0.0 ==> amount.Num? && r + fee == amount.v
  {
    var computed := Minus(amount, fee);
    if IsPositive(computed) then computed.v else 0.0
  }

  /** What `setBridgeFee` writes to the bridge-fee and after-fee cells:
      nothing (`Keep`), or the pair in `Write`. */
  datatype FeeUpdate = Keep | Write(fee: real, afterFee: Big)

  /** The per-bridge fee table. `quotedFee` is what the bridge's own fee
      lookup returned (Shuttle from Terra, Axelar, Wormhole); the other
      branches do not look one up. */
  function BridgeFeeUpdate(bridge: Bridge, from: BlockChain, amount: Option<real>, quotedFee: real): (u: FeeUpdate)
    ensures u.Keep? <==> bridge == Thorswap || (bridge == Shuttle && !IsPositive(AmountAsBig(amount)))
    ensures u.Write? && (bridge == Axelar || bridge == Wormhole || from == Terra) && bridge != Ibc ==>
              u.fee == quotedFee && u.afterFee.Num? && u.afterFee.v >= 0.0
    ensures u.Write? && quotedFee >= 0.0 && bridge != Ibc && amount.Some? && amount.value >= 0.0 ==>
              u.afterFee.Num? && u.afterFee.v <= amount.value
    ensures u.Write? && (bridge == Ibc || (bridge == Shuttle && from != Terra)) ==>
              u.fee == 0.0 && u.afterFee == AmountAsBig(amount)
    ensures u.Write? && bridge != Ibc && (bridge != Shuttle || from == Terra) ==>
              u.afterFee == Num(AmountAfterFee(AmountAsBig(amount), quotedFee))
  {
    match bridge
    case Shuttle =>
      var sendAmount := AmountAsBig(amount);
      if IsPositive(sendAmount) then
        if from == Terra then Write(quotedFee, Num(AmountAfterFee(sendAmount, quotedFee)))
        else Write(0.0, sendAmount)
      else Keep
    case Axelar => Write(quotedFee, Num(AmountAfterFee(AmountAsBig(amount), quotedFee)))
    case Wormhole => Write(quotedFee, Num(AmountAfterFee(AmountAsBig(amount), quotedFee)))
    case Thorswap => Keep
    case Ibc => Write(0.0, AmountAsBig(amount))
  }

  // ---------------------------------------------------------------------
  // Fee-info gating of the debounced validation

  /** `asset?.terraToken` is a non-empty string. */
  predicate HasTerraToken(asset: Option<Asset>) {
    asset.Some? && asset.value.terraToken != ""
  }

  /** Which fee information a finished validation goes on to refresh. */
  datatype FeeRefresh = FeeRefresh(gasFeeList: bool, bridgeFee: bool)

  /** The gate after `validateSendData`: both refreshes need an asset with a
      Terra token, a logged-in user, an amount and a destination address; the
      gas-fee list also needs a valid result, and only the send form
      recomputes the bridge fee. */
  function PlanFeeRefresh(form: Form, asset: Option<Asset>, isLoggedIn: bool, amount: Option<real>,
                          toAddress: string, result: ValidationResult): (p: FeeRefresh)
    ensures p.gasFeeList <==> result.isValid && isLoggedIn && amount.Some? && toAddress != "" && HasTerraToken(asset)
    ensures p.bridgeFee <==> form == SendPage && isLoggedIn && amount.Some? && toAddress != "" && HasTerraToken(asset)
    ensures form == SendPage && p.gasFeeList ==> p.bridgeFee
  {
    var ableToGetFeeInfo := isLoggedIn && amount.Some? && toAddress != "";
    if HasTerraToken(asset) && ableToGetFeeInfo then
      FeeRefresh(result.isValid, form == SendPage)
    else
      FeeRefresh(false, false)
  }

  // ---------------------------------------------------------------------
  // Swap output

  /** The zero-amount branch of the Thorswap quote: `!amount || parseFloat(amount) === 0`. */
  predicate IsZeroSwapAmount(amount: Option<real>) {
    amount.None? || amount.value == 0.0
  }

  /** `formatSwapAmount`: an absent amount shows as the empty string. */
  function FormatSwapAmount(amount: Option<Big>, formatBalance: Big -> string): (r: string)
    ensures amount.None? ==> r == ""
    ensures amount.Some? ==> r == formatBalance(amount.value)
  {
    if amount.Some? then formatBalance(amount.value) else ""
  }

  /** The text of the swap form's read-only output field. */
  function SwapOutputText(isLoadingRates: bool, amount: Option<real>, amountAfterBridgeFee: Big,
                          formatBalance: Big -> string): (r: string)
    ensures isLoadingRates ==> r == "loading ..."
    ensures !isLoadingRates && amount.None? ==> r == ""
    ensures !isLoadingRates && amount.Some? ==> r == formatBalance(amountAfterBridgeFee)
  {
    if isLoadingRates then "loading ..."
    else if amount.None? then ""
    else FormatSwapAmount(Some(amountAfterBridgeFee), formatBalance)
  }

  // ---------------------------------------------------------------------
  // The store cells one form reads and writes

  class FormState {
    const form: Form
    // read by the handlers, written elsewhere
    var fromBlockChain: BlockChain
    var toBlockChain: BlockChain
    var bridgeUsed: Bridge
    var asset: Option<Asset>
    var isLoggedIn: bool
    var toAddress: string
    // written by the handlers
    var inputAmount: string
    var amount: Option<real>
    var bridgeFee: real
    var amountAfterBridgeFee: Big
    var validationResult: ValidationResult
    var gasFeeList: seq<GasFee>
    var exchangeRate: real
    var isLoadingRates: bool
    /** Every value written to the validation-result cell, in order. */
    ghost var validationWrites: seq<ValidationResult>

    constructor (form: Form, from: BlockChain, to: BlockChain, bridge: Bridge, asset: Option<Asset>,
                 isLoggedIn: bool, toAddress: string)
      ensures this.form == form && fromBlockChain == from && toBlockChain == to && bridgeUsed == bridge
      ensures this.asset == asset && this.isLoggedIn == isLoggedIn && this.toAddress == toAddress
      ensures inputAmount == "" && amount == None && validationWrites == []
    {
      this.form := form;
      fromBlockChain, toBlockChain, bridgeUsed := from, to, bridge;
      this.asset, this.isLoggedIn, this.toAddress := asset, isLoggedIn, toAddress;
      inputAmount, amount := "", None;
      bridgeFee, amountAfterBridgeFee := 0.0, Num(0.0);
      validationResult, gasFeeList := PENDING, [];
      exchangeRate, isLoadingRates := 0.0, false;
      validationWrites := [];
    }

    /** `onChangeAmount`: an empty value clears both cells, a numeric one sets
        the displayed text and the amount in base units, anything else is ignored. */
    method OnChangeAmount(value: string, readNumber: string -> Option<real>)
      modifies this`inputAmount, this`amount
      ensures match EditAmount(value, readNumber(value), fromBlockChain, bridgeUsed)
              case Cleared => inputAmount == "" && amount == None
              case Accepted(input, units) => inputAmount == input && amount == Some(units)
              case Ignored => inputAmount == old(inputAmount) && amount == old(amount)
    {
      if value == "" {
        inputAmount := "";
        amount := None;
        return;
      }
      var reading := readNumber(value);
      if reading.Some? {
        inputAmount := value;
        var decimalSize := DecimalFactor(fromBlockChain, bridgeUsed);
        amount := Some(reading.value * decimalSize);
      }
    }

    /** `onClickMaxButton`: enters the formatted Max amount as if typed. */
    method OnClickMaxButton(formatBalance: Big -> string, readNumber: string -> Option<real>)
      modifies this`inputAmount, this`amount
      ensures var value := formatBalance(Num(MaxAmount(asset, fromBlockChain)));
              match EditAmount(value, readNumber(value), fromBlockChain, bridgeUsed)
              case Cleared => inputAmount == "" && amount == None
              case Accepted(input, units) => inputAmount == input && amount == Some(units)
              case Ignored => inputAmount == old(inputAmount) && amount == old(amount)
    {
      var assetAmount := MaxAmount(asset, fromBlockChain);
      OnChangeAmount(formatBalance(Num(assetAmount)), readNumber);
    }

    /** `setBridgeFee`, with the bridge's fee lookup already answered as `quotedFee`. */
    method SetBridgeFee(quotedFee: real)
      modifies this`bridgeFee, this`amountAfterBridgeFee
      ensures match BridgeFeeUpdate(bridgeUsed, fromBlockChain, amount, quotedFee)
              case Keep => bridgeFee == old(bridgeFee) && amountAfterBridgeFee == old(amountAfterBridgeFee)
              case Write(fee, after) => bridgeFee == fee && amountAfterBridgeFee == after
    {
      var sendAmount := AmountAsBig(amount);
      if bridgeUsed == Shuttle {
        if IsPositive(sendAmount) {
          if fromBlockChain == Terra {
            bridgeFee := quotedFee;
            amountAfterBridgeFee := Num(AmountAfterFee(sendAmount, quotedFee));
          } else {
            bridgeFee := 0.0;
            amountAfterBridgeFee := sendAmount;
          }
        }
      } else if bridgeUsed == Axelar || bridgeUsed == Wormhole {
        bridgeFee := quotedFee;
        amountAfterBridgeFee := Num(AmountAfterFee(sendAmount, quotedFee));
      } else if bridgeUsed == Thorswap {
        // the swap form computes this fee itself
      } else {
        bridgeFee := 0.0;
        amountAfterBridgeFee := sendAmount;
      }
    }

    /** The debounced `dbcGetFeeInfoWithValidation`, with `validateSendData`,
        `getTerraFeeList` and the bridge's fee lookup already answered. */
    method GetFeeInfoWithValidation(sendDataResult: ValidationResult, terraFeeList: seq<GasFee>, quotedFee: real)
      modifies this`validationResult, this`validationWrites, this`gasFeeList
      modifies this`bridgeFee, this`amountAfterBridgeFee
      ensures validationWrites == old(validationWrites) + [PENDING, sendDataResult]
      ensures validationResult == sendDataResult
      ensures var plan := PlanFeeRefresh(form, asset, isLoggedIn, amount, toAddress, sendDataResult);
              && gasFeeList == (if plan.gasFeeList then terraFeeList else old(gasFeeList))
              && (plan.bridgeFee ==>
                    match BridgeFeeUpdate(bridgeUsed, fromBlockChain, amount, quotedFee)
                    case Keep => bridgeFee == old(bridgeFee) && amountAfterBridgeFee == old(amountAfterBridgeFee)
                    case Write(fee, after) => bridgeFee == fee && amountAfterBridgeFee == after)
              && (!plan.bridgeFee ==> bridgeFee == old(bridgeFee) && amountAfterBridgeFee == old(amountAfterBridgeFee))
    {
      validationResult := PENDING;
      validationWrites := validationWrites + [PENDING];
      validationResult := sendDataResult;
      validationWrites := validationWrites + [sendDataResult];
      var ableToGetFeeInfo := isLoggedIn && amount.Some? && toAddress != "";
      if HasTerraToken(asset) && ableToGetFeeInfo {
        if sendDataResult.isValid {
          gasFeeList := terraFeeList;
        }
        if form == SendPage {
          SetBridgeFee(quotedFee);
        }
      }
    }

    /** The Thorswap quote, once `getExchangeRate` answered `rate` and, for a
        non-zero amount, `getSwapOutput` answered `quotedOutput` (in base units). */
    method SettleSwapQuote(rate: real, quotedOutput: real)
      requires form == SwapPage
      modifies this`exchangeRate, this`isLoadingRates, this`amountAfterBridgeFee
      ensures bridgeUsed != Thorswap ==>
                exchangeRate == old(exchangeRate) && isLoadingRates == old(isLoadingRates)
                && amountAfterBridgeFee == old(amountAfterBridgeFee)
      ensures bridgeUsed == Thorswap ==> exchangeRate == rate && !isLoadingRates
      ensures bridgeUsed == Thorswap && IsZeroSwapAmount(amount) ==> amountAfterBridgeFee == Num(0.0)
      ensures bridgeUsed == Thorswap && !IsZeroSwapAmount(amount) ==> amountAfterBridgeFee == Num(quotedOutput)
    {
      if bridgeUsed == Thorswap {
        isLoadingRates := true;
        exchangeRate := rate;
        if IsZeroSwapAmount(amount) {
          amountAfterBridgeFee := Num(0.0);
        } else {
          amountAfterBridgeFee := Num(quotedOutput);
        }
        isLoadingRates := false;
      }
    }
  }

  // ---------------------------------------------------------------------
  // Properties relating several of the above

  /** Pressing Max and then reading the amount back: when `formatBalance`
      shows base units divided by some positive `decimals` and the reading is
      exact, the form stores a non-negative amount scaled by the decimal factor. */
  lemma MaxStoresNonNegative(asset: Option<Asset>, from: BlockChain, bridge: Bridge,
                             formatBalance: Big -> string, readNumber: string -> Option<real>, decimals: real)
    requires decimals > 0.0
    requires formatBalance(Num(MaxAmount(asset, from))) != ""
    requires readNumber(formatBalance(Num(MaxAmount(asset, from)))) == Some(MaxAmount(asset, from) / decimals)
    ensures var value := formatBalance(Num(MaxAmount(asset, from)));
            var e := EditAmount(value, readNumber(value), from, bridge);
            e.Accepted? && e.amount >= 0.0
            && e.amount == MaxAmount(asset, from) / decimals * DecimalFactor(from, bridge)
  {
  }

  /** On every bridge but Thorswap, a positive stored amount gets its fee
      cells written; the fee written never makes the after-fee amount exceed
      the amount when the quoted fee is not negative. */
  lemma PositiveAmountAlwaysPriced(bridge: Bridge, from: BlockChain, amount: real, quotedFee: real)
    requires bridge != Thorswap && amount > 0.0 && quotedFee >= 0.0
    ensures var u := BridgeFeeUpdate(bridge, from, Some(amount), quotedFee);
            u.Write? && u.afterFee.Num? && 0.0 <= u.afterFee.v <= amount
  {
  }
}
