# Send page of the Terra bridge web app — amount, bridge fee and chain pickers

This project models the two pieces of logic inside the send page of the
bridge web front-end:

- **The send and swap forms** (`SendForm`, `SwapForm`): turning a typed amount
  into base units with a scale factor chosen by source chain and bridge; the
  Max button, which keeps 0.3 UST back for a Terra `uusd` send and never goes
  below zero; the per-bridge fee table of `setBridgeFee`, which writes the
  bridge fee and the amount after it (or, for Thorswap and a non-positive
  Shuttle amount, writes nothing); the debounced validation, which marks the
  form invalid, stores the validation result and decides whether the gas-fee
  list and the bridge fee are refreshed; and the swap form's quote and output
  text.
- **The FROM/TO chain pickers** (`BlockChainNetwork`): picking a FROM chain
  resets TO to Terra and logs out; picking a TO chain forces FROM back to Terra
  (with a logout) when it was not Terra already. Whatever the state before, at
  least one side is Terra afterwards, and the FROM chain never changes without
  a logout. The option lists disable the current selection and, on the
  testnet, six TO chains; the background picture follows the bridge.

Layout:

- `network_types.dfy` — module `NetworkTypes`: `BlockChain`, `Bridge`,
  `Option`, and `Big`, a bignumber.js value (a decimal or NaN).
- `send_form.dfy` — module `SendForm`: the pure decision functions, the class
  `FormState` holding the store cells the forms write (its methods are the
  handlers, each proved to leave the cells as the decision functions say),
  and lemmas relating them.
- `block_chain_network.dfy` — module `BlockChainNetwork`: the transition
  function `Choose` with the logout rule, runs of several picks with induction
  lemmas about them, the option lists, the background, and the class
  `ChainPicker` with the two handlers.

Amounts are `real` (bignumber.js is arbitrary-precision decimal). The stored
amount is an `Option<real>`, `None` standing for the empty string; read back
with `new BigNumber(amount)` the empty string is NaN, which the model keeps:
Axelar and Wormhole clamp a NaN amount to 0, the default (IBC) branch writes
NaN as the after-fee amount. Every answer from a service or hook the forms
call — a fee lookup, `validateSendData`, `getTerraFeeList`, an exchange rate,
a swap output, `formatBalance`, lodash's number reading — is a parameter of
the method that uses it. `logout` is counted in `ChainPicker.logoutCount`.
The two writes of the validation result are recorded in the ghost log
`FormState.validationWrites`.

The constants `TERRA_DECIMAL` (10^6) and `ETHER_BASE_DECIMAL` (10^18) come
from the app's `consts` module, which is not part of this model; only their
positivity and their difference matter to the proofs.

## Model

| member | source | states |
|---|---|---|
| SendForm.DecimalFactor | src/pages/Send/SendForm/index.tsx:173-180 | the factor is positive; it is the 18-decimal factor exactly when the source is not Terra and the bridge is Shuttle or Thorswap, and the Terra factor otherwise |
| SendForm.EditAmount | src/pages/Send/SendForm/index.tsx:164-183 | an empty value, and only it, clears; a non-empty value without a numeric reading is ignored; an accepted value keeps the typed text, its amount divided by the factor gives back the reading, and it is positive exactly when the reading is |
| SendForm.FormState.OnChangeAmount | src/pages/Send/SendForm/index.tsx:164-183 | empty input clears both the input text and the stored amount; non-numeric input changes neither; numeric input stores the text and the reading times the factor |
| SendForm.TxFeeReserve | src/pages/Send/SendForm/index.tsx:190-194 | 300000 is held back exactly when the asset is `uusd` and the source is Terra, nothing otherwise |
| SendForm.MaxAmount | src/pages/Send/SendForm/index.tsx:190-197 | the Max amount is never negative, never above a non-negative balance, equals balance minus reserve when the balance covers it, is 0 when it does not, and is the whole balance when nothing is held back |
| SendForm.FormState.OnClickMaxButton | src/pages/Send/SendForm/index.tsx:189-198 | the cells end as if the formatted Max amount had been typed |
| SendForm.MaxStoresNonNegative | src/pages/Send/SendForm/index.tsx:189-198 | when formatting and reading the Max amount round-trip through some positive number of decimals, Max stores a non-negative amount scaled by the factor |
| SendForm.AmountAfterFee | src/pages/Send/SendForm/index.tsx:211-216 | the amount after fee is never negative, is at most a non-negative amount when the fee is non-negative, is amount minus fee when that is positive, and is positive only then |
| SendForm.BridgeFeeUpdate | src/pages/Send/SendForm/index.tsx:200-251 | nothing is written exactly for Thorswap and for Shuttle without a positive amount; Shuttle from Terra, Axelar and Wormhole write the quoted fee and the after-fee amount max(0, amount − fee) (0 for an empty amount), so it is non-negative and bounded by a non-negative amount when the fee is non-negative; IBC and Shuttle from another chain write fee 0 and the amount itself |
| SendForm.PositiveAmountAlwaysPriced | src/pages/Send/SendForm/index.tsx:202-250 | on every bridge but Thorswap a positive amount with a non-negative fee gets both cells written, with an after-fee amount between 0 and the amount |
| SendForm.FormState.SetBridgeFee | src/pages/Send/SendForm/index.tsx:200-251 | the fee cells are left unchanged or set to exactly the pair the fee table gives |
| SendForm.PlanFeeRefresh | src/pages/Send/SendForm/index.tsx:260-270 | the gas-fee list is refreshed exactly when the asset has a Terra token, the user is logged in, amount and address are present and the result is valid; the bridge fee exactly on the send form under the same conditions without validity; on the send form a gas refresh implies a bridge-fee refresh |
| SendForm.FormState.GetFeeInfoWithValidation | src/pages/Send/SendForm/index.tsx:254-271 | the validation cell is first written invalid and then the computed result; the gas-fee list and fee cells change only as the gate allows |
| SendForm.FormState.SettleSwapQuote | src/pages/Send/SendForm/index.tsx:507-541 | on Thorswap the rate is stored and loading ends; a blank or zero amount sets the output to 0, any other amount to the quoted output; on other bridges nothing changes |
| SendForm.FormatSwapAmount | src/pages/Send/SendForm/index.tsx:574-576 | an absent amount shows as the empty string, a present one as its formatted balance |
| SendForm.SwapOutputText | src/pages/Send/SendForm/index.tsx:651-654 | while rates load the field reads `loading ...`; with no amount it is empty; otherwise it shows the formatted after-fee amount |
| BlockChainNetwork.Choose | src/pages/Send/BlockChainNetwork.tsx:71-132 | after any pick one side is Terra; a FROM pick sets FROM and resets TO to Terra; a TO pick sets TO and leaves FROM on Terra |
| BlockChainNetwork.LogsOut | src/pages/Send/BlockChainNetwork.tsx:71-132 | every FROM pick logs out; a pick that changes FROM logs out; a TO pick logs out only when it moves FROM |
| BlockChainNetwork.RunKeepsOneSideTerra | src/pages/Send/BlockChainNetwork.tsx:71-132 | after any non-empty sequence of picks from any state, FROM or TO is Terra |
| BlockChainNetwork.FromChangeLogsOut | src/pages/Send/BlockChainNetwork.tsx:71-132 | a sequence of picks that ends with another FROM chain logged out at least once |
| BlockChainNetwork.LogoutsCoverFromPicks | src/pages/Send/BlockChainNetwork.tsx:71-75 | a sequence of picks logs out at least once per FROM pick and at most once per pick |
| BlockChainNetwork.ToPicksKeepSession | src/pages/Send/BlockChainNetwork.tsx:127-132 | from a Terra FROM, TO picks alone never log out, keep FROM on Terra and leave TO at the last pick |
| BlockChainNetwork.ChainPicker.SetFromBlockChain | src/pages/Send/BlockChainNetwork.tsx:71-75 | the new state is `Choose` of the FROM pick, one more logout, one side Terra |
| BlockChainNetwork.ChainPicker.SetToBlockChain | src/pages/Send/BlockChainNetwork.tsx:127-132 | the new state is `Choose` of the TO pick, a logout only when FROM was not Terra, one side Terra |
| BlockChainNetwork.FromOptionList | src/pages/Send/BlockChainNetwork.tsx:76-117 | eight options in the fixed FROM order; an option is disabled exactly when it is the current FROM chain |
| BlockChainNetwork.FromChoices | src/pages/Send/BlockChainNetwork.tsx:76-117 | the FROM dropdown lets the user pick every FROM chain but the current one |
| BlockChainNetwork.ToOptionList | src/pages/Send/BlockChainNetwork.tsx:134-186 | the eight FROM chains then Avalanche and Fantom; an option is disabled exactly when it is the current TO chain or the testnet is on and it is Osmosis, Secret, Injective, Cosmos Hub, Avalanche or Fantom |
| BlockChainNetwork.TestnetToChoices | src/pages/Send/BlockChainNetwork.tsx:134-186 | on the testnet the TO dropdown lets the user pick exactly Terra, Ethereum, BSC and Harmony, less the current TO chain |
| BlockChainNetwork.Background | src/pages/Send/BlockChainNetwork.tsx:56-65 | Wormhole shows the middle bridge, IBC the IBC picture, every other bridge the Shuttle picture |

## Left out

- JSX layout, styled-components and the Recoil hook wiring: presentation only.
- Debounce timers, `useEffect` dependency lists (including the effect that re-enters the typed amount when the network changes), the `RefreshButton` and its timeouts: scheduling, not logic.
- The fee and rate services (`getTerraShuttleFee`, `AxelarAPI.getTransferFee`, `getWormholeFees`, `getExchangeRate`, `getSwapOutput`): each is the parameter of the method that uses its answer. Two swap-form effects are not modelled: the Thorswap outbound-fee effect, which writes `getThorOutboundFees`'s estimate scaled by `getDecimals()` into the bridge-fee cell (the value `setBridgeFee` leaves in place on Thorswap), and the `getThorAssets` effect, which writes the returned list to `toAssetList` and its first entry to `toAsset`.
- SendForm.FormState.GetFeeInfoWithValidation: every service answers before the method returns, so the interleavings the source allows (an unawaited `setBridgeFee`, the Shuttle fee arriving later) are not modelled.
- The `update` guards against stale swap results: they only matter for concurrent promises.
- SendForm.FormState.SettleSwapQuote: the swap output arithmetic uses floats (`Number(amount) / getDecimals()`, `multipliedBy(getDecimals())`); the method takes its result, in base units, as a parameter, and the brief `isLoadingRates = true` is collapsed into the final state.
- lodash `_.toNumber`/`_.isNaN` and `new BigNumber(value)` are one reading parameter `readNumber`; text on which they disagree (whitespace-only text reads as 0 for lodash and NaN for bignumber.js) is not modelled.
- `formatBalance` is a parameter; SendForm.MaxStoresNonNegative assumes it divides by some positive number of decimals and reads back exactly.
- An asset balance that is a non-numeric string is not modelled; a balance is a number or empty.
- `validateSendData`, `getTerraFeeList`, `logout` and `useUpdateBridgeType` are hooks outside this model: their results are parameters and `logout` is only counted.
- `onChangeToAddress` and `onChangeMemo` are plain store setters and are not modelled.
- The chain labels (`NETWORK.blockChainName`) and the initial values of the store cells: `consts` and `SendStore` are not part of this model.
