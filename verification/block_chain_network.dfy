/** The FROM/TO chain pickers of the send page (`BlockChainNetwork`): the two
    selection handlers, which keep Terra on at least one side and log the
    user out whenever the FROM wallet may change, the rules that disable
    entries in the two option lists, and the bridge background image. */
module BlockChainNetwork {
  import opened NetworkTypes

  /** At least one side of the transfer is Terra. */
  predicate OneSideTerra(from: BlockChain, to: BlockChain) {
    from == Terra || to == Terra
  }

  /** The two selected chains. */
  datatype Selection = Selection(from: BlockChain, to: BlockChain)

  /** A pick in one of the two dropdowns. */
  datatype Choice = PickFrom(chain: BlockChain) | PickTo(chain: BlockChain)

  /** The selection after a pick: picking FROM resets TO to Terra; picking TO
      forces FROM back to Terra. */
  function Choose(s: Selection, c: Choice): (r: Selection)
    ensures OneSideTerra(r.from, r.to)
    ensures c.PickFrom? ==> r.from == c.chain && r.to == Terra
    ensures c.PickTo? ==> r.to == c.chain && r.from == Terra
  {
    match c
    case PickFrom(value) => Selection(value, Terra)
    case PickTo(b) => if s.from != Terra then Selection(Terra, b) else Selection(s.from, b)
  }

  /** Whether a pick calls `logout`: every FROM pick does, a TO pick only
      when it has to move FROM back to Terra. The FROM chain never changes
      without a logout. */
  function LogsOut(s: Selection, c: Choice): (r: bool)
    ensures Choose(s, c).from != s.from ==> r
    ensures r && c.PickTo? ==> Choose(s, c).from != s.from
    ensures c.PickFrom? ==> r
  {
    c.PickFrom? || s.from != Terra
  }

  /** The selection after a sequence of picks. */
  function Run(s: Selection, cs: seq<Choice>): (r: Selection)
    decreases |cs|
  {
    if cs == [] then s else Run(Choose(s, cs[0]), cs[1..])
  }

  /** How many times a sequence of picks calls `logout`. */
  function Logouts(s: Selection, cs: seq<Choice>): (n: nat)
    decreases |cs|
  {
    if cs == [] then 0 else (if LogsOut(s, cs[0]) then 1 else 0) + Logouts(Choose(s, cs[0]), cs[1..])
  }

  /** Whatever the state before, after at least one pick Terra is on one side. */
  lemma {:induction false} RunKeepsOneSideTerra(s: Selection, cs: seq<Choice>)
    requires cs != []
    ensures OneSideTerra(Run(s, cs).from, Run(s, cs).to)
    decreases |cs|
  {
    if |cs| > 1 {
      RunKeepsOneSideTerra(Choose(s, cs[0]), cs[1..]);
    }
  }

  /** A sequence of picks that ends with a different FROM chain logged the user out at least once. */
  lemma {:induction false} FromChangeLogsOut(s: Selection, cs: seq<Choice>)
    requires Run(s, cs).from != s.from
    ensures Logouts(s, cs) > 0
    decreases |cs|
  {
    if cs != [] && !LogsOut(s, cs[0]) {
      FromChangeLogsOut(Choose(s, cs[0]), cs[1..]);
    }
  }

  /** How many picks of a sequence are FROM picks. */
  function FromPicks(cs: seq<Choice>): (n: nat) {
    if cs == [] then 0 else (if cs[0].PickFrom? then 1 else 0) + FromPicks(cs[1..])
  }

  /** Every FROM pick logs out, so there are at least as many logouts as FROM
      picks, and no pick logs out twice. */
  lemma {:induction false} LogoutsCoverFromPicks(s: Selection, cs: seq<Choice>)
    ensures FromPicks(cs) <= Logouts(s, cs) <= |cs|
    decreases |cs|
  {
    if cs != [] {
      LogoutsCoverFromPicks(Choose(s, cs[0]), cs[1..]);
    }
  }

  /** Starting from Terra, any number of TO picks keeps FROM on Terra, never
      logs out, and leaves TO at the last pick. */
  lemma {:induction false} ToPicksKeepSession(s: Selection, cs: seq<Choice>)
    requires s.from == Terra
    requires forall i :: 0 <= i < |cs| ==> cs[i].PickTo?
    ensures Logouts(s, cs) == 0 && Run(s, cs).from == Terra
    ensures cs != [] ==> Run(s, cs).to == cs[|cs| - 1].chain
    decreases |cs|
  {
    if cs != [] {
      ToPicksKeepSession(Choose(s, cs[0]), cs[1..]);
    }
  }

  // ---------------------------------------------------------------------
  // The two dropdowns' option lists

  /** One dropdown entry (the label is the chain's display name). */
  datatype ChainOption = ChainOption(chain: BlockChain, isDisabled: bool)

  /** The chains the FROM dropdown offers, in order. */
  const FROM_CHAINS: seq<BlockChain> := [Terra, Ethereum, Bsc, Hmy, Osmo, Scrt, Inj, Cosmos]

  /** The chains the TO dropdown offers, in order. */
  const TO_CHAINS: seq<BlockChain> := FROM_CHAINS + [Avalanche, Fantom]

  /** A TO chain that cannot be chosen while the testnet is on. */
  predicate TestnetUnavailable(c: BlockChain) {
    c == Osmo || c == Scrt || c == Inj || c == Cosmos || c == Avalanche || c == Fantom
  }

  /** The FROM option list: only the current FROM chain is disabled. */
  function FromOptionList(fromBlockChain: BlockChain): (r: seq<ChainOption>)
    ensures |r| == |FROM_CHAINS|
    ensures forall i :: 0 <= i < |r| ==> r[i].chain == FROM_CHAINS[i]
    ensures forall i :: 0 <= i < |r| ==> (r[i].isDisabled <==> r[i].chain == fromBlockChain)
  {
    [ ChainOption(Terra, fromBlockChain == Terra),
      ChainOption(Ethereum, fromBlockChain == Ethereum),
      ChainOption(Bsc, fromBlockChain == Bsc),
      ChainOption(Hmy, fromBlockChain == Hmy),
      ChainOption(Osmo, fromBlockChain == Osmo),
      ChainOption(Scrt, fromBlockChain == Scrt),
      ChainOption(Inj, fromBlockChain == Inj),
      ChainOption(Cosmos, fromBlockChain == Cosmos) ]
  }

  /** The TO option list: the current TO chain is disabled, and while the
      testnet is on so are Osmosis, Secret, Injective, Cosmos Hub, Avalanche
      and Fantom. */
  function ToOptionList(toBlockChain: BlockChain, isTestnet: bool): (r: seq<ChainOption>)
    ensures |r| == |TO_CHAINS|
    ensures forall i :: 0 <= i < |r| ==> r[i].chain == TO_CHAINS[i]
    ensures forall i :: 0 <= i < |r| ==>
              (r[i].isDisabled <==> r[i].chain == toBlockChain || (isTestnet && TestnetUnavailable(r[i].chain)))
  {
    [ ChainOption(Terra, toBlockChain == Terra),
      ChainOption(Ethereum, toBlockChain == Ethereum),
      ChainOption(Bsc, toBlockChain == Bsc),
      ChainOption(Hmy, toBlockChain == Hmy),
      ChainOption(Osmo, toBlockChain == Osmo || isTestnet),
      ChainOption(Scrt, toBlockChain == Scrt || isTestnet),
      ChainOption(Inj, toBlockChain == Inj || isTestnet),
      ChainOption(Cosmos, toBlockChain == Cosmos || isTestnet),
      ChainOption(Avalanche, toBlockChain == Avalanche || isTestnet),
      ChainOption(Fantom, toBlockChain == Fantom || isTestnet) ]
  }

  /** The chains a list lets the user pick. */
  function Enabled(options: seq<ChainOption>): (chains: set<BlockChain>) {
    set i | 0 <= i < |options| && !options[i].isDisabled :: options[i].chain
  }

  /** On the testnet the TO dropdown offers exactly Terra, Ethereum, BSC and
      Harmony, less the current TO chain. */
  lemma TestnetToChoices(toBlockChain: BlockChain)
    ensures Enabled(ToOptionList(toBlockChain, true)) == {Terra, Ethereum, Bsc, Hmy} - {toBlockChain}
  {
    var r := ToOptionList(toBlockChain, true);
    forall c | c in {Terra, Ethereum, Bsc, Hmy} - {toBlockChain}
      ensures c in Enabled(r)
    {
      var i := if c == Terra then 0 else if c == Ethereum then 1 else if c == Bsc then 2 else 3;
      assert r[i].chain == c && !r[i].isDisabled;
    }
  }

  /** The FROM dropdown offers every FROM chain but the current one. */
  lemma FromChoices(fromBlockChain: BlockChain)
    ensures Enabled(FromOptionList(fromBlockChain)) == set c | c in FROM_CHAINS && c != fromBlockChain
  {
  }

  // ---------------------------------------------------------------------
  // Background image

  datatype BackgroundImage = BridgeMiddle | BridgeIbc | BridgeShuttle

  /** The bridge picture behind the two dropdowns. */
  function Background(bridgeUsed: Bridge): (r: BackgroundImage)
    ensures r == BridgeMiddle <==> bridgeUsed == Wormhole
    ensures r == BridgeIbc <==> bridgeUsed == Ibc
    ensures r == BridgeShuttle <==> bridgeUsed != Wormhole && bridgeUsed != Ibc
  {
    match bridgeUsed
    case Wormhole => BridgeMiddle
    case Ibc => BridgeIbc
    case _ => BridgeShuttle
  }

  // ---------------------------------------------------------------------
  // The component's state

  /** The two `SendStore` cells the pickers write, and how often they logged out. */
  class ChainPicker {
    var fromBlockChain: BlockChain
    var toBlockChain: BlockChain
    var logoutCount: nat

    function Current(): Selection
      reads this
    {
      Selection(fromBlockChain, toBlockChain)
    }

    constructor (from: BlockChain, to: BlockChain)
      ensures Current() == Selection(from, to) && logoutCount == 0
    {
      fromBlockChain, toBlockChain, logoutCount := from, to, 0;
    }

    /** The FROM dropdown's `setBlockChain`. */
    method SetFromBlockChain(value: BlockChain)
      modifies this
      ensures Current() == Choose(old(Current()), PickFrom(value))
      ensures logoutCount == old(logoutCount) + 1
      ensures OneSideTerra(fromBlockChain, toBlockChain)
    {
      logoutCount := logoutCount + 1;
      fromBlockChain := value;
      toBlockChain := Terra;
    }

    /** The TO dropdown's `setBlockChain`. */
    method SetToBlockChain(b: BlockChain)
      modifies this
      ensures Current() == Choose(old(Current()), PickTo(b))
      ensures logoutCount == old(logoutCount) + (if LogsOut(old(Current()), PickTo(b)) then 1 else 0)
      ensures OneSideTerra(fromBlockChain, toBlockChain)
    {
      toBlockChain := b;
      if fromBlockChain != Terra {
        fromBlockChain := Terra;
        logoutCount := logoutCount + 1;
      }
    }
  }
}
