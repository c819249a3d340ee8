/**
 * The token module as built in dist/token.js: a `Token` base class over a
 * shared toolkit, the network-switched `KUSD`, `TzBTC`, `UsdTZ` and `ETHtz`
 * subclasses and the native `XTZ` subclass, which overrides every operation.
 */
module TokenDist {
  import opened Wrappers
  import opened Chain
  import opened Amounts

  datatype Network = Mainnet | Delphinet

  /** The tokens that have deployments per network. */
  datatype Asset = KUSD | TzBTC | UsdTZ | ETHtz

  /** Which class a `Token` object was built as. */
  datatype Variant = TokenBase | Registered(asset: Asset) | XTZ

  const CONTRACT_NOT_AVAILABLE := "contract not available"
  /** What the native token's swaps return. */
  const NOT_APPLICABLE := "N/A"

  /** The deployments named in the subclass constructors, per token and network. */
  const KUSD_MAINNET := Deployment("KT1K9gCRgaLRFKTErYt1wVxA3Frb9FjasjTV", "KT1AbYeDbjjcAnV1QK7EZUUdqku77CdkTuv6")
  const KUSD_DELPHINET := Deployment("KT1RXpLtz22YgX24QQhxKVyKvtKZFaAVtTB9", "KT1XTUGj7Rkgh6vLVDu91h81Xu2WGfyTxpqi")
  const TZBTC_MAINNET := Deployment("KT1PWx2mnDueood7fEmfbBDKx1D9BAnnXitn", "KT1BGQR7t4izzKZ7eRodKWTodAsM23P38v7N")
  const TZBTC_DELPHINET := Deployment("KT1HeJBNHwWY18CuncPmMUVrSxurStXsMMvF", "KT1QGd6nEG2Dg2LcmkpveYQ98j5b2WgePtdo")
  const USDTZ_MAINNET := Deployment("KT1LN4LPSqTMS7Sd2CJw4bbDGRkMv2t68Fy9", "KT1Tr2eG3eVmPRbymrbU2UppUmKjFPXomGG9")
  const USDTZ_DELPHINET := Deployment("KT1WvDfFgUKXWiBvQT46F8GpZ3rjQ6hLo7tz", "KT1Uw3c2EgxTEVN378PaaK68jNK4DqcEuLcy")
  const ETHTZ_MAINNET := Deployment("KT19at7rQUvyjxnZ2fBv7D9zc8rkyG7gAoU8", "KT1PDrBE59Zmxnb8vXRgRAG1XmvTMTs5EDHU")

  /** The addresses each subclass constructor selects by its `switch (network)`. */
  function Registry(asset: Asset, network: Network): (r: Result<Deployment, string>)
    ensures r.Failure? <==> asset == ETHtz && network == Delphinet
    ensures r.Failure? ==> r.error == CONTRACT_NOT_AVAILABLE
    ensures r.Success? ==> IsContractAddress(r.value.asset) && IsContractAddress(r.value.pool)
  {
    match (asset, network)
    case (KUSD, Mainnet) => Success(KUSD_MAINNET)
    case (KUSD, Delphinet) => Success(KUSD_DELPHINET)
    case (TzBTC, Mainnet) => Success(TZBTC_MAINNET)
    case (TzBTC, Delphinet) => Success(TZBTC_DELPHINET)
    case (UsdTZ, Mainnet) => Success(USDTZ_MAINNET)
    case (UsdTZ, Delphinet) => Success(USDTZ_DELPHINET)
    case (ETHtz, Mainnet) => Success(ETHTZ_MAINNET)
    case (ETHtz, Delphinet) => Failure(CONTRACT_NOT_AVAILABLE)
  }

  /** No address is used twice: not by two tokens, not on two networks, not as asset and pool. */
  lemma RegistryDistinct(a1: Asset, n1: Network, a2: Asset, n2: Network)
    requires Registry(a1, n1).Success? && Registry(a2, n2).Success?
    ensures (a1, n1) != (a2, n2) ==> Registry(a1, n1).value.asset != Registry(a2, n2).value.asset
    ensures (a1, n1) != (a2, n2) ==> Registry(a1, n1).value.pool != Registry(a2, n2).value.pool
    ensures Registry(a1, n1).value.asset != Registry(a2, n2).value.pool
  {
  }

  class Token {
    var decimals: nat
    const poolContractAddress: Address
    const contractAddress: Address
    const tezos: Toolkit
    const secretKey: string
    const network: Network
    const variant: Variant

    /** The base constructor every subclass calls as `super(...)`; `decimals` starts at 6. */
    constructor (variant: Variant, address: Address, poolAddress: Address, toolkit: Toolkit,
                 secretKey: string, network: Network)
      ensures this.variant == variant && decimals == 6
      ensures poolContractAddress == poolAddress && contractAddress == address
      ensures tezos == toolkit && this.secretKey == secretKey && this.network == network
    {
      this.variant := variant;
      decimals := 6;
      poolContractAddress := poolAddress;
      contractAddress := address;
      tezos := toolkit;
      this.secretKey := secretKey;
      this.network := network;
    }

    /** `new KUSD(toolkit, secretKey, network)`. */
    static method KUSD(toolkit: Toolkit, secretKey: string, network: Network) returns (t: Token)
      ensures fresh(t) && t.variant == Registered(Asset.KUSD) && t.decimals == 18
      ensures Deployment(t.contractAddress, t.poolContractAddress) == Registry(Asset.KUSD, network).value
      ensures t.tezos == toolkit && t.secretKey == secretKey && t.network == network
    {
      var d := Registry(Asset.KUSD, network).value;
      t := new Token(Registered(Asset.KUSD), d.asset, d.pool, toolkit, secretKey, network);
      t.decimals := 18;
    }

    /** `new TzBTC(toolkit, secretKey, network)`. */
    static method TzBTC(toolkit: Toolkit, secretKey: string, network: Network) returns (t: Token)
      ensures fresh(t) && t.variant == Registered(Asset.TzBTC) && t.decimals == 8
      ensures Deployment(t.contractAddress, t.poolContractAddress) == Registry(Asset.TzBTC, network).value
      ensures t.tezos == toolkit && t.secretKey == secretKey && t.network == network
    {
      var d := Registry(Asset.TzBTC, network).value;
      t := new Token(Registered(Asset.TzBTC), d.asset, d.pool, toolkit, secretKey, network);
      t.decimals := 8;
    }

    /** `new UsdTZ(toolkit, secretKey, network)`: the base `decimals` of 6 is kept. */
    static method UsdTZ(toolkit: Toolkit, secretKey: string, network: Network) returns (t: Token)
      ensures fresh(t) && t.variant == Registered(Asset.UsdTZ) && t.decimals == 6
      ensures Deployment(t.contractAddress, t.poolContractAddress) == Registry(Asset.UsdTZ, network).value
      ensures t.tezos == toolkit && t.secretKey == secretKey && t.network == network
    {
      var d := Registry(Asset.UsdTZ, network).value;
      t := new Token(Registered(Asset.UsdTZ), d.asset, d.pool, toolkit, secretKey, network);
    }

    /** `new ETHtz(toolkit, secretKey, network)`, which throws before `super` on Delphinet. */
    static method ETHtz(toolkit: Toolkit, secretKey: string, network: Network) returns (r: Result<Token, string>)
      ensures r.Failure? <==> network == Delphinet
      ensures r.Failure? ==> r.error == CONTRACT_NOT_AVAILABLE
      ensures r.Success? ==> fresh(r.value) && r.value.variant == Registered(Asset.ETHtz) && r.value.decimals == 18
      ensures r.Success? ==> Deployment(r.value.contractAddress, r.value.poolContractAddress) == ETHTZ_MAINNET
      ensures r.Success? ==> r.value.tezos == toolkit && r.value.secretKey == secretKey && r.value.network == network
    {
      match Registry(Asset.ETHtz, network)
      case Failure(e) =>
        r := Failure(e);
      case Success(d) =>
        var t := new Token(Registered(Asset.ETHtz), d.asset, d.pool, toolkit, secretKey, network);
        t.decimals := 18;
        r := Success(t);
    }

    /** `new XTZ(toolkit, network)`: no addresses and no secret key. */
    static method XTZ(toolkit: Toolkit, network: Network) returns (t: Token)
      ensures fresh(t) && t.variant == Variant.XTZ && t.decimals == 6
      ensures t.contractAddress == "" && t.poolContractAddress == "" && t.secretKey == ""
      ensures t.tezos == toolkit && t.network == network
    {
      t := new Token(Variant.XTZ, "", "", toolkit, "", network);
    }

    /** The pool's native reserve; the native token has no pool and reports 0. */
    function GetXTZPool(): (r: Result<Option<nat>, GatewayError>)
      reads tezos
      ensures variant.XTZ? ==> r == Success(Some(0))
      ensures !variant.XTZ? ==> (r.Success? <==> poolContractAddress in tezos.contracts)
      ensures !variant.XTZ? && r.Failure? ==> r.error == ContractNotFound(poolContractAddress)
      ensures !variant.XTZ? && r.Success? ==> r.value == tezos.contracts[poolContractAddress].xtzPool
    {
      if variant.XTZ? then Success(Some(0))
      else
        match tezos.At(poolContractAddress)
        case Failure(e) => Failure(e)
        case Success(storage) => Success(storage.xtzPool)
    }

    /** The pool's token reserve; the native token has no pool and reports 0. */
    function GetTokenPool(): (r: Result<Option<nat>, GatewayError>)
      reads tezos
      ensures variant.XTZ? ==> r == Success(Some(0))
      ensures !variant.XTZ? ==> (r.Success? <==> poolContractAddress in tezos.contracts)
      ensures !variant.XTZ? && r.Failure? ==> r.error == ContractNotFound(poolContractAddress)
      ensures !variant.XTZ? && r.Success? ==> r.value == tezos.contracts[poolContractAddress].tokenPool
    {
      if variant.XTZ? then Success(Some(0))
      else
        match tezos.At(poolContractAddress)
        case Failure(e) => Failure(e)
        case Success(storage) => Success(storage.tokenPool)
    }

    /**
     * The holding of `address`: its ledger entry in the asset contract, 0 when
     * the storage has no ledger or the ledger no entry; the native token asks
     * the node for the account's balance instead.
     */
    function GetBalance(address: Address): (r: Result<nat, GatewayError>)
      reads tezos
      ensures variant.XTZ? ==> r == tezos.NativeBalance(address)
      ensures !variant.XTZ? ==> (r.Success? <==> contractAddress in tezos.contracts)
      ensures !variant.XTZ? && r.Failure? ==> r.error == ContractNotFound(contractAddress)
      ensures !variant.XTZ? && r.Success? ==>
        var ledger := tezos.contracts[contractAddress].ledger;
        r.value == if ledger.Some? && address in ledger.value then ledger.value[address].balance else 0
    {
      if variant.XTZ? then tezos.NativeBalance(address)
      else
        match tezos.At(contractAddress)
        case Failure(e) => Failure(e)
        case Success(storage) =>
          match storage.ledger
          case None => Success(0)
          case Some(ledger) =>
            if address !in ledger then Success(0) else Success(ledger[address].balance)
    }

    /**
     * Swap `amount` of the native token for at least `minTokensBought` tokens
     * sent to `to`. `now` is the clock reading and `reply` what the chain
     * answers to the operation.
     */
    method FromXTZ(to: Address, minTokensBought: nat, amount: nat, now: int,
                   reply: Result<string, GatewayError>) returns (r: Result<string, GatewayError>)
      modifies tezos
      ensures tezos.contracts == old(tezos.contracts) && tezos.balances == old(tezos.balances)
      ensures variant.XTZ? ==>
        r == Success(NOT_APPLICABLE) && tezos.log == old(tezos.log) && tezos.signer == old(tezos.signer)
      ensures !variant.XTZ? ==> tezos.signer == Some(secretKey)
      ensures !variant.XTZ? && poolContractAddress !in old(tezos.contracts) ==>
        r == Failure(ContractNotFound(poolContractAddress))
        && tezos.log == old(tezos.log) + [SetSigner(secretKey)]
        && Submissions(tezos.log) == old(Submissions(tezos.log))
      ensures !variant.XTZ? && poolContractAddress in old(tezos.contracts) ==>
        var call := Call(poolContractAddress, "xtzToToken", [Str(to), Num(minTokensBought), Time(Deadline(now))], amount);
        r == reply
        && tezos.log == old(tezos.log) + [SetSigner(secretKey), Invoke(call)]
        && Submissions(tezos.log) == old(Submissions(tezos.log)) + [[call]]
      ensures SignedWrites(old(tezos.log)) ==> SignedWrites(tezos.log)
    {
      if variant.XTZ? {
        return Success(NOT_APPLICABLE);
      }
      ghost var before := tezos.log;
      tezos.SetSignerProvider(secretKey);
      SubmissionsAppend(before, [SetSigner(secretKey)]);
      SignedWritesSign(before, secretKey, []);
      var contract := tezos.At(poolContractAddress);
      if contract.Failure? {
        return Failure(contract.error);
      }
      var deadline := Deadline(now);
      var call := Call(poolContractAddress, "xtzToToken", [Str(to), Num(minTokensBought), Time(deadline)], amount);
      r := tezos.Send(Invoke(call), reply);
      SubmissionsAppend(before, [SetSigner(secretKey), Invoke(call)]);
      SignedWritesSign(before, secretKey, [Invoke(call)]);
    }

    /**
     * Swap `amount` tokens (in human units) for at least `minXTZBought` of the
     * native token sent to `to`: one batch that first approves the pool to
     * take the tokens and then calls the pool's `tokenToXtz`.
     */
    method ToXTZ(to: Address, minXTZBought: nat, amount: nat, now: int,
                 reply: Result<string, GatewayError>) returns (r: Result<string, GatewayError>)
      modifies tezos
      ensures tezos.contracts == old(tezos.contracts) && tezos.balances == old(tezos.balances)
      ensures variant.XTZ? ==>
        r == Success(NOT_APPLICABLE) && tezos.log == old(tezos.log) && tezos.signer == old(tezos.signer)
      ensures !variant.XTZ? ==> tezos.signer == Some(secretKey)
      ensures !variant.XTZ? && poolContractAddress !in old(tezos.contracts) ==>
        r == Failure(ContractNotFound(poolContractAddress))
        && tezos.log == old(tezos.log) + [SetSigner(secretKey)]
      ensures !variant.XTZ? && poolContractAddress in old(tezos.contracts) && contractAddress !in old(tezos.contracts) ==>
        r == Failure(ContractNotFound(contractAddress))
        && tezos.log == old(tezos.log) + [SetSigner(secretKey)]
      ensures !variant.XTZ? && (poolContractAddress !in old(tezos.contracts) || contractAddress !in old(tezos.contracts)) ==>
        Submissions(tezos.log) == old(Submissions(tezos.log))
      ensures !variant.XTZ? && poolContractAddress in old(tezos.contracts) && contractAddress in old(tezos.contracts) ==>
        var tokensSold := TokensSold(amount, decimals);
        var approve := Call(contractAddress, "approve", [Str(poolContractAddress), Num(tokensSold)], 0);
        var swap := Call(poolContractAddress, "tokenToXtz",
                         [Str(to), Str(to), Num(tokensSold), Num(minXTZBought), Time(Deadline(now))], 0);
        r == reply
        && tezos.log == old(tezos.log) + [SetSigner(secretKey), Batch([approve, swap])]
        && Submissions(tezos.log) == old(Submissions(tezos.log)) + [[approve, swap]]
      ensures SignedWrites(old(tezos.log)) ==> SignedWrites(tezos.log)
    {
      if variant.XTZ? {
        return Success(NOT_APPLICABLE);
      }
      ghost var before := tezos.log;
      tezos.SetSignerProvider(secretKey);
      SubmissionsAppend(before, [SetSigner(secretKey)]);
      SignedWritesSign(before, secretKey, []);
      var poolContract := tezos.At(poolContractAddress);
      if poolContract.Failure? {
        return Failure(poolContract.error);
      }
      var contract := tezos.At(contractAddress);
      if contract.Failure? {
        return Failure(contract.error);
      }
      var deadline := Deadline(now);
      var tokensSold := TokensSold(amount, decimals);
      var batch: seq<Call> := [];
      batch := batch + [Call(contractAddress, "approve", [Str(poolContractAddress), Num(tokensSold)], 0)];
      batch := batch + [Call(poolContractAddress, "tokenToXtz",
                             [Str(to), Str(to), Num(tokensSold), Num(minXTZBought), Time(deadline)], 0)];
      assert batch == [batch[0], batch[1]];
      r := tezos.Send(Batch(batch), reply);
      SubmissionsAppend(before, [SetSigner(secretKey), Batch(batch)]);
      SignedWritesSign(before, secretKey, [Batch(batch)]);
    }
  }
}
