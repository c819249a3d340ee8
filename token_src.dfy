/**
 * The token module as written in src/token.ts, the older build: a `Token`
 * base class over a shared toolkit, `TzBTC` and `UsdTZ` subclasses with fixed
 * mainnet addresses and no network choice, and the native `XTZ` subclass,
 * which overrides every operation.
 */
module TokenSrc {
  import opened Wrappers
  import opened Chain
  import opened Amounts

  /** Which class a `Token` object was built as. */
  datatype Variant = TokenBase | TzBTC | UsdTZ | XTZ

  /** The fixed addresses passed to `super` by the two token subclasses. */
  const TZBTC := Deployment("KT1PWx2mnDueood7fEmfbBDKx1D9BAnnXitn", "KT1DrJV8vhkdLEj76h1H9Q4irZDqAkMPo1Qf")
  const USDTZ := Deployment("KT1LN4LPSqTMS7Sd2CJw4bbDGRkMv2t68Fy9", "KT1Puc9St8wdNoGtLiD2WXaHbWU7styaxYhD")

  /** What the native token's swaps return. */
  const NOT_APPLICABLE := "N/A"

  /** The fixed addresses are originated-contract addresses, and no address is used twice. */
  lemma DeploymentsWellFormed()
    ensures IsContractAddress(TZBTC.asset) && IsContractAddress(TZBTC.pool)
    ensures IsContractAddress(USDTZ.asset) && IsContractAddress(USDTZ.pool)
    ensures TZBTC.asset != TZBTC.pool && USDTZ.asset != USDTZ.pool
    ensures TZBTC.asset != USDTZ.asset && TZBTC.pool != USDTZ.pool
    ensures TZBTC.asset != USDTZ.pool && USDTZ.asset != TZBTC.pool
  {
  }

  class Token {
    var decimals: nat
    const poolContractAddress: Address
    const contractAddress: Address
    const tezos: Toolkit
    const secretKey: string
    const variant: Variant

    /** The base constructor every subclass calls as `super(...)`; `decimals` starts at 6. */
    constructor (variant: Variant, address: Address, poolAddress: Address, toolkit: Toolkit, secretKey: string)
      ensures this.variant == variant && decimals == 6
      ensures poolContractAddress == poolAddress && contractAddress == address
      ensures tezos == toolkit && this.secretKey == secretKey
    {
      this.variant := variant;
      decimals := 6;
      poolContractAddress := poolAddress;
      contractAddress := address;
      tezos := toolkit;
      this.secretKey := secretKey;
    }

    /** `new TzBTC(toolkit, secretKey)`. */
    static method TzBTC(toolkit: Toolkit, secretKey: string) returns (t: Token)
      ensures fresh(t) && t.variant == Variant.TzBTC && t.decimals == 8
      ensures Deployment(t.contractAddress, t.poolContractAddress) == TZBTC
      ensures t.tezos == toolkit && t.secretKey == secretKey
    {
      t := new Token(Variant.TzBTC, TZBTC.asset, TZBTC.pool, toolkit, secretKey);
      t.decimals := 8;
    }

    /** `new UsdTZ(toolkit, secretKey)`: the base `decimals` of 6 is kept. */
    static method UsdTZ(toolkit: Toolkit, secretKey: string) returns (t: Token)
      ensures fresh(t) && t.variant == Variant.UsdTZ && t.decimals == 6
      ensures Deployment(t.contractAddress, t.poolContractAddress) == USDTZ
      ensures t.tezos == toolkit && t.secretKey == secretKey
    {
      t := new Token(Variant.UsdTZ, USDTZ.asset, USDTZ.pool, toolkit, secretKey);
    }

    /** `new XTZ(toolkit)`: no addresses and no secret key. */
    static method XTZ(toolkit: Toolkit) returns (t: Token)
      ensures fresh(t) && t.variant == Variant.XTZ && t.decimals == 6
      ensures t.contractAddress == "" && t.poolContractAddress == "" && t.secretKey == ""
      ensures t.tezos == toolkit
    {
      t := new Token(Variant.XTZ, "", "", toolkit, "");
    }

    /** The pool's native reserve; the native token has no pool and reports 0. */
    function GetXTZPool(): (r: Result<Option<nat>, GatewayError>)
      reads tezos
      ensures variant.XTZ? ==> r == Success(Some(0))
      ensures !variant.XTZ? ==> (r.Success? <==> poolContractAddress in tezos.contracts)
      ensures !variant.XTZ? && r.Failure? ==> r.error == ContractNotFound(poolContractAddress)
      ensures !variant.XTZ? && r.Success? ==> r.value == tezos.contracts[poolContractAddress].xtzPool
    {
      if variant.XTZ? then Success(Some(0))
      else
        match tezos.At(poolContractAddress)
        case Failure(e) => Failure(e)
        case Success(storage) => Success(storage.xtzPool)
    }

    /** The pool's token reserve; the native token has no pool and reports 0. */
    function GetTokenPool(): (r: Result<Option<nat>, GatewayError>)
      reads tezos
      ensures variant.XTZ? ==> r == Success(Some(0))
      ensures !variant.XTZ? ==> (r.Success? <==> poolContractAddress in tezos.contracts)
      ensures !variant.XTZ? && r.Failure? ==> r.error == ContractNotFound(poolContractAddress)
      ensures !variant.XTZ? && r.Success? ==> r.value == tezos.contracts[poolContractAddress].tokenPool
    {
      if variant.XTZ? then Success(Some(0))
      else
        match tezos.At(poolContractAddress)
        case Failure(e) => Failure(e)
        case Success(storage) => Success(storage.tokenPool)
    }

    /**
     * The holding of `address`: its ledger entry in the asset contract, 0 when
     * the storage has no ledger or the ledger no entry; the native token asks
     * the node for the account's balance instead.
     */
    function GetBalance(address: Address): (r: Result<nat, GatewayError>)
      reads tezos
      ensures variant.XTZ? ==> r == tezos.NativeBalance(address)
      ensures !variant.XTZ? ==> (r.Success? <==> contractAddress in tezos.contracts)
      ensures !variant.XTZ? && r.Failure? ==> r.error == ContractNotFound(contractAddress)
      ensures !variant.XTZ? && r.Success? ==>
        var ledger := tezos.contracts[contractAddress].ledger;
        r.value == if ledger.Some? && address in ledger.value then ledger.value[address].balance else 0
    {
      if variant.XTZ? then tezos.NativeBalance(address)
      else
        match tezos.At(contractAddress)
        case Failure(e) => Failure(e)
        case Success(storage) =>
          match storage.ledger
          case None => Success(0)
          case Some(ledger) =>
            if address !in ledger then Success(0) else Success(ledger[address].balance)
    }

    /**
     * Swap `amount` of the native token for at least `minTokensBought` tokens
     * sent to `to`. `now` is the clock reading and `reply` what the chain
     * answers to the operation.
     */
    method FromXTZ(to: Address, minTokensBought: nat, amount: nat, now: int,
                   reply: Result<string, GatewayError>) returns (r: Result<string, GatewayError>)
      modifies tezos
      ensures tezos.contracts == old(tezos.contracts) && tezos.balances == old(tezos.balances)
      ensures variant.XTZ? ==>
        r == Success(NOT_APPLICABLE) && tezos.log == old(tezos.log) && tezos.signer == old(tezos.signer)
      ensures !variant.XTZ? ==> tezos.signer == Some(secretKey)
      ensures !variant.XTZ? && poolContractAddress !in old(tezos.contracts) ==>
        r == Failure(ContractNotFound(poolContractAddress))
        && tezos.log == old(tezos.log) + [SetSigner(secretKey)]
        && Submissions(tezos.log) == old(Submissions(tezos.log))
      ensures !variant.XTZ? && poolContractAddress in old(tezos.contracts) ==>
        var call := Call(poolContractAddress, "xtzToToken", [Str(to), Num(minTokensBought), Time(Deadline(now))], amount);
        r == reply
        && tezos.log == old(tezos.log) + [SetSigner(secretKey), Invoke(call)]
        && Submissions(tezos.log) == old(Submissions(tezos.log)) + [[call]]
      ensures SignedWrites(old(tezos.log)) ==> SignedWrites(tezos.log)
    {
      if variant.XTZ? {
        return Success(NOT_APPLICABLE);
      }
      ghost var before := tezos.log;
      tezos.SetSignerProvider(secretKey);
      SubmissionsAppend(before, [SetSigner(secretKey)]);
      SignedWritesSign(before, secretKey, []);
      var contract := tezos.At(poolContractAddress);
      if contract.Failure? {
        return Failure(contract.error);
      }
      var deadline := Deadline(now);
      var call := Call(poolContractAddress, "xtzToToken", [Str(to), Num(minTokensBought), Time(deadline)], amount);
      r := tezos.Send(Invoke(call), reply);
      SubmissionsAppend(before, [SetSigner(secretKey), Invoke(call)]);
      SignedWritesSign(before, secretKey, [Invoke(call)]);
    }

    /**
     * Swap `amount` tokens (in human units) for at least `minXTZBought` of the
     * native token sent to `to`: one batch that first approves the pool to
     * take the tokens and then calls the pool's `tokenToXtz`.
     */
    method ToXTZ(to: Address, minXTZBought: nat, amount: nat, now: int,
                 reply: Result<string, GatewayError>) returns (r: Result<string, GatewayError>)
      modifies tezos
      ensures tezos.contracts == old(tezos.contracts) && tezos.balances == old(tezos.balances)
      ensures variant.XTZ? ==>
        r == Success(NOT_APPLICABLE) && tezos.log == old(tezos.log) && tezos.signer == old(tezos.signer)
      ensures !variant.XTZ? ==> tezos.signer == Some(secretKey)
      ensures !variant.XTZ? && poolContractAddress !in old(tezos.contracts) ==>
        r == Failure(ContractNotFound(poolContractAddress))
        && tezos.log == old(tezos.log) + [SetSigner(secretKey)]
      ensures !variant.XTZ? && poolContractAddress in old(tezos.contracts) && contractAddress !in old(tezos.contracts) ==>
        r == Failure(ContractNotFound(contractAddress))
        && tezos.log == old(tezos.log) + [SetSigner(secretKey)]
      ensures !variant.XTZ? && (poolContractAddress !in old(tezos.contracts) || contractAddress !in old(tezos.contracts)) ==>
        Submissions(tezos.log) == old(Submissions(tezos.log))
      ensures !variant.XTZ? && poolContractAddress in old(tezos.contracts) && contractAddress in old(tezos.contracts) ==>
        var tokensSold := TokensSold(amount, decimals);
        var approve := Call(contractAddress, "approve", [Str(poolContractAddress), Num(tokensSold)], 0);
        var swap := Call(poolContractAddress, "tokenToXtz",
                         [Str(to), Str(to), Num(tokensSold), Num(minXTZBought), Time(Deadline(now))], 0);
        r == reply
        && tezos.log == old(tezos.log) + [SetSigner(secretKey), Batch([approve, swap])]
        && Submissions(tezos.log) == old(Submissions(tezos.log)) + [[approve, swap]]
      ensures SignedWrites(old(tezos.log)) ==> SignedWrites(tezos.log)
    {
      if variant.XTZ? {
        return Success(NOT_APPLICABLE);
      }
      ghost var before := tezos.log;
      tezos.SetSignerProvider(secretKey);
      SubmissionsAppend(before, [SetSigner(secretKey)]);
      SignedWritesSign(before, secretKey, []);
      var poolContract := tezos.At(poolContractAddress);
      if poolContract.Failure? {
        return Failure(poolContract.error);
      }
      var contract := tezos.At(contractAddress);
      if contract.Failure? {
        return Failure(contract.error);
      }
      var deadline := Deadline(now);
      var tokensSold := TokensSold(amount, decimals);
      var batch: seq<Call> := [];
      batch := batch + [Call(contractAddress, "approve", [Str(poolContractAddress), Num(tokensSold)], 0)];
      batch := batch + [Call(poolContractAddress, "tokenToXtz",
                             [Str(to), Str(to), Num(tokensSold), Num(minXTZBought), Time(deadline)], 0)];
      assert batch == [batch[0], batch[1]];
      r := tezos.Send(Batch(batch), reply);
      SubmissionsAppend(before, [SetSigner(secretKey), Batch(batch)]);
      SignedWritesSign(before, secretKey, [Batch(batch)]);
    }
  }
}
