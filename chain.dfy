/**
 * The chain gateway both builds of the token module talk to, reduced to what
 * they use of it: contract storage is a map from address to storage value,
 * native balances are a map, and every write (installing a signer, sending a
 * contract call, sending a batch) is appended to a log.
 */
module Chain {
  import opened Wrappers

  type Address = string

  /** The shape of an originated-contract address: 36 characters starting with `KT1`. */
  predicate IsContractAddress(a: Address)
  {
    |a| == 36 && "KT1" <= a
  }

  /** A token's asset contract and its liquidity-pool contract. */
  datatype Deployment = Deployment(asset: Address, pool: Address)

  /** A ledger value of a token contract; only its balance is ever read. */
  datatype LedgerEntry = LedgerEntry(balance: nat)

  /**
   * The parts of a contract's storage the token module reads. A field the
   * contract does not have is `None`, as it is `undefined` at run time.
   */
  datatype Storage = Storage(
    ledger: Option<map<Address, LedgerEntry>>,
    xtzPool: Option<nat>,
    tokenPool: Option<nat>)

  /** Failures raised by the gateway; the token module re-raises them unchanged. */
  datatype GatewayError =
    | ContractNotFound(address: Address)
    | BalanceUnavailable(address: Address)
    | OperationFailed(details: seq<string>)

  /** One argument of a contract call. */
  datatype Arg = Str(s: string) | Num(n: int) | Time(ms: int)

  /** A contract entrypoint call; `amount` is the native amount transferred with it. */
  datatype Call = Call(contract: Address, entrypoint: string, args: seq<Arg>, amount: nat)

  /** One write made through the gateway. */
  datatype Action =
    | SetSigner(secretKey: string)
    | Invoke(call: Call)
    | Batch(calls: seq<Call>)

  /** The operations a log submits to the chain, each as the group of calls applied atomically. */
  function Submissions(log: seq<Action>): (r: seq<seq<Call>>)
    ensures |r| <= |log|
  {
    if log == [] then []
    else
      var first := match log[0]
        case SetSigner(_) => []
        case Invoke(c) => [[c]]
        case Batch(cs) => [cs];
      first + Submissions(log[1..])
  }

  lemma {:induction false} SubmissionsAppend(a: seq<Action>, b: seq<Action>)
    ensures Submissions(a + b) == Submissions(a) + Submissions(b)
  {
    if a == [] {
      assert a + b == b;
    } else {
      assert (a + b)[0] == a[0];
      assert (a + b)[1..] == a[1..] + b;
      SubmissionsAppend(a[1..], b);
    }
  }

  /** Every operation in the log was sent right after a signer was installed. */
  predicate SignedWrites(log: seq<Action>)
  {
    forall i :: 0 <= i < |log| && !log[i].SetSigner? ==> 0 < i && log[i - 1].SetSigner?
  }

  /** Installing a signer and then sending at most one operation keeps every write signed. */
  lemma SignedWritesSign(log: seq<Action>, secretKey: string, ops: seq<Action>)
    requires |ops| <= 1
    ensures SignedWrites(log) ==> SignedWrites(log + [SetSigner(secretKey)] + ops)
  {
    if !SignedWrites(log) {
      return;
    }
    var all := log + [SetSigner(secretKey)] + ops;
    forall i | 0 <= i < |all| && !all[i].SetSigner?
      ensures 0 < i && all[i - 1].SetSigner?
    {
      if i < |log| {
        assert all[i] == log[i];
        assert all[i - 1] == log[i - 1];
      } else {
        assert i == |log| + 1;
        assert all[i - 1] == SetSigner(secretKey);
      }
    }
  }

  /** The toolkit handle: what the gateway can read, the signer in force, and the writes so far. */
  class Toolkit {
    var contracts: map<Address, Storage>
    var balances: map<Address, nat>
    var signer: Option<string>
    var log: seq<Action>

    constructor (contracts: map<Address, Storage>, balances: map<Address, nat>)
      ensures this.contracts == contracts && this.balances == balances
      ensures signer == None && log == []
    {
      this.contracts := contracts;
      this.balances := balances;
      signer := None;
      log := [];
    }

    /** `contract.at(address)` followed by `storage()`. */
    function At(address: Address): (r: Result<Storage, GatewayError>)
      reads this
      ensures r.Success? <==> address in contracts
      ensures r.Success? ==> r.value == contracts[address]
      ensures r.Failure? ==> r.error == ContractNotFound(address)
    {
      if address in contracts then Success(contracts[address]) else Failure(ContractNotFound(address))
    }

    /** `rpc.getBalance(address)`. */
    function NativeBalance(address: Address): (r: Result<nat, GatewayError>)
      reads this
      ensures r.Success? <==> address in balances
      ensures r.Success? ==> r.value == balances[address]
      ensures r.Failure? ==> r.error == BalanceUnavailable(address)
    {
      if address in balances then Success(balances[address]) else Failure(BalanceUnavailable(address))
    }

    /** `setSignerProvider` with the signer built from `secretKey`. */
    method SetSignerProvider(secretKey: string)
      modifies this
      ensures signer == Some(secretKey)
      ensures log == old(log) + [SetSigner(secretKey)]
      ensures contracts == old(contracts) && balances == old(balances)
    {
      signer := Some(secretKey);
      log := log + [SetSigner(secretKey)];
    }

    /**
     * `send()`, `confirmation()` and `hash` of an operation: the operation is
     * logged and the chain's verdict, `reply`, comes back as it is.
     */
    method Send(operation: Action, reply: Result<string, GatewayError>) returns (r: Result<string, GatewayError>)
      requires !operation.SetSigner?
      modifies this
      ensures r == reply
      ensures log == old(log) + [operation]
      ensures signer == old(signer) && contracts == old(contracts) && balances == old(balances)
    {
      log := log + [operation];
      r := reply;
    }
  }
}
