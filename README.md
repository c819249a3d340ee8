# Dexter token swaps, modelled in Dafny

This project models the token layer of a Tezos client library for the Dexter
exchange: the `Token` class and its subclasses, which swap the native token
(XTZ) against FA1.2 tokens through a liquidity pool contract, and read pool
reserves and ledger balances. The library exists in two builds, and each one
is modelled as written, in its own module:

- `TokenDist` (`token_dist.dfy`) models `dist/token.js`. It has a `Network`
  choice (mainnet or delphinet) and the tokens KUSD, TzBTC, UsdTZ and ETHtz,
  each of which picks its asset and pool contracts by network.
- `TokenSrc` (`token_src.dfy`) models `src/token.ts`. It is the older build,
  with only TzBTC and UsdTZ, at fixed addresses.

In both builds, XTZ overrides every operation: its pools are 0, its balance
comes from the node, and its swaps return `"N/A"`.

The chain is an abstract gateway, `Chain.Toolkit` (`chain.dfy`), with four
fields:

- `contracts`: a map from contract address to storage, read by
  `contract.at(...)` followed by `storage()`.
- `balances`: native balances, read by `rpc.getBalance`.
- `signer`: the signer currently installed.
- `log`: every write sent through the gateway, in order. A write is
  `SetSigner(key)`, `Invoke(call)` or `Batch(calls)`.

The chain's answer to a sent operation comes in as a parameter, `reply`. That
answer is the operation hash after confirmation, or the failure. The clock
comes in as a parameter too, `now`, in milliseconds. `Chain.Submissions`
views a log as the sequence of operations applied atomically. `Chain.SignedWrites`
says that every write came right after a signer was installed.

Subclasses become one `Token` class with a constant `variant` field, and the
XTZ overrides branch on `variant.XTZ?`. A subclass constructor becomes a
static method of the same name. It builds the object through the base
constructor (the `super(...)` call, which sets `decimals` to 6) and then
overwrites `decimals`, as the source does. `ETHtz` returns a `Result`,
because on delphinet it throws before the object exists.

`Amounts` (`amounts.dfy`) holds the arithmetic both builds share: the exact
scaling `tokensSold = amount * 10^decimals` and the 20-minute deadline.
`Scenarios` (`scenarios.dfy`) holds three client methods whose outcomes are
derived from the contracts alone:

- a `fromXTZ` of 1000 native units that asks for at least 500 tokens;
- a 3-TzBTC `toXTZ`;
- the native token's no-op swaps.

Two behaviours of the code are worth stating outright:

- Only ETHtz on delphinet fails to construct, with the message
  `contract not available`. XTZ keeps empty-string addresses. There is no
  separate "unsupported network" error.
- A contract rejection is logged by the source and then rethrown unchanged.
  Its detail is not extracted for the caller, so the model returns the
  gateway's error exactly as received.

## Model

| member | source | states |
|---|---|---|
| `TokenDist.Registry` | dist/token.js:136-207 | each subclass constructor's `switch (network)`. The lookup fails exactly for ETHtz on delphinet, with `contract not available`. Every other pair gives an asset and a pool address shaped like a `KT1` contract address (36 characters). |
| `TokenDist.RegistryDistinct` | dist/token.js:140-200 | no address is listed twice, whether for two tokens, on two networks, or as one entry's asset and another entry's pool. |
| `TokenDist.Token.constructor` | dist/token.js:21-28 | the base constructor stores the two addresses, the toolkit, the secret key and the network, and sets `decimals` to 6. |
| `TokenDist.Token.KUSD` | dist/token.js:136-153 | a fresh KUSD object with the registry's addresses for its network and `decimals` 18. |
| `TokenDist.Token.TzBTC` | dist/token.js:155-172 | a fresh TzBTC object with the registry's addresses for its network and `decimals` 8. |
| `TokenDist.Token.UsdTZ` | dist/token.js:174-190 | a fresh UsdTZ object with the registry's addresses for its network. It keeps the base `decimals` of 6. |
| `TokenDist.Token.ETHtz` | dist/token.js:192-207 | fails with `contract not available` if and only if the network is delphinet, and then no object is made. Otherwise it gives a fresh ETHtz object with the mainnet addresses and `decimals` 18. |
| `TokenDist.Token.XTZ` | dist/token.js:209-212 | a fresh XTZ object whose asset address, pool address and secret key are all empty. |
| `TokenDist.Token.GetXTZPool` | dist/token.js:29-42 | the `xtzPool` field of the pool contract's storage, or the gateway's error unchanged when that contract cannot be read. XTZ gives 0 (override at dist/token.js:235-239). Being a function, it writes nothing. |
| `TokenDist.Token.GetTokenPool` | dist/token.js:43-56 | the `tokenPool` field of the pool contract's storage, or the gateway's error unchanged. XTZ gives 0 (override at dist/token.js:240-244). |
| `TokenDist.Token.GetBalance` | dist/token.js:57-77 | 0 when the asset contract's storage has no ledger, and 0 when the ledger has no entry for the address. Otherwise it gives that entry's balance. The gateway's error passes through unchanged. XTZ gives the node's native balance (override at dist/token.js:213-224). The log is untouched. |
| `TokenDist.Token.FromXTZ` | dist/token.js:78-103 | installs the signer first. If the pool contract cannot be read, the result is that error and nothing else is sent. Otherwise exactly one further write follows: `xtzToToken(to, minTokensBought, now + 20 min)` on the pool, carrying `amount`, and the result is the chain's reply unchanged. Submissions grow by exactly that one call. Signed writes stay signed. Storage is unchanged. XTZ returns `"N/A"` with the log and signer untouched (dist/token.js:225-229). |
| `TokenDist.Token.ToXTZ` | dist/token.js:104-133 | installs the signer first. If the pool or the asset contract cannot be read (checked in that order), the result is that error and no batch is sent. Otherwise exactly one batch of exactly two calls is sent: `approve(pool, tokensSold)` on the asset contract, then `tokenToXtz(to, to, tokensSold, minXTZBought, now + 20 min)` on the pool. Both use the same `tokensSold = amount * 10^decimals`. The result is the chain's reply unchanged. XTZ returns `"N/A"` with no write (dist/token.js:230-234). |
| `TokenSrc.DeploymentsWellFormed` | src/token.ts:150-171 | the fixed TzBTC and UsdTZ addresses are `KT1` contract addresses, and all four are distinct. |
| `TokenSrc.Token.constructor` | src/token.ts:12-22 | stores the two addresses, the toolkit and the secret key. `decimals` starts at 6 (src/token.ts:9). There is no network. |
| `TokenSrc.Token.TzBTC` | src/token.ts:150-160 | a fresh TzBTC object with asset `KT1PWx2m…`, pool `KT1DrJV8…` and `decimals` 8. |
| `TokenSrc.Token.UsdTZ` | src/token.ts:162-171 | a fresh UsdTZ object with asset `KT1LN4LP…`, pool `KT1Puc9S…` and `decimals` kept at 6. |
| `TokenSrc.Token.XTZ` | src/token.ts:173-176 | a fresh XTZ object whose addresses and secret key are empty. |
| `TokenSrc.Token.GetXTZPool` | src/token.ts:24-34 | the pool storage's `xtzPool`, or the gateway's error unchanged. XTZ gives 0 (src/token.ts:205-207). |
| `TokenSrc.Token.GetTokenPool` | src/token.ts:36-46 | the pool storage's `tokenPool`, or the gateway's error unchanged. XTZ gives 0 (src/token.ts:209-211). |
| `TokenSrc.Token.GetBalance` | src/token.ts:48-65 | 0 for an absent ledger, 0 for an absent entry, otherwise the entry's balance. A gateway error passes through unchanged. XTZ asks `rpc.getBalance` (src/token.ts:178-187). |
| `TokenSrc.Token.FromXTZ` | src/token.ts:67-97 | the signer first, then the single `xtzToToken(to, minTokensBought, now + 20 min)` call carrying `amount`, then the reply unchanged. If the pool cannot be read, that error is returned and nothing is sent. The XTZ override returns `"N/A"` with no write (src/token.ts:189-195). |
| `TokenSrc.Token.ToXTZ` | src/token.ts:99-147 | the signer first, then one batch holding exactly `approve(pool, tokensSold)` and then `tokenToXtz(to, to, tokensSold, minXTZBought, now + 20 min)`, with `tokensSold = amount * 10^decimals`. A failure to read either contract is returned unchanged and sends nothing. The XTZ override returns `"N/A"` with no write (src/token.ts:197-203). |
| `Amounts.Pow10` | src/token.ts:114 | `10 ** decimals` as an exact positive integer, a multiple of 10 for positive exponents. |
| `Amounts.Pow10Add` | dist/token.js:112 | `10^(m+n) = 10^m * 10^n`, proved by induction. |
| `Amounts.TokensSold` | dist/token.js:112 | `tokensSold = amount * 10^decimals` is lossless: divided by `10^decimals` it gives back `amount`, with remainder 0. |
| `Amounts.TokensSoldInjective` | src/token.ts:114 | two amounts scale to the same `tokensSold` if and only if they are equal. |
| `Amounts.Deadline` | dist/token.js:83-84 | the swap deadline lies exactly 20 minutes (1 200 000 ms) after the instant `now`. The swaps pass `Time(Deadline(now))` with the `now` of their own call, so the deadline is recomputed per call. |
| `Chain.Submissions` | dist/token.js:85-87 | the operations a log sends: at most one per log entry, with signer installations excluded. |
| `Chain.SubmissionsAppend` | dist/token.js:113-117 | the operations of two logs run one after the other are those of the first, then those of the second. Proved by induction. |
| `Chain.SignedWritesSign` | dist/token.js:81 | installing a signer and then sending at most one operation keeps every write right after a signer installation. |
| `Chain.Toolkit.constructor` | dist/token.js:25 | a toolkit over given storages and balances, with no signer and an empty log. |
| `Chain.Toolkit.At` | dist/token.js:32-33 | `contract.at` then `storage()`: the storage of a known address, otherwise `ContractNotFound` of that address. |
| `Chain.Toolkit.NativeBalance` | dist/token.js:216 | `rpc.getBalance`: the account's native balance, otherwise `BalanceUnavailable`. |
| `Chain.Toolkit.SetSignerProvider` | dist/token.js:81 | installs the signer for the key and logs `SetSigner(key)`. Nothing else changes. |
| `Chain.Toolkit.Send` | dist/token.js:117-119 | logs the operation and returns the chain's reply as it is. The signer and storage are unchanged. |
| `Scenarios.BuildsShareAssetsNotPools` | src/token.ts:152-166 | on mainnet the two builds use the same TzBTC and UsdTZ asset contracts but different pool contracts. |

## Left out

- `src/signer.ts` is used only as the opaque step `SetSigner(secretKey)`. The model does not cover a secret key that fails to decode, which would throw before any signer is installed.
- `src/harbinger.ts`, the price-oracle read, is not part of this model. It is one storage read of a fixed contract and a projection.
- Taquito internals are not modelled: how `contract.at`, `storage()`, `send()`, `confirmation()` and `op.hash` work. The gateway's reply to a send is a parameter. A read fails only when the address holds no contract, and `ledger.get` is a plain map lookup that cannot fail.
- The on-chain effect of a swap (moved reserves and balances) is not modelled. As a modelling choice, a swap leaves the gateway's storage and balances unchanged. So `GetXTZPool`, `GetTokenPool` or `GetBalance` called after a swap returns the pre-swap value, whereas on the chain those reads fetch fresh storage and would see the swap's effect.
- Promises and `__awaiter` (dist/token.js:2-10) are not modelled. Steps run in sequence.
- Console logging, including the dump of `err.errors[*].with`, is not modelled. It is diagnostics only and leaves the rethrown error unchanged.
- The race on the toolkit's signer, which is shared by concurrent swaps, is not modelled. The model is sequential.
- The `Date` arithmetic is taken as milliseconds plus 20 × 60000 ms. Local-time effects of `setMinutes` are not modelled.
- The JavaScript build accepts any value as a network. A value other than the two enum strings would fall through its `switch` and leave empty addresses. The model's `Network` type has only the two values.
- The storage field a pool contract lacks is `None`, standing for JavaScript's `undefined`. Ledger values are reduced to their `balance`.
- `TokenDist.Token.ToXTZ`: amounts and minimums are `nat`, and `tokensSold = amount * 10^decimals` is exact integer arithmetic. The source multiplies JavaScript floating-point numbers, which lose precision for 18-decimal tokens and accept fractional or negative amounts.
- `TokenSrc.Token.ToXTZ`: the same exact-integer scaling replaces `amount * 10 ** decimals` on floating-point numbers.
- `TokenDist.Token.FromXTZ`: `amount` and `minTokensBought` are `nat` rather than arbitrary JavaScript numbers.
- `TokenSrc.Token.FromXTZ`: `amount` and `minTokensBought` are `nat` rather than arbitrary JavaScript numbers.
