/**
 * Client code over the two token modules: what a caller can conclude from
 * their contracts alone, and how the two builds' tables compare.
 */
module Scenarios {
  import opened Wrappers
  import opened Chain
  import opened Amounts
  import TokenDist
  import TokenSrc

  /** Both builds send TzBTC and UsdTZ to the same asset contracts but to different pools. */
  lemma BuildsShareAssetsNotPools()
    ensures TokenSrc.TZBTC.asset == TokenDist.Registry(TokenDist.TzBTC, TokenDist.Mainnet).value.asset
    ensures TokenSrc.USDTZ.asset == TokenDist.Registry(TokenDist.UsdTZ, TokenDist.Mainnet).value.asset
    ensures TokenSrc.TZBTC.pool != TokenDist.Registry(TokenDist.TzBTC, TokenDist.Mainnet).value.pool
    ensures TokenSrc.USDTZ.pool != TokenDist.Registry(TokenDist.UsdTZ, TokenDist.Mainnet).value.pool
  {
  }

  /** Selling 1000 of the native token for at least 500 KUSD, delivered to `recipient`. */
  method FromXTZScenario(recipient: Address, secretKey: string, now: int, hash: string)
  {
    var pool := TokenDist.KUSD_MAINNET.pool;
    var toolkit := new Toolkit(map[pool := Storage(None, Some(10), Some(20))], map[]);
    var kusd := TokenDist.Token.KUSD(toolkit, secretKey, TokenDist.Mainnet);
    var r := kusd.FromXTZ(recipient, 500, 1000, now, Success(hash));
    var call := Call(pool, "xtzToToken", [Str(recipient), Num(500), Time(now + 1_200_000)], 1000);
    assert r == Success(hash);
    assert toolkit.log == [SetSigner(secretKey), Invoke(call)];
    assert Submissions(toolkit.log) == [[call]];
  }

  /** Selling 3 TzBTC (8 decimals): one batch, approval first, both with 300000000 units. */
  method ToXTZScenario(recipient: Address, secretKey: string, now: int, failure: GatewayError)
  {
    var d := TokenSrc.TZBTC;
    var toolkit := new Toolkit(map[d.pool := Storage(None, Some(10), Some(20)), d.asset := Storage(Some(map[]), None, None)], map[]);
    var tzbtc := TokenSrc.Token.TzBTC(toolkit, secretKey);
    Pow10Scales();
    var r := tzbtc.ToXTZ(recipient, 7, 3, now, Failure(failure));
    var approve := Call(d.asset, "approve", [Str(d.pool), Num(300_000_000)], 0);
    var swap := Call(d.pool, "tokenToXtz", [Str(recipient), Str(recipient), Num(300_000_000), Num(7), Time(now + 1_200_000)], 0);
    assert r == Failure(failure);
    assert Submissions(toolkit.log) == [[approve, swap]];
    var balance := tzbtc.GetBalance(recipient);
    assert balance == Success(0);
  }

  /** The native token swaps nothing: no signer, no call, the sentinel result. */
  method NativeScenario(recipient: Address, now: int, reply: Result<string, GatewayError>)
  {
    var toolkit := new Toolkit(map[], map[recipient := 42]);
    var xtz := TokenDist.Token.XTZ(toolkit, TokenDist.Delphinet);
    var r1 := xtz.FromXTZ(recipient, 1, 1, now, reply);
    var r2 := xtz.ToXTZ(recipient, 1, 1, now, reply);
    assert r1 == r2 == Success("N/A");
    assert toolkit.log == [] && toolkit.signer == None;
    assert xtz.GetXTZPool() == xtz.GetTokenPool() == Success(Some(0));
    assert xtz.GetBalance(recipient) == Success(42);
    var eth := TokenDist.Token.ETHtz(toolkit, "", TokenDist.Delphinet);
    assert eth == Failure("contract not available");
  }
}
