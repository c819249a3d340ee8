/**
 * The arithmetic shared by both builds of the token module: the decimal
 * scaling of a human-unit amount into the token's smallest unit, and the
 * fixed twenty-minute swap deadline.
 */
module Amounts {

  const MS_PER_MINUTE := 60000
  /** Every swap expires this many minutes after it is prepared. */
  const DEADLINE_WINDOW_MINUTES := 20

  /** `now` is a wall-clock instant in milliseconds, as a JavaScript `Date` holds it. */
  function Deadline(now: int): (r: int)
    ensures r - now == 20 * 60 * 1000
  {
    now + DEADLINE_WINDOW_MINUTES * MS_PER_MINUTE
  }

  /** Exact integer power of ten (the source uses floating point). */
  function Pow10(n: nat): (r: nat)
    ensures r >= 1
    ensures n > 0 ==> r % 10 == 0
  {
    if n == 0 then 1 else 10 * Pow10(n - 1)
  }

  /**
   * `tokensSold = amount * 10^decimals`: an amount in human units raised to the
   * token's own unit. The scaling is lossless: dividing by the scale gives back
   * the amount, with no remainder.
   */
  function TokensSold(amount: nat, decimals: nat): (r: nat)
    ensures r / Pow10(decimals) == amount
    ensures r % Pow10(decimals) == 0
  {
    LemmaMulDivExact(amount, Pow10(decimals));
    amount * Pow10(decimals)
  }

  lemma {:induction false} Pow10Add(m: nat, n: nat)
    ensures Pow10(m + n) == Pow10(m) * Pow10(n)
  {
    if m > 0 {
      Pow10Add(m - 1, n);
      assert Pow10(m + n) == 10 * Pow10(m - 1 + n);
    }
  }

  /** Helper: the decimal scales used by the registered tokens, as numbers. */
  lemma Pow10Scales()
    ensures Pow10(6) == 1_000_000
    ensures Pow10(8) == 100_000_000
    ensures Pow10(18) == 1_000_000_000_000_000_000
  {
    Pow10Add(6, 2);
    Pow10Add(8, 10);
    Pow10Add(2, 8);
  }

  lemma LemmaMulDivExact(a: nat, p: nat)
    requires p >= 1
    ensures (a * p) / p == a && (a * p) % p == 0
  {
    var q, r := (a * p) / p, (a * p) % p;
    assert q * p + r == a * p && 0 <= r < p;
    assert (a - q) * p == r;
    LemmaMulSign(a - q, p);
  }

  lemma LemmaMulSign(k: int, p: int)
    requires p >= 1
    ensures k >= 1 ==> k * p >= p
    ensures k <= -1 ==> k * p <= 0 - p
  {
  }

  /** Distinct amounts are never sent as the same number of token units. */
  lemma TokensSoldInjective(a: nat, b: nat, decimals: nat)
    ensures TokensSold(a, decimals) == TokensSold(b, decimals) <==> a == b
  {
  }
}
