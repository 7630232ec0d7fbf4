/**
 * The reserve-to-price conversion of the Uniswap V2 pricer
 * (`TokenPricer.calculate_price` in test4.py), in exact rational arithmetic.
 */
module Pricing {
  import opened Wrappers

  /** 10^d, the unit of a token with d decimals. */
  function Pow10(d: nat): (p: nat)
    ensures p >= 1
  {
    if d == 0 then 1 else 10 * Pow10(d - 1)
  }

  /** A raw reserve in whole tokens: `Decimal(reserve) / Decimal(10 ** decimals)`. */
  function Adjusted(reserve: nat, decimals: nat): (a: real)
    ensures a * Pow10(decimals) as real == reserve as real
    ensures a >= 0.0
    ensures a == 0.0 <==> reserve == 0
  {
    reserve as real / Pow10(decimals) as real
  }

  /**
   * The conditions Python's decimal division signals on a zero divisor:
   * a non-zero amount over zero raises `decimal.DivisionByZero`; zero over
   * zero raises `decimal.InvalidOperation`, signalling `DivisionUndefined`.
   */
  datatype PriceError =
    | DivisionByZero     // a non-zero amount divided by zero
    | DivisionUndefined  // zero divided by zero (raised as InvalidOperation)

  /** The price of one token0 in token1, and of one token1 in token0. */
  datatype Prices = Prices(price0In1: real, price1In0: real)

  /** `adjusted1 / adjusted0`, then `adjusted0 / adjusted1`, in that order. */
  function CalculatePrice(reserve0: nat, reserve1: nat, decimals0: nat, decimals1: nat)
    : (r: Result<Prices, PriceError>)
    ensures r.Success? <==> reserve0 > 0 && reserve1 > 0
    ensures reserve0 == 0 && reserve1 == 0 ==> r == Failure(DivisionUndefined)
    ensures reserve0 == 0 && reserve1 > 0 ==> r == Failure(DivisionByZero)
    ensures reserve0 > 0 && reserve1 == 0 ==> r == Failure(DivisionByZero)
    ensures r.Success? ==> r.value.price0In1 * Adjusted(reserve0, decimals0) == Adjusted(reserve1, decimals1)
    ensures r.Success? ==> r.value.price1In0 * Adjusted(reserve1, decimals1) == Adjusted(reserve0, decimals0)
  {
    var a0 := Adjusted(reserve0, decimals0);
    var a1 := Adjusted(reserve1, decimals1);
    if a0 == 0.0 then
      Failure(if a1 == 0.0 then DivisionUndefined else DivisionByZero)
    else
      var p01 := a1 / a0;
      if a1 == 0.0 then Failure(DivisionByZero)
      else Success(Prices(p01, a0 / a1))
  }

  /** The two prices are reciprocal. */
  lemma PricesAreReciprocal(reserve0: nat, reserve1: nat, decimals0: nat, decimals1: nat)
    requires reserve0 > 0 && reserve1 > 0
    ensures CalculatePrice(reserve0, reserve1, decimals0, decimals1).value.price0In1
          * CalculatePrice(reserve0, reserve1, decimals0, decimals1).value.price1In0 == 1.0
  {
    var a0, a1 := Adjusted(reserve0, decimals0), Adjusted(reserve1, decimals1);
    assert (a1 / a0) * (a0 / a1) == 1.0;
  }

  /** Dividing by a quotient. */
  lemma QuotientOfQuotients(a: real, b: real, c: real, d: real)
    requires b != 0.0 && c != 0.0 && d != 0.0
    ensures (a / b) / (c / d) == (a * d) / (c * b)
  {
    assert (a / b) / (c / d) * (c * b) == a * d;
  }

  /** A common non-zero factor cancels. */
  lemma CommonFactorCancels(k: real, a: real, b: real)
    requires k != 0.0 && b != 0.0
    ensures (k * a) / (k * b) == a / b
  {
    assert (k * a) / (k * b) * b == a;
  }

  lemma ProductAsReal(a: nat, b: nat)
    ensures (a * b) as real == a as real * b as real
  {
  }

  /** Scaling a raw reserve scales its adjusted amount by the same factor. */
  lemma AdjustedScales(reserve: nat, decimals: nat, k: nat)
    ensures Adjusted(k * reserve, decimals) == k as real * Adjusted(reserve, decimals)
  {
    ProductAsReal(k, reserve);
    var u := Pow10(decimals) as real;
    assert (k as real * reserve as real) / u == k as real * (reserve as real / u);
  }

  /** With two non-empty reserves both divisions succeed. */
  lemma PricesOfPositiveReserves(reserve0: nat, reserve1: nat, decimals0: nat, decimals1: nat)
    requires reserve0 > 0 && reserve1 > 0
    ensures CalculatePrice(reserve0, reserve1, decimals0, decimals1)
         == Success(Prices(Adjusted(reserve1, decimals1) / Adjusted(reserve0, decimals0),
                           Adjusted(reserve0, decimals0) / Adjusted(reserve1, decimals1)))
  {
  }

  /** (r1 / u1) / (r0 / u0) == (r1 * u0) / (r0 * u1) for natural numbers. */
  lemma RawQuotient(r0: nat, r1: nat, u0: nat, u1: nat)
    requires r0 > 0 && u0 > 0 && u1 > 0
    ensures (r1 as real / u1 as real) / (r0 as real / u0 as real)
         == (r1 * u0) as real / (r0 * u1) as real
  {
    ProductAsReal(r1, u0);
    ProductAsReal(r0, u1);
    QuotientOfQuotients(r1 as real, u1 as real, r0 as real, u0 as real);
  }

  /** In raw units: price0In1 = reserve1 * 10^d0 / (reserve0 * 10^d1). */
  lemma PriceFromRawReserves(reserve0: nat, reserve1: nat, decimals0: nat, decimals1: nat)
    requires reserve0 > 0 && reserve1 > 0
    ensures CalculatePrice(reserve0, reserve1, decimals0, decimals1).value.price0In1
         == (reserve1 * Pow10(decimals0)) as real / (reserve0 * Pow10(decimals1)) as real
  {
    PricesOfPositiveReserves(reserve0, reserve1, decimals0, decimals1);
    RawQuotient(reserve0, reserve1, Pow10(decimals0), Pow10(decimals1));
  }

  /** Scaling both reserves by the same positive factor changes neither price. */
  lemma PriceIsScaleInvariant(reserve0: nat, reserve1: nat, decimals0: nat, decimals1: nat, k: nat)
    requires k > 0
    ensures CalculatePrice(k * reserve0, k * reserve1, decimals0, decimals1)
         == CalculatePrice(reserve0, reserve1, decimals0, decimals1)
  {
    assert k * reserve0 > 0 <==> reserve0 > 0;
    assert k * reserve1 > 0 <==> reserve1 > 0;
    if reserve0 > 0 && reserve1 > 0 {
      var a0, a1 := Adjusted(reserve0, decimals0), Adjusted(reserve1, decimals1);
      var b0, b1 := Adjusted(k * reserve0, decimals0), Adjusted(k * reserve1, decimals1);
      var kr := k as real;
      AdjustedScales(reserve0, decimals0, k);
      AdjustedScales(reserve1, decimals1, k);
      assert b1 / b0 == a1 / a0 by {
        assert b1 / b0 == (kr * a1) / (kr * a0);
        CommonFactorCancels(kr, a1, a0);
      }
      assert b0 / b1 == a0 / a1 by {
        assert b0 / b1 == (kr * a0) / (kr * a1);
        CommonFactorCancels(kr, a0, a1);
      }
      PricesOfPositiveReserves(reserve0, reserve1, decimals0, decimals1);
      PricesOfPositiveReserves(k * reserve0, k * reserve1, decimals0, decimals1);
    } else {
      assert Adjusted(k * reserve0, decimals0) == 0.0 <==> Adjusted(reserve0, decimals0) == 0.0;
      assert Adjusted(k * reserve1, decimals1) == 0.0 <==> Adjusted(reserve1, decimals1) == 0.0;
    }
  }

  /** Tokens with the same number of decimals are priced by the raw reserve ratio. */
  lemma SameDecimalsPrice(reserve0: nat, reserve1: nat, decimals: nat)
    requires reserve0 > 0 && reserve1 > 0
    ensures CalculatePrice(reserve0, reserve1, decimals, decimals).value.price0In1
         == reserve1 as real / reserve0 as real
  {
    var u, r0, r1 := Pow10(decimals) as real, reserve0 as real, reserve1 as real;
    assert (r1 / u) / (r0 / u) == r1 / r0;
  }

  /** Listing the pair the other way round swaps the two prices. */
  lemma SwappedPairSwapsPrices(reserve0: nat, reserve1: nat, decimals0: nat, decimals1: nat)
    requires reserve0 > 0 && reserve1 > 0
    ensures CalculatePrice(reserve1, reserve0, decimals1, decimals0)
         == Success(Prices(CalculatePrice(reserve0, reserve1, decimals0, decimals1).value.price1In0,
                           CalculatePrice(reserve0, reserve1, decimals0, decimals1).value.price0In1))
  {
  }
}
