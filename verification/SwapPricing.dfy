/** Pricing the two legs of a swap. The arithmetic is written once, over a rounding function that
    is applied to the result of every decimal operation; exact arithmetic is the identity. */
module SwapPricing {
  import opened Common

  /** The answer of the historical price query for one asset. */
  datatype PriceReply = Rate(price: real) | Fails(error: Error)

  /** The two legs, the fee amount if there is one, the setting that includes fees in the cost
      basis, and what the price queries answer. */
  datatype Swap = Swap(amountIn: real, inFiat: bool, inReply: PriceReply,
                       amountOut: real, outFiat: bool, outReply: PriceReply,
                       fee: Option<real>, includeFees: bool, feeReply: PriceReply)

  datatype SwapPrices = Prices(outPrice: real, inPrice: real) | NoPrices | Raises(error: Error)

  datatype Leg = InLeg | OutLeg

  type Rounding = real -> real

  /** Which leg's market price the calculation starts from. */
  function AnchorLeg(x: Swap): Option<Leg> {
    if x.outFiat then Some(OutLeg)
    else if x.inFiat then Some(InLeg)
    else if x.outReply.Rate? then Some(OutLeg)
    else if x.inReply.Rate? then Some(InLeg)
    else None
  }

  predicate AnchorKnown(x: Swap) {
    match AnchorLeg(x)
    case None => false
    case Some(InLeg) => x.inReply.Rate?
    case Some(OutLeg) => x.outReply.Rate?
  }

  predicate FeePriced(x: Swap) {
    x.fee.Some? && x.includeFees && x.feeReply.Rate?
  }

  // ----- Decimal operations -----

  function Times(a: real, b: real): real {
    a * b
  }

  function Over(a: real, b: real): real
    requires b != 0.0
  {
    a / b
  }

  function Mul(fl: Rounding, a: real, b: real): real {
    fl(Times(a, b))
  }

  function Div(fl: Rounding, a: real, b: real): real
    requires b != 0.0
  {
    fl(Over(a, b))
  }

  // ----- The calculation -----

  /** Value of the leg the calculation starts from, as computed. */
  function AnchorTotal(fl: Rounding, x: Swap): real
    requires AnchorKnown(x)
  {
    if AnchorLeg(x) == Some(InLeg) then Mul(fl, x.amountIn, x.inReply.price)
    else Mul(fl, x.amountOut, x.outReply.price)
  }

  function SwapTotal(fl: Rounding, x: Swap): real
    requires AnchorKnown(x)
  {
    var total := AnchorTotal(fl, x);
    if !FeePriced(x) then total
    else if x.inFiat then fl(total - Mul(fl, x.feeReply.price, x.fee.value))
    else fl(total + Mul(fl, x.feeReply.price, x.fee.value))
  }

  function Calculated(fl: Rounding, x: Swap): SwapPrices
    requires AnchorKnown(x) && x.amountIn != 0.0 && x.amountOut != 0.0
  {
    if x.inFiat then
      Prices(Div(fl, SwapTotal(fl, x), x.amountOut),
             if AnchorLeg(x) == Some(InLeg) then x.inReply.price
             else Div(fl, Mul(fl, x.amountOut, x.outReply.price), x.amountIn))
    else
      Prices(if AnchorLeg(x) == Some(OutLeg) then x.outReply.price
             else Div(fl, Mul(fl, x.amountIn, x.inReply.price), x.amountOut),
             Div(fl, SwapTotal(fl, x), x.amountIn))
  }

  /** Whether the price query of a leg lets its error out: undocumented errors always, a rate limit
      only for the in leg when the out leg has no price either. */
  predicate LegRaises(reply: PriceReply, noOutPrice: bool) {
    reply.Fails? && (!Skippable(reply.error) || (noOutPrice && reply.error == NoPriceForGivenTimestamp(true)))
  }

  /** The error a price query lets out, in the order out leg, in leg, fee. */
  function Escaping(x: Swap): Option<Error> {
    if LegRaises(x.outReply, false) then Some(x.outReply.error)
    else if LegRaises(x.inReply, x.outReply.Fails?) then Some(x.inReply.error)
    else if x.fee.Some? && x.includeFees && x.feeReply.Fails?
            && !x.feeReply.error.PriceQueryUnsupportedAsset? && !x.feeReply.error.RemoteError?
    then Some(x.feeReply.error)
    else None
  }

  /** `get_prices_for_swap`, error paths included. */
  function PricesForSwap(fl: Rounding, x: Swap): SwapPrices {
    if x.amountIn == 0.0 || x.amountOut == 0.0 then NoPrices
    else if Escaping(x).Some? then Raises(Escaping(x).value)
    else if AnchorLeg(x).None? then NoPrices
    else if !AnchorKnown(x) then Raises(TypeError)  // None times an amount
    else Calculated(fl, x)
  }

  /** The fee value that goes into the cost basis. */
  function FeeValue(x: Swap): real {
    if FeePriced(x) then Times(x.feeReply.price, x.fee.value) else 0.0
  }

  /** Market value of the leg the calculation starts from. */
  function AnchorValue(x: Swap): real
    requires AnchorKnown(x)
  {
    if AnchorLeg(x) == Some(InLeg) then Times(x.amountIn, x.inReply.price) else Times(x.amountOut, x.outReply.price)
  }

  function Exact(): Rounding {
    (v: real) => v
  }

  // ----- Exact law -----

  lemma TimesOver(total: real, amount: real)
    requires amount != 0.0
    ensures Times(amount, Over(total, amount)) == total
  {
  }

  lemma CalculatedExactly(x: Swap)
    requires AnchorKnown(x) && x.amountIn != 0.0 && x.amountOut != 0.0
    ensures var p := Calculated(Exact(), x);
            && Times(x.amountIn, p.inPrice) - Times(x.amountOut, p.outPrice) == FeeValue(x)
            && (if x.inFiat then Times(x.amountIn, p.inPrice) else Times(x.amountOut, p.outPrice)) == AnchorValue(x)
  {
    hide Times, Over;
    TimesOver(AnchorValue(x) - FeeValue(x), x.amountOut);
    TimesOver(AnchorValue(x), x.amountIn);
    TimesOver(AnchorValue(x) + FeeValue(x), x.amountIn);
    TimesOver(AnchorValue(x), x.amountOut);
  }

  /** Over exact arithmetic, whenever prices are returned, value in minus value out is the fee
      included in the cost basis, whichever side is fiat and whichever price was chosen; and the
      leg that carries no fee keeps the market value the calculation started from. */
  lemma SwapConservesValue(x: Swap)
    requires PricesForSwap(Exact(), x).Prices?
    ensures var p := PricesForSwap(Exact(), x);
            && AnchorKnown(x)
            && x.amountIn * p.inPrice - x.amountOut * p.outPrice == FeeValue(x)
            && (if x.inFiat then x.amountIn * p.inPrice else x.amountOut * p.outPrice) == AnchorValue(x)
  {
    hide PricesForSwap, Calculated, AnchorValue, FeeValue, AnchorKnown;
    PricesNeedAmounts(Exact(), x);
    CalculatedExactly(x);
  }

  /** The two equations determine both prices. */
  lemma LawsDeterminePrices(x: Swap, outPrice: real, inPrice: real)
    requires PricesForSwap(Exact(), x).Prices? && AnchorKnown(x)
    requires x.amountIn * inPrice - x.amountOut * outPrice == FeeValue(x)
    requires (if x.inFiat then x.amountIn * inPrice else x.amountOut * outPrice) == AnchorValue(x)
    ensures PricesForSwap(Exact(), x) == Prices(outPrice, inPrice)
  {
    hide PricesForSwap, Calculated, AnchorValue, FeeValue, AnchorKnown;
    SwapConservesValue(x);
    PricesNeedAmounts(Exact(), x);
    var p := PricesForSwap(Exact(), x);
    Cancel(x.amountIn, p.inPrice, inPrice);
    Cancel(x.amountOut, p.outPrice, outPrice);
  }

  lemma PricesNeedAmounts(fl: Rounding, x: Swap)
    requires PricesForSwap(fl, x).Prices?
    ensures x.amountIn != 0.0 && x.amountOut != 0.0 && AnchorKnown(x)
    ensures PricesForSwap(fl, x) == Calculated(fl, x)
  {
  }

  lemma Cancel(amount: real, p: real, q: real)
    requires amount != 0.0 && amount * p == amount * q
    ensures p == q
  {
    assert amount * (p - q) == 0.0;
  }

  /** The code tests the fiat asset, not its price, for None: it fails with a TypeError of its own
      exactly when the amounts are non-zero, no price query lets an error out, and the fiat leg it
      starts from has no price. */
  lemma TypeErrorIff(fl: Rounding, x: Swap)
    ensures PricesForSwap(fl, x) == Raises(TypeError) <==>
            && x.amountIn != 0.0 && x.amountOut != 0.0
            && if Escaping(x).Some? then Escaping(x) == Some(TypeError)
               else if x.outFiat then x.outReply.Fails?
               else x.inFiat && x.inReply.Fails?
  {
  }

  // ----- The prices, from the inputs alone -----

  /** Both prices, case by case. With two crypto legs the out leg's price is used if there is one, else
      the in leg's; a fiat leg's price is always used, the out leg's if both are fiat. The fee raises
      the value received, or lowers the value given when fiat is received. */
  lemma PricesFromInputs(x: Swap)
    requires PricesForSwap(Exact(), x).Prices?
    ensures var p := PricesForSwap(Exact(), x);
            var fee := if x.fee.Some? && x.includeFees && x.feeReply.Rate? then Times(x.feeReply.price, x.fee.value)
                       else 0.0;
            && x.amountIn != 0.0 && x.amountOut != 0.0
            && (x.outFiat ==> x.outReply.Rate?)
            && (!x.outFiat && (x.inFiat || x.outReply.Fails?) ==> x.inReply.Rate?)
            && p == if x.outFiat && x.inFiat then
                      Prices(Over(Times(x.amountOut, x.outReply.price) - fee, x.amountOut),
                             Over(Times(x.amountOut, x.outReply.price), x.amountIn))
                    else if x.inFiat then
                      Prices(Over(Times(x.amountIn, x.inReply.price) - fee, x.amountOut), x.inReply.price)
                    else if x.outFiat || x.outReply.Rate? then
                      Prices(x.outReply.price, Over(Times(x.amountOut, x.outReply.price) + fee, x.amountIn))
                    else
                      Prices(Over(Times(x.amountIn, x.inReply.price), x.amountOut),
                             Over(Times(x.amountIn, x.inReply.price) + fee, x.amountIn))
  {
    hide Times, Over, Skippable;
  }

  /** No prices exactly for an empty leg, or two crypto legs of which neither is priced, provided that no
      price query lets an error out. */
  lemma NoPricesIff(fl: Rounding, x: Swap)
    ensures PricesForSwap(fl, x).NoPrices? <==>
            || x.amountIn == 0.0 || x.amountOut == 0.0
            || (!LetsErrorOut(x) && !x.inFiat && !x.outFiat && x.inReply.Fails? && x.outReply.Fails?)
  {
  }

  /** An undocumented error of any query made; a rate limit on the in leg when the out leg has no price
      either; a missing price of a fee that is part of the cost basis. */
  predicate LetsErrorOut(x: Swap) {
    || (x.outReply.Fails? && !Skippable(x.outReply.error))
    || (x.inReply.Fails? && !Skippable(x.inReply.error))
    || (x.inReply == Fails(NoPriceForGivenTimestamp(true)) && x.outReply.Fails?)
    || (x.fee.Some? && x.includeFees && x.feeReply.Fails? &&
        (!Skippable(x.feeReply.error) || x.feeReply.error.NoPriceForGivenTimestamp?))
  }

  /** Pricing raises exactly when a query lets an error out or a fiat leg it must use has no price, and
      the error is that of the first such query, else a TypeError. */
  lemma RaisesIff(fl: Rounding, x: Swap)
    ensures PricesForSwap(fl, x).Raises? <==>
            && x.amountIn != 0.0 && x.amountOut != 0.0
            && (LetsErrorOut(x) || (x.outFiat && x.outReply.Fails?) || (!x.outFiat && x.inFiat && x.inReply.Fails?))
    ensures PricesForSwap(fl, x).Raises? ==>
              PricesForSwap(fl, x).error ==
              if !LetsErrorOut(x) then TypeError
              else if x.outReply.Fails? && !Skippable(x.outReply.error) then x.outReply.error
              else if x.inReply.Fails?
                      && (!Skippable(x.inReply.error)
                          || (x.outReply.Fails? && x.inReply.error == NoPriceForGivenTimestamp(true)))
              then x.inReply.error
              else if x.feeReply.Fails? then x.feeReply.error else TypeError
  {
  }

  // ----- Rounded law -----

  /** Every rounded result is within a relative error `u` of the exact one. */
  ghost predicate RelativeError(fl: Rounding, u: real) {
    0.0 <= u && forall v: real :: Abs(fl(v) - v) <= Times(u, Abs(v))
  }

  /** `y` approximates `x`, a quantity of size at most `size`, within `e` times `size`. */
  ghost predicate Near(y: real, x: real, size: real, e: real) {
    Abs(x) <= size && Abs(y - x) <= Times(e, size)
  }

  /** The error factor after one more rounding: (1 + e)(1 + u) - 1. */
  function Grow(e: real, u: real): real {
    e + u + u * e
  }

  lemma TimesMonotone(u: real, a: real, b: real)
    requires 0.0 <= u && a <= b
    ensures Times(u, a) <= Times(u, b) && Times(a, u) <= Times(b, u)
  {
  }

  lemma TimesNonNegative(a: real, b: real)
    requires a >= 0.0 && b >= 0.0
    ensures Times(a, b) >= 0.0
  {
  }

  lemma TimesPlus(e: real, a: real, b: real)
    ensures Times(e, a + b) == Times(e, a) + Times(e, b)
  {
  }

  lemma TimesGrow(e: real, u: real, size: real)
    ensures Times(Grow(e, u), size) == Times(e, size) + Times(u, size + Times(e, size))
  {
    assert (u * e) * size == u * (e * size);
  }

  /** One more rounding multiplies the error factor by 1 + u. */
  lemma NearAfterRounding(z: real, y: real, x: real, size: real, e: real, u: real)
    requires 0.0 <= u && Near(y, x, size, e) && Abs(z - y) <= Times(u, Abs(y))
    ensures Near(z, x, size, Grow(e, u))
  {
    hide Times, Grow;
    TimesMonotone(u, Abs(y), size + Times(e, size));
    TimesGrow(e, u, size);
  }

  lemma AddNear(y: real, x: real, size: real, y': real, x': real, size': real, e: real)
    requires Near(y, x, size, e) && Near(y', x', size', e)
    ensures Near(y + y', x + x', size + size', e) && Near(y - y', x - x', size + size', e)
  {
    hide Times;
    TimesPlus(e, size, size');
  }

  lemma WidenNear(y: real, x: real, size: real, e: real, size': real, e': real)
    requires Near(y, x, size, e) && 0.0 <= size <= size' && 0.0 <= e <= e'
    ensures Near(y, x, size', e')
  {
    hide Times;
    TimesMonotone(e, size, size');
    TimesMonotone(size', e, e');
  }

  lemma NearItself(value: real, size: real, e: real)
    requires 0.0 <= value <= size && e >= 0.0
    ensures Near(value, value, size, e)
  {
    hide Times;
    TimesNonNegative(e, size);
  }

  lemma AbsTimes(a: real, b: real)
    requires a > 0.0
    ensures Abs(Times(a, b)) == Times(a, Abs(b))
  {
  }

  lemma TimesMinus(a: real, b: real, c: real)
    ensures Times(a, b - c) == Times(a, b) - Times(a, c)
  {
  }

  lemma TimesSwap(a: real, b: real, c: real)
    ensures Times(a, Times(b, c)) == Times(b, Times(a, c))
  {
    assert a * (b * c) == b * (a * c);
  }

  /** Dividing by a positive amount, rounding, and multiplying back is a single rounding. */
  lemma DivideBack(fl: Rounding, u: real, y: real, amount: real)
    requires RelativeError(fl, u) && amount > 0.0
    ensures Abs(Times(amount, Div(fl, y, amount)) - y) <= Times(u, Abs(y))
  {
    hide Times, Over;
    var q := Over(y, amount);
    TimesOver(y, amount);
    AbsTimes(amount, q);
    AbsTimes(amount, fl(q) - q);
    TimesMinus(amount, fl(q), q);
    TimesMonotone(amount, Abs(fl(q) - q), Times(u, Abs(q)));
    TimesSwap(amount, u, Abs(q));
  }

  ghost predicate NonNegativeSwap(x: Swap) {
    && x.amountIn > 0.0 && x.amountOut > 0.0
    && (x.inReply.Rate? ==> x.inReply.price >= 0.0)
    && (x.outReply.Rate? ==> x.outReply.price >= 0.0)
    && (x.feeReply.Rate? ==> x.feeReply.price >= 0.0)
    && (x.fee.Some? ==> x.fee.value >= 0.0)
  }

  lemma GrowLarger(e: real, u: real)
    requires e >= 0.0 && u >= 0.0
    ensures Grow(e, u) >= e
  {
    assert u * e >= 0.0;
  }

  function Cubed(u: real): real {
    (1.0 + u) * (1.0 + u) * (1.0 + u) - 1.0
  }

  lemma ThreeRoundings(u: real)
    ensures Grow(Grow(u, u), u) == Cubed(u)
  {
  }

  lemma ValuesNonNegative(x: Swap)
    requires NonNegativeSwap(x) && AnchorKnown(x)
    ensures AnchorValue(x) >= 0.0 && FeeValue(x) >= 0.0
  {
    hide Times;
    if AnchorLeg(x) == Some(InLeg) {
      TimesNonNegative(x.amountIn, x.inReply.price);
    } else {
      TimesNonNegative(x.amountOut, x.outReply.price);
    }
    if FeePriced(x) {
      TimesNonNegative(x.feeReply.price, x.fee.value);
    }
  }

  lemma RoundOnce(fl: Rounding, u: real, x: real)
    requires RelativeError(fl, u) && x >= 0.0
    ensures Near(fl(x), x, x, u)
  {
    hide Times;
    assert Abs(fl(x) - x) <= Times(u, Abs(x));
  }

  /** The signed total: fees are subtracted on a sale for fiat and added otherwise. */
  function TotalValue(x: Swap): real
    requires AnchorKnown(x)
  {
    if x.inFiat then AnchorValue(x) - FeeValue(x) else AnchorValue(x) + FeeValue(x)
  }

  lemma TotalNear(fl: Rounding, u: real, x: Swap)
    requires RelativeError(fl, u) && NonNegativeSwap(x) && AnchorKnown(x)
    ensures Near(SwapTotal(fl, x), TotalValue(x), AnchorValue(x) + FeeValue(x), Grow(u, u))
  {
    hide Near, Times, Grow;
    var value, fee := AnchorValue(x), FeeValue(x);
    ValuesNonNegative(x);
    GrowLarger(u, u);
    RoundOnce(fl, u, value);
    var total := AnchorTotal(fl, x);
    if FeePriced(x) {
      RoundOnce(fl, u, fee);
      AddNear(total, value, value, fl(fee), fee, fee, u);
      var sum := if x.inFiat then total - fl(fee) else total + fl(fee);
      assert Abs(fl(sum) - sum) <= Times(u, Abs(sum));
      NearAfterRounding(fl(sum), sum, TotalValue(x), value + fee, u, u);
    } else {
      WidenNear(total, value, value, u, value + fee, Grow(u, u));
    }
  }

  /** The leg that carries the fee ends within three roundings of its exact value. */
  lemma FeeLegNear(fl: Rounding, u: real, x: Swap)
    requires RelativeError(fl, u) && NonNegativeSwap(x) && AnchorKnown(x)
    ensures var amount := if x.inFiat then x.amountOut else x.amountIn;
            Near(Times(amount, Div(fl, SwapTotal(fl, x), amount)), TotalValue(x),
                 AnchorValue(x) + FeeValue(x), Cubed(u))
  {
    hide Near, SwapTotal, TotalValue, Times, Grow, AnchorValue, FeeValue, Div, Cubed;
    var amount := if x.inFiat then x.amountOut else x.amountIn;
    var total := SwapTotal(fl, x);
    TotalNear(fl, u, x);
    DivideBack(fl, u, total, amount);
    NearAfterRounding(Times(amount, Div(fl, total, amount)), total, TotalValue(x),
                      AnchorValue(x) + FeeValue(x), Grow(u, u), u);
    ThreeRoundings(u);
  }

  /** The other leg ends within two. */
  lemma PlainLegNear(fl: Rounding, u: real, x: Swap)
    requires RelativeError(fl, u) && NonNegativeSwap(x) && AnchorKnown(x)
    ensures var p := Calculated(fl, x);
            Near(if x.inFiat then Times(x.amountIn, p.inPrice) else Times(x.amountOut, p.outPrice),
                 AnchorValue(x), AnchorValue(x) + FeeValue(x), Cubed(u))
  {
    hide Near, Times, Over, Grow, Cubed, SwapTotal, FeeValue;
    var value, size := AnchorValue(x), AnchorValue(x) + FeeValue(x);
    ValuesNonNegative(x);
    GrowLarger(u, u);
    GrowLarger(Grow(u, u), u);
    ThreeRoundings(u);
    var amount := if x.inFiat then x.amountIn else x.amountOut;
    RoundOnce(fl, u, value);
    DivideBack(fl, u, fl(value), amount);
    NearAfterRounding(Times(amount, Div(fl, fl(value), amount)), fl(value), value, value, u, u);
    WidenNear(Times(amount, Div(fl, fl(value), amount)), value, value, Grow(u, u), size, Cubed(u));
    NearItself(value, size, Cubed(u));
  }

  lemma LegsDiffer(fl: Rounding, u: real, x: Swap)
    requires RelativeError(fl, u) && NonNegativeSwap(x) && AnchorKnown(x)
    ensures var p := Calculated(fl, x);
            Abs(Times(x.amountIn, p.inPrice) - Times(x.amountOut, p.outPrice) - FeeValue(x))
            <= Times(Cubed(u), AnchorValue(x) + FeeValue(x)) + Times(Cubed(u), AnchorValue(x) + FeeValue(x))
  {
    hide Times, Cubed, AnchorValue, FeeValue, SwapTotal, Div, Mul, AnchorLeg;
    FeeLegNear(fl, u, x);
    PlainLegNear(fl, u, x);
  }

  /** With decimals of relative error `u` per operation, positive amounts and non-negative prices
      and fees, the swap law holds within 2((1+u)^3 - 1) times the value of the leg priced first
      plus the fee, in every branch. */
  lemma RoundedSwapLaw(fl: Rounding, u: real, x: Swap)
    requires RelativeError(fl, u) && NonNegativeSwap(x) && PricesForSwap(fl, x).Prices?
    ensures AnchorKnown(x)
    ensures var p := PricesForSwap(fl, x);
            Abs(x.amountIn * p.inPrice - x.amountOut * p.outPrice - FeeValue(x))
            <= 2.0 * ((1.0 + u) * (1.0 + u) * (1.0 + u) - 1.0) * (AnchorValue(x) + FeeValue(x))
  {
    hide PricesForSwap, AnchorValue, FeeValue, Calculated, RelativeError, AnchorKnown;
    PricesNeedAmounts(fl, x);
    LegsDiffer(fl, u, x);
    DoubleBound(Cubed(u), AnchorValue(x) + FeeValue(x));
  }

  lemma DoubleBound(e: real, size: real)
    ensures Times(e, size) + Times(e, size) == 2.0 * e * size
  {
  }

  // ----- The precision in use -----

  /** Digits of a decimal, as ceil(log10(2^256)) sets them. */
  const DECIMAL_DIGITS: nat := 78

  function TenTo(n: nat): real {
    if n == 0 then 1.0 else 10.0 * TenTo(n - 1)
  }

  lemma {:induction false} TenToPositive(n: nat)
    ensures TenTo(n) >= 1.0
    ensures n >= 2 ==> TenTo(n) >= 100.0
  {
    if n > 0 {
      TenToPositive(n - 1);
    }
  }

  /** Half a unit in the last of the given number of digits, as a relative error. */
  function HalfUnit(digits: nat): (u: real)
    ensures 0.0 < u
    ensures digits >= 2 ==> u <= 0.25
  {
    TenToPositive(digits);
    5.0 / TenTo(digits)
  }

  lemma CubeExpands(u: real)
    ensures Cubed(u) == Times(u, 3.0 + Times(u, 3.0 + u))
  {
  }

  lemma QuarterOf(a: real)
    ensures Times(0.25, a) == 0.25 * a
  {
  }

  lemma FourTimes(a: real)
    ensures Times(a, 4.0) == 4.0 * a
  {
  }

  lemma SmallCube(u: real)
    requires 0.0 <= u <= 0.25
    ensures 0.0 <= Cubed(u) <= 4.0 * u
  {
    hide Times;
    var q := Times(u, 3.0 + u);
    CubeExpands(u);
    TimesMonotone(3.0 + u, u, 0.25);
    QuarterOf(3.0 + u);
    TimesNonNegative(u, 3.0 + u);
    TimesMonotone(u, 3.0 + q, 4.0);
    TimesNonNegative(u, 3.0 + q);
    FourTimes(u);
  }

  /** With decimals rounded half a unit off at most, a swap's values balance to within eight half units of
      the value exchanged, for every precision of at least two digits, so for `DECIMAL_DIGITS`. */
  lemma SwapLawAtPrecision(fl: Rounding, digits: nat, x: Swap)
    requires digits >= 2 && RelativeError(fl, HalfUnit(digits))
    requires NonNegativeSwap(x) && PricesForSwap(fl, x).Prices?
    ensures AnchorKnown(x)
    ensures var p := PricesForSwap(fl, x);
            Abs(x.amountIn * p.inPrice - x.amountOut * p.outPrice - FeeValue(x))
            <= 8.0 * HalfUnit(digits) * (AnchorValue(x) + FeeValue(x))
  {
    hide PricesForSwap, AnchorValue, FeeValue, Calculated, RelativeError, AnchorKnown, Cubed, HalfUnit;
    PricesNeedAmounts(fl, x);
    ValuesNonNegative(x);
    var u, size := HalfUnit(digits), AnchorValue(x) + FeeValue(x);
    LegsDiffer(fl, u, x);
    SmallCube(u);
    TimesMonotone(size, Cubed(u), 4.0 * u);
    DoubleBound(4.0 * u, size);
  }
}
