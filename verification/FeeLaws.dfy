/** What a quotation promises the sender and the platform, for every amount and rate. */
module FeeLaws {
  import opened Arithmetic
  import opened Decimals
  import opened Fees
  import opened Schema
  import opened Wrappers

  // Below this many cents the two decimal roundings of a conversion are exact.
  const CONVERSION_LIMIT: nat := 200_000_000_000_000_000

  // Millionths of a token per cent at a rate of one millionth.
  const SCALE: nat := 10_000_000_000

  // -- conversion ---------------------------------------------------------

  /** A net is never over-converted: the tokens are the exact floor. */
  lemma TokensAreTheExactFloor(net: nat, rate: nat)
    requires rate > 0 && net < CONVERSION_LIMIT
    ensures Tokens(net, rate).Ok?
    ensures var t := Tokens(net, rate).value; t * rate <= net * SCALE < (t + 1) * rate
  {
    DivideThenQuantizeDownIsExact(net * 10_000, rate);
    DivisionBounds(net * SCALE, rate);
    Distribute(Tokens(net, rate).value, 1, rate);
  }

  /** Just above the limit the 28-digit division can credit a millionth too much. */
  lemma TokensCanOvershootAboveTheLimit()
    ensures var net, rate := 200_000_000_001_000_020, 200_000_000_001;
            Tokens(net, rate) == Ok(net * SCALE / rate + 1)
  {
    var num, den: nat := 200_000_000_001_000_020 * 10_000, 200_000_000_001;
    PowersOfTen();
    ScaleIsUnique(num, den, ScaleUp(num, den, 0), 17);
    var d := RoundHalfEven(num * Pow10(17), den);
    assert d == 1_000_000_000_000_000_100_000_000_000;
    QuotientIsUnique(d, Pow10(11), ShiftDown(d, -11));
  }

  lemma ScaleIsUnique(num: nat, den: nat, j: nat, k: nat)
    requires den > 0
    requires TEN27 * den <= num * Pow10(j) < TEN28 * den
    requires TEN27 * den <= num * Pow10(k) < TEN28 * den
    ensures j == k
  {
    ScaleStep(num, j, k);
    ScaleStep(num, k, j);
    WithinOneDecade(num * Pow10(j), num * Pow10(k), TEN27 * den);
  }

  lemma WithinOneDecade(x: nat, y: nat, low: nat)
    ensures low <= x < 10 * low && low <= y < 10 * low ==> 10 * x > y && 10 * y > x
  {
  }

  lemma ScaleStep(num: nat, j: nat, k: nat)
    ensures j < k ==> 10 * (num * Pow10(j)) <= num * Pow10(k)
  {
  }

  /** The all-in rate a sender is shown is never better than mid-market. */
  lemma EffectiveRateIsAtLeastMidMarket(send: int, rate: int, code: Option<Currency>, cfg: FeeConfig)
    requires send < CONVERSION_LIMIT
    ensures CalculateQuote(send, rate, code, cfg).Ok? ==>
              CalculateQuote(send, rate, code, cfg).value.effectiveRate >= rate
  {
    hide CalculateQuote, Tokens, NetConverted, CalculateCashOut, QuantizeHalfUp, Divide;
    if CalculateQuote(send, rate, code, cfg).Ok? {
      QuoteParts(send, rate, code, cfg);
      var q := CalculateQuote(send, rate, code, cfg).value;
      TokensAreTheExactFloor(q.net, rate);
      AllInRateBound(send, q.net, q.uctusd, rate);
    }
  }

  /** Where a quote's token amount and effective rate come from. */
  lemma QuoteParts(send: int, rate: int, code: Option<Currency>, cfg: FeeConfig)
    ensures CalculateQuote(send, rate, code, cfg).Ok? ==>
            var q := CalculateQuote(send, rate, code, cfg).value;
            && 0 < q.net == NetConverted(send, cfg) <= send && rate > 0 && Tokens(q.net, rate) == Ok(q.uctusd)
            && QuantizeHalfUp(Divide(send * 10_000, q.uctusd), 6) == Ok(q.effectiveRate)
            && CalculateCashOut(q.uctusd, code, rate, cfg) == Ok(q.cashOut)
  {
  }

  /** ...and is the nearest millionth to what the sender pays per token, half up, for sends below 10^17 cents. */
  lemma EffectiveRateIsTheNearestMillionth(send: int, rate: int, code: Option<Currency>, cfg: FeeConfig)
    requires send < 100_000_000_000_000_000 && CalculateQuote(send, rate, code, cfg).Ok?
    ensures
      var q := CalculateQuote(send, rate, code, cfg).value;
      2 * (send * 10_000_000_000) - q.uctusd < 2 * (q.effectiveRate * q.uctusd) <= 2 * (send * 10_000_000_000) + q.uctusd
  {
    hide CalculateQuote, Tokens, NetConverted, CalculateCashOut, QuantizeHalfUp, Divide;
    QuoteParts(send, rate, code, cfg);
    DivideThenQuantizeHalfUpIsExact(send * 10_000, CalculateQuote(send, rate, code, cfg).value.uctusd);
  }

  lemma AllInRateBound(send: nat, net: nat, uctusd: nat, rate: nat)
    requires 0 < uctusd && net <= send && 0 < send < CONVERSION_LIMIT && uctusd * rate <= net * SCALE
    ensures var effective := QuantizeHalfUp(Divide(send * 10_000, uctusd), 6);
            effective.Ok? ==> effective.value >= rate
  {
    Rotate(1, uctusd, rate);
    RoundedQuotientKeepsLowerBound(send * 10_000, uctusd, rate);
  }

  lemma RoundedQuotientKeepsLowerBound(num: nat, den: nat, bound: nat)
    requires den > 0 && 0 < num < 2_000_000_000_000_000_000_000
    requires bound * den <= num * 1_000_000
    ensures QuantizeHalfUp(Divide(num, den), 6).Ok? ==> QuantizeHalfUp(Divide(num, den), 6).value >= bound
  {
    var k: int := ScaleUp(num, den, 0);
    SixPlacesRemain(num, den, k);
    Pow10Add(6, k - 6);
    PowersOfTen();
    var w := Pow10(k - 6);
    var d := RoundHalfEven(num * Pow10(k), den);
    assert num * Pow10(k) == (num * 1_000_000) * w;
    MulMono(bound * den, num * 1_000_000, w);
    Rotate(bound, den, w);
    MulMono(d + 1, bound * w, den);
    Distribute(d, 1, den);
    assert d >= bound * w;
    var r := ShiftHalfUp(d, 6 - k);
    MulMono(r + 1, bound, w);
    Distribute(r, 1, w);
  }

  // -- the round trip -------------------------------------------------------

  /**
   Quoting and cashing straight back out at one rate never profits, and
   loses at most the cash-out fee, one token unit and one cent.
   */
  lemma RoundTripNeverProfits(send: int, rate: int, cfg: FeeConfig)
    requires send < CONVERSION_LIMIT
    ensures CalculateQuote(send, rate, Some(ZAR), cfg).Ok? ==>
      var q := CalculateQuote(send, rate, Some(ZAR), cfg).value;
      var back := q.cashOut.payoutAmount / 10_000;
      && q.cashOut.payoutAmount == back * 10_000
      && back <= q.net
      && back * SCALE > q.net * SCALE - q.cashOut.fee * rate - rate - SCALE
  {
    hide CalculateQuote, Tokens, NetConverted, CalculateCashOut, ConvertFromUctusd, QuantizeHalfUp, Divide;
    if CalculateQuote(send, rate, Some(ZAR), cfg).Ok? {
      QuoteParts(send, rate, Some(ZAR), cfg);
      var q := CalculateQuote(send, rate, Some(ZAR), cfg).value;
      var c := q.cashOut;
      TokensAreTheExactFloor(q.net, rate);
      CashOutParts(q.uctusd, ZAR, rate, cfg);
      PayoutFitsTheDigits(c.net, q.uctusd, q.net, rate);
      RandPayoutIsTheExactFloor(c.net, rate);
      DivisionBounds(c.net * rate, SCALE);
      RoundTripBounds(q.net, q.uctusd, c.fee, c.net, rate, c.net * rate / SCALE);
    }
  }

  lemma PayoutFitsTheDigits(rest: nat, uctusd: nat, net: nat, rate: nat)
    requires rest <= uctusd && uctusd * rate <= net * SCALE && net < CONVERSION_LIMIT
    ensures rest * rate < TEN28
  {
  }

  lemma CashOutParts(gross: int, code: Currency, rate: int, cfg: FeeConfig)
    requires CalculateCashOut(gross, Some(code), rate, cfg).Ok?
    ensures var c := CalculateCashOut(gross, Some(code), rate, cfg).value;
            rate > 0 && gross == c.fee + c.net && ConvertFromUctusd(c.net, code, rate) == Ok(c.payoutAmount)
  {
  }

  lemma RoundTripBounds(net: nat, uctusd: nat, fee: nat, rest: nat, rate: nat, back: nat)
    requires uctusd == fee + rest
    requires uctusd * rate <= net * SCALE < (uctusd + 1) * rate
    requires back * SCALE <= rest * rate < back * SCALE + SCALE
    ensures back <= net && back * SCALE > net * SCALE - fee * rate - rate - SCALE
  {
    MulMono(rest, uctusd, rate);
    Distribute(fee, rest, rate);
    Distribute(uctusd, 1, rate);
  }

  lemma RandPayoutIsTheExactFloor(amount: nat, rate: nat)
    requires amount * rate < TEN28
    ensures ConvertFromUctusd(amount, ZAR, rate) == Ok(amount * rate / SCALE * 10_000)
  {
    var x := amount * rate;
    PowersOfTen();
    QuotientNoLarger(x, SCALE);
    if x == 0 {
      QuotientIsUnique(0, SCALE, 0);
    } else {
      var k: int := ScaleUp(x, 1, 0);
      var d := RoundHalfEven(x * Pow10(k), 1);
      assert d == x * Pow10(k);
      Pow10Add(10, k);
      DivisionBounds(x, SCALE);
      var q := x / SCALE;
      MulMono(q * SCALE, x, Pow10(k));
      MulMono(x + 1, q * SCALE + SCALE, Pow10(k));
      Rotate(q, SCALE, Pow10(k));
      Distribute(q * SCALE, SCALE, Pow10(k));
      Distribute(x, 1, Pow10(k));
      QuotientIsUnique(d, Pow10(10 + k), q);
      QuotientIsUnique(d, Pow10(10 + k), ShiftDown(d, -k - 10));
    }
  }

  /** A priced cash-out can still pay nothing: exactly when its net is under one cent. */
  lemma PayoutIsZeroExactlyBelowOneCent(gross: int, code: Option<Currency>, rate: int, cfg: FeeConfig)
    requires CalculateCashOut(gross, code, rate, cfg).Ok?
    requires code == Some(USD) || (code == Some(ZAR) && gross * rate < TEN28)
    ensures
      var c := CalculateCashOut(gross, code, rate, cfg).value;
      c.payoutAmount == 0 <==> (if code == Some(USD) then c.net < 10_000 else c.net * rate < SCALE)
  {
    var c := CalculateCashOut(gross, code, rate, cfg).value;
    if code == Some(ZAR) {
      MulMono(c.net, gross, rate);
      RandPayoutIsTheExactFloor(c.net, rate);
      DivisionBounds(c.net * rate, SCALE);
    }
  }

  /**
   What a priced cash-out pays: the net itself in tokens, the whole cents of
   it in dollars, and the whole cents it is worth at the rate in rand.
   */
  lemma PayoutIsTheExactFloor(gross: int, code: Option<Currency>, rate: int, cfg: FeeConfig)
    requires CalculateCashOut(gross, code, rate, cfg).Ok?
    requires code == Some(ZAR) ==> gross * rate < TEN28
    ensures
      var c := CalculateCashOut(gross, code, rate, cfg).value;
      match c.payoutCurrency
      case UCTUSD => c.payoutAmount == c.net
      case USD => c.payoutAmount % 10_000 == 0 && c.payoutAmount <= c.net < c.payoutAmount + 10_000
      case ZAR =>
        && c.payoutAmount % 10_000 == 0
        && c.payoutAmount * 1_000_000 <= c.net * rate < (c.payoutAmount + 10_000) * 1_000_000
    ensures CalculateCashOut(gross, code, rate, cfg).value.payoutCurrency == code.value
  {
    hide CalculateCashOut, ConvertFromUctusd;
    CashOutParts(gross, code.value, rate, cfg);
    CashOutKeepsItsCurrency(gross, code, rate, cfg);
    var c := CalculateCashOut(gross, code, rate, cfg).value;
    MulMono(c.net, gross, rate);
    ConversionIsTheExactFloor(c.net, code.value, rate);
  }

  lemma CashOutKeepsItsCurrency(gross: int, code: Option<Currency>, rate: int, cfg: FeeConfig)
    requires CalculateCashOut(gross, code, rate, cfg).Ok?
    ensures Some(CalculateCashOut(gross, code, rate, cfg).value.payoutCurrency) == code
  {
  }

  lemma ConversionIsTheExactFloor(amount: nat, code: Currency, rate: nat)
    requires ConvertFromUctusd(amount, code, rate).Ok? && (code.ZAR? ==> amount * rate < TEN28)
    ensures
      var payout := ConvertFromUctusd(amount, code, rate).value;
      match code
      case UCTUSD => payout == amount
      case USD => payout % 10_000 == 0 && payout <= amount < payout + 10_000
      case ZAR =>
        payout % 10_000 == 0 && payout * 1_000_000 <= amount * rate < (payout + 10_000) * 1_000_000
  {
    if code.ZAR? {
      RandPayoutIsTheExactFloor(amount, rate);
      DivisionBounds(amount * rate, SCALE);
    }
    hide Divide, QuantizeDown;
  }

  /**
   Quoted and cashed straight back out at one rate, a payout is never worth
   more than the tokens, nor they than the net.
   */
  lemma PayoutIsNeverWorthMoreThanTheNet(send: int, rate: int, code: Option<Currency>, cfg: FeeConfig)
    requires send < CONVERSION_LIMIT && CalculateQuote(send, rate, code, cfg).Ok?
    ensures
      var q := CalculateQuote(send, rate, code, cfg).value;
      var c := q.cashOut;
      && q.uctusd * rate <= q.net * 10_000_000_000
      && (if c.payoutCurrency.ZAR? then c.payoutAmount * 1_000_000 <= q.uctusd * rate else c.payoutAmount <= q.uctusd)
      && (if c.payoutCurrency.ZAR? then c.payoutAmount <= q.net * 10_000
          else c.payoutAmount * rate <= q.net * 10_000_000_000)
  {
    hide CalculateQuote, Tokens, NetConverted, CalculateCashOut, ConvertFromUctusd, QuantizeHalfUp, Divide;
    QuoteParts(send, rate, code, cfg);
    var q := CalculateQuote(send, rate, code, cfg).value;
    TokensAreTheExactFloor(q.net, rate);
    CashOutParts(q.uctusd, q.cashOut.payoutCurrency, rate, cfg);
    PayoutFitsTheDigits(q.uctusd, q.uctusd, q.net, rate);
    PayoutIsTheExactFloor(q.uctusd, code, rate, cfg);
    MulMono(q.cashOut.net, q.uctusd, rate);
    MulMono(q.cashOut.payoutAmount, q.uctusd, rate);
  }

  /** Fee and margin are the nearest cent, half up; the cash-out fee is rounded down and charged in tokens. */
  lemma FeesAreRoundedTheirOwnWay(send: int, rate: int, code: Option<Currency>, cfg: FeeConfig)
    ensures CalculateQuote(send, rate, code, cfg).Ok? ==>
      var q := CalculateQuote(send, rate, code, cfg).value;
      && -10_000 < 2 * (q.fee * 10_000 - (cfg.fixedFee + send * cfg.percentBps)) <= 10_000
      && -10_000 < 2 * (q.margin * 10_000 - send * cfg.marginBps) <= 10_000
      && 0 <= q.uctusd * cfg.cashOutBps - q.cashOut.fee * 10_000 < 10_000
  {
    hide CalculateQuote, CalculateCashOut, Tokens;
    if CalculateQuote(send, rate, code, cfg).Ok? {
      QuoteFees(send, rate, code, cfg);
      QuoteParts(send, rate, code, cfg);
      CashOutFee(CalculateQuote(send, rate, code, cfg).value.uctusd, code, rate, cfg);
    }
  }

  lemma QuoteFees(send: int, rate: int, code: Option<Currency>, cfg: FeeConfig)
    ensures CalculateQuote(send, rate, code, cfg).Ok? ==>
            var q := CalculateQuote(send, rate, code, cfg).value;
            q.fee == TransactionFee(send, cfg) && q.margin == FxMargin(send, cfg)
  {
  }

  lemma CashOutFee(gross: int, code: Option<Currency>, rate: int, cfg: FeeConfig)
    requires CalculateCashOut(gross, code, rate, cfg).Ok?
    ensures gross > 0
    ensures CalculateCashOut(gross, code, rate, cfg).value.fee == NatQuotient(gross * cfg.cashOutBps, 10_000)
  {
  }

  // -- the fees' own 28 digits ----------------------------------------------

  /** A whole number of 28 digits comes through a division exactly. */
  lemma WholeQuotientIsExact(n: nat, d: nat)
    requires d > 0 && n < TEN28
    ensures var q := Divide(n * d, d); q.exp <= 0 && q.digits == n * Pow10(-q.exp)
  {
    MulMono(n + 1, TEN28, d);
    Distribute(n, 1, d);
    if n * d > 0 {
      var k: int := ScaleUp(n * d, d, 0);
      Rotate(n, d, Pow10(k));
      HalfEvenOfAMultiple(n * Pow10(k), d);
    } else {
      MulMono(1, n, d);
    }
  }

  lemma HalfEvenOfAMultiple(n: nat, d: nat)
    requires d > 0
    ensures RoundHalfEven(n * d, d) == n
  {
    QuotientIsUnique(n * d, d, n);
  }

  lemma QuotientScales(n: nat, d: nat, w: nat)
    requires d > 0 && w > 0
    ensures d * w > 0 && (n * w) / (d * w) == n / d
  {
    MulMono(1, d, w);
    var q := n / d;
    DivisionBounds(n, d);
    MulMono(q * d, n, w);
    MulMono(n + 1, q * d + d, w);
    Distribute(n, 1, w);
    Distribute(q * d, d, w);
    Rotate(q, d, w);
    QuotientIsUnique(n * w, d * w, q);
  }

  lemma RoundedIsNoLarger(n: nat)
    ensures RoundHalfUp(n, 10_000) <= n && NatQuotient(n, 10_000) <= n
  {
  }

  /**
   The source's own arithmetic, each operation rounded to 28 digits: below
   28 digits it charges exactly the fees this model does.
   */
  lemma FeesAreExactBelowTheDigits(send: nat, gross: nat, cfg: FeeConfig)
    ensures cfg.fixedFee + send * cfg.percentBps < TEN28 ==>
              DecimalTransactionFee(send, cfg) == Ok(TransactionFee(send, cfg))
    ensures send * cfg.marginBps < TEN28 ==> DecimalFxMargin(send, cfg) == Ok(FxMargin(send, cfg))
    ensures gross * cfg.cashOutBps < TEN28 ==>
              DecimalCashOutFee(gross, cfg) == Ok(NatQuotient(gross * cfg.cashOutBps, 10_000))
  {
    hide TransactionFee, FxMargin, DecimalTransactionFee, DecimalFxMargin, DecimalCashOutFee;
    if cfg.fixedFee + send * cfg.percentBps < TEN28 {
      TransactionFeeIsExact(send, cfg);
    }
    if send * cfg.marginBps < TEN28 {
      MarginIsExact(send, cfg);
    }
    if gross * cfg.cashOutBps < TEN28 {
      CashOutFeeIsExact(gross, cfg);
    }
  }

  lemma PlusIsExact(units: nat, x: nat, d: Dec)
    requires units + x < TEN28 && d.exp <= 0 && d.digits == x * Pow10(-d.exp)
    ensures var sum := Plus(units, d); sum.exp <= 0 && sum.digits == (units + x) * Pow10(-sum.exp)
  {
    var w := Pow10(-d.exp);
    PlusIsADivision(units, d);
    hide Divide, Plus, Pow10;
    Distribute(units, x, w);
    WholeQuotientIsExact(units + x, w);
  }

  lemma PlusIsADivision(units: nat, d: Dec)
    requires d.exp <= 0
    ensures Plus(units, d) == Divide(units * Pow10(-d.exp) + d.digits, Pow10(-d.exp))
  {
    hide Divide;
  }

  lemma TransactionFeeIsExact(send: nat, cfg: FeeConfig)
    requires cfg.fixedFee + send * cfg.percentBps < TEN28
    ensures DecimalTransactionFee(send, cfg) == Ok(TransactionFee(send, cfg))
  {
    hide Plus, Divide, QuantizeHalfUp, RoundHalfUp;
    SumOfFeesIsExact(cfg.fixedFee, send * cfg.percentBps);
  }

  lemma SumOfFeesIsExact(units: nat, x: nat)
    requires units + x < TEN28
    ensures var sum := Plus(units, Divide(x, 1));
            QuantizeHalfUp(Dec(sum.digits, sum.exp - 6), 2) == Ok(RoundHalfUp(units + x, 10_000))
  {
    hide Plus, Divide, Pow10, QuantizeHalfUp, RoundHalfUp;
    WholeQuotientIsExact(x, 1);
    PlusIsExact(units, x, Divide(x, 1));
    CentsAreExact(units + x, Plus(units, Divide(x, 1)));
  }

  lemma MarginIsExact(send: nat, cfg: FeeConfig)
    requires send * cfg.marginBps < TEN28
    ensures DecimalFxMargin(send, cfg) == Ok(FxMargin(send, cfg))
  {
    hide Divide, Pow10, QuantizeHalfUp, RoundHalfUp;
    WholeQuotientIsExact(send * cfg.marginBps, 1);
    CentsAreExact(send * cfg.marginBps, Divide(send * cfg.marginBps, 1));
  }

  /** Millionths to cents. */
  lemma CentsAreExact(n: nat, d: Dec)
    requires n < TEN28 && d.exp <= 0 && d.digits == n * Pow10(-d.exp)
    ensures QuantizeHalfUp(Dec(d.digits, d.exp - 6), 2) == Ok(RoundHalfUp(n, 10_000))
  {
    PowersOfTen();
    Pow10Add(4, -d.exp);
    HalfUpScales(n, 10_000, Pow10(-d.exp));
    RoundedIsNoLarger(n);
    hide RoundHalfUp, Pow10;
  }

  /** Parts of ten thousand of a millionth, with the fraction dropped. */
  lemma MillionthsAreExact(n: nat, d: Dec)
    requires n < TEN28 && d.exp <= 0 && d.digits == n * Pow10(-d.exp)
    ensures QuantizeDown(Dec(d.digits, d.exp - 10), 6) == Ok(NatQuotient(n, 10_000))
  {
    PowersOfTen();
    Pow10Add(4, -d.exp);
    QuotientScales(n, 10_000, Pow10(-d.exp));
    RoundedIsNoLarger(n);
    hide Pow10;
  }

  lemma CashOutFeeIsExact(gross: nat, cfg: FeeConfig)
    requires gross * cfg.cashOutBps < TEN28
    ensures DecimalCashOutFee(gross, cfg) == Ok(NatQuotient(gross * cfg.cashOutBps, 10_000))
  {
    hide Divide, Pow10, QuantizeDown, NatQuotient;
    WholeQuotientIsExact(gross * cfg.cashOutBps, 1);
    MillionthsAreExact(gross * cfg.cashOutBps, Divide(gross * cfg.cashOutBps, 1));
  }

  // -- splitting and growing a send -----------------------------------------

  // The least fixed fee, in millionths of a rand, that keeps every split from gaining.
  const NO_GAIN_FEE: nat := 14_999

  /** Two sends priced apart receive more tokens than one combined send would. */
  predicate SplitGains(s1: nat, s2: nat, rate: int, code: Option<Currency>, cfg: FeeConfig) {
    var q1, q2 := CalculateQuote(s1, rate, code, cfg), CalculateQuote(s2, rate, code, cfg);
    && q1.Ok? && q2.Ok?
    && (NetConverted(s1 + s2, cfg) <= 0 || rate <= 0 || Tokens(NetConverted(s1 + s2, cfg), rate).Err?
        || q1.value.uctusd + q2.value.uctusd > Tokens(NetConverted(s1 + s2, cfg), rate).value)
  }

  /** Splitting never gains, at any rate and any percentages, exactly when the fixed fee is at least 1.4999 cents. */
  lemma SplittingNeverGainsExactlyWhen(fixedFee: nat)
    ensures
      (forall s1: nat, s2: nat, rate: int, code: Option<Currency>, cfg: FeeConfig ::
         cfg.fixedFee == fixedFee && s1 + s2 < CONVERSION_LIMIT ==> !SplitGains(s1, s2, rate, code, cfg))
      <==> fixedFee >= NO_GAIN_FEE
  {
    hide SplitGains;
    if fixedFee >= NO_GAIN_FEE {
      forall s1: nat, s2: nat, rate: int, code: Option<Currency>, cfg: FeeConfig
        | cfg.fixedFee == fixedFee && s1 + s2 < CONVERSION_LIMIT
        ensures !SplitGains(s1, s2, rate, code, cfg)
      {
        SplittingNeverGains(s1, s2, rate, code, cfg);
      }
    } else {
      SplittingGains(fixedFee);
    }
  }

  lemma SplittingNeverGains(s1: nat, s2: nat, rate: int, code: Option<Currency>, cfg: FeeConfig)
    requires cfg.fixedFee >= NO_GAIN_FEE && s1 + s2 < CONVERSION_LIMIT
    ensures NetConverted(s1, cfg) + NetConverted(s2, cfg) <= NetConverted(s1 + s2, cfg)
    ensures !SplitGains(s1, s2, rate, code, cfg)
  {
    hide CalculateQuote, Tokens, NetConverted;
    PartsNetNoMore(s1, s2, cfg);
    if CalculateQuote(s1, rate, code, cfg).Ok? && CalculateQuote(s2, rate, code, cfg).Ok? {
      QuoteParts(s1, rate, code, cfg);
      QuoteParts(s2, rate, code, cfg);
      NetIsAtMostTheSend(s1 + s2, cfg);
      var n1, n2, n := NetConverted(s1, cfg), NetConverted(s2, cfg), NetConverted(s1 + s2, cfg);
      TokensAreTheExactFloor(n1, rate);
      TokensAreTheExactFloor(n2, rate);
      TokensAreTheExactFloor(n, rate);
      FloorsAdd(Tokens(n1, rate).value, Tokens(n2, rate).value, Tokens(n, rate).value, n1, n2, n, rate);
    }
  }

  /** Rounding the parts apart saves at most 0.9998 cents of fee and a cent of margin; the fixed fee pays for both. */
  lemma PartsNetNoMore(s1: nat, s2: nat, cfg: FeeConfig)
    requires cfg.fixedFee >= NO_GAIN_FEE
    ensures NetConverted(s1, cfg) + NetConverted(s2, cfg) <= NetConverted(s1 + s2, cfg)
  {
    Distribute(s1, s2, cfg.percentBps);
    Distribute(s1, s2, cfg.marginBps);
    FeesAddUp(cfg.fixedFee, s1 * cfg.percentBps, s2 * cfg.percentBps);
    MarginsAddUp(s1 * cfg.marginBps, s2 * cfg.marginBps);
    hide RoundHalfUp;
  }

  lemma FeesAddUp(fixedFee: nat, x: nat, y: nat)
    requires fixedFee >= NO_GAIN_FEE
    ensures RoundHalfUp(fixedFee + x + y, 10_000) + 1
            <= RoundHalfUp(fixedFee + x, 10_000) + RoundHalfUp(fixedFee + y, 10_000)
  {
  }

  lemma MarginsAddUp(x: nat, y: nat)
    ensures RoundHalfUp(x + y, 10_000) <= RoundHalfUp(x, 10_000) + RoundHalfUp(y, 10_000) + 1
  {
  }

  /** The percentage that makes a send of R100.01 just miss the next cent of fee. */
  function CostlyPercent(fixedFee: nat): nat
    requires fixedFee < NO_GAIN_FEE
  {
    if fixedFee < 5_000 then 0 else if fixedFee < 9_999 then 5_000 else 14_999 - fixedFee
  }

  /** Below that fee two sends of R100.01 do gain, in net and in tokens received. */
  lemma SplittingGains(fixedFee: nat)
    requires fixedFee < NO_GAIN_FEE
    ensures
      var cfg := FeeConfig(fixedFee, CostlyPercent(fixedFee), 4_999, 100);
      && NetConverted(10_001, cfg) + NetConverted(10_001, cfg) == NetConverted(20_002, cfg) + 1
      && SplitGains(10_001, 10_001, 1_000_000, Some(USD), cfg)
  {
    var cfg := FeeConfig(fixedFee, CostlyPercent(fixedFee), 4_999, 100);
    CostlyNets(fixedFee);
    hide CalculateQuote, Tokens, NetConverted;
    var n, n2 := NetConverted(10_001, cfg), NetConverted(20_002, cfg);
    PricedExactlyWhen(10_001, 1_000_000, Some(USD), cfg);
    QuoteParts(10_001, 1_000_000, Some(USD), cfg);
    TokensAreTheExactFloor(n, 1_000_000);
    TokensAreTheExactFloor(n2, 1_000_000);
  }

  lemma CostlyNets(fixedFee: nat)
    requires fixedFee < NO_GAIN_FEE
    ensures
      var cfg := FeeConfig(fixedFee, CostlyPercent(fixedFee), 4_999, 100);
      && 1 <= NetConverted(10_001, cfg) < 10_001 && 1 <= NetConverted(20_002, cfg) < 20_002
      && NetConverted(10_001, cfg) + NetConverted(10_001, cfg) == NetConverted(20_002, cfg) + 1
  {
    hide RoundHalfUp;
    var pct := CostlyPercent(fixedFee);
    var fee := if fixedFee < 5_000 then 0 else if fixedFee < 9_999 then 5_001 else pct + 1;
    RoundsTo(fixedFee + 10_001 * pct, fee);
    RoundsTo(fixedFee + 20_002 * pct, 2 * fee);
    RoundsTo(49_994_999, 4_999);
    RoundsTo(99_989_998, 9_999);
  }

  lemma RoundsTo(n: nat, r: nat)
    requires 2 * n - 10_000 < 20_000 * r <= 2 * n + 10_000
    ensures RoundHalfUp(n, 10_000) == r
  {
  }

  lemma NetIsAtMostTheSend(send: nat, cfg: FeeConfig)
    ensures NetConverted(send, cfg) <= send
  {
  }

  lemma FloorsAdd(t1: nat, t2: nat, t: nat, n1: nat, n2: nat, n: nat, rate: nat)
    requires rate > 0 && t1 * rate <= n1 * SCALE && t2 * rate <= n2 * SCALE
    requires n1 + n2 <= n && n * SCALE < (t + 1) * rate
    ensures t1 + t2 <= t
  {
    Distribute(t1, t2, rate);
    MulMono(t + 1, t1 + t2, rate);
  }

  /** Sending more never lowers the net by more than one cent, while the rates total at most 100%. */
  lemma SendingMoreNeverCostsMoreThanACent(s1: nat, s2: nat, cfg: FeeConfig)
    requires s1 <= s2 && cfg.percentBps + cfg.marginBps <= 10_000
    ensures NetConverted(s2, cfg) >= NetConverted(s1, cfg) - 1
  {
    var d := s2 - s1;
    Distribute(s1, d, cfg.percentBps);
    Distribute(s1, d, cfg.marginBps);
    Distribute(cfg.percentBps, cfg.marginBps, d);
    MulMono(cfg.percentBps + cfg.marginBps, 10_000, d);
  }

  /** The one cent is real: both roundings can step up on the same cent. */
  lemma SendingMoreCanCostACent()
    ensures var cfg := FeeConfig(0, 5_000, 5_000, 100); NetConverted(3, cfg) == NetConverted(2, cfg) - 1
  {
    RoundsTo(10_000, 1);
    RoundsTo(15_000, 2);
    hide RoundHalfUp;
  }

  // -- which sends are priced -------------------------------------------------

  /** A send is priced exactly when its net buys one token unit and the payout currency is known. */
  lemma PricedExactlyWhen(send: nat, rate: int, code: Option<Currency>, cfg: FeeConfig)
    requires send < CONVERSION_LIMIT && cfg.cashOutBps < 10_000
    ensures CalculateQuote(send, rate, code, cfg).Ok? <==>
            0 < rate && code.Some? && NetConverted(send, cfg) * SCALE >= rate
  {
    var net := NetConverted(send, cfg);
    NetIsAtMostTheSend(send, cfg);
    if 0 < rate && 0 < net {
      ConversionPositiveExactlyWhen(net, rate);
      TokensAreTheExactFloor(net, rate);
      var uctusd := Tokens(net, rate).value;
      if 0 < uctusd {
        CashOutIsPriced(uctusd, net, rate, code, cfg);
        QuotientFits(send * 10_000, uctusd);
      }
      hide Tokens, NetConverted, CalculateCashOut, QuantizeHalfUp, Divide;
    }
  }

  lemma QuotientFits(num: nat, den: nat)
    requires den > 0 && num < 2_000_000_000_000_000_000_000
    ensures QuantizeHalfUp(Divide(num, den), 6).Ok?
  {
    if num > 0 {
      var k := QuotientShape(num, den);
      hide Divide;
      ShiftFits(num, den, k, RoundHalfEven(num * Pow10(k), den));
    } else {
      PowersOfTen();
    }
  }

  /** A quotient in range keeps at least six decimal places. */
  lemma QuotientShape(num: nat, den: nat) returns (k: nat)
    requires den > 0 && 0 < num < 2_000_000_000_000_000_000_000
    ensures k >= 6 && Divide(num, den) == Dec(RoundHalfEven(num * Pow10(k), den), -(k as int))
  {
    MulMono(1, den, TEN28);
    k := ScaleUp(num, den, 0);
    SixPlacesRemain(num, den, k);
  }

  lemma ShiftFits(num: nat, den: nat, k: nat, d: nat)
    requires den > 0 && k >= 6 && num < 2_000_000_000_000_000_000_000
    requires 2 * (d * den) <= 2 * (num * Pow10(k)) + den
    ensures ShiftHalfUp(d, 6 - k) < TEN28
  {
    Pow10Add(6, k - 6);
    PowersOfTen();
    var w := Pow10(k - 6);
    Rotate(num, 1_000_000, w);
    var r := ShiftHalfUp(d, 6 - k);
    assert 2 * (r * w) <= 2 * d + w;
    hide ShiftHalfUp, Pow10;
    TwoRoundingsFit(num * 1_000_000, den, w, d, r);
  }

  lemma TwoRoundingsFit(n: nat, den: nat, w: nat, d: nat, r: nat)
    requires den > 0 && w > 0 && n < TEN27 * 2
    requires 2 * (d * den) <= 2 * (n * w) + den && 2 * (r * w) <= 2 * d + w
    ensures r < TEN28
  {
    var all := w * den;
    MulMono(1, den, w);
    MulMono(1, w, den);
    MulMono(n, TEN27 * 2, w);
    ScaledRounding(r, w, d, den);
    StaysBelow(r, all, n * w, w, den);
  }

  lemma ScaledRounding(r: nat, w: nat, d: nat, den: nat)
    requires 2 * (r * w) <= 2 * d + w
    ensures 2 * (r * (w * den)) <= 2 * (d * den) + w * den
  {
    MulMono(2 * (r * w), 2 * d + w, den);
    Distribute(2 * d, w, den);
    Rotate(r, w, den);
  }

  lemma StaysBelow(r: nat, all: nat, nw: nat, w: nat, den: nat)
    requires 0 < w <= all && den <= all && nw <= TEN27 * 2 * w
    requires 2 * (r * all) <= 2 * nw + den + all
    ensures r < TEN28
  {
    MulMono(TEN28, r, all);
  }

  lemma ConversionPositiveExactlyWhen(net: nat, rate: nat)
    requires rate > 0 && net < CONVERSION_LIMIT
    ensures Tokens(net, rate).Ok? && (Tokens(net, rate).value > 0 <==> net * SCALE >= rate)
  {
    TokensAreTheExactFloor(net, rate);
    var t := Tokens(net, rate).value;
    MulMono(1, t, rate);
    MulMono(t, 0, rate);
    Distribute(t, 1, rate);
  }

  /** A cash-out is priced exactly when it is positive, at a positive rate, in a known currency, at a fee below 100%. */
  lemma CashOutPricedExactlyWhen(gross: int, code: Option<Currency>, rate: int, cfg: FeeConfig)
    requires gross * rate < TEN28
    ensures CalculateCashOut(gross, code, rate, cfg).Ok? <==>
              gross > 0 && rate > 0 && code.Some? && cfg.cashOutBps < 10_000
  {
    if gross > 0 && rate > 0 {
      FeeIsBelowTheGrossExactlyWhen(gross, cfg.cashOutBps);
      var fee := NatQuotient(gross * cfg.cashOutBps, 10_000);
      hide NatQuotient;
      if code == Some(ZAR) && gross > fee {
        MulMono(gross - fee, gross, rate);
        RandPayoutIsTheExactFloor(gross - fee, rate);
      }
    }
    hide Divide, QuantizeDown;
  }

  lemma FeeIsBelowTheGrossExactlyWhen(gross: nat, bps: nat)
    requires gross > 0
    ensures NatQuotient(gross * bps, 10_000) < gross <==> bps < 10_000
  {
    MulMono(bps, 9_999, gross);
    MulMono(10_000, bps, gross);
    Rotate(1, gross, bps);
  }

  lemma CashOutIsPriced(gross: nat, net: nat, rate: int, code: Option<Currency>, cfg: FeeConfig)
    requires 0 < gross && 0 < rate && cfg.cashOutBps < 10_000
    requires gross * rate <= net * SCALE && net < CONVERSION_LIMIT
    ensures CalculateCashOut(gross, code, rate, cfg).Ok? <==> code.Some?
  {
    MulMono(cfg.cashOutBps, 9_999, gross);
    Rotate(1, gross, cfg.cashOutBps);
    var fee := NatQuotient(gross * cfg.cashOutBps, 10_000);
    assert fee * 10_000 <= gross * 9_999;
    if code == Some(ZAR) {
      PayoutFitsTheDigits(gross - fee, gross, net, rate);
      RandPayoutIsTheExactFloor(gross - fee, rate);
    }
  }
}
