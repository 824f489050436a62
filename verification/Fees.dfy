/**
 Fee and quotation arithmetic (services/fee_service.py).

 Rand amounts are cents, token amounts millionths of a UCTUSD, rates
 millionths of a rand per dollar, and the fixed fee millionths of a rand.
 */
module Fees {
  import opened Arithmetic
  import opened Decimals
  import opened Schema
  import opened Wrappers

  datatype FeeError = AmountTooSmall | RateNotPositive | UnsupportedPayoutCurrency | OutOfRange

  datatype FeeConfig = FeeConfig(fixedFee: nat, percentBps: nat, marginBps: nat, cashOutBps: nat)

  datatype CashOutQuote = CashOutQuote(
    gross: nat, fee: nat, net: nat, payoutCurrency: Currency, payoutAmount: nat)

  datatype Quote = Quote(
    send: nat, rate: nat, fee: nat, margin: nat, net: int, uctusd: nat, effectiveRate: nat,
    cashOut: CashOutQuote)

  function Raised<T>(r: Result<T, DecimalError>): Result<T, FeeError> {
    match r
    case Ok(v) => Ok(v)
    case Err(_) => Err(OutOfRange)
  }

  // Exact wherever the products have at most 28 digits: see FeeLaws.FeesAreExactBelowTheDigits.
  function TransactionFee(send: nat, cfg: FeeConfig): nat {
    RoundHalfUp(cfg.fixedFee + send * cfg.percentBps, 10_000)
  }

  function FxMargin(send: nat, cfg: FeeConfig): nat {
    RoundHalfUp(send * cfg.marginBps, 10_000)
  }

  // -- the same fees as the source computes them, every operation rounded to 28 digits --

  function DecimalTransactionFee(send: nat, cfg: FeeConfig): Result<nat, DecimalError> {
    var sum := Plus(cfg.fixedFee, Divide(send * cfg.percentBps, 1));
    QuantizeHalfUp(Dec(sum.digits, sum.exp - 6), 2)
  }

  function DecimalFxMargin(send: nat, cfg: FeeConfig): Result<nat, DecimalError> {
    var share := Divide(send * cfg.marginBps, 1);
    QuantizeHalfUp(Dec(share.digits, share.exp - 6), 2)
  }

  function DecimalCashOutFee(gross: nat, cfg: FeeConfig): Result<nat, DecimalError> {
    var share := Divide(gross * cfg.cashOutBps, 1);
    QuantizeDown(Dec(share.digits, share.exp - 10), 6)
  }

  // -- quotations ---------------------------------------------------------------------

  function NetConverted(send: nat, cfg: FeeConfig): int {
    send - TransactionFee(send, cfg) - FxMargin(send, cfg)
  }

  /** net / rate at mid-market: a 28-digit division, then rounded down to a millionth. */
  function Tokens(net: nat, rate: nat): Result<nat, FeeError>
    requires rate > 0
  {
    Raised(QuantizeDown(Divide(net * 10_000, rate), 6))
  }

  /** The payout in millionths, rounded down to its currency's quantum. */
  function ConvertFromUctusd(amount: nat, code: Currency, rate: nat): Result<nat, FeeError> {
    match code
    case UCTUSD => Ok(amount)
    case USD => Ok(NatQuotient(amount, 10_000) * 10_000)
    case ZAR =>
      var product := Divide(amount * rate, 1);
      var cents :- Raised(QuantizeDown(Dec(product.digits, product.exp - 12), 2));
      Ok(cents * 10_000)
  }

  /** `code` is None for any string that is not one of the priceable currencies. */
  function CalculateCashOut(gross: int, code: Option<Currency>, rate: int, cfg: FeeConfig):
    (r: Result<CashOutQuote, FeeError>)
    ensures r.Ok? ==>
      && r.value.gross == gross == r.value.fee + r.value.net
      && 0 < r.value.net && Some(r.value.payoutCurrency) == code
  {
    if gross <= 0 then Err(AmountTooSmall)
    else if rate <= 0 then Err(RateNotPositive)
    else if code.None? then Err(UnsupportedPayoutCurrency)
    else
      var fee := NatQuotient(gross * cfg.cashOutBps, 10_000);
      if gross - fee <= 0 then Err(AmountTooSmall)
      else
        var payout :- ConvertFromUctusd(gross - fee, code.value, rate);
        Ok(CashOutQuote(gross, fee, gross - fee, code.value, payout))
  }

  function CalculateQuote(send: int, rate: int, code: Option<Currency>, cfg: FeeConfig):
    (r: Result<Quote, FeeError>)
    ensures r.Ok? ==>
      var q := r.value;
      && q.send == send == q.fee + q.margin + q.net
      && 0 < send && 0 < q.net && 0 < q.uctusd && q.rate == rate
      && q.cashOut.gross == q.uctusd
  {
    if send <= 0 then Err(AmountTooSmall)
    else if rate <= 0 then Err(RateNotPositive)
    else
      var net := NetConverted(send, cfg);
      if net <= 0 then Err(AmountTooSmall)
      else
        var uctusd :- Tokens(net, rate);
        if uctusd == 0 then Err(AmountTooSmall)
        else
          var cashOut :- CalculateCashOut(uctusd, code, rate, cfg);
          var effective :- Raised(QuantizeHalfUp(Divide(send * 10_000, uctusd), 6));
          Ok(Quote(send, rate, TransactionFee(send, cfg), FxMargin(send, cfg), net, uctusd, effective, cashOut))
  }
}
