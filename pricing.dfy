/**
  The delivery calculator's arithmetic (bot.py:32-50, 94, 109, 133-134,
  154-155, 160-164), on exact reals. The two exchange-rate lookups are
  given as their raw outcome: `Some(rate)` when the central bank's feed
  answered, `None` when the request or the JSON lookup failed.
 */
module Pricing {
  import opened Wrappers
  import opened Validators

  const YuanMarkup: real := 1.3
  const YuanFallback: real := 13.8
  const EuroFallback: real := 100.0
  const RubPerKg: real := 640.0
  const CdekFactor: real := 1.15
  const PostFactor: real := 1.10
  const InsuranceFee: real := 100.0
  const DutyFreeEuros: real := 200.0
  const DutyRate: real := 0.05

  /** The yuan rate used for a quote: the published rate plus a markup, or
      the fixed fallback when the lookup failed. */
  function YuanRate(quote: Option<real>): real {
    match quote
    case Some(rate) => rate + YuanMarkup
    case None => YuanFallback
  }

  /** The euro rate used for the duty threshold, or the fallback. */
  function EuroRate(quote: Option<real>): real {
    match quote
    case Some(rate) => rate
    case None => EuroFallback
  }

  /** The item price converted to roubles. */
  function PriceRub(price: real, yuan: real): real {
    price * yuan
  }

  /** The shipping cost in roubles for a parcel of `weight` kilograms. */
  function ShippingCost(weight: real): real {
    weight * RubPerKg
  }

  /** The carrier surcharge factor: СДЭК, otherwise Почта РФ. */
  function Surcharge(carrier: string): real {
    if carrier == Cdek then CdekFactor else PostFactor
  }

  /** Price plus shipping, with the carrier's surcharge. */
  function CarrierTotal(priceRub: real, shipping: real, carrier: string): real {
    (priceRub + shipping) * Surcharge(carrier)
  }

  /** The total after the insurance answer. */
  function Insured(total: real, insure: bool): real {
    if insure then total + InsuranceFee else total
  }

  /** The outcome of the customs check: the duty, if any, and the final total. */
  datatype Assessment = Assessment(duty: Option<real>, total: real)

  /** Customs duty: five percent on top, owed only when the total exceeds
      the rouble value of 200 euros. */
  function ApplyDuty(total: real, euro: real): (a: Assessment)
    ensures a.duty.Some? <==> total > euro * DutyFreeEuros
    ensures a.duty.Some? ==> a.duty.value == total * DutyRate && a.total == total * (1.0 + DutyRate)
    ensures a.duty.None? ==> a.total == total
  {
    if total > euro * DutyFreeEuros then
      var duty := total * DutyRate;
      Assessment(Some(duty), total + duty)
    else
      Assessment(None, total)
  }

  /** The whole calculation, from the four answers and the two lookups. */
  function Quote(price: real, yuanQuote: Option<real>, weight: real, carrier: string,
                 insure: bool, euroQuote: Option<real>): Assessment
  {
    var base := CarrierTotal(PriceRub(price, YuanRate(yuanQuote)), ShippingCost(weight), carrier);
    ApplyDuty(Insured(base, insure), EuroRate(euroQuote))
  }

  /** A total equal to the threshold owes no duty. */
  lemma NoDutyAtThreshold(euro: real)
    ensures ApplyDuty(euro * DutyFreeEuros, euro) == Assessment(None, euro * DutyFreeEuros)
  {
  }

  /** With a non-negative euro rate, a larger total never ends cheaper after
      customs; crossing the threshold only adds. */
  lemma ApplyDutyMonotone(t1: real, t2: real, euro: real)
    requires euro >= 0.0 && t1 <= t2
    ensures ApplyDuty(t1, euro).total <= ApplyDuty(t2, euro).total
  {
    var threshold := euro * DutyFreeEuros;
    if t1 > threshold {
      assert t1 * 0.05 <= t2 * 0.05;
    } else if t2 > threshold {
      assert t2 > 0.0;
      assert t2 * 0.05 > 0.0;
    }
  }

  /** For a non-negative price and weight and a non-negative euro rate,
      СДЭК never comes out cheaper than Почта РФ. */
  lemma CdekNotCheaper(price: real, yuanQuote: Option<real>, weight: real, insure: bool,
                       euroQuote: Option<real>)
    requires PriceRub(price, YuanRate(yuanQuote)) + ShippingCost(weight) >= 0.0
    requires EuroRate(euroQuote) >= 0.0
    ensures Quote(price, yuanQuote, weight, RussianPost, insure, euroQuote).total
         <= Quote(price, yuanQuote, weight, Cdek, insure, euroQuote).total
  {
    CdekTotalNotCheaper(PriceRub(price, YuanRate(yuanQuote)), ShippingCost(weight), insure, EuroRate(euroQuote));
  }

  /** The same comparison from the two rouble amounts on. */
  lemma CdekTotalNotCheaper(priceRub: real, shipping: real, insure: bool, euro: real)
    requires priceRub + shipping >= 0.0 && euro >= 0.0
    ensures ApplyDuty(Insured(CarrierTotal(priceRub, shipping, RussianPost), insure), euro).total
         <= ApplyDuty(Insured(CarrierTotal(priceRub, shipping, Cdek), insure), euro).total
  {
    var sum := priceRub + shipping;
    SurchargeOrder(sum);
    assert CarrierTotal(priceRub, shipping, RussianPost) == sum * PostFactor;
    assert CarrierTotal(priceRub, shipping, Cdek) == sum * CdekFactor;
    ApplyDutyMonotone(Insured(sum * PostFactor, insure), Insured(sum * CdekFactor, insure), euro);
  }

  /** The СДЭК surcharge is the larger of the two on a non-negative sum. */
  lemma SurchargeOrder(sum: real)
    requires sum >= 0.0
    ensures sum * PostFactor <= sum * CdekFactor
  {
  }

  /** With a non-negative euro rate, taking insurance never lowers the quote. */
  lemma InsuranceNotCheaper(price: real, yuanQuote: Option<real>, weight: real, carrier: string,
                            euroQuote: Option<real>)
    requires EuroRate(euroQuote) >= 0.0
    ensures Quote(price, yuanQuote, weight, carrier, false, euroQuote).total
         <= Quote(price, yuanQuote, weight, carrier, true, euroQuote).total
  {
    var base := CarrierTotal(PriceRub(price, YuanRate(yuanQuote)), ShippingCost(weight), carrier);
    ApplyDutyMonotone(base, base + InsuranceFee, EuroRate(euroQuote));
  }

  /** 100 yuan at a published 12.7 (so 14.0 with the markup), 2 kg, СДЭК,
      no insurance, euro at 100: (1400 + 1280) * 1.15 = 3082, under the
      20000 threshold. */
  lemma WorkedExample()
    ensures Quote(100.0, Some(12.7), 2.0, Cdek, false, Some(100.0)) == Assessment(None, 3082.0)
  {
  }

  /** Both lookups failing: 2000 yuan at 13.8 plus 1 kg, Почта РФ, insured,
      is 31164 roubles, over the 20000 threshold, so 1558.2 duty is added. */
  lemma FallbackExample()
    ensures Quote(2000.0, None, 1.0, RussianPost, true, None) == Assessment(Some(1558.2), 32722.2)
  {
  }
}
