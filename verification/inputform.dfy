/** The logic of the Dubai input form: the validity rule that enables the
    Calculate button, and the live hints shown under the profit, customs and
    shipping fields. */
module InputForm {
  import opened Numbers
  import opened Types
  import opened Aggregation
  import opened Pricing

  /** A product line the form accepts: name, quantity and price are filled
      in, the price is a positive number and the quantity a positive
      integer. */
  predicate ProductValid(p: Product) {
    && p.name != "" && p.quantity != "" && p.price != ""
    && ParseFloat(p.price).Some? && ParseFloat(p.price).value > 0.0
    && ParseInt(p.quantity).Some? && ParseInt(p.quantity).value > 0
  }

  /** `isFormValid`: `products.every(...)`.  A valid form's lines all
      enter the engine's sums with a positive quantity and price. */
  predicate IsFormValid(ps: seq<Product>): (valid: bool)
    ensures valid ==> forall i :: 0 <= i < |ps| ==> Quantity(ps[i]) > 0 && UnitPrice(ps[i]) > 0.0
  {
    forall i :: 0 <= i < |ps| ==> ProductValid(ps[i])
  }

  /** The Calculate button's `disabled={!isFormValid || loading}`, negated:
      never enabled while a calculation is running. */
  predicate CalculateEnabled(ps: seq<Product>, loading: bool): (enabled: bool)
    ensures loading ==> !enabled
    ensures !loading ==> (enabled <==> IsFormValid(ps))
  {
    IsFormValid(ps) && !loading
  }

  /** A valid form with at least one product has a positive factory cost and
      at least one unit per line, so the gate can only reject it for its
      configuration strings. */
  lemma ValidFormPassesCostCheck(d: DubaiInputs)
    requires IsFormValid(d.products) && |d.products| > 0
    ensures FactoryCost(d.products) > 0.0
    ensures TotalQuantity(d.products) >= |d.products|
    ensures DubaiGate(d).None? <==> !ConfigOk(DubaiConfig(d))
  {
    PositiveLinesPositiveCost(d.products);
  }

  /** An empty product list passes `every`, so Calculate is enabled, yet the
      gate turns it down: its factory cost is 0.  The form itself never
      empties the list (its trash button is disabled on the last product);
      the state arises from the list edits alone. */
  lemma EmptyFormEnabledButRejected(d: DubaiInputs)
    requires d.products == []
    ensures CalculateEnabled(d.products, false)
    ensures DubaiGate(d).None?
  {
  }

  /** Two amounts in USD and AED. */
  datatype PricePair = PricePair(usd: real, aed: real)

  /** The memoised hints; `None` is a hint that is not shown. */
  datatype Hints = Hints(profitHint: Option<PricePair>, customsHint: Option<PricePair>, shippingHint: Option<real>)

  /** JavaScript truthiness of a number that may be NaN (`None`). */
  predicate Truthy(x: Option<real>) {
    x.Some? && x.value != 0.0
  }

  /** `priceWithProfitUSD`: NaN (`None`) when the margin does not parse. */
  function PriceWithProfit(factoryCost: real, profitMargin: Option<real>): (x: Option<real>)
    ensures x.Some? <==> profitMargin.Some?
    ensures x.Some? ==> x.value == factoryCost * Multiplier(profitMargin.value)
  {
    if profitMargin.Some? then Some(factoryCost * (1.0 + profitMargin.value / 100.0)) else None
  }

  /** `priceAfterCustomsUSD`: only on a truthy profit-inclusive price. */
  function PriceAfterCustoms(withProfit: Option<real>, customsDutyRate: Option<real>): (x: Option<real>)
    ensures x.Some? <==> Truthy(withProfit) && customsDutyRate.Some?
    ensures x.Some? ==> x.value == withProfit.value * Multiplier(customsDutyRate.value)
  {
    if Truthy(withProfit) && customsDutyRate.Some?
    then Some(withProfit.value * (1.0 + customsDutyRate.value / 100.0))
    else None
  }

  /** `perUnitShippingCostUSD`: the shipping cost in USD spread over the
      units, when it parses and there are units. */
  function PerUnitShipping(shippingCostAED: Option<real>, exchangeRate: real, totalQuantity: int): (x: Option<real>)
    requires exchangeRate != 0.0
    ensures x.Some? <==> shippingCostAED.Some? && totalQuantity > 0
    ensures x.Some? ==> x.value * totalQuantity as real * exchangeRate == shippingCostAED.value
  {
    if shippingCostAED.Some? && totalQuantity > 0
    then
      var q := totalQuantity as real;
      assert shippingCostAED.value / exchangeRate / q * q == shippingCostAED.value / exchangeRate;
      Some(shippingCostAED.value / exchangeRate / q)
    else None
  }

  /** A USD / AED hint, shown only for a truthy amount. */
  function PairHint(usd: Option<real>, exchangeRate: real): (h: Option<PricePair>)
    ensures h.Some? <==> Truthy(usd)
    ensures h.Some? ==> h.value.usd == usd.value && h.value.aed == usd.value * exchangeRate
  {
    if Truthy(usd) then Some(PricePair(usd.value, usd.value * exchangeRate)) else None
  }

  /** `calculationMemos` on the parsed inputs: nothing without a usable
      exchange rate, otherwise each hint that has a truthy value. */
  function HintValues(factoryCost: real, totalQuantity: int, profitMargin: Option<real>,
                      customsDutyRate: Option<real>, shippingCostAED: Option<real>,
                      exchangeRate: Option<real>): (h: Hints)
    ensures exchangeRate.None? || exchangeRate.value == 0.0 ==> h == Hints(None, None, None)
    ensures h.profitHint.Some? ==> profitMargin.Some?
    ensures h.customsHint.Some? ==> h.profitHint.Some? && customsDutyRate.Some?
    ensures h.shippingHint.Some? ==> shippingCostAED.Some? && totalQuantity > 0
  {
    if exchangeRate.None? || exchangeRate.value == 0.0 then Hints(None, None, None)
    else
      var xr := exchangeRate.value;
      var withProfit := PriceWithProfit(factoryCost, profitMargin);
      var perUnitShipping := PerUnitShipping(shippingCostAED, xr, totalQuantity);
      Hints(
        PairHint(withProfit, xr),
        PairHint(PriceAfterCustoms(withProfit, customsDutyRate), xr),
        if Truthy(perUnitShipping) then perUnitShipping else None)
  }

  /** The hints with a usable exchange rate: the profit hint is shown exactly
      for a parsed margin giving a non-zero price, the customs hint exactly
      on top of a shown profit hint with a parsed duty and a non-zero
      result, and the per-unit shipping hint, when shown, times the units
      and the rate gives back the shipping cost. */
  lemma HintsShown(f: real, q: int, pm: Option<real>, cd: Option<real>, ship: Option<real>, xr: real)
    requires xr != 0.0
    ensures var h := HintValues(f, q, pm, cd, ship, Some(xr));
      && (h.profitHint.Some? <==> pm.Some? && f * Multiplier(pm.value) != 0.0)
      && (h.profitHint.Some? ==>
            h.profitHint.value.usd == f * Multiplier(pm.value) && h.profitHint.value.aed == h.profitHint.value.usd * xr)
      && (h.customsHint.Some? <==>
            h.profitHint.Some? && cd.Some? && h.profitHint.value.usd * Multiplier(cd.value) != 0.0)
      && (h.customsHint.Some? ==>
            h.customsHint.value.usd == h.profitHint.value.usd * Multiplier(cd.value)
            && h.customsHint.value.aed == h.customsHint.value.usd * xr)
      && (h.shippingHint.Some? <==>
            ship.Some? && q > 0 && PerUnitShipping(ship, xr, q).value != 0.0)
      && (h.shippingHint.Some? ==> h.shippingHint.value * q as real * xr == ship.value)
  {
  }

  /** `calculationMemos` of the Dubai form: the factory cost and the total
      quantity of its products, and its configuration strings parsed.  Each
      hint needs the strings it is computed from to parse. */
  function CalculationHints(d: DubaiInputs): (h: Hints)
    ensures ParseFloat(d.exchangeRate).None? || ParseFloat(d.exchangeRate).value == 0.0 ==> h == Hints(None, None, None)
    ensures h.profitHint.Some? ==> ParseFloat(d.profitMargin).Some?
    ensures h.customsHint.Some? ==> h.profitHint.Some? && ParseFloat(d.customsDutyRate).Some?
    ensures h.shippingHint.Some? ==> ParseFloat(d.fixedShippingCostAED).Some? && TotalQuantity(d.products) > 0
  {
    HintValues(
      FactoryCost(d.products), TotalQuantity(d.products), ParseFloat(d.profitMargin),
      ParseFloat(d.customsDutyRate), ParseFloat(d.fixedShippingCostAED), ParseFloat(d.exchangeRate))
  }

  /** The profit hint's price is the factory cost plus the Dubai formula's
      gross profit. */
  lemma ProfitHintMatchesEngine(f: real, r: DubaiRates)
    requires r.exchangeRate != 0.0
    ensures PriceWithProfit(f, Some(r.profitMargin)) == Some(f + DubaiPricing(f, r).grossProfitUSD)
  {
    var x := PriceWithProfit(f, Some(r.profitMargin));
    assert x.value == f * Multiplier(r.profitMargin);
    assert f * Multiplier(r.profitMargin) == f + f * r.profitMargin / 100.0;
    assert DubaiPricing(f, r).grossProfitUSD == f * r.profitMargin / 100.0;
    assert x.Some?;
    assert x.value == f + DubaiPricing(f, r).grossProfitUSD;
    assert x == Some(f + DubaiPricing(f, r).grossProfitUSD);
  }

  /** The customs hint's price, computed from the profit hint's, is the
      Dubai formula's price after profit and customs; it is missing exactly
      when the profit-inclusive price is 0. */
  lemma CustomsHintMatchesEngine(f: real, r: DubaiRates)
    ensures var x := PriceAfterCustoms(PriceWithProfit(f, Some(r.profitMargin)), Some(r.customsDutyRate));
      && (x.Some? <==> f * Multiplier(r.profitMargin) != 0.0)
      && (x.Some? ==> x.value == DubaiPriceAfterProfitAndCustoms(f, r))
  {
  }

  /** The per-unit shipping hint, times the units, plus the customs
      increment is the Dubai formula's shipping and customs cost. */
  lemma ShippingHintMatchesEngine(f: real, q: int, r: DubaiRates)
    requires r.exchangeRate != 0.0 && q > 0
    ensures var perUnit := PerUnitShipping(Some(r.shippingCostAED), r.exchangeRate, q);
      && perUnit.Some?
      && perUnit.value * q as real + f * Multiplier(r.profitMargin) * r.customsDutyRate / 100.0
           == DubaiPricing(f, r).shippingAndCustomsCostUSD
  {
    var x := PerUnitShipping(Some(r.shippingCostAED), r.exchangeRate, q).value;
    var xq := x * q as real;
    assert xq * r.exchangeRate == r.shippingCostAED;
    assert xq == r.shippingCostAED / r.exchangeRate;
  }

  /** A shown per-unit shipping hint, times the units `q`, plus the
      customs increment on the profit-inclusive price `f`·(1 + pm/100), is
      the Dubai formula's shipping and customs cost. */
  predicate ShippingHintMatches(hint: Option<real>, f: real, q: int, r: DubaiRates) {
    && r.exchangeRate != 0.0
    && (hint.Some? ==>
          hint.value * q as real + f * Multiplier(r.profitMargin) * r.customsDutyRate / 100.0
            == DubaiPricing(f, r).shippingAndCustomsCostUSD)
  }

  /** With the rates the gate accepts, the three hints agree with the
      Dubai formulas: the profit hint is the factory cost plus the gross
      profit; the customs hint is the price after profit and customs, and is
      shown exactly when that price is not 0; the per-unit shipping hint,
      times the units, plus the customs increment is the shipping and
      customs cost. */
  lemma HintsMatchPricing(f: real, q: int, r: DubaiRates)
    requires r.exchangeRate != 0.0
    ensures var h := HintValues(f, q, Some(r.profitMargin), Some(r.customsDutyRate), Some(r.shippingCostAED), Some(r.exchangeRate));
      && (h.profitHint.Some? ==> h.profitHint.value.usd == f + DubaiPricing(f, r).grossProfitUSD)
      && (h.customsHint.Some? <==> DubaiPriceAfterProfitAndCustoms(f, r) != 0.0)
      && (h.customsHint.Some? ==> h.customsHint.value.usd == DubaiPriceAfterProfitAndCustoms(f, r))
      && ShippingHintMatches(h.shippingHint, f, q, r)
  {
    ProfitHintMatchesEngine(f, r);
    CustomsHintMatchesEngine(f, r);
    var withProfit := f * Multiplier(r.profitMargin);
    if withProfit == 0.0 {
      assert withProfit * Multiplier(r.customsDutyRate) == 0.0;
    }
    if q > 0 {
      ShippingHintMatchesEngine(f, q, r);
    }
  }

  /** Whenever the gate accepts, the hints agree with the engine. */
  lemma HintsMatchEngine(d: DubaiInputs)
    requires CheckedDubaiGate(d).Some?
    ensures var r := CheckedDubaiGate(d).value;
      var f := FactoryCost(d.products);
      var h := CalculationHints(d);
      && (h.profitHint.Some? ==> h.profitHint.value.usd == f + DubaiPricing(f, r).grossProfitUSD)
      && (h.customsHint.Some? <==> DubaiPriceAfterProfitAndCustoms(f, r) != 0.0)
      && (h.customsHint.Some? ==> h.customsHint.value.usd == DubaiPriceAfterProfitAndCustoms(f, r))
      && ShippingHintMatches(h.shippingHint, f, TotalQuantity(d.products), r)
  {
    var r := CheckedDubaiGate(d).value;
    var f := FactoryCost(d.products);
    var q := TotalQuantity(d.products);
    var h := CalculationHints(d);
    var g := HintValues(f, q, Some(r.profitMargin), Some(r.customsDutyRate), Some(r.shippingCostAED), Some(r.exchangeRate));
    assert h == g;
    HintsMatchPricing(f, q, r);
  }
}
