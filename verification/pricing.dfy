/** The pricing engine: the two market formulas, the validation gate in
    front of them, and the per-unit and per-product steps that complete a
    results record. */
module Pricing {
  import opened Numbers
  import opened Types
  import opened Aggregation

  /** The parsed configuration of the Dubai market (percentages as
      written: 25 means 25 %). */
  datatype DubaiRates = DubaiRates(
    profitMargin: real,
    customsDutyRate: real,
    shippingCostAED: real,
    exchangeRate: real,
    melenRiskRate: real)

  /** The parsed configuration of the Serbia market. */
  datatype SerbiaRates = SerbiaRates(
    profitMargin: real,
    customsDutyRate: real,
    shippingCostRSD: real,
    exchangeRateRSD: real,
    vatRate: real)

  /** `1 + percent / 100`. */
  function Multiplier(percent: real): real {
    1.0 + percent / 100.0
  }

  /** Percentage by which the sale price exceeds the factory cost, 0 unless
      the factory cost is positive. */
  function CostIncreaseRate(factoryCost: real, sale: real): (rate: real)
    ensures factoryCost > 0.0 ==> factoryCost * Multiplier(rate) == sale
    ensures factoryCost <= 0.0 ==> rate == 0.0
  {
    if factoryCost > 0.0 then (sale - factoryCost) / factoryCost * 100.0 else 0.0
  }

  /** Dubai's intermediate price: profit and customs compounded on the
      factory cost. */
  function DubaiPriceAfterProfitAndCustoms(factoryCost: real, r: DubaiRates): real {
    factoryCost * Multiplier(r.profitMargin) * Multiplier(r.customsDutyRate)
  }

  /** The formulas of `calculateDubai` after the factory cost is summed:
      profit and customs compounded, shipping added, the risk surcharge
      applied last to the whole running total. */
  function DubaiPricing(f: real, r: DubaiRates): (c: CalculationCore)
    requires r.exchangeRate != 0.0
    ensures c.totalFactoryCostUSD == f
    ensures c.grossProfitUSD == f * r.profitMargin / 100.0
    ensures c.shippingAndCustomsCostUSD
         == r.shippingCostAED / r.exchangeRate + f * Multiplier(r.profitMargin) * r.customsDutyRate / 100.0
    // the surcharge falls on cost + profit + customs + shipping together
    ensures c.totalSalePriceUSD
         == (f + c.grossProfitUSD + c.shippingAndCustomsCostUSD) * Multiplier(r.melenRiskRate)
    // everything that is not factory cost or profit is shipping, customs or risk
    ensures c.totalExpenses
         == c.shippingAndCustomsCostUSD
          + (f + c.grossProfitUSD + c.shippingAndCustomsCostUSD) * r.melenRiskRate / 100.0
    ensures f + c.grossProfitUSD + c.totalExpenses == c.totalSalePriceUSD
    ensures c.totalGrossMarginUSD == c.grossProfitUSD + c.totalExpenses
    ensures c.totalSalePriceSecondaryCurrency == c.totalSalePriceUSD * r.exchangeRate
    ensures c.secondaryCurrencyCode == AED
    ensures c.costIncreaseRate == CostIncreaseRate(f, c.totalSalePriceUSD)
    ensures c.perUnitGrossProfitUSD == 0.0
  {
    var pm := Multiplier(r.profitMargin);
    var cm := Multiplier(r.customsDutyRate);
    var rm := Multiplier(r.melenRiskRate);
    var shipping := r.shippingCostAED / r.exchangeRate;
    var afterProfitAndCustoms := DubaiPriceAfterProfitAndCustoms(f, r);
    var withShipping := afterProfitAndCustoms + shipping;
    var sale := withShipping * rm;
    var grossProfit := f * (pm - 1.0);
    var customs := f * pm * (cm - 1.0);
    assert afterProfitAndCustoms == f + grossProfit + customs by {
      assert f * pm * cm == f * pm + f * pm * (cm - 1.0);
      assert f * pm == f + f * (pm - 1.0);
    }
    CalculationCore(
      f, sale, sale * r.exchangeRate, AED, grossProfit,
      CostIncreaseRate(f, sale),
      sale - f - grossProfit,
      shipping + customs,
      0.0,
      sale - f)
  }

  /** `calculateDubai`: the Dubai formulas applied to the summed factory cost. */
  function CalculateDubai(ps: seq<Product>, r: DubaiRates): (c: CalculationCore)
    requires r.exchangeRate != 0.0
    ensures c.totalFactoryCostUSD == FactoryCost(ps)
  {
    DubaiPricing(FactoryCost(ps), r)
  }

  /** The formulas of `calculateSerbia` after the factory cost is summed:
      profit, plus the customs increment, plus shipping, with VAT applied
      last. */
  function SerbiaPricing(f: real, r: SerbiaRates): (c: CalculationCore)
    requires r.exchangeRateRSD != 0.0
    ensures c.totalFactoryCostUSD == f
    ensures c.grossProfitUSD == f * r.profitMargin / 100.0
    ensures c.shippingAndCustomsCostUSD
         == r.shippingCostRSD / r.exchangeRateRSD + f * Multiplier(r.profitMargin) * r.customsDutyRate / 100.0
    ensures c.totalSalePriceUSD
         == (f + c.grossProfitUSD + c.shippingAndCustomsCostUSD) * Multiplier(r.vatRate)
    // everything that is not factory cost or profit is shipping, customs or VAT
    ensures c.totalExpenses
         == c.shippingAndCustomsCostUSD
          + (f + c.grossProfitUSD + c.shippingAndCustomsCostUSD) * r.vatRate / 100.0
    ensures f + c.grossProfitUSD + c.totalExpenses == c.totalSalePriceUSD
    ensures c.totalGrossMarginUSD == c.grossProfitUSD + c.totalExpenses
    ensures c.totalSalePriceSecondaryCurrency == c.totalSalePriceUSD * r.exchangeRateRSD
    ensures c.secondaryCurrencyCode == RSD
    ensures c.costIncreaseRate == CostIncreaseRate(f, c.totalSalePriceUSD)
    ensures c.perUnitGrossProfitUSD == 0.0
  {
    var pm := Multiplier(r.profitMargin);
    var cm := Multiplier(r.customsDutyRate);
    var vm := Multiplier(r.vatRate);
    var shipping := r.shippingCostRSD / r.exchangeRateRSD;
    var priceWithProfit := f * pm;
    var customs := priceWithProfit * (cm - 1.0);
    var beforeVat := priceWithProfit + customs + shipping;
    var sale := beforeVat * vm;
    var grossProfit := f * (pm - 1.0);
    assert priceWithProfit == f + grossProfit;
    CalculationCore(
      f, sale, sale * r.exchangeRateRSD, RSD, grossProfit,
      CostIncreaseRate(f, sale),
      sale - f - grossProfit,
      shipping + customs,
      0.0,
      sale - f)
  }

  /** `calculateSerbia`: the Serbia formulas applied to the summed factory cost. */
  function CalculateSerbia(ps: seq<Product>, r: SerbiaRates): (c: CalculationCore)
    requires r.exchangeRateRSD != 0.0
    ensures c.totalFactoryCostUSD == FactoryCost(ps)
  {
    SerbiaPricing(FactoryCost(ps), r)
  }

  /** Over exact numbers the two formulas agree: Serbia's pre-VAT base
      equals Dubai's pre-risk total, so with the same rates (VAT in the
      place of the risk surcharge) only the currency code differs. */
  lemma MarketsAgree(f: real, d: DubaiRates, s: SerbiaRates)
    requires d.exchangeRate != 0.0
    requires s == SerbiaRates(d.profitMargin, d.customsDutyRate, d.shippingCostAED,
                              d.exchangeRate, d.melenRiskRate)
    ensures SerbiaPricing(f, s) == DubaiPricing(f, d).(secondaryCurrencyCode := RSD)
  {
  }

  // ---------------------------------------------------------------------
  // The validation gate of `handleCalculate`

  /** The configuration strings of the Dubai inputs, as `Object.values`
      yields them (the products array is not a string and is skipped). */
  function DubaiConfig(d: DubaiInputs): seq<string> {
    [d.profitMargin, d.customsDutyRate, d.fixedShippingCostAED, d.exchangeRate, d.melenRiskRate]
  }

  function SerbiaConfig(s: SerbiaInputs): seq<string> {
    [s.profitMargin, s.customsDutyRate, s.fixedShippingCostRSD, s.exchangeRateRSD, s.vatRate]
  }

  /** `v === '' || isNaN(parseFloat(v))` does not hold of a field. */
  predicate FieldOk(v: string) {
    v != "" && ParseFloat(v).Some?
  }

  /** No configuration string is empty or NaN under `parseFloat`. */
  predicate ConfigOk(fields: seq<string>) {
    forall i :: 0 <= i < |fields| ==> FieldOk(fields[i])
  }

  lemma FiveFields(fields: seq<string>)
    requires |fields| == 5
    ensures ConfigOk(fields) <==>
      FieldOk(fields[0]) && FieldOk(fields[1]) && FieldOk(fields[2]) && FieldOk(fields[3]) && FieldOk(fields[4])
  {
  }

  /** The gate for the Dubai market: it lets the calculation run, with the
      parsed rates, exactly when the factory cost is not 0 and every
      configuration string is a number. */
  function DubaiGate(d: DubaiInputs): (g: Option<DubaiRates>)
    ensures g.None? <==> FactoryCost(d.products) == 0.0 || !ConfigOk(DubaiConfig(d))
    ensures g.Some? ==>
      && ParseFloat(d.profitMargin) == Some(g.value.profitMargin)
      && ParseFloat(d.customsDutyRate) == Some(g.value.customsDutyRate)
      && ParseFloat(d.fixedShippingCostAED) == Some(g.value.shippingCostAED)
      && ParseFloat(d.exchangeRate) == Some(g.value.exchangeRate)
      && ParseFloat(d.melenRiskRate) == Some(g.value.melenRiskRate)
  {
    FiveFields(DubaiConfig(d));
    if FactoryCost(d.products) == 0.0
      || !FieldOk(d.profitMargin)
      || !FieldOk(d.customsDutyRate)
      || !FieldOk(d.fixedShippingCostAED)
      || !FieldOk(d.exchangeRate)
      || !FieldOk(d.melenRiskRate)
    then None
    else
      Some(DubaiRates(
        ParseFloat(d.profitMargin).value,
        ParseFloat(d.customsDutyRate).value,
        ParseFloat(d.fixedShippingCostAED).value,
        ParseFloat(d.exchangeRate).value,
        ParseFloat(d.melenRiskRate).value))
  }

  /** The gate for the Serbia market. */
  function SerbiaGate(s: SerbiaInputs): (g: Option<SerbiaRates>)
    ensures g.None? <==> FactoryCost(s.products) == 0.0 || !ConfigOk(SerbiaConfig(s))
    ensures g.Some? ==>
      && ParseFloat(s.profitMargin) == Some(g.value.profitMargin)
      && ParseFloat(s.customsDutyRate) == Some(g.value.customsDutyRate)
      && ParseFloat(s.fixedShippingCostRSD) == Some(g.value.shippingCostRSD)
      && ParseFloat(s.exchangeRateRSD) == Some(g.value.exchangeRateRSD)
      && ParseFloat(s.vatRate) == Some(g.value.vatRate)
  {
    FiveFields(SerbiaConfig(s));
    if FactoryCost(s.products) == 0.0
      || !FieldOk(s.profitMargin)
      || !FieldOk(s.customsDutyRate)
      || !FieldOk(s.fixedShippingCostRSD)
      || !FieldOk(s.exchangeRateRSD)
      || !FieldOk(s.vatRate)
    then None
    else
      Some(SerbiaRates(
        ParseFloat(s.profitMargin).value,
        ParseFloat(s.customsDutyRate).value,
        ParseFloat(s.fixedShippingCostRSD).value,
        ParseFloat(s.exchangeRateRSD).value,
        ParseFloat(s.vatRate).value))
  }

  /** The gate as written lets an exchange rate of "0" through: one unit at
      price 1 with every rate "0" is accepted, and the engine would then
      divide the shipping cost by 0. */
  lemma GateAdmitsZeroRate(id: Id)
    ensures var d := DubaiInputs([Product(id, "x", "1", "1")], "0", "0", "0", "0", "0");
      DubaiGate(d).Some? && DubaiGate(d).value.exchangeRate == 0.0
  {
    var d := DubaiInputs([Product(id, "x", "1", "1")], "0", "0", "0", "0", "0");
    assert ParseInt("1") == Some(1);
    assert ParseFloat("1") == Some(1.0);
    assert ParseFloat("0") == Some(0.0);
    assert d.products[..0] == [];
    assert FactoryCost(d.products) == 1.0;
    FiveFields(DubaiConfig(d));
  }

  /** The Dubai gate with the check the engine's divisions need: it also
      rejects an exchange rate that parses to 0. */
  function CheckedDubaiGate(d: DubaiInputs): (g: Option<DubaiRates>)
    ensures g.None? <==> DubaiGate(d).None? || ParseFloat(d.exchangeRate) == Some(0.0)
    ensures g.Some? ==> g == DubaiGate(d) && g.value.exchangeRate != 0.0
  {
    var g := DubaiGate(d);
    if g.Some? && g.value.exchangeRate != 0.0 then g else None
  }

  /** The Serbia gate with the same added check on the exchange rate. */
  function CheckedSerbiaGate(s: SerbiaInputs): (g: Option<SerbiaRates>)
    ensures g.None? <==> SerbiaGate(s).None? || ParseFloat(s.exchangeRateRSD) == Some(0.0)
    ensures g.Some? ==> g == SerbiaGate(s) && g.value.exchangeRateRSD != 0.0
  {
    var g := SerbiaGate(s);
    if g.Some? && g.value.exchangeRateRSD != 0.0 then g else None
  }

  /** The gate does not look at the product texts themselves, only at the
      factory cost they add up to: empty names, for one, pass. */
  lemma GateIgnoresProductText(d: DubaiInputs, ps: seq<Product>)
    requires FactoryCost(ps) == FactoryCost(d.products)
    ensures DubaiGate(d.(products := ps)) == DubaiGate(d)
  {
  }

  // ---------------------------------------------------------------------
  // Per-unit profit and the proportional breakdown

  function PerUnitGrossProfit(grossProfit: real, totalQuantity: int): (r: real)
    ensures totalQuantity > 0 ==> r * totalQuantity as real == grossProfit
    ensures totalQuantity <= 0 ==> r == 0.0
  {
    if totalQuantity > 0 then grossProfit / totalQuantity as real else 0.0
  }

  function BreakdownEntry(p: Product, factoryCost: real, sale: real): BreakdownItem {
    var itemFactoryPrice := LineCost(p);
    BreakdownItem(
      p.name, itemFactoryPrice,
      if factoryCost > 0.0 then itemFactoryPrice / factoryCost * sale else 0.0)
  }

  /** `products.map(...)`: one entry per product, in input order, with the
      product's name and factory price and, when the factory cost is
      positive, the product's share of the factory cost applied to the total
      sale price. */
  function Breakdown(ps: seq<Product>, factoryCost: real, sale: real): (b: seq<BreakdownItem>)
    ensures |b| == |ps|
    ensures forall i :: 0 <= i < |ps| ==>
      b[i].name == ps[i].name && b[i].factoryPrice == LineCost(ps[i])
    ensures forall i :: 0 <= i < |ps| ==> Allocated(b[i], factoryCost, sale)
  {
    seq(|ps|, i requires 0 <= i < |ps| => BreakdownEntry(ps[i], factoryCost, sale))
  }

  /** An entry's sale price is its factory price's share of the factory cost
      applied to the sale price, or 0 when the factory cost is not positive. */
  predicate Allocated(item: BreakdownItem, factoryCost: real, sale: real) {
    item.finalSalePrice == if factoryCost > 0.0 then item.factoryPrice / factoryCost * sale else 0.0
  }

  /** Sum of the allocated sale prices, folded from the left. */
  function TotalAllocated(b: seq<BreakdownItem>): real {
    if b == [] then 0.0 else TotalAllocated(b[..|b| - 1]) + b[|b| - 1].finalSalePrice
  }

  /** Sum of the entries' factory prices. */
  function TotalFactoryPrice(b: seq<BreakdownItem>): real {
    if b == [] then 0.0 else TotalFactoryPrice(b[..|b| - 1]) + b[|b| - 1].factoryPrice
  }

  /** The breakdown lists every line's factory price once. */
  lemma {:induction false} BreakdownFactoryTotal(ps: seq<Product>, factoryCost: real, sale: real)
    ensures TotalFactoryPrice(Breakdown(ps, factoryCost, sale)) == FactoryCost(ps)
    decreases |ps|
  {
    if ps != [] {
      var n := |ps| - 1;
      assert Breakdown(ps, factoryCost, sale)[..n] == Breakdown(ps[..n], factoryCost, sale);
      BreakdownFactoryTotal(ps[..n], factoryCost, sale);
    }
  }

  /** When every entry is allocated its share, the allocations add up to the
      share of the total factory price. */
  lemma {:induction false} AllocationProportional(b: seq<BreakdownItem>, factoryCost: real, sale: real)
    requires factoryCost > 0.0
    requires forall i :: 0 <= i < |b| ==> Allocated(b[i], factoryCost, sale)
    ensures TotalAllocated(b) == TotalFactoryPrice(b) / factoryCost * sale
    decreases |b|
  {
    if b != [] {
      var n := |b| - 1;
      assert Allocated(b[n], factoryCost, sale);
      AllocationProportional(b[..n], factoryCost, sale);
      SharesAdd(TotalFactoryPrice(b[..n]), b[n].factoryPrice, factoryCost, sale);
    }
  }

  lemma SharesAdd(a: real, b: real, f: real, s: real)
    requires f != 0.0
    ensures a / f * s + b / f * s == (a + b) / f * s
  {
    assert (a + b) / f == a / f + b / f;
  }

  /** The whole factory cost's share is the whole sale price. */
  lemma WholeShare(share: real, total: real, f: real, s: real)
    requires f != 0.0 && total == f && share == total / f * s
    ensures share == s
  {
    assert f / f == 1.0;
  }

  /** When the factory cost is positive the breakdown distributes exactly the
      total sale price. */
  lemma AllocationSumsToSale(ps: seq<Product>, sale: real)
    requires FactoryCost(ps) > 0.0
    ensures TotalAllocated(Breakdown(ps, FactoryCost(ps), sale)) == sale
  {
    var f := FactoryCost(ps);
    var b := Breakdown(ps, f, sale);
    AllocationProportional(b, f, sale);
    BreakdownFactoryTotal(ps, f, sale);
    WholeShare(TotalAllocated(b), TotalFactoryPrice(b), f, sale);
  }

  /** The caller's completion of a market result: total quantity, per-unit
      profit and the breakdown. */
  function AssembleResults(c: CalculationCore, ps: seq<Product>): (r: CalculationResults)
    ensures Spreads(r, c)
    ensures r.totalQuantity == TotalQuantity(ps) && |r.productBreakdown| == |ps|
    ensures r.productBreakdown == Breakdown(ps, FactoryCost(ps), c.totalSalePriceUSD)
    ensures r.totalQuantity > 0 ==> r.perUnitGrossProfitUSD * r.totalQuantity as real == c.grossProfitUSD
    ensures r.totalQuantity <= 0 ==> r.perUnitGrossProfitUSD == 0.0
  {
    var totalQuantity := TotalQuantity(ps);
    CalculationResults(
      c.totalFactoryCostUSD, c.totalSalePriceUSD, c.totalSalePriceSecondaryCurrency,
      c.secondaryCurrencyCode, c.grossProfitUSD, c.costIncreaseRate, c.totalExpenses,
      Breakdown(ps, FactoryCost(ps), c.totalSalePriceUSD),
      c.shippingAndCustomsCostUSD,
      PerUnitGrossProfit(c.grossProfitUSD, totalQuantity),
      c.totalGrossMarginUSD,
      totalQuantity)
  }

  /** The totals of a results record add up: factory cost and quantity are
      the products' sums, and the sale price is factory cost plus gross
      profit plus expenses. */
  predicate TotalsAddUp(res: CalculationResults, ps: seq<Product>) {
    && res.totalFactoryCostUSD == FactoryCost(ps)
    && res.totalQuantity == TotalQuantity(ps)
    && res.totalFactoryCostUSD + res.grossProfitUSD + res.totalExpenses == res.totalSalePriceUSD
    && res.totalGrossMarginUSD == res.totalSalePriceUSD - res.totalFactoryCostUSD
  }

  /** Per-unit profit spreads the gross profit over the units, and the cost
      increase rate is the markup of the sale price over the factory cost. */
  predicate RatesConsistent(res: CalculationResults) {
    && (res.totalQuantity > 0 ==> res.perUnitGrossProfitUSD * res.totalQuantity as real == res.grossProfitUSD)
    && (res.totalQuantity <= 0 ==> res.perUnitGrossProfitUSD == 0.0)
    && (res.totalFactoryCostUSD > 0.0 ==>
          res.totalFactoryCostUSD * Multiplier(res.costIncreaseRate) == res.totalSalePriceUSD)
    && (res.totalFactoryCostUSD <= 0.0 ==> res.costIncreaseRate == 0.0)
  }

  /** The breakdown has one entry per product, in order, each allocated its
      factory price's share of the sale price, and hands out the whole sale
      price (nothing when the factory cost is not positive). */
  predicate BreakdownConsistent(res: CalculationResults, ps: seq<Product>) {
    && |res.productBreakdown| == |ps|
    && (forall i :: 0 <= i < |ps| ==>
          res.productBreakdown[i].name == ps[i].name
          && res.productBreakdown[i].factoryPrice == LineCost(ps[i]))
    && (forall i :: 0 <= i < |ps| ==>
          Allocated(res.productBreakdown[i], res.totalFactoryCostUSD, res.totalSalePriceUSD))
    && (res.totalFactoryCostUSD > 0.0 ==> TotalAllocated(res.productBreakdown) == res.totalSalePriceUSD)
    && (res.totalFactoryCostUSD <= 0.0 ==>
          forall i :: 0 <= i < |ps| ==> res.productBreakdown[i].finalSalePrice == 0.0)
  }

  /** The properties every complete results record of either market has. */
  predicate WellFormed(res: CalculationResults, ps: seq<Product>) {
    TotalsAddUp(res, ps) && RatesConsistent(res) && BreakdownConsistent(res, ps)
  }

  /** What a market result must satisfy for its completion to be well formed. */
  predicate CoreAddsUp(c: CalculationCore, ps: seq<Product>) {
    && c.totalFactoryCostUSD == FactoryCost(ps)
    && c.totalFactoryCostUSD + c.grossProfitUSD + c.totalExpenses == c.totalSalePriceUSD
    && c.totalGrossMarginUSD == c.grossProfitUSD + c.totalExpenses
    && c.costIncreaseRate == CostIncreaseRate(c.totalFactoryCostUSD, c.totalSalePriceUSD)
  }

  lemma AssembleTotals(c: CalculationCore, ps: seq<Product>)
    requires CoreAddsUp(c, ps)
    ensures TotalsAddUp(AssembleResults(c, ps), ps)
  {
  }

  lemma AssembleRates(c: CalculationCore, ps: seq<Product>)
    requires CoreAddsUp(c, ps)
    ensures RatesConsistent(AssembleResults(c, ps))
  {
  }

  lemma AssembleBreakdown(c: CalculationCore, ps: seq<Product>)
    requires CoreAddsUp(c, ps)
    ensures BreakdownConsistent(AssembleResults(c, ps), ps)
  {
    if FactoryCost(ps) > 0.0 {
      AllocationSumsToSale(ps, c.totalSalePriceUSD);
    }
  }

  /** A market result completed by `AssembleResults` has every property of a
      complete results record, provided the market result adds up. */
  lemma AssembleWellFormed(c: CalculationCore, ps: seq<Product>)
    requires CoreAddsUp(c, ps)
    ensures WellFormed(AssembleResults(c, ps), ps)
  {
    AssembleTotals(c, ps);
    AssembleRates(c, ps);
    AssembleBreakdown(c, ps);
  }

  /** The results record spreads the market result and overrides only the
      per-unit profit, adding the breakdown and the total quantity. */
  predicate Spreads(res: CalculationResults, c: CalculationCore) {
    && res.totalFactoryCostUSD == c.totalFactoryCostUSD
    && res.totalSalePriceUSD == c.totalSalePriceUSD
    && res.totalSalePriceSecondaryCurrency == c.totalSalePriceSecondaryCurrency
    && res.secondaryCurrencyCode == c.secondaryCurrencyCode
    && res.grossProfitUSD == c.grossProfitUSD
    && res.costIncreaseRate == c.costIncreaseRate
    && res.totalExpenses == c.totalExpenses
    && res.shippingAndCustomsCostUSD == c.shippingAndCustomsCostUSD
    && res.totalGrossMarginUSD == c.totalGrossMarginUSD
  }

  /** `handleCalculate` on the Dubai tab, without its state updates: `None`
      when the gate rejects, otherwise the Dubai formulas' result completed
      into a well-formed results record. */
  function RunDubai(d: DubaiInputs): (out: Option<CalculationResults>)
    ensures out.None? <==> CheckedDubaiGate(d).None?
    ensures out.Some? ==> WellFormed(out.value, d.products)
    ensures out.Some? ==> Spreads(out.value, DubaiPricing(FactoryCost(d.products), CheckedDubaiGate(d).value))
  {
    match CheckedDubaiGate(d)
    case None => None
    case Some(rates) =>
      var c := CalculateDubai(d.products, rates);
      AssembleWellFormed(c, d.products);
      Some(AssembleResults(c, d.products))
  }

  /** `handleCalculate` on the Serbia tab, without its state updates. */
  function RunSerbia(s: SerbiaInputs): (out: Option<CalculationResults>)
    ensures out.None? <==> CheckedSerbiaGate(s).None?
    ensures out.Some? ==> WellFormed(out.value, s.products)
    ensures out.Some? ==> Spreads(out.value, SerbiaPricing(FactoryCost(s.products), CheckedSerbiaGate(s).value))
  {
    match CheckedSerbiaGate(s)
    case None => None
    case Some(rates) =>
      var c := CalculateSerbia(s.products, rates);
      AssembleWellFormed(c, s.products);
      Some(AssembleResults(c, s.products))
  }
}
