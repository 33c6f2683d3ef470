/** The final-sale panel of the results view: the unit sale price and the
    total revenue in the currency the USD / secondary toggle selects, and
    the toggle's state, which goes back to USD whenever new results
    arrive. */
module ResultsView {
  import opened Numbers
  import opened Types
  import opened Aggregation
  import opened Pricing
  import opened InputForm

  /** `displayCurrency`: `'USD'` or `'SECONDARY'`. */
  datatype DisplayMode = ShowUsd | ShowSecondary

  /** The currency an amount is formatted in. */
  datatype Currency = Usd | Secondary(code: CurrencyCode)

  /** An amount with the currency it is shown in. */
  datatype Money = Money(amount: real, currency: Currency)

  /** The "total sale revenue" figure: the USD total, or the secondary
      total in the result's own currency. */
  function TotalSaleShown(res: CalculationResults, mode: DisplayMode): (m: Money)
    ensures m.currency == Usd <==> mode == ShowUsd
    ensures m.currency == Usd ==> m.amount == res.totalSalePriceUSD
    ensures m.currency != Usd ==> m == Money(res.totalSalePriceSecondaryCurrency, Secondary(res.secondaryCurrencyCode))
  {
    if mode == ShowUsd then Money(res.totalSalePriceUSD, Usd)
    else Money(res.totalSalePriceSecondaryCurrency, Secondary(res.secondaryCurrencyCode))
  }

  /** The "unit sale price" figure: the selected total over the units when
      there are any, else 0 formatted in USD.  With units, the unit price
      is in the same currency as the total and times the units gives the
      total back; without units it is 0 in USD, whatever the toggle says. */
  function UnitSaleShown(res: CalculationResults, mode: DisplayMode): (m: Money)
    ensures res.totalQuantity > 0 ==> m.currency == TotalSaleShown(res, mode).currency
    ensures res.totalQuantity > 0 ==> m.amount * res.totalQuantity as real == TotalSaleShown(res, mode).amount
    ensures res.totalQuantity <= 0 ==> m == Money(0.0, Usd)
  {
    if res.totalQuantity > 0 then
      if mode == ShowUsd then Money(res.totalSalePriceUSD / res.totalQuantity as real, Usd)
      else Money(res.totalSalePriceSecondaryCurrency / res.totalQuantity as real, Secondary(res.secondaryCurrencyCode))
    else Money(0.0, Usd)
  }

  /** A results record whose secondary total is the USD total converted at
      `rate` shows its secondary figures as the USD figures converted. */
  lemma SecondaryConverted(res: CalculationResults, rate: real)
    requires res.totalSalePriceSecondaryCurrency == res.totalSalePriceUSD * rate
    ensures TotalSaleShown(res, ShowSecondary)
      == Money(TotalSaleShown(res, ShowUsd).amount * rate, Secondary(res.secondaryCurrencyCode))
    ensures res.totalQuantity > 0 ==>
      UnitSaleShown(res, ShowSecondary)
        == Money(UnitSaleShown(res, ShowUsd).amount * rate, Secondary(res.secondaryCurrencyCode))
  {
    if res.totalQuantity > 0 {
      var q := res.totalQuantity as real;
      assert (res.totalSalePriceUSD * rate) / q == (res.totalSalePriceUSD / q) * rate;
    }
  }

  /** For Dubai results (a record spreading the Dubai formulas' result,
      as `RunDubai` gives), the secondary figures are the USD figures
      converted at the exchange rate and shown in AED. */
  lemma DubaiSecondaryIsConverted(res: CalculationResults, f: real, r: DubaiRates)
    requires r.exchangeRate != 0.0 && Spreads(res, DubaiPricing(f, r))
    ensures TotalSaleShown(res, ShowSecondary) == Money(TotalSaleShown(res, ShowUsd).amount * r.exchangeRate, Secondary(AED))
    ensures res.totalQuantity > 0 ==>
      UnitSaleShown(res, ShowSecondary) == Money(UnitSaleShown(res, ShowUsd).amount * r.exchangeRate, Secondary(AED))
  {
    SecondaryConverted(res, r.exchangeRate);
  }

  /** For Serbia results, the same in RSD. */
  lemma SerbiaSecondaryIsConverted(res: CalculationResults, f: real, r: SerbiaRates)
    requires r.exchangeRateRSD != 0.0 && Spreads(res, SerbiaPricing(f, r))
    ensures TotalSaleShown(res, ShowSecondary) == Money(TotalSaleShown(res, ShowUsd).amount * r.exchangeRateRSD, Secondary(RSD))
    ensures res.totalQuantity > 0 ==>
      UnitSaleShown(res, ShowSecondary) == Money(UnitSaleShown(res, ShowUsd).amount * r.exchangeRateRSD, Secondary(RSD))
  {
    SecondaryConverted(res, r.exchangeRateRSD);
  }

  /** Results of a valid Dubai form always have units, so the unit price
      is never the zero fallback: it is the USD total over the units. */
  lemma ValidFormShowsUnitPrice(d: DubaiInputs)
    requires IsFormValid(d.products) && RunDubai(d).Some?
    ensures var res := RunDubai(d).value;
      && res.totalQuantity >= |d.products| > 0
      && UnitSaleShown(res, ShowUsd) == Money(res.totalSalePriceUSD / res.totalQuantity as real, Usd)
  {
    assert FactoryCost(d.products) != 0.0;
    ValidFormPassesCostCheck(d);
  }

  /** The final-sale panel's state: the results it was given and the
      toggle. */
  class ResultsPanel {
    var results: Option<CalculationResults>
    var displayCurrency: DisplayMode

    /** Without results no toggle is rendered, and the toggle is USD. */
    predicate Valid()
      reads this
    {
      results.None? ==> displayCurrency == ShowUsd
    }

    /** Mounting: `useState('USD')`. */
    constructor(initial: Option<CalculationResults>)
      ensures Valid()
      ensures results == initial && displayCurrency == ShowUsd
    {
      results := initial;
      displayCurrency := ShowUsd;
    }

    /** The USD and secondary buttons, which exist only beside results. */
    method SelectCurrency(mode: DisplayMode)
      requires Valid() && results.Some?
      modifies this
      ensures Valid()
      ensures displayCurrency == mode && results == old(results)
    {
      displayCurrency := mode;
    }

    /** A new results object from a calculation: the effect on `[results]`
        puts the toggle back to USD. */
    method ReceiveResults(r: CalculationResults)
      modifies this
      ensures Valid()
      ensures results == Some(r) && displayCurrency == ShowUsd
    {
      results := Some(r);
      displayCurrency := ShowUsd;
    }

    /** A reset clears the results; the effect runs only if there were
        results, and either way the toggle ends at USD. */
    method ClearResults()
      requires Valid()
      modifies this
      ensures Valid()
      ensures results == None && displayCurrency == ShowUsd
    {
      if results.Some? {
        results := None;
        displayCurrency := ShowUsd;
      }
    }

    /** The two figures the panel shows, if it shows any. */
    function Shown(): (m: Option<(Money, Money)>)
      reads this
      ensures m.Some? <==> results.Some?
      ensures m.Some? && displayCurrency == ShowUsd ==> m.value.1.currency == Usd && m.value.0.currency == Usd
      ensures m.Some? ==> m.value.0 == UnitSaleShown(results.value, displayCurrency)
      ensures m.Some? ==> m.value.1 == TotalSaleShown(results.value, displayCurrency)
    {
      if results.None? then None
      else Some((UnitSaleShown(results.value, displayCurrency), TotalSaleShown(results.value, displayCurrency)))
    }
  }
}
