/** The data shapes shared by the form, the engine and the results view. */
module Types {

  /** Product ids are uuids in the application; here they are abstract
      values that are compared for equality only. */
  type Id = nat

  /** One product line as the form holds it: every field is the raw text
      of an input box. */
  datatype Product = Product(id: Id, name: string, quantity: string, price: string)

  /** The text fields of the Dubai (USD to AED) form. */
  datatype DubaiInputs = DubaiInputs(
    products: seq<Product>,
    profitMargin: string,
    customsDutyRate: string,
    fixedShippingCostAED: string,
    exchangeRate: string,
    melenRiskRate: string)

  /** The text fields of the Serbia (USD to RSD) parameters. */
  datatype SerbiaInputs = SerbiaInputs(
    products: seq<Product>,
    profitMargin: string,
    customsDutyRate: string,
    fixedShippingCostRSD: string,
    exchangeRateRSD: string,
    vatRate: string)

  datatype Country = Dubai | Serbia

  datatype CurrencyCode = AED | RSD

  /** One row of the per-product price allocation. */
  datatype BreakdownItem = BreakdownItem(name: string, factoryPrice: real, finalSalePrice: real)

  /** What a market formula returns: every result field except the
      breakdown and the total quantity, which the caller adds. */
  datatype CalculationCore = CalculationCore(
    totalFactoryCostUSD: real,
    totalSalePriceUSD: real,
    totalSalePriceSecondaryCurrency: real,
    secondaryCurrencyCode: CurrencyCode,
    grossProfitUSD: real,
    costIncreaseRate: real,
    totalExpenses: real,
    shippingAndCustomsCostUSD: real,
    perUnitGrossProfitUSD: real,
    totalGrossMarginUSD: real)

  /** The complete results record shown by the results view. */
  datatype CalculationResults = CalculationResults(
    totalFactoryCostUSD: real,
    totalSalePriceUSD: real,
    totalSalePriceSecondaryCurrency: real,
    secondaryCurrencyCode: CurrencyCode,
    grossProfitUSD: real,
    costIncreaseRate: real,
    totalExpenses: real,
    productBreakdown: seq<BreakdownItem>,
    shippingAndCustomsCostUSD: real,
    perUnitGrossProfitUSD: real,
    totalGrossMarginUSD: real,
    totalQuantity: int)

  /** The Dubai form's starting values; `id` is the uuid drawn at load time. */
  function InitialDubaiInputs(id: Id): DubaiInputs {
    DubaiInputs([Product(id, "Üçlü Koltuk", "1", "1700")], "25", "5", "2323.5", "3.673", "10")
  }

  /** The Serbia parameters' starting values. */
  function InitialSerbiaInputs(id: Id): SerbiaInputs {
    SerbiaInputs([Product(id, "Ofis Sandalyesi", "10", "150")], "30", "10", "55000", "109.5", "20")
  }
}
