# Export price calculator: a verified model of its pricing core

The application is a single-page export price calculator. The user enters
a product list (name, quantity, unit price, all as text) and the
configuration of one of two markets:

- Dubai: profit margin, customs duty, shipping in AED, the USD→AED rate and
  a risk surcharge;
- Serbia: profit margin, customs duty, shipping in RSD, the USD→RSD rate and
  VAT.

Calculate runs a validation gate, then the market's formula. The result is
completed with the total quantity, the per-unit gross profit and a
per-product allocation of the sale price. The results view shows the sale
figures in USD or in the market's currency and exports a CSV.

This project models that core in Dafny and proves its properties:

- `Numbers`: `parseInt`/`parseFloat` as prefix scanners returning `Option`
  (NaN is `None`).
- `Types`: the data shapes.
- `Aggregation`: the factory-cost and total-quantity sums, and their
  invariance under reordering.
- `Pricing`:
  - the two market formulas, stated as the cost decomposition they add up to;
  - the validation gate, together with the corrected gate the rest of the
    model uses (see Findings);
  - the per-unit profit;
  - the proportional breakdown, proved to distribute exactly the sale price;
  - `RunDubai`/`RunSerbia`, which proves every accepted results record
    well formed.
- `ProductEdits`: update by id, append and remove by id on the product
  list. Each is proved to touch only its target line, to keep ids distinct
  and to change the totals by exactly that line.
- `AppState`: the application component as a class. Its fields are the
  inputs of both markets, the active tab, the results and the loading flag.
  Each event handler is a method that changes the active market only.
- `InputForm`: the form validity rule, the Calculate button's enable rule,
  and the live hints. The hints are proved to agree with the Dubai engine.
- `Csv`:
  - the export's line layout;
  - the quoting of product names, with a CSV reader proved to recover any
    name;
  - the newline join, proved to split back into the lines.
- `ResultsView`: the unit and total sale figures in the selected currency,
  and the USD/secondary toggle as a class whose state returns to USD
  whenever results change.

Amounts are exact reals, so the identities the code relies on hold exactly.

## Model

| member | source | states |
|---|---|---|
| `Numbers.ParseInt` | App.tsx:85 | NaN exactly when no digit follows the optional sign; otherwise a value of the sign's direction |
| `Numbers.ParseIntReadsDigits` | App.tsx:85 | a sign, a run of digits and a non-digit rest parse to the signed decimal value of the digits |
| `Numbers.ParseFloat` | App.tsx:155 | NaN exactly when neither a digit nor a point followed by a digit comes after the optional sign; otherwise a value of the sign's direction |
| `Numbers.ParseFloatReadsDecimal` | App.tsx:155 | a sign, digits, a point, fraction digits and a non-digit rest parse to the signed value integer part + fraction/10^k |
| `Aggregation.FactoryCostIsSum` | App.tsx:85 | the left `reduce` of qty×price equals the plain sum of the line costs |
| `Aggregation.TotalQuantityIsSum` | App.tsx:169 | the left `reduce` of the parsed quantities equals their plain sum |
| `Aggregation.FactoryCostAppend` | App.tsx:85 | the factory cost of a concatenation is the sum of the two costs |
| `Aggregation.TotalQuantityAppend` | App.tsx:169 | the total quantity of a concatenation is the sum of the two quantities |
| `Aggregation.RemoveAt` | App.tsx:85 | dropping line i lowers the factory cost by its qty×price and the quantity by its parsed quantity |
| `Aggregation.ReorderInvariant` | App.tsx:154 | any permutation of the products (equal multisets) has the same factory cost and total quantity |
| `Aggregation.PositiveLine` | App.tsx:85 | a line with positive parsed quantity and price costs more than 0 |
| `Aggregation.PositiveLinesPositiveCost` | App.tsx:154-155 | all-positive lines give cost ≥ 0, cost > 0 when the list is non-empty, and at least one unit per line |
| `Pricing.CostIncreaseRate` | App.tsx:107 | positive factory cost: cost × (1 + rate/100) is the sale price; otherwise the rate is 0 |
| `Pricing.DubaiPricing` | App.tsx:87-112 | gross profit is F·pm/100 and shipping+customs is shipAED/xr plus customs on the profit-inclusive value. The sale is (F + profit + shipping + customs)·(1 + risk/100), the surcharge applied last. F + profit + expenses is the sale, margin is profit + expenses, the secondary total is sale·xr in AED, and per-unit profit is left 0 |
| `Pricing.CalculateDubai` | App.tsx:83-85 | the Dubai result's factory cost is the products' summed qty×price |
| `Pricing.SerbiaPricing` | App.tsx:119-145 | the same decomposition for Serbia with VAT applied last; the secondary total is sale·xr in RSD |
| `Pricing.CalculateSerbia` | App.tsx:115-117 | the Serbia result's factory cost is the products' summed qty×price |
| `Pricing.MarketsAgree` | App.tsx:94-96 | with the same rates (VAT in the place of risk), Serbia's result equals Dubai's except for the currency code, so the pre-VAT base equals the pre-risk total |
| `Pricing.DubaiGate` | App.tsx:154-159 | rejects exactly when the factory cost is 0 or a configuration string is empty or NaN; on acceptance every rate is that string's parse |
| `Pricing.SerbiaGate` | App.tsx:154-159 | the same for the Serbia inputs |
| `Pricing.GateAdmitsZeroRate` | App.tsx:155 | the gate as written accepts inputs whose exchange rate is "0" |
| `Pricing.CheckedDubaiGate` | App.tsx:155 | rejects exactly what the gate rejects plus an exchange rate of 0; what it accepts is the gate's result, with a non-zero rate |
| `Pricing.CheckedSerbiaGate` | App.tsx:155 | the same for Serbia's RSD rate |
| `Pricing.GateIgnoresProductText` | App.tsx:155 | the gate reads the products only through their factory cost |
| `Pricing.PerUnitGrossProfit` | App.tsx:170 | with units, per-unit profit times the units is the gross profit; without, it is 0 |
| `Pricing.Breakdown` | App.tsx:172-180 | one entry per product in input order, with its name and qty×price, and its sale price that share of the sale (0 when F is not positive) |
| `Pricing.BreakdownFactoryTotal` | App.tsx:173 | the entries' factory prices add up to the factory cost |
| `Pricing.AllocationProportional` | App.tsx:174 | allocated entries sum to their total factory price's share of the sale |
| `Pricing.AllocationSumsToSale` | App.tsx:172-180 | with a positive factory cost the allocated sale prices add up to the total sale price |
| `Pricing.AssembleResults` | App.tsx:182-187 | the record keeps every field of the market result, its total quantity is the summed quantities, its breakdown is the per-product breakdown in which each entry gets its cost share of the sale price, and its per-unit profit times the units is the gross profit (0 without units) |
| `Pricing.AssembleTotals` | App.tsx:182-187 | the completed record's totals add up |
| `Pricing.AssembleRates` | App.tsx:169-170 | the completed record's per-unit profit and cost-increase rate agree with its totals |
| `Pricing.AssembleBreakdown` | App.tsx:172-187 | the completed record's breakdown has one entry per product with its name and qty×price; each entry gets its cost share of the sale price, and together they hand out the whole sale price |
| `Pricing.AssembleWellFormed` | App.tsx:182-187 | a completed market result has all three properties |
| `Pricing.RunDubai` | App.tsx:148-191 | no result exactly when the corrected gate rejects; otherwise a well-formed record carrying the Dubai formulas' fields |
| `Pricing.RunSerbia` | App.tsx:148-191 | the same for the Serbia tab |
| `ProductEdits.UpdateProduct` | App.tsx:58 | same length and ids; lines with another id unchanged; lines with the id get the new field value |
| `ProductEdits.RenameKeepsTotals` | App.tsx:58 | renaming changes neither the factory cost nor the total quantity |
| `ProductEdits.UpdateUnique` | App.tsx:58 | with distinct ids, the update replaces exactly line k and keeps all others in place |
| `ProductEdits.UpdateCost` | App.tsx:58 | with distinct ids, the factory cost moves by the new line cost minus the old, and the total quantity by the new parsed quantity minus the old |
| `ProductEdits.AppendBlank` | App.tsx:68 | the old list followed by one product with empty name and price and quantity "1" |
| `ProductEdits.AppendBlankTotals` | App.tsx:68 | appending adds nothing to the factory cost and one unit to the quantity |
| `ProductEdits.AppendKeepsDistinct` | App.tsx:68 | a fresh id keeps the ids distinct |
| `ProductEdits.RemoveById` | App.tsx:78 | no kept product has the id, and the list does not grow |
| `ProductEdits.RemoveKeepsOthers` | App.tsx:78 | every product with another id is kept |
| `ProductEdits.RemoveAbsent` | App.tsx:78 | removing an id no product has changes nothing |
| `ProductEdits.RemoveUnique` | App.tsx:78 | with distinct ids, removing line k's id drops exactly line k and keeps the order of the rest |
| `ProductEdits.RemoveTotals` | App.tsx:78 | removal lowers the cost and the quantity by exactly the removed line's |
| `ProductEdits.RemoveKeepsDistinct` | App.tsx:78 | removal keeps the ids distinct |
| `AppState.SetDubaiConfig` | App.tsx:42-51 | sets exactly the named configuration string; the products are unchanged |
| `AppState.SetSerbiaConfig` | App.tsx:42-51 | the same on the Serbia inputs |
| `AppState.App.constructor` | App.tsx:10-35 | both markets start at their initial inputs, with the Dubai tab, no results and no loading |
| `AppState.App.SetActiveCountry` | App.tsx:33 | changes the tab only |
| `AppState.App.HandleInputChange` | App.tsx:42-51 | sets one configuration string of the active market; the other market, the results and the flag are unchanged |
| `AppState.App.HandleProductChange` | App.tsx:53-61 | the active list becomes its update by id; ids stay distinct; nothing else changes |
| `AppState.App.AddProduct` | App.tsx:63-71 | the active list gains one blank product with the fresh id; nothing else changes |
| `AppState.App.RemoveProduct` | App.tsx:73-81 | the active list loses the products with the id; nothing else changes |
| `AppState.App.HandleCalculate` | App.tsx:148-191 | a rejection keeps the old results; otherwise the results become the active market's well-formed record. The inputs are untouched and loading ends false |
| `AppState.App.HandleReset` | App.tsx:193-199 | restores the active market's initial inputs and clears the results |
| `InputForm.IsFormValid` | InputForm.tsx:38 | every line of a valid form enters the engine's sums with a positive parsed quantity and price |
| `InputForm.CalculateEnabled` | InputForm.tsx:159 | never enabled while loading; otherwise enabled exactly when the form is valid |
| `InputForm.ValidFormPassesCostCheck` | InputForm.tsx:38 | a valid non-empty form has a positive factory cost and at least one unit per line, so the gate rejects it only for its configuration strings |
| `InputForm.EmptyFormEnabledButRejected` | InputForm.tsx:159 | an empty product list enables Calculate (the `every` holds vacuously) yet the gate rejects it |
| `InputForm.PerUnitShipping` | InputForm.tsx:56 | present exactly when shipping parses and there are units; times the units and the rate it is the shipping cost |
| `InputForm.HintValues` | InputForm.tsx:48-61 | an unparsable or zero exchange rate gives no hints at all; a profit hint needs a parsed margin, a customs hint a profit hint and a parsed duty, a shipping hint a parsed shipping cost and units |
| `InputForm.CalculationHints` | InputForm.tsx:40-48 | the same conditions stated on the form's own text fields and product list |
| `InputForm.HintsShown` | InputForm.tsx:50-61 | with a usable rate, each hint is shown exactly when its value is defined and non-zero, with its USD and AED values |
| `InputForm.HintsMatchPricing` | InputForm.tsx:48-61 | with the rates the gate accepts, the profit hint is F plus the engine's gross profit, the customs hint is Dubai's price after profit and customs (shown exactly when that is non-zero), and the shipping hint times the units plus the customs increment is the engine's shipping and customs cost |
| `InputForm.ProfitHintMatchesEngine` | InputForm.tsx:50 | the profit hint's USD amount is the factory cost plus the Dubai engine's gross profit |
| `InputForm.CustomsHintMatchesEngine` | InputForm.tsx:53 | the customs hint is present exactly when the profit-inclusive price is non-zero, and its amount is the engine's price after profit and customs |
| `InputForm.ShippingHintMatchesEngine` | InputForm.tsx:56 | with units, the per-unit shipping hint times the units plus the customs increment is the engine's shipping and customs cost |
| `InputForm.HintsMatchEngine` | InputForm.tsx:40-63 | for any inputs the corrected gate accepts, the form's profit, customs and shipping hints agree with the engine on those inputs, as in `HintsMatchPricing` |
| `Csv.SplitJoin` | ResultsDisplay.tsx:125-130 | splitting a newline join at newlines gives the lines back when no line holds a newline |
| `Csv.Join` | ResultsDisplay.tsx:125-130 | the empty list joins to the empty text; otherwise the text starts with the first field, followed by the separator when there are more |
| `Csv.EscapeLength` | ResultsDisplay.tsx:120 | escaping lengthens the text by exactly the number of quotes it holds |
| `Csv.QuoteName` | ResultsDisplay.tsx:120 | the cell starts and ends with a quote, and a CSV reader reads it back as exactly the name |
| `Csv.ReadEscaped` | ResultsDisplay.tsx:120 | a CSV reader turns the escaped name and a closing quote back into the name |
| `Csv.QuoteNameRoundTrip` | ResultsDisplay.tsx:120 | reading the quoted name cell recovers the name, commas and quotes included, and leaves the rest of the line |
| `Csv.CsvLines` | ResultsDisplay.tsx:107-130 | 10 + n lines for n breakdown entries: the title first, blank lines second and ninth |
| `Csv.CsvHead` | ResultsDisplay.tsx:107-118 | 10 + n lines. The first ten are title, blank, factory cost, shipping+customs, per-unit profit, gross profit, margin and margin (%), each as label,number, then a blank line and the three-column header |
| `Csv.CsvBody` | ResultsDisplay.tsx:119-129 | line 10 + i is breakdown entry i: quoted name, factory price, sale price |
| `Csv.BreakdownLineReadsBack` | ResultsDisplay.tsx:119-123 | reading line 10 + i back gives entry i's name and then its two price cells |
| `Csv.ExportCsv` | ResultsDisplay.tsx:104-132 | no file without results; otherwise text starting with the byte-order mark |
| `Csv.LinesOnOneLine` | ResultsDisplay.tsx:125-130 | no export line holds a newline when labels, names and number texts hold none |
| `Csv.ExportSplitsIntoLines` | ResultsDisplay.tsx:125-132 | the exported text after the byte-order mark splits back into exactly the lines |
| `ResultsView.TotalSaleShown` | ResultsDisplay.tsx:239-242 | in USD exactly in USD mode, as the USD total; otherwise the secondary total in the result's currency |
| `ResultsView.UnitSaleShown` | ResultsDisplay.tsx:228-242 | with units, the shown unit price has the total's currency and times the units is the shown total; without units it is 0 in USD in either mode |
| `ResultsView.SecondaryConverted` | ResultsDisplay.tsx:240-242 | when the secondary total is USD total × rate, the secondary figures are the USD figures × rate in the result's currency |
| `ResultsView.DubaiSecondaryIsConverted` | ResultsDisplay.tsx:240-242 | for Dubai results the secondary figures are the USD ones × xr, in AED |
| `ResultsView.SerbiaSecondaryIsConverted` | ResultsDisplay.tsx:240-242 | for Serbia results the secondary figures are the USD ones × xr, in RSD |
| `ResultsView.ValidFormShowsUnitPrice` | ResultsDisplay.tsx:228-230 | results of a valid Dubai form have at least one unit per line, so the unit price is the total over the units |
| `ResultsView.ResultsPanel.constructor` | ResultsDisplay.tsx:44 | the toggle starts at USD |
| `ResultsView.ResultsPanel.SelectCurrency` | ResultsDisplay.tsx:215-218 | a button sets the toggle and nothing else |
| `ResultsView.ResultsPanel.ReceiveResults` | ResultsDisplay.tsx:46-48 | new results put the toggle back to USD |
| `ResultsView.ResultsPanel.ClearResults` | ResultsDisplay.tsx:46-48 | clearing the results leaves the toggle at USD |
| `ResultsView.ResultsPanel.Shown` | ResultsDisplay.tsx:190-242 | figures are shown exactly when there are results; they are the results' unit and total sale figures for the toggle's currency, in USD while the toggle is USD |

## Left out

- IEEE-754 arithmetic: amounts are exact reals. Rounding, Infinity and NaN arising from arithmetic are not modelled. The source divides by a zero exchange rate (see Findings); the model rejects that input instead.
- `parseInt`/`parseFloat`: only an optional sign, decimal digits and a fraction are read. Leading white space, exponents, `Infinity` and other radices are not modelled.
- Pricing.DubaiPricing: requires a non-zero exchange rate, which the source does not demand of its callers. The model's callers reach it only through the corrected gate.
- Pricing.CalculateDubai: requires a non-zero exchange rate, for the same reason.
- Pricing.SerbiaPricing: requires a non-zero RSD rate, for the same reason.
- Pricing.CalculateSerbia: requires a non-zero RSD rate, for the same reason.
- Pricing.MarketsAgree: requires both rates non-zero, for the same reason.
- The trash button is disabled while one product is left (InputForm.tsx:191). `RemoveProduct` has no such guard, so the model can reach an empty product list that the form cannot; `InputForm.EmptyFormEnabledButRejected` is about that state.
- Aggregation.FactoryCost and Aggregation.TotalQuantity carry no ensures of their own; their properties are the `IsSum`, `Append` and `RemoveAt` lemmas.
- The 500 ms `setTimeout` in `handleCalculate` and the loading spinner: the handler is modelled as one synchronous step. Its stale-closure behaviour is not modelled.
- The alert on rejection is I/O; rejection is modelled as keeping the previous results.
- uuid generation: ids are abstract values passed in. `AddProduct` requires the new id to be fresh, as uuids are.
- The Serbia tab renders no form (InputForm.tsx:93-100). `HandleInputChange` therefore takes the field by its role (margin, duty, shipping, rate, surcharge/VAT), not by a DOM name.
- The language toggle and the translation lookup: the CSV labels are a `Labels` record parameter.
- `Intl.NumberFormat`, `toFixed` and the number-to-text conversion of `join`: a `num` parameter.
- The hint strings are modelled as the amounts they format.
- The PDF export (jsPDF, its page cursor), the Blob/DOM download, html2canvas and `navigator.share`: foreign libraries and I/O.
- The pie chart, the icons and all JSX layout: presentation without logic.
- ResultsView.ResultsPanel.ReceiveResults: React compares results by object identity. Every calculation makes a new object, so every arrival resets the toggle. The model treats each arrival as new.

## Findings

| source | as written | input that shows it | evidently intended | confidence | as-written member | corrected member |
|---|---|---|---|---|---|---|
| App.tsx:155 | the gate rejects empty and NaN configuration strings but accepts an exchange rate of "0", and `calculateDubai`/`calculateSerbia` then divide the shipping cost by it (App.tsx:93, App.tsx:125) | one product with quantity "1" and price "1", every configuration string "0" | reject a zero exchange rate, as the form's hints already do (InputForm.tsx:48) | medium, not executed | `Pricing.GateAdmitsZeroRate` | `Pricing.CheckedDubaiGate` |

The corrected gates (`Pricing.CheckedDubaiGate`, `Pricing.CheckedSerbiaGate`) are what `Pricing.RunDubai`, `Pricing.RunSerbia` and `AppState.App.HandleCalculate` use.
