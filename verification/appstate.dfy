/** The application component's state and its event handlers: both
    markets' inputs, the active tab, the last results and the loading flag.
    Every handler edits only the active market's inputs. */
module AppState {
  import opened Numbers
  import opened Types
  import opened Pricing
  import opened ProductEdits

  /** The configuration inputs, by their place in the form (the Serbia
      market has the same five, with RSD shipping and rate and VAT in
      place of the surcharge). */
  datatype ConfigField = ProfitMargin | CustomsDutyRate | ShippingCost | ExchangeRate | SurchargeRate

  /** Where a field sits among the configuration strings. */
  function FieldIndex(field: ConfigField): (i: nat)
    ensures i < 5
  {
    match field
    case ProfitMargin => 0
    case CustomsDutyRate => 1
    case ShippingCost => 2
    case ExchangeRate => 3
    case SurchargeRate => 4
  }

  /** `{ ...inputs, [name]: value }` on the Dubai inputs. */
  function SetDubaiConfig(d: DubaiInputs, field: ConfigField, value: string): (r: DubaiInputs)
    ensures r.products == d.products
    ensures DubaiConfig(r) == DubaiConfig(d)[FieldIndex(field) := value]
  {
    match field
    case ProfitMargin => d.(profitMargin := value)
    case CustomsDutyRate => d.(customsDutyRate := value)
    case ShippingCost => d.(fixedShippingCostAED := value)
    case ExchangeRate => d.(exchangeRate := value)
    case SurchargeRate => d.(melenRiskRate := value)
  }

  /** `{ ...inputs, [name]: value }` on the Serbia inputs. */
  function SetSerbiaConfig(s: SerbiaInputs, field: ConfigField, value: string): (r: SerbiaInputs)
    ensures r.products == s.products
    ensures SerbiaConfig(r) == SerbiaConfig(s)[FieldIndex(field) := value]
  {
    match field
    case ProfitMargin => s.(profitMargin := value)
    case CustomsDutyRate => s.(customsDutyRate := value)
    case ShippingCost => s.(fixedShippingCostRSD := value)
    case ExchangeRate => s.(exchangeRateRSD := value)
    case SurchargeRate => s.(vatRate := value)
  }

  class App {
    /** The module-level initial inputs, each with the id drawn at load time. */
    const initialDubai: DubaiInputs
    const initialSerbia: SerbiaInputs

    var dubai: DubaiInputs
    var serbia: SerbiaInputs
    var activeCountry: Country
    var results: Option<CalculationResults>
    var loading: bool

    /** Product ids stay unique in both markets and in the reset values. */
    predicate Valid()
      reads this
    {
      && DistinctIds(dubai.products) && DistinctIds(serbia.products)
      && DistinctIds(initialDubai.products) && DistinctIds(initialSerbia.products)
    }

    constructor(dubaiId: Id, serbiaId: Id)
      ensures Valid()
      ensures initialDubai == InitialDubaiInputs(dubaiId) && initialSerbia == InitialSerbiaInputs(serbiaId)
      ensures dubai == initialDubai && serbia == initialSerbia
      ensures activeCountry == Dubai && results == None && !loading
    {
      initialDubai := InitialDubaiInputs(dubaiId);
      initialSerbia := InitialSerbiaInputs(serbiaId);
      dubai := InitialDubaiInputs(dubaiId);
      serbia := InitialSerbiaInputs(serbiaId);
      activeCountry := Dubai;
      results := None;
      loading := false;
    }

    /** `inputs[activeCountry].products`. */
    function ActiveProducts(): seq<Product>
      reads this
    {
      if activeCountry == Dubai then dubai.products else serbia.products
    }

    /** The tab buttons. */
    method SetActiveCountry(country: Country)
      requires Valid()
      modifies this
      ensures Valid()
      ensures activeCountry == country
      ensures dubai == old(dubai) && serbia == old(serbia)
      ensures results == old(results) && loading == old(loading)
    {
      activeCountry := country;
    }

    /** Replaces the active market's product list and nothing else. */
    method SetActiveProducts(ps: seq<Product>)
      modifies this
      ensures activeCountry == Dubai ==> dubai == old(dubai).(products := ps) && serbia == old(serbia)
      ensures activeCountry == Serbia ==> serbia == old(serbia).(products := ps) && dubai == old(dubai)
      ensures activeCountry == old(activeCountry) && results == old(results) && loading == old(loading)
    {
      if activeCountry == Dubai {
        dubai := dubai.(products := ps);
      } else {
        serbia := serbia.(products := ps);
      }
    }

    /** `handleInputChange`: one configuration string of the active market. */
    method HandleInputChange(field: ConfigField, value: string)
      requires Valid()
      modifies this
      ensures Valid()
      ensures activeCountry == Dubai ==> dubai == SetDubaiConfig(old(dubai), field, value) && serbia == old(serbia)
      ensures activeCountry == Serbia ==> serbia == SetSerbiaConfig(old(serbia), field, value) && dubai == old(dubai)
      ensures activeCountry == old(activeCountry) && results == old(results) && loading == old(loading)
    {
      if activeCountry == Dubai {
        dubai := SetDubaiConfig(dubai, field, value);
      } else {
        serbia := SetSerbiaConfig(serbia, field, value);
      }
    }

    /** `handleProductChange`: one field of the active market's product with
        the given id. */
    method HandleProductChange(id: Id, field: ProductField, value: string)
      requires Valid()
      modifies this
      ensures Valid()
      ensures ActiveProducts() == UpdateProduct(old(ActiveProducts()), id, field, value)
      ensures activeCountry == Dubai ==> dubai == old(dubai).(products := ActiveProducts()) && serbia == old(serbia)
      ensures activeCountry == Serbia ==> serbia == old(serbia).(products := ActiveProducts()) && dubai == old(dubai)
      ensures activeCountry == old(activeCountry) && results == old(results) && loading == old(loading)
    {
      var ps := UpdateProduct(ActiveProducts(), id, field, value);
      assert DistinctIds(ps) by {
        assert forall i :: 0 <= i < |ps| ==> ps[i].id == ActiveProducts()[i].id;
      }
      SetActiveProducts(ps);
    }

    /** `addProduct`: a blank product with a fresh id at the end of the
        active list. */
    method AddProduct(id: Id)
      requires Valid() && !HasId(ActiveProducts(), id)
      modifies this
      ensures Valid()
      ensures ActiveProducts() == AppendBlank(old(ActiveProducts()), id)
      ensures activeCountry == Dubai ==> dubai == old(dubai).(products := ActiveProducts()) && serbia == old(serbia)
      ensures activeCountry == Serbia ==> serbia == old(serbia).(products := ActiveProducts()) && dubai == old(dubai)
      ensures activeCountry == old(activeCountry) && results == old(results) && loading == old(loading)
    {
      var ps := AppendBlank(ActiveProducts(), id);
      AppendKeepsDistinct(ActiveProducts(), id);
      SetActiveProducts(ps);
    }

    /** `removeProduct`: drops the active market's products with the id. */
    method RemoveProduct(id: Id)
      requires Valid()
      modifies this
      ensures Valid()
      ensures ActiveProducts() == RemoveById(old(ActiveProducts()), id)
      ensures activeCountry == Dubai ==> dubai == old(dubai).(products := ActiveProducts()) && serbia == old(serbia)
      ensures activeCountry == Serbia ==> serbia == old(serbia).(products := ActiveProducts()) && dubai == old(dubai)
      ensures activeCountry == old(activeCountry) && results == old(results) && loading == old(loading)
    {
      var ps := RemoveById(ActiveProducts(), id);
      RemoveKeepsDistinct(ActiveProducts(), id);
      SetActiveProducts(ps);
    }

    /** `handleCalculate`, with the delay left out: a rejected input leaves
        the previous results in place; an accepted one replaces them with the
        active market's well-formed results. The inputs are not touched. */
    method HandleCalculate()
      requires Valid()
      modifies this
      ensures Valid()
      ensures !loading
      ensures dubai == old(dubai) && serbia == old(serbia) && activeCountry == old(activeCountry)
      ensures var out := if activeCountry == Dubai then RunDubai(dubai) else RunSerbia(serbia);
        results == if out.Some? then out else old(results)
      ensures results != old(results) ==> results.Some? && WellFormed(results.value, ActiveProducts())
    {
      loading := true;
      var out := if activeCountry == Dubai then RunDubai(dubai) else RunSerbia(serbia);
      if out.None? {
        loading := false;
        return;
      }
      results := out;
      loading := false;
    }

    /** `handleReset`: the active market's initial inputs, and no results. */
    method HandleReset()
      requires Valid()
      modifies this
      ensures Valid()
      ensures activeCountry == Dubai ==> dubai == initialDubai && serbia == old(serbia)
      ensures activeCountry == Serbia ==> serbia == initialSerbia && dubai == old(dubai)
      ensures results == None
      ensures activeCountry == old(activeCountry) && loading == old(loading)
    {
      if activeCountry == Dubai {
        dubai := initialDubai;
      } else {
        serbia := initialSerbia;
      }
      results := None;
    }
  }
}
