/** The edits the form makes to the active market's product list: update
    one field of the product with a given id, append a blank product, and
    remove the products with a given id. */
module ProductEdits {
  import opened Numbers
  import opened Types
  import opened Aggregation

  /** The editable fields of a product (every field but the id). */
  datatype ProductField = NameField | QuantityField | PriceField

  /** `{ ...p, [field]: value }`. */
  function SetField(p: Product, field: ProductField, value: string): Product {
    match field
    case NameField => p.(name := value)
    case QuantityField => p.(quantity := value)
    case PriceField => p.(price := value)
  }

  /** No two products share an id (uuids are unique). */
  predicate DistinctIds(ps: seq<Product>) {
    forall i, j :: 0 <= i < j < |ps| ==> ps[i].id != ps[j].id
  }

  predicate HasId(ps: seq<Product>, id: Id) {
    exists i :: 0 <= i < |ps| && ps[i].id == id
  }

  /** `products.map(p => p.id === id ? { ...p, [field]: value } : p)`:
      the products with the given id get the new field value, all others
      are kept as they are, in place. */
  function UpdateProduct(ps: seq<Product>, id: Id, field: ProductField, value: string): (r: seq<Product>)
    ensures |r| == |ps|
    ensures forall i :: 0 <= i < |ps| ==> r[i].id == ps[i].id
    ensures forall i :: 0 <= i < |ps| && ps[i].id != id ==> r[i] == ps[i]
    ensures forall i :: 0 <= i < |ps| && ps[i].id == id ==> r[i] == SetField(ps[i], field, value)
  {
    seq(|ps|, i requires 0 <= i < |ps| => if ps[i].id == id then SetField(ps[i], field, value) else ps[i])
  }

  /** Renaming a product changes neither the factory cost nor the total
      quantity. */
  lemma {:induction false} RenameKeepsTotals(ps: seq<Product>, id: Id, value: string)
    ensures FactoryCost(UpdateProduct(ps, id, NameField, value)) == FactoryCost(ps)
    ensures TotalQuantity(UpdateProduct(ps, id, NameField, value)) == TotalQuantity(ps)
    decreases |ps|
  {
    if ps != [] {
      var n := |ps| - 1;
      var r := UpdateProduct(ps, id, NameField, value);
      assert r[..n] == UpdateProduct(ps[..n], id, NameField, value);
      RenameKeepsTotals(ps[..n], id, value);
      SameAmounts(r[n], ps[n]);
      SameLastLine(r, ps);
    }
  }

  /** Lines with the same quantity and price text cost and count the same. */
  lemma SameAmounts(p: Product, q: Product)
    requires p.quantity == q.quantity && p.price == q.price
    ensures LineCost(p) == LineCost(q) && Quantity(p) == Quantity(q)
  {
  }

  /** Two lists that agree on the totals of all but their last lines, and
      whose last lines cost and count the same, have the same totals. */
  lemma SameLastLine(a: seq<Product>, b: seq<Product>)
    requires |a| == |b| > 0
    requires FactoryCost(a[..|a| - 1]) == FactoryCost(b[..|b| - 1])
    requires TotalQuantity(a[..|a| - 1]) == TotalQuantity(b[..|b| - 1])
    requires LineCost(a[|a| - 1]) == LineCost(b[|b| - 1]) && Quantity(a[|a| - 1]) == Quantity(b[|b| - 1])
    ensures FactoryCost(a) == FactoryCost(b) && TotalQuantity(a) == TotalQuantity(b)
  {
  }

  /** When the ids are distinct, an update changes exactly the one matching
      line. */
  lemma UpdateUnique(ps: seq<Product>, k: nat, field: ProductField, value: string)
    requires DistinctIds(ps) && k < |ps|
    ensures UpdateProduct(ps, ps[k].id, field, value) == ps[..k] + [SetField(ps[k], field, value)] + ps[k + 1..]
    ensures var r := UpdateProduct(ps, ps[k].id, field, value); r[..k] + r[k + 1..] == ps[..k] + ps[k + 1..]
  {
    var r := UpdateProduct(ps, ps[k].id, field, value);
    var spliced := ps[..k] + [SetField(ps[k], field, value)] + ps[k + 1..];
    forall i | 0 <= i < |ps|
      ensures r[i] == spliced[i]
    {
      if i < k {
        assert ps[i].id != ps[k].id;
      } else if i > k {
        assert ps[k].id != ps[i].id;
        assert spliced[i] == ps[i];
      }
    }
    assert r == spliced;
    assert r[..k] == ps[..k] && r[k + 1..] == ps[k + 1..];
  }

  /** ... and the factory cost and the total quantity move by the
      difference of that line's costs and quantities. */
  lemma UpdateCost(ps: seq<Product>, k: nat, field: ProductField, value: string)
    requires DistinctIds(ps) && k < |ps|
    ensures FactoryCost(UpdateProduct(ps, ps[k].id, field, value))
         == FactoryCost(ps) - LineCost(ps[k]) + LineCost(SetField(ps[k], field, value))
    ensures TotalQuantity(UpdateProduct(ps, ps[k].id, field, value))
         == TotalQuantity(ps) - Quantity(ps[k]) + Quantity(SetField(ps[k], field, value))
  {
    var r := UpdateProduct(ps, ps[k].id, field, value);
    UpdateUnique(ps, k, field, value);
    RemoveAt(ps, k);
    RemoveAt(r, k);
  }

  /** The product `addProduct` appends: empty name and price, quantity "1". */
  function BlankProduct(id: Id): Product {
    Product(id, "", "1", "")
  }

  /** `[...products, { id, name: '', quantity: '1', price: '' }]`. */
  function AppendBlank(ps: seq<Product>, id: Id): (r: seq<Product>)
    ensures |r| == |ps| + 1 && r[..|ps|] == ps && r[|ps|] == BlankProduct(id)
  {
    ps + [BlankProduct(id)]
  }

  /** The blank line costs nothing (its price is NaN, read as 0) but counts
      one unit. */
  lemma AppendBlankTotals(ps: seq<Product>, id: Id)
    ensures FactoryCost(AppendBlank(ps, id)) == FactoryCost(ps)
    ensures TotalQuantity(AppendBlank(ps, id)) == TotalQuantity(ps) + 1
  {
    var b := [BlankProduct(id)];
    assert ParseInt("1") == Some(1);
    assert ParseFloat("").None?;
    assert b[..0] == [];
    assert FactoryCost(b) == 0.0 && TotalQuantity(b) == 1;
    FactoryCostAppend(ps, b);
    TotalQuantityAppend(ps, b);
  }

  /** Appending a product with a fresh id keeps the ids distinct. */
  lemma AppendKeepsDistinct(ps: seq<Product>, id: Id)
    requires DistinctIds(ps) && !HasId(ps, id)
    ensures DistinctIds(AppendBlank(ps, id))
  {
    var r := AppendBlank(ps, id);
    forall i, j | 0 <= i < j < |r|
      ensures r[i].id != r[j].id
    {
      if j == |ps| {
        assert r[i] == ps[i];
      } else {
        assert r[i] == ps[i] && r[j] == ps[j];
      }
    }
  }

  /** `products.filter(p => p.id !== id)`. */
  function RemoveById(ps: seq<Product>, id: Id): (r: seq<Product>)
    ensures |r| <= |ps|
    ensures forall i :: 0 <= i < |r| ==> r[i].id != id
  {
    if ps == [] then []
    else
      var n := |ps| - 1;
      var front := RemoveById(ps[..n], id);
      if ps[n].id == id then front else front + [ps[n]]
  }

  /** Every product without the id survives the removal. */
  lemma {:induction false} RemoveKeepsOthers(ps: seq<Product>, id: Id, i: nat)
    requires i < |ps| && ps[i].id != id
    ensures ps[i] in RemoveById(ps, id)
    decreases |ps|
  {
    var n := |ps| - 1;
    if i < n {
      assert ps[..n][i] == ps[i];
      RemoveKeepsOthers(ps[..n], id, i);
    }
  }

  /** Removing an id that no product has changes nothing. */
  lemma {:induction false} RemoveAbsent(ps: seq<Product>, id: Id)
    requires !HasId(ps, id)
    ensures RemoveById(ps, id) == ps
    decreases |ps|
  {
    if ps != [] {
      var n := |ps| - 1;
      assert forall i :: 0 <= i < n ==> ps[..n][i] == ps[i];
      RemoveAbsent(ps[..n], id);
      assert ps[n].id != id;
      assert ps[..n] + [ps[n]] == ps;
    }
  }

  /** With distinct ids, removing the id of the k-th product drops exactly
      that product and keeps the others in their order. */
  lemma {:induction false} RemoveUnique(ps: seq<Product>, k: nat)
    requires DistinctIds(ps) && k < |ps|
    ensures RemoveById(ps, ps[k].id) == ps[..k] + ps[k + 1..]
    decreases |ps|
  {
    var id := ps[k].id;
    var n := |ps| - 1;
    if k == n {
      assert forall i :: 0 <= i < n ==> ps[..n][i] == ps[i] && ps[i].id != ps[n].id;
      RemoveAbsent(ps[..n], id);
      assert ps[k + 1..] == [];
      assert ps[..k] + ps[k + 1..] == ps[..n];
    } else {
      var front := ps[..n];
      assert front[k] == ps[k];
      assert DistinctIds(front) by {
        forall i, j | 0 <= i < j < |front|
          ensures front[i].id != front[j].id
        {
          assert front[i] == ps[i] && front[j] == ps[j];
        }
      }
      RemoveUnique(front, k);
      assert ps[n].id != id;
      assert RemoveById(ps, id) == (front[..k] + front[k + 1..]) + [ps[n]];
      assert front[..k] == ps[..k];
      assert front[k + 1..] + [ps[n]] == ps[k + 1..];
    }
  }

  /** Removing a product takes exactly its cost and units off the totals. */
  lemma RemoveTotals(ps: seq<Product>, k: nat)
    requires DistinctIds(ps) && k < |ps|
    ensures FactoryCost(RemoveById(ps, ps[k].id)) == FactoryCost(ps) - LineCost(ps[k])
    ensures TotalQuantity(RemoveById(ps, ps[k].id)) == TotalQuantity(ps) - Quantity(ps[k])
  {
    RemoveUnique(ps, k);
    RemoveAt(ps, k);
  }

  /** Removal keeps the ids distinct. */
  lemma RemoveKeepsDistinct(ps: seq<Product>, id: Id)
    requires DistinctIds(ps)
    ensures DistinctIds(RemoveById(ps, id))
  {
    if HasId(ps, id) {
      var k :| 0 <= k < |ps| && ps[k].id == id;
      RemoveUnique(ps, k);
      var r := ps[..k] + ps[k + 1..];
      forall i, j | 0 <= i < j < |r|
        ensures r[i].id != r[j].id
      {
        var i' := if i < k then i else i + 1;
        var j' := if j < k then j else j + 1;
        assert r[i] == ps[i'] && r[j] == ps[j'];
      }
    } else {
      RemoveAbsent(ps, id);
    }
  }
}
