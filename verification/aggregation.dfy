/** The shared aggregation step of the engine: factory cost and total
    quantity of a product list, with unparsable text counting as 0. */
module Aggregation {
  import opened Numbers
  import opened Types

  /** Parsed quantity of a line, `parseInt(p.quantity, 10) || 0`. */
  function Quantity(p: Product): int {
    IntOrZero(ParseInt(p.quantity))
  }

  /** Parsed unit price of a line, `parseFloat(p.price) || 0`. */
  function UnitPrice(p: Product): real {
    RealOrZero(ParseFloat(p.price))
  }

  /** What one line contributes to the factory cost. */
  function LineCost(p: Product): real {
    Quantity(p) as real * UnitPrice(p)
  }

  /** `products.reduce((acc, p) => acc + LineCost(p), 0)`, folded from the left. */
  function FactoryCost(ps: seq<Product>): real {
    if ps == [] then 0.0 else FactoryCost(ps[..|ps| - 1]) + LineCost(ps[|ps| - 1])
  }

  /** `products.reduce((acc, p) => acc + Quantity(p), 0)`. */
  function TotalQuantity(ps: seq<Product>): int {
    if ps == [] then 0 else TotalQuantity(ps[..|ps| - 1]) + Quantity(ps[|ps| - 1])
  }

  /** The sum of the line costs, first line first. */
  function SumOfLineCosts(ps: seq<Product>): real {
    if ps == [] then 0.0 else LineCost(ps[0]) + SumOfLineCosts(ps[1..])
  }

  /** The sum of the parsed quantities, first line first. */
  function SumOfQuantities(ps: seq<Product>): int {
    if ps == [] then 0 else Quantity(ps[0]) + SumOfQuantities(ps[1..])
  }

  /** The left fold of `reduce` is the plain sum of the line costs. */
  lemma {:induction false} FactoryCostIsSum(ps: seq<Product>)
    ensures FactoryCost(ps) == SumOfLineCosts(ps)
    decreases |ps|
  {
    if ps != [] {
      var head := [ps[0]];
      assert ps == head + ps[1..];
      assert head[..0] == [];
      FactoryCostAppend(head, ps[1..]);
      FactoryCostIsSum(ps[1..]);
    }
  }

  /** The same for the total quantity. */
  lemma {:induction false} TotalQuantityIsSum(ps: seq<Product>)
    ensures TotalQuantity(ps) == SumOfQuantities(ps)
    decreases |ps|
  {
    if ps != [] {
      var head := [ps[0]];
      assert ps == head + ps[1..];
      assert head[..0] == [];
      TotalQuantityAppend(head, ps[1..]);
      TotalQuantityIsSum(ps[1..]);
    }
  }

  /** Factory cost is the sum of the line costs: it splits over concatenation. */
  lemma {:induction false} FactoryCostAppend(a: seq<Product>, b: seq<Product>)
    ensures FactoryCost(a + b) == FactoryCost(a) + FactoryCost(b)
    decreases |b|
  {
    if b == [] {
      assert a + b == a;
    } else {
      var b' := b[..|b| - 1];
      assert (a + b)[..|a + b| - 1] == a + b';
      FactoryCostAppend(a, b');
    }
  }

  lemma {:induction false} TotalQuantityAppend(a: seq<Product>, b: seq<Product>)
    ensures TotalQuantity(a + b) == TotalQuantity(a) + TotalQuantity(b)
    decreases |b|
  {
    if b == [] {
      assert a + b == a;
    } else {
      var b' := b[..|b| - 1];
      assert (a + b)[..|a + b| - 1] == a + b';
      TotalQuantityAppend(a, b');
    }
  }

  /** Removing the line at index i takes exactly its cost and quantity away. */
  lemma {:induction false} RemoveAt(ps: seq<Product>, i: nat)
    requires i < |ps|
    ensures FactoryCost(ps) == FactoryCost(ps[..i] + ps[i + 1..]) + LineCost(ps[i])
    ensures TotalQuantity(ps) == TotalQuantity(ps[..i] + ps[i + 1..]) + Quantity(ps[i])
  {
    var front, x, back := ps[..i], [ps[i]], ps[i + 1..];
    assert ps == front + (x + back);
    assert FactoryCost(x) == LineCost(ps[i]) by { assert x[..0] == []; }
    assert TotalQuantity(x) == Quantity(ps[i]) by { assert x[..0] == []; }
    FactoryCostAppend(front, x + back);
    FactoryCostAppend(x, back);
    FactoryCostAppend(front, back);
    TotalQuantityAppend(front, x + back);
    TotalQuantityAppend(x, back);
    TotalQuantityAppend(front, back);
  }

  /** Reordering the products changes neither the factory cost nor the
      total quantity. */
  lemma {:induction false} ReorderInvariant(a: seq<Product>, b: seq<Product>)
    requires multiset(a) == multiset(b)
    ensures FactoryCost(a) == FactoryCost(b)
    ensures TotalQuantity(a) == TotalQuantity(b)
    decreases |a|
  {
    if a == [] {
      assert |b| == |multiset(b)| == 0;
    } else {
      var n := |a| - 1;
      var x := a[n];
      assert x in multiset(a);
      var i :| 0 <= i < |b| && b[i] == x;
      var b' := b[..i] + b[i + 1..];
      MultisetRemove(a, n);
      assert a[..n] + a[n + 1..] == a[..n];
      MultisetRemove(b, i);
      ReorderInvariant(a[..n], b');
      MatchLast(a, b, i);
    }
  }

  /** The last line of `a` found at index i of `b`: if the rest of both
      lists agree, so do the whole lists. */
  lemma MatchLast(a: seq<Product>, b: seq<Product>, i: nat)
    requires a != [] && i < |b| && b[i] == a[|a| - 1]
    requires FactoryCost(a[..|a| - 1]) == FactoryCost(b[..i] + b[i + 1..])
    requires TotalQuantity(a[..|a| - 1]) == TotalQuantity(b[..i] + b[i + 1..])
    ensures FactoryCost(a) == FactoryCost(b) && TotalQuantity(a) == TotalQuantity(b)
  {
    RemoveAt(b, i);
  }

  lemma MultisetRemove(s: seq<Product>, i: nat)
    requires i < |s|
    ensures multiset(s[..i] + s[i + 1..]) == multiset(s) - multiset{s[i]}
  {
    assert s == s[..i] + [s[i]] + s[i + 1..];
    assert multiset(s) == multiset(s[..i]) + multiset{s[i]} + multiset(s[i + 1..]);
  }

  lemma PositiveLine(p: Product)
    requires Quantity(p) > 0 && UnitPrice(p) > 0.0
    ensures LineCost(p) > 0.0
  {
    ProductPositive(Quantity(p) as real, UnitPrice(p));
  }

  lemma ProductPositive(q: real, u: real)
    requires q >= 1.0 && u > 0.0
    ensures q * u > 0.0
  {
    assert q * u >= u by { assert (q - 1.0) * u >= 0.0; }
  }

  /** A product list with all-positive quantities and prices costs more than 0
      as soon as it is not empty, and has at least one unit per line. */
  lemma {:induction false} PositiveLinesPositiveCost(ps: seq<Product>)
    requires forall i :: 0 <= i < |ps| ==> Quantity(ps[i]) > 0 && UnitPrice(ps[i]) > 0.0
    ensures |ps| > 0 ==> FactoryCost(ps) > 0.0
    ensures FactoryCost(ps) >= 0.0
    ensures TotalQuantity(ps) >= |ps|
  {
    if ps != [] {
      var n := |ps| - 1;
      var front := ps[..n];
      assert forall i :: 0 <= i < |front| ==> front[i] == ps[i];
      PositiveLinesPositiveCost(front);
      PositiveLine(ps[n]);
    }
  }
}
