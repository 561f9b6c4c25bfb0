/**
  The shopping cart (EqualExpertsShoppingCart/Models/Cart.cs).

  The first half is the cart as a value: a sequence of `Line`s (product and
  quantity), the lookup by title, the effect of an add, and the derived
  subtotal, tax and total. The second half is the mutable object model, the
  `CartItem` and `Cart` classes, whose methods are proved against the first half.
*/
module Carts {
  import opened Wrappers
  import opened Errors
  import opened Money
  import opened Products

  // ---------------------------------------------------------------------------
  // The cart as a value
  // ---------------------------------------------------------------------------

  /** A line item as a value: the product it holds and how many of it. */
  datatype Line = Line(product: Product, quantity: int)

  /** One `AddItemByQuantity(product, quantity)` call; `None` is a null product. */
  datatype AddRequest = AddRequest(product: Option<Product>, quantity: int)

  /** No two lines hold products with the same title. */
  ghost predicate DistinctTitles(lines: seq<Line>) {
    forall i, j :: 0 <= i < j < |lines| ==> lines[i].product.title != lines[j].product.title
  }

  /** Every quantity is at least one. */
  ghost predicate PositiveQuantities(lines: seq<Line>) {
    forall i :: 0 <= i < |lines| ==> lines[i].quantity >= 1
  }

  /** The invariants of a cart built only by adds. */
  ghost predicate WellFormed(lines: seq<Line>) {
    DistinctTitles(lines) && PositiveQuantities(lines)
  }

  /** The titles of the products in the cart. */
  ghost function Titles(lines: seq<Line>): set<string> {
    set i | 0 <= i < |lines| :: lines[i].product.title
  }

  /** `_items.FirstOrDefault(item => item.Product.Title == title)`, as an index. */
  function FirstWithTitle(lines: seq<Line>, title: string): (r: Option<nat>)
    ensures r.Some? ==> r.value < |lines| && lines[r.value].product.title == title
    ensures r.Some? ==> forall j :: 0 <= j < r.value ==> lines[j].product.title != title
    ensures r.None? ==> forall j :: 0 <= j < |lines| ==> lines[j].product.title != title
  {
    if lines == [] then None
    else if lines[0].product.title == title then Some(0)
    else match FirstWithTitle(lines[1..], title)
      case None => None
      case Some(k) => Some(k + 1)
  }

  /** The argument checks of `AddItemByQuantity`: the quantity first, then the product. */
  function CheckAdd(product: Option<Product>, quantity: int): (r: Outcome<Error>)
    ensures r.Pass? <==> quantity >= 1 && product.Some?
    ensures quantity < 1 ==> r == Fail(ArgumentError(QuantityBelowOne))
    ensures quantity >= 1 && product.None? ==> r == Fail(ArgumentError(NoProduct))
  {
    if quantity < 1 then Fail(ArgumentError(QuantityBelowOne))
    else if product.None? then Fail(ArgumentError(NoProduct))
    else Pass
  }

  /** A valid add: raise the quantity of the first line with the same title, or append a new line. */
  function AddLine(lines: seq<Line>, product: Product, quantity: int): (r: seq<Line>)
    ensures |lines| <= |r| <= |lines| + 1
    ensures forall j :: 0 <= j < |lines| ==> r[j].product == lines[j].product
  {
    match FirstWithTitle(lines, product.title)
    case Some(k) => lines[k := Line(lines[k].product, lines[k].quantity + quantity)]
    case None => lines + [Line(product, quantity)]
  }

  /** The lines after `AddItemByQuantity(product, quantity)`; a rejected call changes nothing. */
  function AfterAdd(lines: seq<Line>, product: Option<Product>, quantity: int): (r: seq<Line>)
    ensures CheckAdd(product, quantity).Fail? ==> r == lines
  {
    if CheckAdd(product, quantity).Fail? then lines else AddLine(lines, product.value, quantity)
  }

  /** The lines of a cart that started empty and received `adds`, in order. */
  function Replay(adds: seq<AddRequest>): seq<Line> {
    if adds == [] then []
    else
      var last := adds[|adds| - 1];
      AfterAdd(Replay(adds[..|adds| - 1]), last.product, last.quantity)
  }

  /** When a line already holds the title, only the first such line changes, and only its quantity. */
  lemma AddExistingTitle(lines: seq<Line>, product: Product, quantity: int, k: nat)
    requires k < |lines| && lines[k].product.title == product.title
    requires forall j :: 0 <= j < k ==> lines[j].product.title != product.title
    ensures |AddLine(lines, product, quantity)| == |lines|
    ensures AddLine(lines, product, quantity)[k] == Line(lines[k].product, lines[k].quantity + quantity)
    ensures forall j :: 0 <= j < |lines| && j != k ==> AddLine(lines, product, quantity)[j] == lines[j]
  {
  }

  /** When no line holds the title, the product is appended with the quantity. */
  lemma AddNewTitle(lines: seq<Line>, product: Product, quantity: int)
    requires forall j :: 0 <= j < |lines| ==> lines[j].product.title != product.title
    ensures AddLine(lines, product, quantity) == lines + [Line(product, quantity)]
  {
  }

  /** An add puts the title in the cart and no other. */
  lemma AddTitles(lines: seq<Line>, product: Product, quantity: int)
    ensures Titles(AddLine(lines, product, quantity)) == Titles(lines) + {product.title}
  {
    var r := AddLine(lines, product, quantity);
    match FirstWithTitle(lines, product.title)
    case Some(k) =>
      assert forall i :: 0 <= i < |r| ==> r[i].product.title == lines[i].product.title;
      assert r[k].product.title == product.title;
    case None =>
      assert r[|lines|].product.title == product.title;
      assert forall i :: 0 <= i < |lines| ==> r[i].product.title == lines[i].product.title;
  }

  /** An add (valid or not) keeps titles distinct. */
  lemma AddPreservesDistinctTitles(lines: seq<Line>, product: Option<Product>, quantity: int)
    requires DistinctTitles(lines)
    ensures DistinctTitles(AfterAdd(lines, product, quantity))
  {
  }

  /** An add (valid or not) keeps quantities positive. */
  lemma AddPreservesPositiveQuantities(lines: seq<Line>, product: Option<Product>, quantity: int)
    requires PositiveQuantities(lines)
    ensures PositiveQuantities(AfterAdd(lines, product, quantity))
  {
  }

  /** An add (valid or not) keeps titles distinct and quantities positive. */
  lemma AddPreservesWellFormed(lines: seq<Line>, product: Option<Product>, quantity: int)
    requires WellFormed(lines)
    ensures WellFormed(AfterAdd(lines, product, quantity))
  {
  }

  /** Every cart built from the empty cart by adds keeps titles distinct and quantities positive. */
  lemma {:induction false} ReplayWellFormed(adds: seq<AddRequest>)
    ensures WellFormed(Replay(adds))
  {
    if adds != [] {
      ReplayWellFormed(adds[..|adds| - 1]);
      AddPreservesWellFormed(Replay(adds[..|adds| - 1]), adds[|adds| - 1].product, adds[|adds| - 1].quantity);
    }
  }

  // ---------------------------------------------------------------------------
  // Derived amounts
  // ---------------------------------------------------------------------------

  /** `CartItem.TotalPrice`: price times quantity, to the nearest cent, ties to even. */
  function LineTotal(line: Line): (r: real)
    ensures IsTwoDecimal(r)
    ensures IsNearestEven(line.product.price.amount * line.quantity as real * 100.0, (r * 100.0).Floor)
  {
    Round2(line.product.price.amount * line.quantity as real)
  }

  /** `Items.Sum(item => item.TotalPrice)`: the unrounded sum of the line totals. */
  function SumTotals(lines: seq<Line>): (r: real)
    ensures IsTwoDecimal(r)
  {
    if lines == [] then
      assert 0.0 * 100.0 == 0 as real; 0.0
    else
      TwoDecimalAdd(LineTotal(lines[0]), SumTotals(lines[1..]));
      LineTotal(lines[0]) + SumTotals(lines[1..])
  }

  /** `Cart.Subtotal`; the outer rounding never changes the sum, which already has two decimals. */
  function SubtotalOf(lines: seq<Line>): (r: real)
    ensures r == SumTotals(lines)
  {
    Round2OfTwoDecimal(SumTotals(lines));
    Round2(SumTotals(lines))
  }

  /** `Cart.Tax`: 12.5% of the subtotal, to the nearest cent, ties to even. */
  function TaxOf(lines: seq<Line>): (r: real)
    ensures IsTwoDecimal(r)
    ensures SubtotalOf(lines) * 0.125 - 0.005 <= r <= SubtotalOf(lines) * 0.125 + 0.005
    ensures IsNearestEven(SubtotalOf(lines) * 0.125 * 100.0, (r * 100.0).Floor)
  {
    Round2(SubtotalOf(lines) * 0.125)
  }

  /** `Cart.Total`; the rounding is exact, so the total is the subtotal plus the tax. */
  function TotalOf(lines: seq<Line>): (r: real)
    ensures r == SubtotalOf(lines) + TaxOf(lines)
  {
    TwoDecimalAdd(SubtotalOf(lines), TaxOf(lines));
    Round2OfTwoDecimal(SubtotalOf(lines) + TaxOf(lines));
    Round2(SubtotalOf(lines) + TaxOf(lines))
  }

  /** The sum of line totals grows by the total of an appended line. */
  lemma {:induction false} SumTotalsAppend(lines: seq<Line>, line: Line)
    ensures SumTotals(lines + [line]) == SumTotals(lines) + LineTotal(line)
  {
    if lines != [] {
      assert (lines + [line])[1..] == lines[1..] + [line];
      SumTotalsAppend(lines[1..], line);
    }
  }

  /** Replacing one line changes the sum by the difference of the two line totals. */
  lemma {:induction false} SumTotalsUpdate(lines: seq<Line>, k: nat, line: Line)
    requires k < |lines|
    ensures SumTotals(lines[k := line]) == SumTotals(lines) - LineTotal(lines[k]) + LineTotal(line)
  {
    if k > 0 {
      assert lines[k := line][1..] == lines[1..][k - 1 := line];
      SumTotalsUpdate(lines[1..], k - 1, line);
    } else {
      assert lines[k := line][1..] == lines[1..];
    }
  }

  /** How a valid add moves the subtotal: by the new line's total, or by the change in the merged line's total. */
  lemma AddSubtotal(lines: seq<Line>, product: Product, quantity: int)
    ensures FirstWithTitle(lines, product.title).None? ==>
      SubtotalOf(AddLine(lines, product, quantity)) == SubtotalOf(lines) + LineTotal(Line(product, quantity))
    ensures FirstWithTitle(lines, product.title).Some? ==>
      var k := FirstWithTitle(lines, product.title).value;
      var merged := Line(lines[k].product, lines[k].quantity + quantity);
      SubtotalOf(AddLine(lines, product, quantity)) == SubtotalOf(lines) - LineTotal(lines[k]) + LineTotal(merged)
  {
    match FirstWithTitle(lines, product.title)
    case None => SumTotalsAppend(lines, Line(product, quantity));
    case Some(k) => SumTotalsUpdate(lines, k, Line(lines[k].product, lines[k].quantity + quantity));
  }

  /** Non-negative prices and quantities give a non-negative subtotal, a non-negative tax, and a total no smaller than the subtotal. */
  lemma {:induction false} TotalsNonNegative(lines: seq<Line>)
    requires forall i :: 0 <= i < |lines| ==> lines[i].product.price.amount >= 0.0 && lines[i].quantity >= 0
    ensures SubtotalOf(lines) >= 0.0
    ensures TaxOf(lines) >= 0.0
    ensures TotalOf(lines) >= SubtotalOf(lines)
  {
    if lines != [] {
      TotalsNonNegative(lines[1..]);
      Round2NonNegative(lines[0].product.price.amount * lines[0].quantity as real);
    }
    Round2NonNegative(SubtotalOf(lines) * 0.125);
  }

  /** The empty cart has subtotal, tax and total zero. */
  lemma EmptyCartTotals()
    ensures SubtotalOf([]) == 0.0 && TaxOf([]) == 0.0 && TotalOf([]) == 0.0
  {
  }

  /** The line-total and total examples: 10.00 x 2, and an unrounded 10.066666 x 1. */
  lemma LineTotalExamples()
    ensures LineTotal(Line(Product("Product", NewPrice(10.0)), 2)) == 20.0
    ensures LineTotal(Line(Product("Product", NewPrice(10.066666)), 1)) == 10.07
    ensures SubtotalOf([Line(Product("Product", NewPrice(10.0)), 1)]) == 10.0
    ensures TaxOf([Line(Product("Product", NewPrice(10.0)), 1)]) == 1.25
    ensures TotalOf([Line(Product("Product", NewPrice(10.0)), 1)]) == 11.25
    ensures TotalOf([Line(Product("Product", NewPrice(10.066666)), 1)]) == 11.33
  {
  }

  /** A half-cent tax goes to the even cent: a 0.04 subtotal has tax 0.00 and total 0.04. */
  lemma TaxTieExample()
    ensures TaxOf([Line(Product("A", Price(0.04)), 1)]) == 0.0
    ensures TotalOf([Line(Product("A", Price(0.04)), 1)]) == 0.04
  {
  }

  /** Corn Flakes 2.52 x 2 and Weetabix 9.98 x 1 give subtotal 15.02, tax 1.88 and total 16.90. */
  lemma CornflakesAndWeetabixTotals()
    ensures var lines := [Line(Product("Corn Flakes", Price(2.52)), 2), Line(Product("Weetabix", Price(9.98)), 1)];
      SubtotalOf(lines) == 15.02 && TaxOf(lines) == 1.88 && TotalOf(lines) == 16.90
  {
  }

  /** Adding "Product 1" x 2, "Product 2" x 1, then "Product 1" x 1 gives two lines, the first with quantity 3. */
  lemma AggregationExample(p1: Product, p2: Product)
    requires p1.title != p2.title
    ensures Replay([AddRequest(Some(p1), 2), AddRequest(Some(p2), 1), AddRequest(Some(p1), 1)])
         == [Line(p1, 3), Line(p2, 1)]
  {
    var adds := [AddRequest(Some(p1), 2), AddRequest(Some(p2), 1), AddRequest(Some(p1), 1)];
    assert adds[..2][..1][..0] == [];
    assert Replay(adds[..1]) == [Line(p1, 2)];
    assert Replay(adds[..2]) == [Line(p1, 2), Line(p2, 1)];
  }

  // ---------------------------------------------------------------------------
  // The object model
  // ---------------------------------------------------------------------------

  /** `Cart.CartItem`: a product and a quantity that only `IncreaseQuantity` changes. */
  class CartItem {
    const product: Product  // `private set`, never used after construction
    var quantity: int

    constructor (product: Product, quantity: int)
      ensures this.product == product && this.quantity == quantity
    {
      this.product := product;
      this.quantity := quantity;
    }

    /** `CartItem.TotalPrice`, read from the current state. */
    function TotalPrice(): (r: real)
      reads this
      ensures IsTwoDecimal(r)
      ensures product.price.amount * quantity as real - 0.005 <= r <= product.price.amount * quantity as real + 0.005
      ensures IsNearestEven(product.price.amount * quantity as real * 100.0, (r * 100.0).Floor)
    {
      LineTotal(Line(product, quantity))
    }

    /** `CartItem.IncreaseQuantity`: adds `n` (of any sign) to the quantity; the product is untouched. */
    method IncreaseQuantity(n: int)
      modifies this`quantity
      ensures quantity == old(quantity) + n
    {
      quantity := quantity + n;
    }

    /** `CartItem.DecreaseQuantity`: not implemented; it throws and changes nothing. */
    method DecreaseQuantity(n: int) returns (outcome: Outcome<Error>)
      ensures outcome == Fail(NotImplemented)
    {
      outcome := Fail(NotImplemented);
    }
  }

  /** The values held by a sequence of line-item objects. */
  function Snapshot(items: seq<CartItem>): (r: seq<Line>)
    reads set i | 0 <= i < |items| :: items[i]
    ensures |r| == |items|
    ensures forall i :: 0 <= i < |items| ==> r[i] == Line(items[i].product, items[i].quantity)
  {
    if items == [] then [] else [Line(items[0].product, items[0].quantity)] + Snapshot(items[1..])
  }

  /** `Cart`: an ordered list of line items. */
  class Cart {
    var items: seq<CartItem>

    /** The item objects are distinct, and so are the titles of their products. */
    ghost predicate Valid()
      reads this, items
    {
      && (forall i, j :: 0 <= i < j < |items| ==> items[i] != items[j])
      && DistinctTitles(Lines())
    }

    /** The cart's contents as values, in order. */
    function Lines(): seq<Line>
      reads this, items
    {
      Snapshot(items)
    }

    /** `Cart.Items`: a read-only view of the item list, holding the cart's own item objects. */
    function Items(): (r: seq<CartItem>)
      reads this
      ensures r == items
    {
      items
    }

    /** `Cart.Subtotal`. */
    function Subtotal(): (r: real)
      reads this, items
      ensures r == SumTotals(Lines())
    {
      SubtotalOf(Lines())
    }

    /** `Cart.Tax`. */
    function Tax(): (r: real)
      reads this, items
      ensures r == TaxOf(Lines())
    {
      TaxOf(Lines())
    }

    /** `Cart.Total`. */
    function Total(): (r: real)
      reads this, items
      ensures r == Subtotal() + Tax()
    {
      TotalOf(Lines())
    }

    constructor ()
      ensures Valid() && items == []
    {
      items := [];
    }

    /**
      `Cart.AddItemByQuantity`: rejects a quantity below one, then a null product,
      leaving the cart as it was; otherwise raises the quantity of the first item
      whose product has the same title (keeping that item's product and price), or
      appends a new item.
    */
    method AddItemByQuantity(product: Option<Product>, quantity: int) returns (outcome: Outcome<Error>)
      requires Valid()
      modifies this, items
      ensures Valid()
      ensures outcome == CheckAdd(product, quantity)
      ensures Lines() == AfterAdd(old(Lines()), product, quantity)
      ensures |old(items)| <= |items| && items[..|old(items)|] == old(items)
      ensures |items| == |old(items)| + 1 ==> fresh(items[|old(items)|])
      ensures old(PositiveQuantities(Lines())) ==> PositiveQuantities(Lines())
    {
      outcome := CheckAdd(product, quantity);
      if outcome.Fail? {
        return;
      }
      AddPreservesDistinctTitles(Lines(), product, quantity);
      if PositiveQuantities(Lines()) {
        AddPreservesPositiveQuantities(Lines(), product, quantity);
      }
      var p := product.value;
      var i := 0;
      while i < |items| && items[i].product.title != p.title
        invariant 0 <= i <= |items|
        invariant forall j :: 0 <= j < i ==> items[j].product.title != p.title
      {
        i := i + 1;
      }
      ghost var before := Lines();
      if i < |items| {
        AddExistingTitle(before, p, quantity, i);
        var item := items[i];
        item.IncreaseQuantity(quantity);
        forall j | 0 <= j < |items|
          ensures Lines()[j] == AddLine(before, p, quantity)[j]
        {
          if j != i { assert items[j] != item; }
        }
      } else {
        AddNewTitle(before, p, quantity);
        var item := new CartItem(p, quantity);
        items := items + [item];
        assert Lines() == before + [Line(p, quantity)];
      }
      assert Lines() == AddLine(before, p, quantity);
    }

    /** `Cart.RemoveItemByQuantity`: not implemented; it throws and changes nothing. */
    method RemoveItemByQuantity(product: Option<Product>, quantity: int) returns (outcome: Outcome<Error>)
      ensures outcome == Fail(NotImplemented)
    {
      outcome := Fail(NotImplemented);
    }

    /** `Cart.RemoveItemByProduct`: not implemented; it throws and changes nothing. */
    method RemoveItemByProduct(item: CartItem?) returns (outcome: Outcome<Error>)
      ensures outcome == Fail(NotImplemented)
    {
      outcome := Fail(NotImplemented);
    }
  }
}
