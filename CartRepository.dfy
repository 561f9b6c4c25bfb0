/**
  `CartRepository` (EqualExpertsShoppingCart/Repositories/CartRepository.cs):
  the holder of one `Cart`, to which it delegates adds.
*/
module CartRepositories {
  import opened Wrappers
  import opened Errors
  import opened Products
  import opened Carts

  class CartRepository {
    /** The repository's own cart; the reference never changes. */
    const cart: Cart

    ghost predicate Valid()
      reads this, cart, cart.items
    {
      cart.Valid()
    }

    /** A new repository holds a new, empty cart. */
    constructor ()
      ensures Valid() && fresh(cart) && cart.items == [] && cart.Lines() == []
    {
      cart := new Cart();
    }

    /** `GetCart`: the repository's own cart object, not a copy. */
    method GetCart() returns (c: Cart)
      ensures c == cart
    {
      c := cart;
    }

    /**
      `AddItemByQuantity`: exactly the effect of `Cart.AddItemByQuantity` on the held
      cart; an argument error is passed on to the caller unchanged.
    */
    method AddItemByQuantity(product: Option<Product>, quantity: int := 1) returns (outcome: Outcome<Error>)
      requires Valid()
      modifies cart, cart.items
      ensures Valid()
      ensures outcome == CheckAdd(product, quantity)
      ensures cart.Lines() == AfterAdd(old(cart.Lines()), product, quantity)
      ensures |old(cart.items)| <= |cart.items| && cart.items[..|old(cart.items)|] == old(cart.items)
      ensures |cart.items| == |old(cart.items)| + 1 ==> fresh(cart.items[|old(cart.items)|])
    {
      outcome := cart.AddItemByQuantity(product, quantity);
    }

    /** `RemoveItemFromCart`: not implemented; it throws and changes nothing. */
    method RemoveItemFromCart(product: Option<Product>, quantity: int := 1) returns (outcome: Outcome<Error>)
      ensures outcome == Fail(NotImplemented)
    {
      outcome := Fail(NotImplemented);
    }

    /** `GetCartItems`: a new list holding the cart's item objects in their current order. */
    method GetCartItems() returns (r: seq<CartItem>)
      ensures r == cart.items
      ensures Snapshot(r) == cart.Lines()
    {
      r := cart.Items();
    }
  }

  /** A client of the repository: adds are merged by title, order is kept, and the quantity defaults to one. */
  method RepositoryScenario(p1: Product, p2: Product) returns (outcomes: seq<Outcome<Error>>, lines: seq<Line>)
    requires p1.title != p2.title
    ensures outcomes == [Pass, Pass, Pass]
    ensures lines == [Line(p1, 3), Line(p2, 1)]
  {
    var repo := new CartRepository();
    var o1 := repo.AddItemByQuantity(Some(p1), 2);
    AddNewTitle([], p1, 2);
    assert repo.cart.Lines() == [Line(p1, 2)];
    var o2 := repo.AddItemByQuantity(Some(p2));
    AddNewTitle([Line(p1, 2)], p2, 1);
    assert repo.cart.Lines() == [Line(p1, 2), Line(p2, 1)];
    var o3 := repo.AddItemByQuantity(Some(p1), 1);
    AddExistingTitle([Line(p1, 2), Line(p2, 1)], p1, 1, 0);
    outcomes := [o1, o2, o3];
    var items := repo.GetCartItems();
    lines := Snapshot(items);
  }

  /** A client of the repository: rejected adds report their reason and leave the cart empty. */
  method RepositoryRejectsScenario(p: Product) returns (outcomes: seq<Outcome<Error>>, lines: seq<Line>)
    ensures outcomes == [Fail(ArgumentError(QuantityBelowOne)), Fail(ArgumentError(NoProduct)), Fail(ArgumentError(QuantityBelowOne))]
    ensures lines == []
  {
    var repo := new CartRepository();
    var o1 := repo.AddItemByQuantity(Some(p), 0);
    var o2 := repo.AddItemByQuantity(None);
    var o3 := repo.AddItemByQuantity(None, 0);
    outcomes := [o1, o2, o3];
    var c := repo.GetCart();
    lines := c.Lines();
  }
}
