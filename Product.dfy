/**
  The immutable value objects of the catalogue: `Product` and its nested
  `Price` (EqualExpertsShoppingCart/Models/Product.cs). Both are values, so
  they are datatypes; their C# constructors become functions returning a
  `Result`, and their `Equals`, `==`, `!=` and `GetHashCode` become functions.
*/
module Products {
  import opened Wrappers
  import opened Errors
  import opened Money

  /** A C# `int`. */
  type Int32 = x: int | -0x8000_0000 <= x < 0x8000_0000

  /** The `object?` argument of `Equals`: null, a Product, a Price, or an object of any other type. */
  datatype Obj = Null | ProductObj(product: Product) | PriceObj(price: Price) | OtherObj

  datatype Result<+T> = Success(value: T) | Failure(error: Error)

  /** `Product.Price`: a rounded decimal amount. */
  datatype Price = Price(amount: real) {

    /** `Price.Equals(object?)`: true exactly for a Price with the same amount. */
    function Equals(obj: Obj): (b: bool)
      ensures b <==> obj.PriceObj? && obj.price.amount == amount
      ensures obj == Null ==> !b
    {
      match obj
      case PriceObj(other) => amount == other.amount
      case _ => false
    }

    /** `Price.GetHashCode`: the hash of the amount, for a given `decimal` hash function. */
    function HashCode(decimalHash: real -> Int32): (h: Int32)
      ensures h == decimalHash(amount)
    {
      decimalHash(amount)
    }
  }

  /** `new Price(amount)`: the amount rounded to two decimals, ties to even. No sign check. */
  function NewPrice(amount: real): (p: Price)
    ensures IsTwoDecimal(p.amount)
    ensures amount - 0.005 <= p.amount <= amount + 0.005
    ensures IsNearestEven(amount * 100.0, (p.amount * 100.0).Floor)
    ensures amount >= 0.0 ==> p.amount >= 0.0
    ensures IsTwoDecimal(amount) ==> p.amount == amount
  {
    var r := Round2(amount);
    assert amount >= 0.0 ==> r >= 0.0 by {
      if amount >= 0.0 { Round2NonNegative(amount); }
    }
    assert IsTwoDecimal(amount) ==> r == amount by {
      if IsTwoDecimal(amount) { Round2OfTwoDecimal(amount); }
    }
    Price(r)
  }

  /** `Price ==`: the static `object.Equals(left, right)`. */
  function PriceOpEquals(left: Option<Price>, right: Option<Price>): (b: bool)
    ensures b <==> (left.None? && right.None?) || (left.Some? && right.Some? && left.value.amount == right.value.amount)
    ensures b <==> left == right
  {
    match left
    case None => right.None?
    case Some(l) => right.Some? && l.Equals(PriceObj(right.value))
  }

  /** `Price !=`. */
  function PriceOpNotEquals(left: Option<Price>, right: Option<Price>): (b: bool)
    ensures b <==> (left.None? != right.None?) || (left.Some? && right.Some? && left.value.amount != right.value.amount)
    ensures b <==> left != right
  {
    !PriceOpEquals(left, right)
  }

  /** `Char.IsWhiteSpace`: the Unicode White_Space characters. */
  predicate IsWhiteSpace(c: char) {
    || '\U{9}' <= c <= '\U{D}' || c == '\U{20}' || c == '\U{85}' || c == '\U{A0}'
    || c == '\U{1680}' || '\U{2000}' <= c <= '\U{200A}' || c == '\U{2028}' || c == '\U{2029}'
    || c == '\U{202F}' || c == '\U{205F}' || c == '\U{3000}'
  }

  /** `string.IsNullOrWhiteSpace`: null, empty, or whitespace only. */
  predicate IsNullOrWhiteSpace(s: Option<string>) {
    s.None? || forall i :: 0 <= i < |s.value| ==> IsWhiteSpace(s.value[i])
  }

  /** A product's title and price as they can be after construction. */
  datatype Product = Product(title: string, price: Price) {

    /** `Product.Equals(object?)`: true exactly for a Product with the same title and an equal price. */
    function Equals(obj: Obj): (b: bool)
      ensures b <==> obj.ProductObj? && obj.product.title == title && obj.product.price.amount == price.amount
      ensures b <==> obj == ProductObj(this)
      ensures obj == Null ==> !b
    {
      match obj
      case ProductObj(other) => title == other.title && price.Equals(PriceObj(other.price))
      case _ => false
    }

    /**
      `Product.GetHashCode`: `hash = 17; hash = hash * 23 + h(Title); hash = hash * 23 + h(Price)`
      in unchecked (wrapping) 32-bit arithmetic. The string and decimal hash functions are
      parameters because `string.GetHashCode` is randomised per process. The result is
      the exact value `17 * 23 * 23 + 23 * h(Title) + h(Price)` reduced modulo 2^32.
    */
    function HashCode(stringHash: string -> Int32, decimalHash: real -> Int32): (h: Int32)
      ensures (h - (17 * 23 * 23 + 23 * stringHash(title) + price.HashCode(decimalHash))) % 0x1_0000_0000 == 0
    {
      var hash := 17;
      var hash := Wrap32(hash * 23 + stringHash(title));
      Wrap32(hash * 23 + price.HashCode(decimalHash))
    }
  }

  /** Unchecked `int` arithmetic: the value modulo 2^32, as a signed 32-bit integer. */
  function Wrap32(x: int): (r: Int32)
    ensures (x - r) % 0x1_0000_0000 == 0
  {
    (x + 0x8000_0000) % 0x1_0000_0000 - 0x8000_0000
  }

  /** What the `Product` constructor guarantees of every product it lets exist. */
  predicate ValidProduct(p: Product) {
    && !IsNullOrWhiteSpace(Some(p.title))
    && p.price.amount >= 0.0
    && IsTwoDecimal(p.price.amount)
  }

  /**
    `new Product(title, priceAmount)`: rejects a blank title first, then a negative
    amount (checked before rounding), and otherwise stores the title and the rounded price.
  */
  function NewProduct(title: Option<string>, priceAmount: real): (r: Result<Product>)
    ensures r.Failure? <==> IsNullOrWhiteSpace(title) || priceAmount < 0.0
    ensures IsNullOrWhiteSpace(title) ==> r == Failure(ArgumentError(BlankTitle))
    ensures !IsNullOrWhiteSpace(title) && priceAmount < 0.0 ==> r == Failure(ArgumentError(NegativePrice))
    ensures r.Success? ==> r.value.title == title.value && ValidProduct(r.value)
    ensures r.Success? ==> r.value.price.amount == Round2(priceAmount)
  {
    if IsNullOrWhiteSpace(title) then Failure(ArgumentError(BlankTitle))
    else if priceAmount < 0.0 then Failure(ArgumentError(NegativePrice))
    else Success(Product(title.value, NewPrice(priceAmount)))
  }

  /** `Product ==`: the static `object.Equals(left, right)` (null equals only null). */
  function ProductOpEquals(left: Option<Product>, right: Option<Product>): (b: bool)
    ensures b <==> left == right
  {
    match left
    case None => right.None?
    case Some(l) => right.Some? && l.Equals(ProductObj(right.value))
  }

  /** `Product !=`. */
  function ProductOpNotEquals(left: Option<Product>, right: Option<Product>): (b: bool)
    ensures b <==>
      || left.None? != right.None?
      || (left.Some? && right.Some? && (left.value.title != right.value.title || left.value.price.amount != right.value.price.amount))
    ensures b <==> left != right
  {
    !ProductOpEquals(left, right)
  }

  /** Product equality is an equivalence relation. */
  lemma ProductEqualsIsEquivalence(a: Product, b: Product, c: Product)
    ensures a.Equals(ProductObj(a))
    ensures a.Equals(ProductObj(b)) <==> b.Equals(ProductObj(a))
    ensures a.Equals(ProductObj(b)) && b.Equals(ProductObj(c)) ==> a.Equals(ProductObj(c))
  {
  }

  /** Price equality is an equivalence relation. */
  lemma PriceEqualsIsEquivalence(a: Price, b: Price, c: Price)
    ensures a.Equals(PriceObj(a))
    ensures a.Equals(PriceObj(b)) <==> b.Equals(PriceObj(a))
    ensures a.Equals(PriceObj(b)) && b.Equals(PriceObj(c)) ==> a.Equals(PriceObj(c))
  {
  }

  /** Equal prices have equal hash codes, whichever decimal hash is in use. */
  lemma PriceHashConsistent(a: Price, b: Price, decimalHash: real -> Int32)
    requires a.Equals(PriceObj(b))
    ensures a.HashCode(decimalHash) == b.HashCode(decimalHash)
  {
  }

  /** Equal products have equal hash codes, whichever string and decimal hashes are in use. */
  lemma ProductHashConsistent(a: Product, b: Product, stringHash: string -> Int32, decimalHash: real -> Int32)
    requires a.Equals(ProductObj(b))
    ensures a.HashCode(stringHash, decimalHash) == b.HashCode(stringHash, decimalHash)
  {
  }

  /** Two products built by the constructor are equal iff the titles and the rounded amounts are. */
  lemma NewProductEquality(t1: string, a1: real, t2: string, a2: real)
    requires NewProduct(Some(t1), a1).Success? && NewProduct(Some(t2), a2).Success?
    ensures NewProduct(Some(t1), a1).value.Equals(ProductObj(NewProduct(Some(t2), a2).value))
        <==> t1 == t2 && Round2(a1) == Round2(a2)
  {
  }

  /** The constructor's examples: rounding on construction, equality, and the rejected inputs. */
  lemma NewProductExamples()
    ensures NewProduct(Some("Test"), 10.066666) == Success(Product("Test", Price(10.07)))
    ensures NewProduct(Some("Test"), 10.0) == Success(Product("Test", Price(10.0)))
    ensures NewProduct(Some("Test1"), 5.0) == Success(Product("Test1", Price(5.0)))
    ensures Product("Test", Price(10.0)).Equals(ProductObj(Product("Test", Price(10.0))))
    ensures !Product("Test", Price(10.0)).Equals(ProductObj(Product("Test1", Price(5.0))))
    ensures NewProduct(Some(""), 10.0) == Failure(ArgumentError(BlankTitle))
    ensures NewProduct(Some(" \t"), 10.0) == Failure(ArgumentError(BlankTitle))
    ensures NewProduct(None, 10.0) == Failure(ArgumentError(BlankTitle))
    ensures NewProduct(Some("X"), -1.0) == Failure(ArgumentError(NegativePrice))
  {
    assert !IsWhiteSpace("Test"[0]) && !IsWhiteSpace("Test1"[0]) && !IsWhiteSpace("X"[0]);
    assert Round2(10.066666) == 10.07;
    Round2OfTwoDecimal(10.0);
    Round2OfTwoDecimal(5.0);
  }
}
