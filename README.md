# Shopping cart domain model, in Dafny

This project models the domain core of the Equal Experts shopping cart
(a C# project). It covers three things:

- `Product` and its nested `Price`: immutable value objects. The constructor
  validates the title and the amount, then rounds the amount to two decimals.
  Equality is structural, and the hash agrees with it.
- `Cart` and its nested `CartItem`: an ordered list of line items.
  `AddItemByQuantity` validates its arguments. It then raises the quantity of the
  first item whose product has the same **title**, or appends a new item. The
  subtotal, the 12.5% tax and the total are derived on every read, each rounded
  to two decimals.
- `CartRepository`: the holder of one cart. It passes adds on to the cart and
  refuses removal.

Files and modules:

- `Wrappers.dfy`: `Option` (a C# `null`), `Outcome`, and the `Errors` module.
  `Errors` covers `ArgumentException` with its four reasons, and
  `NotImplementedException`.
- `Money.dfy`: `Round2`, which is `Decimal.Round(x, 2)` / `Math.Round(x, 2)` with
  .NET's default midpoint rule (ties to even). It is used for every rounding.
  `decimal` is exact base-10, so amounts are Dafny `real`s.
- `Product.cs` becomes `Product.dfy` (module `Products`). It is pure: datatypes
  `Price` and `Product`. `NewProduct` is the validating constructor and returns a
  `Result`. `NewPrice` cannot fail and returns a `Price`.
  `Equals(object?)` takes an `Obj`, which is null, a Product, a Price or another
  type. The static `==`/`!=` take an `Option`.
- `Cart.cs` becomes `Cart.dfy` (module `Carts`). First comes the cart as a
  value: a `seq<Line>`, together with `FirstWithTitle`, `AddLine`, `AfterAdd`,
  `SubtotalOf`, `TaxOf` and `TotalOf`. Then come the classes `CartItem` and
  `Cart`. `AddItemByQuantity` is a method with a loop. It is proved to leave
  `Lines()` equal to `AfterAdd(old(Lines()), ...)`.
- `CartRepository.cs` becomes `CartRepository.dfy` (module `CartRepositories`).
  It is a class with a `const cart: Cart`.

Modelling assumptions:

- Integers and amounts are unbounded. `decimal` overflow and `int` wrap-around of
  `Quantity += quantity` are not modelled.
- `Decimal` equality is numeric, so `10.0m` equals `10.00m`. The scale a `decimal`
  carries is not modelled.
- `string.GetHashCode` and `decimal.GetHashCode` are parameters of the hash
  functions (`string -> Int32`, `real -> Int32`). `string.GetHashCode` is
  randomised per process. The `17`/`23` combination is modelled with explicit
  32-bit wrap-around (`Wrap32`).
- `string.IsNullOrWhiteSpace` uses the characters for which .NET's
  `Char.IsWhiteSpace` holds, the Unicode White_Space set.
- `CartItem.IncreaseQuantity` is public, and `Cart.Items` exposes the cart's own
  item objects, so any caller can change a quantity by any amount. "Every
  quantity is at least 1" is therefore not an object invariant of `Cart`. It is
  proved for each add (`Cart.AddItemByQuantity` keeps it) and for every cart
  built from empty by adds (`ReplayWellFormed`). Distinct titles, which no
  caller can break, are part of `Cart.Valid()`.

## Model

| member | source | states |
|---|---|---|
| Money.RoundHalfEven | EqualExpertsShoppingCart/Models/Product.cs:62 | the result is the integer nearest its argument, and the even one at a tie |
| Money.NearestEvenUnique | EqualExpertsShoppingCart/Models/Product.cs:62 | only one integer is nearest with ties to even, so the rounding is fully determined by its contract |
| Money.Round2 | EqualExpertsShoppingCart/Models/Product.cs:62 | two-decimal rounding gives a whole number of cents, within half a cent of the input, ties to the even cent |
| Money.Round2TiesToEven | EqualExpertsShoppingCart/Models/Cart.cs:9 | midpoints go to the even cent: 0.005 to 0.00, 0.015 and 0.025 to 0.02, 0.125 to 0.12 |
| Money.Round2OfTwoDecimal | EqualExpertsShoppingCart/Models/Cart.cs:8 | rounding an amount that already has two decimals returns it unchanged |
| Money.Round2Idempotent | EqualExpertsShoppingCart/Models/Cart.cs:8-10 | rounding twice is the same as rounding once |
| Money.Round2Monotone | EqualExpertsShoppingCart/Models/Cart.cs:9 | rounding preserves order |
| Money.Round2NonNegative | EqualExpertsShoppingCart/Models/Product.cs:15-21 | a non-negative amount never rounds to a negative one |
| Money.TwoDecimalAdd | EqualExpertsShoppingCart/Models/Cart.cs:8 | the sum of two two-decimal amounts has two decimals |
| Products.NewPrice | EqualExpertsShoppingCart/Models/Product.cs:60-63 | the stored amount is the input to the nearest cent, with ties to the even cent; it is non-negative for a non-negative input and equals an input that already has two decimals |
| Products.Price.Equals | EqualExpertsShoppingCart/Models/Product.cs:65-74 | true exactly when the argument is a Price with the same amount; false for null and for other types |
| Products.PriceOpEquals | EqualExpertsShoppingCart/Models/Product.cs:76-79 | `==` is true when both sides are null, or both are Prices with the same amount, that is, for equal values |
| Products.PriceOpNotEquals | EqualExpertsShoppingCart/Models/Product.cs:81-84 | `!=` is true when exactly one side is null or the amounts differ, that is, for different values |
| Products.Price.HashCode | EqualExpertsShoppingCart/Models/Product.cs:86-89 | the hash of a Price is the decimal hash of its amount, with the decimal hash function as a parameter |
| Products.PriceEqualsIsEquivalence | EqualExpertsShoppingCart/Models/Product.cs:73 | Price equality is reflexive, symmetric and transitive |
| Products.PriceHashConsistent | EqualExpertsShoppingCart/Models/Product.cs:86-89 | equal Prices have equal hash codes for any decimal hash |
| Products.Wrap32 | EqualExpertsShoppingCart/Models/Product.cs:47-52 | unchecked arithmetic gives a 32-bit value congruent to the exact result modulo 2^32 |
| Products.NewProduct | EqualExpertsShoppingCart/Models/Product.cs:8-22 | fails exactly when the title is null, empty or whitespace, or the amount is negative; the title is checked first and the sign is checked on the unrounded amount; on success it stores the title and the rounded price, and the product is valid |
| Products.Product.Equals | EqualExpertsShoppingCart/Models/Product.cs:24-33 | true exactly for a Product with the same title and an equal price, that is, for the same value; false for null and for other types |
| Products.ProductOpEquals | EqualExpertsShoppingCart/Models/Product.cs:35-38 | `==` holds exactly when both sides are null or are equal products |
| Products.ProductOpNotEquals | EqualExpertsShoppingCart/Models/Product.cs:40-43 | `!=` is true when exactly one side is null or the titles or amounts differ, that is, for different values |
| Products.Product.HashCode | EqualExpertsShoppingCart/Models/Product.cs:45-54 | the 17/23 combination in unchecked arithmetic equals `17 * 23 * 23 + 23 * h(title) + h(price)` modulo 2^32, with the string and decimal hash functions as parameters |
| Products.ProductEqualsIsEquivalence | EqualExpertsShoppingCart/Models/Product.cs:32 | Product equality is reflexive, symmetric and transitive |
| Products.ProductHashConsistent | EqualExpertsShoppingCart/Models/Product.cs:45-54 | equal Products have equal hash codes for any string and decimal hashes |
| Products.NewProductEquality | EqualExpertsShoppingCart/Models/Product.cs:20-32 | two constructed products are equal iff their titles are equal and their rounded amounts are equal |
| Products.NewProductExamples | EqualExpertsShoppingCartTests/Models/ProductModelUnitTests.cs:10-111 | examples of the constructor and of equality: 10.066666 is stored as 10.07, ("Test", 10.0) equals itself and differs from ("Test1", 5.0); an empty, blank or null title and a negative amount are rejected with the matching reason |
| Carts.FirstWithTitle | EqualExpertsShoppingCart/Models/Cart.cs:30 | returns the first index whose product has the given title, or none when no line has it |
| Carts.CheckAdd | EqualExpertsShoppingCart/Models/Cart.cs:20-28 | an add is rejected exactly when the quantity is below one or the product is null, and the quantity error takes precedence |
| Carts.AddLine | EqualExpertsShoppingCart/Models/Cart.cs:30-40 | a valid add grows the cart by at most one line and keeps every existing line's product in its place |
| Carts.AfterAdd | EqualExpertsShoppingCart/Models/Cart.cs:18-41 | a rejected add leaves the lines unchanged |
| Carts.AddExistingTitle | EqualExpertsShoppingCart/Models/Cart.cs:30-35 | when a line has the title, only the first such line changes: its quantity grows by the added quantity and its stored product (and price) is kept, even if the incoming price differs |
| Carts.AddNewTitle | EqualExpertsShoppingCart/Models/Cart.cs:36-40 | when no line has the title, the product is appended with its quantity at the end |
| Carts.AddTitles | EqualExpertsShoppingCart/Models/Cart.cs:30-40 | after a valid add, the cart's titles are the old titles plus the product's title |
| Carts.AddPreservesDistinctTitles | EqualExpertsShoppingCart/Models/Cart.cs:30-40 | every add keeps titles pairwise distinct |
| Carts.AddPreservesPositiveQuantities | EqualExpertsShoppingCart/Models/Cart.cs:20-40 | every add keeps all quantities at least one |
| Carts.AddPreservesWellFormed | EqualExpertsShoppingCart/Models/Cart.cs:18-41 | every add keeps both invariants |
| Carts.ReplayWellFormed | EqualExpertsShoppingCart/Models/Cart.cs:13-41 | every cart built from the empty cart by any sequence of adds has distinct titles and quantities of at least one |
| Carts.AggregationExample | EqualExpertsShoppingCartTests/Models/CartModelUnitTests.cs:90-110 | adding P x 2, Q x 1, then P x 1 gives exactly [P x 3, Q x 1] |
| Carts.LineTotal | EqualExpertsShoppingCart/Models/Cart.cs:57 | a line total is price times quantity to the nearest cent, with ties to the even cent |
| Carts.SumTotals | EqualExpertsShoppingCart/Models/Cart.cs:8 | the sum of the line totals has two decimals |
| Carts.SubtotalOf | EqualExpertsShoppingCart/Models/Cart.cs:8 | the subtotal is exactly the sum of the rounded line totals, because the outer rounding never changes it |
| Carts.TaxOf | EqualExpertsShoppingCart/Models/Cart.cs:9 | the tax is 12.5% of the subtotal to the nearest cent, with ties to the even cent |
| Carts.TotalOf | EqualExpertsShoppingCart/Models/Cart.cs:10 | the total is exactly the subtotal plus the tax |
| Carts.SumTotalsAppend | EqualExpertsShoppingCart/Models/Cart.cs:8 | appending a line adds its total to the sum |
| Carts.SumTotalsUpdate | EqualExpertsShoppingCart/Models/Cart.cs:8 | replacing one line changes the sum by the difference of the two line totals |
| Carts.AddSubtotal | EqualExpertsShoppingCart/Models/Cart.cs:30-40 | a valid add raises the subtotal by the new line's total, or by the change in the merged line's total |
| Carts.TotalsNonNegative | EqualExpertsShoppingCart/Models/Cart.cs:8-10 | non-negative prices and quantities give a non-negative subtotal and tax, and a total no smaller than the subtotal |
| Carts.EmptyCartTotals | EqualExpertsShoppingCartTests/Models/CartModelUnitTests.cs:234-245 | the empty cart has subtotal, tax and total 0 |
| Carts.LineTotalExamples | EqualExpertsShoppingCartTests/Models/CartModelUnitTests.cs:159-556 | 10.00 x 2 totals 20.00; 10.066666 x 1 totals 10.07; a 10.00 item gives subtotal 10.00, tax 1.25 and total 11.25; a 10.066666 item gives total 11.33 |
| Carts.TaxTieExample | EqualExpertsShoppingCart/Models/Cart.cs:9-10 | a 0.04 subtotal has tax 0.00 (0.005 goes to the even cent) and total 0.04 |
| Carts.CornflakesAndWeetabixTotals | EqualExpertsShoppingCartIntegrationTests/Services/CartServiceIntegrationTests.cs:62-83 | Corn Flakes 2.52 x 2 and Weetabix 9.98 x 1 give subtotal 15.02, tax 1.88 and total 16.90 |
| Carts.Snapshot | EqualExpertsShoppingCart/Models/Cart.cs:6 | the values held by a list of item objects, index by index |
| Carts.CartItem.constructor | EqualExpertsShoppingCart/Models/Cart.cs:59-63 | stores the product, which never changes afterwards, and the quantity |
| Carts.CartItem.TotalPrice | EqualExpertsShoppingCart/Models/Cart.cs:57 | the item's total is its price times its current quantity to the nearest cent, with ties to the even cent |
| Carts.CartItem.IncreaseQuantity | EqualExpertsShoppingCart/Models/Cart.cs:65-68 | the quantity grows by the argument, of any sign, and nothing else changes |
| Carts.CartItem.DecreaseQuantity | EqualExpertsShoppingCart/Models/Cart.cs:70-73 | always fails as not implemented and changes nothing |
| Carts.Cart.constructor | EqualExpertsShoppingCart/Models/Cart.cs:13-16 | a new cart is empty |
| Carts.Cart.Items | EqualExpertsShoppingCart/Models/Cart.cs:6 | the cart's own item objects, in their current order |
| Carts.Cart.Subtotal | EqualExpertsShoppingCart/Models/Cart.cs:8 | the subtotal read from the cart is the sum of its current line totals |
| Carts.Cart.Tax | EqualExpertsShoppingCart/Models/Cart.cs:9 | the tax read from the cart is the tax of its current lines |
| Carts.Cart.Total | EqualExpertsShoppingCart/Models/Cart.cs:10 | the total read from the cart is its subtotal plus its tax |
| Carts.Cart.AddItemByQuantity | EqualExpertsShoppingCart/Models/Cart.cs:18-41 | returns the argument error of `CheckAdd`, with the quantity checked first; the new lines are `AfterAdd` of the old ones, so a rejected add changes nothing; existing item objects stay in place and a new item is fresh; distinct titles and positive quantities are kept |
| Carts.Cart.RemoveItemByQuantity | EqualExpertsShoppingCart/Models/Cart.cs:43-46 | always fails as not implemented and changes nothing |
| Carts.Cart.RemoveItemByProduct | EqualExpertsShoppingCart/Models/Cart.cs:48-51 | always fails as not implemented and changes nothing |
| CartRepositories.CartRepository.constructor | EqualExpertsShoppingCart/Repositories/CartRepository.cs:10-13 | a new repository holds a new, empty cart |
| CartRepositories.CartRepository.GetCart | EqualExpertsShoppingCart/Repositories/CartRepository.cs:15-18 | returns the repository's own cart object |
| CartRepositories.CartRepository.AddItemByQuantity | EqualExpertsShoppingCart/Repositories/CartRepository.cs:20-31 | has exactly the effect of `Cart.AddItemByQuantity` on the held cart and returns its argument error unchanged; the quantity defaults to 1 |
| CartRepositories.CartRepository.RemoveItemFromCart | EqualExpertsShoppingCart/Repositories/CartRepository.cs:33-36 | always fails as not implemented and changes nothing |
| CartRepositories.CartRepository.GetCartItems | EqualExpertsShoppingCart/Repositories/CartRepository.cs:38-41 | returns a new list of the cart's current item objects in the same order, whose values are the cart's lines |
| CartRepositories.RepositoryScenario | EqualExpertsShoppingCartTests/Repositories/CartRepositoryTests.cs:32-81 | adding P x 2, Q with the default quantity, then P x 1 succeeds and leaves exactly [P x 3, Q x 1] in the repository's cart |
| CartRepositories.RepositoryRejectsScenario | EqualExpertsShoppingCartTests/Repositories/CartRepositoryTests.cs:50-61 | a zero quantity, a null product and both together are rejected with the quantity error first, and the cart stays empty |

## Left out

- `Console.WriteLine` in `CartRepository.AddItemByQuantity` (CartRepository.cs:28) is I/O and is not modelled. The error is still passed on unchanged.
- Concrete hash values are not modelled. `string.GetHashCode` is randomised per process and `decimal.GetHashCode` is a library detail. Both are parameters. Different products are not claimed to have different hashes.
- Overflow is not modelled. `decimal` overflow and 32-bit wrap-around of `Quantity += quantity` are left out, because amounts and quantities are unbounded.
- The scale of a `decimal` (`10.0m` and `10.00m` print differently) is not modelled. Only numeric values are.
- Mocking is not modelled. The tests' `Mock<Product>` objects behave as real products, because the members used are non-virtual.
- ProductRepository, ProductService and CartService are not part of this model. They do HTTP fetching, JSON decoding, console output and async orchestration. A product lookup enters the model only as an `Option<Product>` argument.
- The interfaces (`ICartRepository`, `IProductRepository`, `IProductService`) and the dependency-injection wiring have no logic to model.
- Carts.CartItem.constructor does not check the quantity, just as the source does not. The `internal` constructor is only called by `AddItemByQuantity` after its check.
- Carts.Cart.Items returns the current item objects as a value. The C# read-only wrapper is a live view of the list: a caller that keeps it also sees items appended later. That aliasing of the list itself is not modelled. The item objects are still shared, so later quantity changes are visible.
