# Stock-guarded shopping cart, modelled in Dafny

This project models the core of a small Go shop: a **product** with a
guarded stock decrement, and a **cart** that copies each product added to it,
decrements the copy's stock, keeps the copies in insertion order, and at
checkout adds up their prices and pays that total through the payment
provider it was created with.

- `models.dfy` (module `Models`): class `Product`. `ID`, `name` and `price`
  are `const`, because the Go code sets them only in `NewProduct`. `stock` is
  the one mutable field. `Name()` and `Price()` are functions that return
  the stored fields. They read no heap state because `name` and `price` are
  `const`. The Go getters have value receivers, so they cannot change the
  product. `ReduceStock` is a method that modifies only the product.
- `payment.dfy` (module `Payment`): class `PaymentProvider`, the capability a
  cart is bound to. It has the two variants `Bkash` and `Stripe`. `paid`
  records every amount passed to `Pay`, and stands for the confirmation line
  that each variant prints. Both variants return a nil error.
- `service.dfy` (module `Service`): the fold `Total`, the counter
  `Successes`, and class `Cart`. The object invariant `Valid()` says two
  things: every stored copy has stock ≥ 0, and `|items|` equals the number of
  successful `AddItem` calls. The calls are recorded in the ghost field
  `outcomes`.
- `scenarios.dfy` (module `Scenarios`): the program's single scripted run,
  and an added scenario in which a product that is out of stock is refused.

Go passes a `models.Product` *by value* into `AddItem`. `ReduceStock(1)`
therefore acts on a copy, and that copy, one unit lighter, is what gets
appended. The model reproduces this by allocating a fresh copy inside
`AddItem`, which modifies only the cart. As a result, the caller's product,
including its stock, is provably unchanged. In the scripted run, the
caller's shirt stays at 10 units while the cart's copy holds 9.

## Model

| member | source | states |
|---|---|---|
| Models.Product.constructor | models/product.go:15-17 | `ID`, `Name()`, `Price()` and `stock` equal the arguments; nothing is validated |
| Models.Product.Name | models/product.go:20-22 | returns the stored name; reads and changes nothing |
| Models.Product.Price | models/product.go:25-27 | returns the stored price; reads and changes nothing |
| Models.Product.ReduceStock | models/product.go:30-36 | succeeds exactly when `amount <= old stock`; on success stock drops by `amount`, on refusal stock is unchanged; ID, name and price never change (constants); a non-negative stock stays non-negative whatever the amount; for non-negative stock, success holds exactly when stock changed or `amount == 0` |
| Payment.PaymentProvider.constructor | payment/bkash.go:9 | a provider of the given kind (the `Bkash{}` value built at main.go:19, or `Stripe{}` at payment/stripe.go:9) with an empty payment record |
| Payment.PaymentProvider.Pay | payment/bkash.go:12-15 | records exactly one payment of `amount` at the end of the provider's record and reports no error; the Stripe variant at payment/stripe.go:12-15 behaves the same way, and both return nil |
| Service.Total | service/cart_service.go:35-38 | the insertion-order sum of `Price()` over the items; an empty cart totals 0; non-negative prices give a non-negative total |
| Service.TotalAppend | service/cart_service.go:35-38 | the total of a concatenation is the sum of the totals |
| Service.TotalOrderIndependent | service/cart_service.go:35-38 | two item lists with the same items, each as often, have the same total, so the total does not depend on insertion order |
| Service.Successes | service/cart_service.go:24-31 | counts the `AddItem` calls whose stock check succeeded. The cart invariant `Cart.Valid` equates `\|items\|` with this count over the recorded outcomes. `Cart.constructor` establishes the invariant and `Cart.AddItem` preserves it, so the cart holds exactly one item per successful add. The count never exceeds the number of calls |
| Service.Cart.constructor | service/cart_service.go:19-21 | a new cart has no items, is bound to the given provider, and satisfies the cart invariant |
| Service.Cart.AddItem | service/cart_service.go:24-31 | with caller stock ≥ 1, appends exactly one fresh copy that has the same ID, name and price and stock one lower, leaving earlier items unchanged; with stock < 1, `items` is unchanged; either way the caller's product keeps its stock, and the invariant (item count = successful adds, every stored copy has stock ≥ 0) is preserved |
| Service.Cart.Checkout | service/cart_service.go:34-40 | calls `Pay` exactly once with the insertion-order total of the items, ignores its error, and leaves `items` and the bound provider unchanged |
| Service.CheckoutTwice | service/cart_service.go:34-40 | two checkouts in a row pay the same total twice |
| Scenarios.ShirtAndPant | main.go:13-26 | shirt (500, 10) and pant (800, 5) are both added; the cart's copies hold 9 and 4 units; the caller's products keep 10 and 5; checkout pays 1300 once |
| Scenarios.HatOutOfStock | service/cart_service.go:25-29 | a product with stock 0 is refused; the cart stays empty, the product keeps stock 0, and checkout pays 0 |

## Left out

- Console output: the "Added:", "Out of stock:" and "Paid With …" lines. A payment is observed only through the provider's `paid` record.
- `float64` arithmetic: prices and the checkout accumulator are exact integers, so rounding is not modelled.
- The `PaymentProvider` interface is not modelled as an open interface. It is one class with a closed set of variants (`Bkash`, `Stripe`). A provider whose `Pay` fails is therefore not modelled, and no variant in the code has one.
- Go lets other code reassign the exported `ID` field and the cart's `payment` field. The code never does this, and the model declares both fields `const`.
- The repository stubs (`BaseRepo`, `ProductRepo`) and the payment variants' printing are not part of this model.
- Models.Product.ReduceStock: stock is an unbounded integer. On 64-bit platforms Go's `int` is 64 bits wide, and the wrap-around of `stock -= amount` when amount ≤ stock − 2^63 is not modelled. An example is stock 0 and amount −2^63, where Go stores a negative stock. `AddItem` always passes 1, so it never reaches this case.
- Models.Product.ReduceStock: the property "success exactly when stock changed or amount is 0" is stated only for non-negative stock. With stock −1 and amount 0, the call is refused even though the amount is 0.
