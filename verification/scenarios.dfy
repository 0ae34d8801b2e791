// The program's scripted run, and an added scenario in which a product that
// is out of stock is refused, stated as what the model guarantees about them.

module Scenarios {
  import opened Models
  import opened Payment
  import opened Service

  /** The scripted run: a shirt (500, 10 in stock) and a pant (800, 5 in
      stock), a Bkash cart, both added, one checkout. Both adds succeed, the
      cart's copies are one unit lighter, the caller's products keep their
      stock because they are passed by value, and 1300 is paid once. */
  method ShirtAndPant() returns (shirtStock: int, pantStock: int, stored: seq<int>, paid: seq<int>)
    ensures shirtStock == 10 && pantStock == 5
    ensures stored == [9, 4]
    ensures paid == [1300]
  {
    var shirt := new Product(1, "Shirt", 500, 10);
    var pant := new Product(2, "Pant", 800, 5);
    var bkash := new PaymentProvider(Bkash);
    var cart := new Cart(bkash);
    cart.AddItem(shirt);
    cart.AddItem(pant);
    assert |cart.items| == 2 && cart.items[..1] == [cart.items[0]];
    assert Total(cart.items[..1]) == 500;
    assert Total(cart.items) == 1300;
    cart.Checkout();
    shirtStock, pantStock := shirt.stock, pant.stock;
    stored := [cart.items[0].stock, cart.items[1].stock];
    paid := bkash.paid;
  }

  /** A hat with no stock: the add is refused, the cart stays empty, the
      hat's stock stays 0, and checkout pays 0. */
  method HatOutOfStock() returns (hatStock: int, count: nat, paid: seq<int>)
    ensures hatStock == 0 && count == 0
    ensures paid == [0]
  {
    var hat := new Product(3, "Hat", 200, 0);
    var stripe := new PaymentProvider(Stripe);
    var cart := new Cart(stripe);
    cart.AddItem(hat);
    cart.Checkout();
    hatStock, count, paid := hat.stock, |cart.items|, stripe.paid;
  }
}
