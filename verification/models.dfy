// Products of the shop: identity, name and price fixed when the product is
// created, and a stock that only ReduceStock changes.

module Models {

  /** A product. `ID`, `name` and `price` are set once by the constructor and
      never assigned again, so they are constants here; `stock` is the one
      field that changes, through ReduceStock. Prices are exact integers. */
  class Product {
    const ID: int
    const name: string
    const price: int
    var stock: int

    /** NewProduct: takes every argument as given, without validation
        (a negative price or stock is accepted). */
    constructor (id: int, name: string, price: int, stock: int)
      ensures ID == id && Name() == name && Price() == price
      ensures this.stock == stock
    {
      ID := id;
      this.name := name;
      this.price := price;
      this.stock := stock;
    }

    /** The product's name; reads and changes nothing. */
    function Name(): (n: string) { name }

    /** The product's price; reads and changes nothing. */
    function Price(): (p: int) { price }

    /** Takes `amount` units out of stock when there are enough of them.
        A request for more than the stock is refused and changes nothing.
        The amount is not validated: a negative amount not above the stock
        (any negative amount when the stock is non-negative) succeeds and, on
        unbounded integers, raises the stock (the 64-bit wrap-around of the
        subtraction is not modelled). */
    method ReduceStock(amount: int) returns (ok: bool)
      modifies this
      ensures ok <==> amount <= old(stock)
      ensures ok ==> stock == old(stock) - amount
      ensures !ok ==> stock == old(stock)
      ensures old(stock) >= 0 ==> stock >= 0
      ensures old(stock) >= 0 ==> (ok <==> stock != old(stock) || amount == 0)
    {
      if amount > stock {
        return false;
      }
      stock := stock - amount;
      return true;
    }
  }
}
