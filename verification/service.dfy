// The shopping cart: a growing list of product copies bound to one payment
// provider, totalled and paid at checkout.

module Service {
  import opened Models
  import opened Payment

  /** Sum of the prices of `items`, added up in insertion order (the fold
      Checkout performs). An empty list totals 0; prices that are all
      non-negative give a non-negative total. */
  function Total(items: seq<Product>): (r: int)
    ensures (forall i :: 0 <= i < |items| ==> items[i].Price() >= 0) ==> r >= 0
  {
    if items == [] then 0
    else Total(items[..|items| - 1]) + items[|items| - 1].Price()
  }

  /** Totals split over concatenation. */
  lemma {:induction false} TotalAppend(a: seq<Product>, b: seq<Product>)
    ensures Total(a + b) == Total(a) + Total(b)
    decreases |b|
  {
    if b == [] {
      assert a + b == a;
    } else {
      var b' := b[..|b| - 1];
      TotalAppend(a, b');
      assert (a + b)[..|a + b| - 1] == a + b';
    }
  }

  /** Taking one item out of the middle of a list lowers its total by that
      item's price. */
  lemma TotalRemove(left: seq<Product>, x: Product, right: seq<Product>)
    ensures Total(left + [x] + right) == Total(left + right) + x.Price()
  {
    TotalAppend(left, right);
    TotalAppend(left + [x], right);
    assert (left + [x])[..|left + [x]| - 1] == left;
  }

  /** Removing the same item from two lists with equal multisets leaves
      lists with equal multisets. */
  lemma MultisetRemove(a: seq<Product>, x: Product, left: seq<Product>, right: seq<Product>)
    requires multiset(a + [x]) == multiset(left + [x] + right)
    ensures multiset(a) == multiset(left + right)
  {
    calc {
      multiset(a);
      multiset(a + [x]) - multiset{x};
      multiset(left + [x] + right) - multiset{x};
      multiset(left) + multiset(right);
      multiset(left + right);
    }
  }

  /** The total does not depend on the order of the items: any two lists
      holding the same items, each as often, total the same. */
  lemma {:induction false} TotalOrderIndependent(a: seq<Product>, b: seq<Product>)
    requires multiset(a) == multiset(b)
    ensures Total(a) == Total(b)
    decreases |a|
  {
    if a == [] {
      assert |b| == |multiset(b)| == 0;
    } else {
      var x, a' := a[|a| - 1], a[..|a| - 1];
      assert a == a' + [x];
      assert x in multiset(b);
      var k :| 0 <= k < |b| && b[k] == x;
      var left, right := b[..k], b[k + 1..];
      assert b == left + [x] + right;
      MultisetRemove(a', x, left, right);
      TotalOrderIndependent(a', left + right);
      TotalRemove(left, x, right);
    }
  }

  /** Number of `true` entries: how many AddItem calls succeeded. It never
      exceeds the number of calls. */
  function Successes(outcomes: seq<bool>): (n: nat)
    ensures n <= |outcomes|
  {
    if outcomes == [] then 0
    else Successes(outcomes[..|outcomes| - 1]) + (if outcomes[|outcomes| - 1] then 1 else 0)
  }

  /** A cart. `items` holds the cart's own copies of the products added, in
      insertion order; `payment` is the provider chosen at construction.
      Ghost state: `outcomes` is the result of the stock check of every
      AddItem call so far, and `Repr` the product copies the cart owns. */
  class Cart {
    var items: seq<Product>
    const payment: PaymentProvider
    ghost var outcomes: seq<bool>
    ghost var Repr: set<Product>

    /** Every stored copy is owned by the cart and was taken when at least
        one unit was in stock; the cart holds one item per successful add. */
    ghost predicate Valid()
      reads this, Repr
    {
      (forall i :: 0 <= i < |items| ==> items[i] in Repr && items[i].stock >= 0) &&
      |items| == Successes(outcomes)
    }

    /** NewCart: an empty cart bound to `p`. */
    constructor (p: PaymentProvider)
      ensures Valid()
      ensures items == [] && payment == p && outcomes == [] && Repr == {}
    {
      items := [];
      payment := p;
      outcomes := [];
      Repr := {};
    }

    /** Adds one unit of `p`. The product arrives by value, so the stock
        check and decrement happen on a copy; on success that copy, one unit
        lighter, is appended, otherwise nothing is stored. The caller's
        product is never changed. */
    method AddItem(p: Product)
      requires Valid()
      modifies this
      ensures Valid() && fresh(Repr - old(Repr))
      ensures outcomes == old(outcomes) + [old(p.stock) >= 1]
      ensures p.stock == old(p.stock)
      ensures old(p.stock) >= 1 ==>
        && |items| == |old(items)| + 1
        && items[..|old(items)|] == old(items)
        && fresh(items[|items| - 1])
        && items[|items| - 1].ID == p.ID
        && items[|items| - 1].Name() == p.Name()
        && items[|items| - 1].Price() == p.Price()
        && items[|items| - 1].stock == p.stock - 1
      ensures old(p.stock) < 1 ==> items == old(items)
      ensures forall i :: 0 <= i < |old(items)| ==> items[i].stock == old(items[i].stock)
    {
      var copy := new Product(p.ID, p.Name(), p.Price(), p.stock);
      var ok := copy.ReduceStock(1);
      if ok {
        items := items + [copy];
        Repr := Repr + {copy};
      }
      outcomes := outcomes + [ok];
    }

    /** Totals the prices of the items in insertion order and pays that
        total through the bound provider, exactly once. The provider's error
        result is ignored, and the cart itself is left as it was, so a
        second checkout pays the same total again. */
    method Checkout()
      modifies payment
      ensures payment.paid == old(payment.paid) + [Total(items)]
      ensures items == old(items)
    {
      var total := 0;
      for i := 0 to |items|
        invariant total == Total(items[..i])
      {
        assert items[..i + 1][..i] == items[..i];
        total := total + items[i].Price();
      }
      assert items[..|items|] == items;
      var _ := payment.Pay(total);
    }
  }

  /** Checkout keeps nothing between calls: two checkouts in a row pay the
      cart's total twice. */
  method CheckoutTwice(c: Cart)
    modifies c.payment
    ensures c.payment.paid == old(c.payment.paid) + [Total(c.items), Total(c.items)]
  {
    c.Checkout();
    c.Checkout();
  }
}
