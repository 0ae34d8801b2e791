// The payment capability a cart is bound to.

module Payment {

  /** The two providers of the shop. They differ only in the label of the
      confirmation line they print. */
  datatype Kind = Bkash | Stripe

  /** A payment provider. `paid` records, in order, every amount passed to
      Pay: it stands for the confirmation lines the provider prints and is
      the only trace a payment leaves. */
  class PaymentProvider {
    const kind: Kind
    var paid: seq<int>

    constructor (kind: Kind)
      ensures this.kind == kind && paid == []
    {
      this.kind := kind;
      paid := [];
    }

    /** Pays `amount`. The result is the error value: both providers report
        no error (`false`) for every amount. */
    method Pay(amount: int) returns (failed: bool)
      modifies this
      ensures paid == old(paid) + [amount]
      ensures !failed
    {
      paid := paid + [amount];
      failed := false;
    }
  }
}
