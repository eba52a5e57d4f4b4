/** The checkout session store (src/features/checkout/store/checkoutStore.ts):
    four nullable slots, each written only through its own setter. Step data
    are the form value records the steps commit. */
module CheckoutStore {
  import opened Wrappers
  import opened Validation

  /** What `getState` exposes. */
  datatype Session = Session(account: Option<Record>, shipping: Option<Record>,
                             payment: Option<Record>, orderId: Option<string>)

  const EmptySession := Session(None, None, None, None)

  class Store {
    var account: Option<Record>
    var shipping: Option<Record>
    var payment: Option<Record>
    var orderId: Option<string>

    function State(): Session
      reads this
    {
      Session(account, shipping, payment, orderId)
    }

    /** The store as created: every slot null. */
    constructor ()
      ensures State() == EmptySession
    {
      account, shipping, payment, orderId := None, None, None, None;
    }

    method SetAccount(data: Record)
      modifies this
      ensures State() == old(State()).(account := Some(data))
    {
      account := Some(data);
    }

    method SetShipping(data: Record)
      modifies this
      ensures State() == old(State()).(shipping := Some(data))
    {
      shipping := Some(data);
    }

    method SetPayment(data: Record)
      modifies this
      ensures State() == old(State()).(payment := Some(data))
    {
      payment := Some(data);
    }

    method SetOrderId(id: string)
      modifies this
      ensures State() == old(State()).(orderId := Some(id))
    {
      orderId := Some(id);
    }

    /** `reset`: every slot back to null. */
    method Reset()
      modifies this
      ensures State() == EmptySession
    {
      account, shipping, payment, orderId := None, None, None, None;
    }

    /** `getState`: the current slots; nothing changes. */
    method GetState() returns (s: Session)
      ensures s.account == account && s.shipping == shipping
      ensures s.payment == payment && s.orderId == orderId
    {
      s := State();
    }
  }
}
