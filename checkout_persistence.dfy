/** The persistence adapter (src/features/checkout/hooks/useCheckoutPersistence.ts)
    over browser storage (src/lib/storage.ts). Storage is a map from keys to
    what `JSON.parse` gives back; the round trip through JSON of records of
    strings is the identity, so a saved draft is stored as the value itself. */
module CheckoutPersistence {
  import opened Wrappers
  import opened Validation
  import opened CheckoutStore

  /** `CHECKOUT_KEY`. */
  const CheckoutKey := "checkout-draft"

  /** A stored value as read back: a draft object whose slots are records or
      null, or anything that is not an object (null, a string, a number, an
      entry that failed to parse). */
  datatype Stored = NonObject | Draft(account: Option<Record>, shipping: Option<Record>, payment: Option<Record>)

  /** `localStorage`. A failed write (quota, disabled storage) is modelled by
      `writable == false` and changes nothing. */
  class LocalStorage {
    var items: map<string, Stored>

    constructor (items: map<string, Stored>)
      ensures this.items == items
    {
      this.items := items;
    }

    /** `storage.get`: null for a missing key. */
    method Get(key: string) returns (value: Option<Stored>)
      ensures value == if key in items then Some(items[key]) else None
    {
      value := if key in items then Some(items[key]) else None;
    }

    /** `storage.set`: a write that throws is caught and ignored. */
    method Set(key: string, value: Stored, writable: bool)
      modifies this
      ensures items == if writable then old(items)[key := value] else old(items)
    {
      if writable {
        items := items[key := value];
      }
    }

    /** `storage.remove`. */
    method Remove(key: string)
      modifies this
      ensures items == old(items) - {key}
    {
      items := items - {key};
    }
  }

  /** The session after the load effect read `saved`: only present (truthy)
      account, shipping and payment slots are set; `orderId` is never touched. */
  function Restored(s: Session, saved: Option<Stored>): Session {
    match saved
    case Some(Draft(a, sh, p)) =>
      Session(if a.Some? then a else s.account,
              if sh.Some? then sh else s.shipping,
              if p.Some? then p else s.payment,
              s.orderId)
    case _ => s
  }

  /** What the save effect writes: exactly the three step slots, never `orderId`. */
  function SnapshotOf(s: Session): Stored {
    Draft(s.account, s.shipping, s.payment)
  }

  /** The load effect. */
  method Load(store: Store, storage: LocalStorage)
    modifies store
    ensures store.State() == Restored(old(store.State()),
                                      if CheckoutKey in storage.items then Some(storage.items[CheckoutKey]) else None)
  {
    var saved := storage.Get(CheckoutKey);
    if saved.Some? && saved.value.Draft? {
      var data := saved.value;
      if data.account.Some? { store.SetAccount(data.account.value); }
      if data.shipping.Some? { store.SetShipping(data.shipping.value); }
      if data.payment.Some? { store.SetPayment(data.payment.value); }
    }
  }

  /** The save effect: the draft under the checkout key is overwritten whole. */
  method Save(store: Store, storage: LocalStorage, writable: bool)
    modifies storage
    ensures storage.items == if writable then old(storage.items)[CheckoutKey := SnapshotOf(store.State())]
                             else old(storage.items)
  {
    storage.Set(CheckoutKey, Draft(store.account, store.shipping, store.payment), writable);
  }

  /** `clearPersistedData`: removes the checkout key and no other. */
  method ClearPersistedData(storage: LocalStorage)
    modifies storage
    ensures storage.items == old(storage.items) - {CheckoutKey}
  {
    storage.Remove(CheckoutKey);
  }

  /** Nothing saved, or something that is not an object: the session is kept. */
  lemma LoadIgnoresNonDrafts(s: Session)
    ensures Restored(s, None) == s && Restored(s, Some(NonObject)) == s
  {
  }

  /** Loading never writes `orderId`, and a slot the draft lacks keeps its value. */
  lemma LoadIsSelective(s: Session, saved: Option<Stored>)
    ensures Restored(s, saved).orderId == s.orderId
    ensures (saved.None? || saved.value.NonObject? || saved.value.account.None?) ==> Restored(s, saved).account == s.account
    ensures (saved.None? || saved.value.NonObject? || saved.value.shipping.None?) ==> Restored(s, saved).shipping == s.shipping
    ensures (saved.None? || saved.value.NonObject? || saved.value.payment.None?) ==> Restored(s, saved).payment == s.payment
  {
  }

  /** Save then load (into any session) brings back every non-null step slot
      of the saved session as it was, and keeps the loading session's order id. */
  lemma SaveThenLoad(saved: Session, current: Session)
    ensures var r := Restored(current, Some(SnapshotOf(saved)));
      && (saved.account.Some? ==> r.account == saved.account)
      && (saved.shipping.Some? ==> r.shipping == saved.shipping)
      && (saved.payment.Some? ==> r.payment == saved.payment)
      && r.orderId == current.orderId
  {
  }

  /** After a reload the order id is gone even when it was set before saving. */
  lemma OrderIdNotResurrected(saved: Session)
    ensures Restored(EmptySession, Some(SnapshotOf(saved))).orderId == None
  {
  }

  /** A round trip through real storage objects: save a store, load into a
      fresh one, and every committed step slot is back, the order id is not. */
  method SaveAndReload(store: Store, storage: LocalStorage) returns (reloaded: Store)
    modifies storage
    ensures fresh(reloaded)
    ensures store.account.Some? ==> reloaded.account == store.account
    ensures store.shipping.Some? ==> reloaded.shipping == store.shipping
    ensures store.payment.Some? ==> reloaded.payment == store.payment
    ensures reloaded.orderId == None
  {
    Save(store, storage, true);
    reloaded := new Store();
    Load(reloaded, storage);
  }
}
