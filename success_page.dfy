/** The success page (src/features/checkout/pages/SuccessPage.tsx): the
    guard against arriving without an order, and "start a new order". */
module SuccessPage {
  import opened Wrappers
  import opened CheckoutStore
  import CheckoutPersistence
  import StepNavigation

  const HomePath := "/"

  /** `!orderId`: no id, or the empty id. */
  predicate MissingOrder(orderId: Option<string>) {
    orderId.None? || orderId.value == ""
  }

  /** The guard effect: send the visitor back to the first step exactly when
      there is no order id; otherwise issue no navigation. */
  function GuardRedirect(orderId: Option<string>): (target: Option<string>)
    ensures target.Some? <==> MissingOrder(orderId)
    ensures target.Some? ==> target.value == StepNavigation.StepPath(StepNavigation.Account)
  {
    if MissingOrder(orderId) then Some("/checkout") else None
  }

  /** Whether the page renders its content, and the id it shows. */
  function Shown(orderId: Option<string>): (shown: Option<string>)
    ensures shown.Some? <==> GuardRedirect(orderId).None?
    ensures shown.Some? ==> shown == orderId && shown.value != ""
  {
    if MissingOrder(orderId) then None else orderId
  }

  /** `handleNewOrder`: empty every slot of the store, then go home. */
  method HandleNewOrder(store: Store) returns (target: string)
    modifies store
    ensures store.State() == EmptySession
    ensures target == HomePath
  {
    store.Reset();
    target := HomePath;
  }

  /** After a new order is started the guard would send a visitor of the
      success page back to the first step. */
  method NewOrderThenRevisit(store: Store) returns (target: Option<string>)
    modifies store
    ensures store.State() == EmptySession
    ensures target == Some(StepNavigation.StepPath(StepNavigation.Account))
  {
    var _ := HandleNewOrder(store);
    target := GuardRedirect(store.orderId);
  }

  /** `handleNewOrder` never removes the saved draft, but the save effect that
      follows the reset overwrites it with null slots: a reload then restores
      nothing. */
  method NewOrderThenReload(store: Store, storage: CheckoutPersistence.LocalStorage)
    returns (reloaded: Store)
    modifies store, storage
    ensures CheckoutPersistence.CheckoutKey in storage.items
    ensures storage.items[CheckoutPersistence.CheckoutKey] == CheckoutPersistence.Draft(None, None, None)
    ensures fresh(reloaded) && reloaded.State() == EmptySession
  {
    var _ := HandleNewOrder(store);
    CheckoutPersistence.Save(store, storage, true);
    reloaded := new Store();
    CheckoutPersistence.Load(reloaded, storage);
  }
}
