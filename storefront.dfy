/** One storefront session (the `Storefront` component of App.tsx:57-164):
    the state it keeps — cart, whether the cart panel is open, the toast,
    the sale state — and the handlers that update it in sequence.

    The awaited calls of the checkout (the service-worker registration, the
    push subscription lookup, the confirmation dispatch) are inputs, and
    every call of the confirmation dispatch is recorded in a ghost log. */
module Storefront {
  import opened Types
  import opened CartStore
  import opened Sale

  datatype ToastKind = Success | Error

  /** The toast message shown to the user; an empty message shows nothing. */
  datatype Toast = Toast(message: string, kind: ToastKind)

  const NoToast: Toast := Toast("", Success)

  /** The toast a placed order shows, naming the payment method. */
  function OrderPlacedToast(paymentMethod: string): (t: Toast)
    ensures t.kind == Success && t.message != ""
  {
    Toast("Order placed with " + paymentMethod + "!", Success)
  }

  /** A browser push subscription, known only by its endpoint. */
  datatype PushSubscription = PushSubscription(endpoint: string)

  /** The order summary the confirmation carries. */
  datatype OrderSummary = OrderSummary(total: int, paymentMethod: string)

  /** One call of the order-confirmation dispatch. */
  datatype Dispatch = Dispatch(subscription: PushSubscription, order: OrderSummary)

  /** What awaiting the service-worker registration and then its push
      subscription produced: an exception, no subscription, or one. */
  datatype SubscriptionLookup = LookupFailed | NoSubscription | Found(subscription: PushSubscription)

  /** What became of the confirmation: not attempted, sent, or failed with
      the error logged to the console and otherwise swallowed. */
  datatype Notification = NotAttempted | Sent | ErrorLogged

  /** What a checkout did: nothing (empty cart), or placed the order. */
  datatype CheckoutOutcome = EmptyCart | Placed(notification: Notification)

  class Session {
    var cart: Cart
    var isCartOpen: bool
    var toast: Toast
    var saleInfo: SaleInfo
    /** Every order-confirmation dispatch this session has made. */
    ghost var dispatches: seq<Dispatch>

    ghost predicate Valid()
      reads this
    {
      WellFormed(cart)
    }

    /** The state a freshly mounted session starts with. */
    constructor ()
      ensures Valid()
      ensures cart == [] && !isCartOpen && toast == NoToast
      ensures saleInfo == Initial && dispatches == []
    {
      cart := [];
      isCartOpen := false;
      toast := NoToast;
      saleInfo := Initial;
      dispatches := [];
    }

    /** `cartItemCount`: the number of items, at least one per line, so zero
        exactly when the cart is empty. */
    function ItemCount(): (n: int)
      reads this
      requires Valid()
      ensures n >= |cart|
      ensures n == 0 <==> cart == []
    {
      SumsBounds(Items(cart));
      Count(Items(cart))
    }

    /** `cartTotal`: what the cart costs, in cents; never negative. */
    function CartTotal(): (t: int)
      reads this
      requires Valid()
      ensures t >= 0
    {
      SumsBounds(Items(cart));
      Total(Items(cart))
    }

    /** `handleAddToCart`: add one of the product and open the cart panel. */
    method AddToCart(p: Product)
      requires Valid()
      modifies this
      ensures Valid()
      ensures cart == CartStore.AddToCart(old(cart), p) && isCartOpen
      ensures toast == old(toast) && saleInfo == old(saleInfo) && dispatches == old(dispatches)
    {
      AddPreservesWellFormed(cart, p);
      cart := CartStore.AddToCart(cart, p);
      isCartOpen := true;
    }

    /** `handleRemoveFromCart`: drop the product's line, if there is one. */
    method RemoveFromCart(id: int)
      requires Valid()
      modifies this
      ensures Valid()
      ensures cart == CartStore.RemoveFromCart(old(cart), id)
      ensures isCartOpen == old(isCartOpen) && toast == old(toast)
      ensures saleInfo == old(saleInfo) && dispatches == old(dispatches)
    {
      RemovePreservesWellFormed(cart, id);
      cart := CartStore.RemoveFromCart(cart, id);
    }

    /** `handleClearCart`: empty the cart. */
    method ClearCart()
      requires Valid()
      modifies this
      ensures Valid()
      ensures cart == []
      ensures isCartOpen == old(isCartOpen) && toast == old(toast)
      ensures saleInfo == old(saleInfo) && dispatches == old(dispatches)
    {
      cart := [];
    }

    /** `handleCheckout`. On an empty cart nothing happens. Otherwise the
        success toast is set; when the user is subscribed and a push
        subscription is found, exactly one confirmation carrying the
        pre-clear total and the payment method is dispatched, its failure
        swallowed; and whatever became of it, the cart ends empty and the
        cart panel closed. */
    method Checkout(paymentMethod: string, isSubscribed: bool, lookup: SubscriptionLookup, sendOk: bool)
      returns (outcome: CheckoutOutcome)
      requires Valid()
      modifies this
      ensures Valid() && saleInfo == old(saleInfo)
      ensures old(cart) == [] ==>
        && outcome == EmptyCart
        && cart == old(cart) && isCartOpen == old(isCartOpen)
        && toast == old(toast) && dispatches == old(dispatches)
      ensures old(cart) != [] ==>
        && outcome.Placed?
        && cart == [] && !isCartOpen
        && toast == OrderPlacedToast(paymentMethod)
      ensures old(cart) != [] && isSubscribed && lookup.Found? ==>
        dispatches == old(dispatches) + [Dispatch(lookup.subscription, OrderSummary(old(CartTotal()), paymentMethod))]
      ensures !(old(cart) != [] && isSubscribed && lookup.Found?) ==> dispatches == old(dispatches)
      ensures outcome == Placed(Sent) <==> old(cart) != [] && isSubscribed && lookup.Found? && sendOk
      ensures outcome == Placed(ErrorLogged) <==>
        old(cart) != [] && isSubscribed && (lookup.LookupFailed? || (lookup.Found? && !sendOk))
    {
      var items := Items(cart);
      var total := CartTotal();
      if |items| == 0 {
        return EmptyCart;
      }
      toast := OrderPlacedToast(paymentMethod);
      var notification := NotAttempted;
      if isSubscribed {
        match lookup
        case LookupFailed =>
          notification := ErrorLogged;
        case NoSubscription =>
        case Found(subscription) =>
          dispatches := dispatches + [Dispatch(subscription, OrderSummary(total, paymentMethod))];
          notification := if sendOk then Sent else ErrorLogged;
      }
      cart := [];
      isCartOpen := false;
      outcome := Placed(notification);
    }

    /** One tick of the sale poller: apply the fetch result. */
    method PollSale(fetched: Option<SaleInfo>)
      modifies this
      ensures saleInfo == ApplyPoll(old(saleInfo), fetched)
      ensures cart == old(cart) && isCartOpen == old(isCartOpen)
      ensures toast == old(toast) && dispatches == old(dispatches)
    {
      if fetched.Some? {
        saleInfo := fetched.value;
      }
    }
  }

  /** A session used as a user would: two of one product and one of another,
      then a subscribed checkout, then a second checkout on the now empty
      cart. */
  method CheckoutScenario(a: Product, b: Product, subscription: PushSubscription)
    requires a.id != b.id && a.price == 1000 && b.price == 500
  {
    var s := new Session();
    s.AddToCart(a);
    s.AddToCart(a);
    s.AddToCart(b);
    TwoProductCart(a, b);
    assert s.ItemCount() == 3 && s.CartTotal() == 2500;
    var first := s.Checkout("card", true, Found(subscription), false);
    assert first == Placed(ErrorLogged);
    assert s.dispatches == [Dispatch(subscription, OrderSummary(2500, "card"))];
    assert s.cart == [] && !s.isCartOpen;
    var second := s.Checkout("card", true, Found(subscription), true);
    assert second == EmptyCart && |s.dispatches| == 1;
  }
}
