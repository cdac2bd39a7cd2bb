# Storefront cart, checkout and sale state — a Dafny model

This project models the storefront session of a client-side shop: the
shopping cart (a map from product id to cart item, shown in insertion
order), the item count and total derived from it, the checkout handler
that places an order, optionally dispatches one order-confirmation push
notification, and then empties the cart, and the sale-state poll step
that decides whether the sale banner is shown.

Modules, one per concern of `App.tsx` and `types.ts`:

- `Types` (`types.dfy`): `Product` and `CartItem` as in `types.ts`, with
  prices in whole cents (`nat`), and an `Option` type.
- `CartStore` (`cart_store.dfy`): the cart as the sequence of its
  (id, item) pairs in `Map` insertion order, the pure updaters
  `AddToCart` and `RemoveFromCart`, the derived `Items`, `Count` and
  `Total` (left folds, as `reduce` computes them), the invariant
  `WellFormed` (unique keys, each item under its own product's id,
  quantity at least one), and the lemmas about them.
- `Sale` (`sale.dfy`): `SaleInfo`, the initial state, the poll step
  `ApplyPoll`, the banner predicate, and `Replay` over a run of polls
  with its "last successful fetch wins" lemma.
- `Storefront` (`storefront.dfy`): the class `Session` with the fields
  the component updates in place (`cart`, `isCartOpen`, `toast`,
  `saleInfo`) and a ghost log `dispatches` of every confirmation
  dispatch; its methods are the handlers of the component.

The awaited calls are inputs. `PollSale` takes the fetch result as an
`Option` (`None` for a failed or falsy fetch). `Checkout` takes the
`isSubscribed` flag, a `SubscriptionLookup` standing for the awaited
service-worker registration and `getSubscription` (an exception, no
subscription, or a subscription), and a `sendOk` flag for the outcome of
the dispatch.

Behaviour the model keeps exactly as the code has it:

- The code does not force `discount` to 0 when a sale is inactive, and it
  does not treat `{isActive: true, discount: 0}` as inactive. A fetched
  value is applied as it is, so `BannerVisible` holds for any active state,
  including one whose discount is 0.
- The code applies poll results in the order they arrive. It keeps no
  fetch sequence number, so a slow fetch can overwrite a newer one.
- The code sends a confirmation only when the user is subscribed AND a
  push subscription is found (App.tsx:110-116), not on the subscribed flag
  alone.
- The code waits for the dispatch to finish before it clears the cart
  (App.tsx:115-122). A failed dispatch is caught and logged, so it never
  stops the clear.

## Model

| member | source | states |
|---|---|---|
| `CartStore.WellFormed` | App.tsx:79-101 | definition of the cart invariant (unique keys, each item under its own product's id, quantity at least 1); kept by `CartStore.EmptyWellFormed`, `CartStore.AddPreservesWellFormed` and `CartStore.RemovePreservesWellFormed` |
| `CartStore.EmptyWellFormed` | App.tsx:60 | the empty cart a session starts with is well formed |
| `CartStore.Get` | App.tsx:82 | definition of `Map.get` on the pair sequence; its properties are stated by `CartStore.SetFrame`, `CartStore.AddFrame` and `CartStore.RemoveFrame` |
| `CartStore.Set` | App.tsx:84-86 | definition of `Map.set` (overwrite in place, else append); its map law is stated by `CartStore.SetFrame` |
| `CartStore.AddToCart` | App.tsx:80-89 | definition of the add updater; its properties are stated by `CartStore.AddAbsent`, `CartStore.AddPresent`, `CartStore.AddFrame`, `CartStore.AddSums` and `CartStore.AddPreservesWellFormed` |
| `CartStore.Count` | App.tsx:103 | definition of the item count as a left-to-right sum of quantities; its properties are stated by `CartStore.SumsUpdate`, `CartStore.SumsRemoveAt`, `CartStore.AddSums`, `CartStore.RemoveSums` and `CartStore.SumsBounds` |
| `CartStore.Total` | App.tsx:104 | definition of the total as a left-to-right sum of stored price times quantity; its properties are stated by the same lemmas as `CartStore.Count` |
| `CartStore.StoredPrice` | App.tsx:82-86 | definition of the unit price an add is charged at (the price captured with the stored product, else the product's own); used by `CartStore.AddSums` |
| `CartStore.IndexOf` | App.tsx:82 | finds the first position holding the key, and returns nothing exactly when no position holds it |
| `CartStore.RemoveFromCart` | App.tsx:93-99 | no pair under the removed id survives; every surviving pair was in the cart before; the cart does not grow |
| `CartStore.Items` | App.tsx:102 | definition of the item list, one item per pair in insertion order; its link to the map is stated by `CartStore.ItemsAreStoredValues` |
| `CartStore.ItemsAreStoredValues` | App.tsx:102 | on a well-formed cart, an item is listed exactly when the map holds it under its product's id |
| `CartStore.SetFrame` | App.tsx:84-86 | `Map.set` stores the item under its key and leaves every other key's item unchanged |
| `CartStore.RemoveAbsent` | App.tsx:96 | deleting an id that is not in the cart leaves the cart unchanged |
| `CartStore.RemoveAt` | App.tsx:93-98 | on a well-formed cart, removing a present id takes out exactly that pair and keeps the order of the rest |
| `CartStore.AddAbsent` | App.tsx:85-87 | adding an absent product appends one pair holding that product with quantity 1; earlier pairs are unchanged |
| `CartStore.AddPresent` | App.tsx:82-84 | adding a present product keeps the pair at its position, keeps the stored product record (and so its price), raises the quantity by exactly 1, and leaves every other pair unchanged |
| `CartStore.AddFrame` | App.tsx:79-89 | as a map, an add changes only the product's key: one more of the stored item, or a new item with quantity 1 |
| `CartStore.RemoveFrame` | App.tsx:93-98 | as a map, a remove deletes the id's key and leaves every other key's item as it was |
| `CartStore.RemoveIdempotent` | App.tsx:93-98 | removing the same id twice is the same as removing it once |
| `CartStore.RemoveUndoesAdd` | App.tsx:79-99 | adding an absent product and then removing its id gives back the original cart; from the empty cart it gives the empty cart |
| `CartStore.AddPreservesWellFormed` | App.tsx:79-89 | an add keeps keys unique, items under their own product id, and quantities at least 1 |
| `CartStore.RemovePreservesWellFormed` | App.tsx:93-99 | a remove keeps the cart well formed |
| `CartStore.SumsUpdate` | App.tsx:103-104 | replacing one item changes the count and the total by exactly that item's difference |
| `CartStore.SumsRemoveAt` | App.tsx:103-104 | taking out one item lowers the count by its quantity and the total by its price times quantity |
| `CartStore.AddSums` | App.tsx:102-104 | after an add, the count is one more and the total grows by the stored price of that product's line |
| `CartStore.RemoveSums` | App.tsx:102-104 | after a remove, the count and total drop by the removed line's quantity and cost, and are unchanged when the id was absent |
| `CartStore.SumsBounds` | App.tsx:103-104 | when every quantity is at least 1, the count is at least the number of lines and the total is non-negative |
| `CartStore.CountZeroIffEmpty` | App.tsx:102-104 | on a well-formed cart, the count is zero exactly when the cart is empty, and the total is non-negative |
| `CartStore.TwoProductCart` | App.tsx:79-104 | two adds of a 1000-cent product and one of a 500-cent product give count 3, total 2500, and a well-formed cart |
| `Sale.Initial` | App.tsx:63 | definition of the starting sale state `{false, 0}`; used by `Sale.BannerAfterPolls` and `Storefront.Session.constructor` |
| `Sale.ApplyPoll` | App.tsx:71-72 | definition of one poll step; its effect over any run of polls is stated by `Sale.ReplayKeepsLastFetched` |
| `Sale.BannerVisible` | App.tsx:135 | definition of when the banner renders; stated over runs of polls by `Sale.BannerAfterPolls` |
| `Sale.Replay` | App.tsx:69-77 | definition of the sale state after a run of polls in arrival order; characterised by `Sale.ReplayKeepsLastFetched` |
| `Sale.ReplayKeepsLastFetched` | App.tsx:69-77 | after a run of polls, the sale state is the value of the last successful fetch, or the starting state if no fetch succeeded |
| `Sale.BannerAfterPolls` | App.tsx:135-137 | from the initial state `{false, 0}`, no banner shows until a fetch succeeds; after that it shows exactly when the last fetched state is active |
| `Storefront.OrderPlacedToast` | App.tsx:108 | the order toast is a success toast with a non-empty message |
| `Storefront.Session.constructor` | App.tsx:58-63 | a new session has an empty cart, a closed panel, no toast, the sale state `{false, 0}`, and no dispatches |
| `Storefront.Session.ItemCount` | App.tsx:103 | the count is at least the number of lines, and zero exactly when the cart is empty |
| `Storefront.Session.CartTotal` | App.tsx:104 | the total is never negative |
| `Storefront.Session.AddToCart` | App.tsx:79-91 | the cart becomes the add updater's result and stays well formed; the panel opens; nothing else changes |
| `Storefront.Session.RemoveFromCart` | App.tsx:93-99 | the cart becomes the remove updater's result and stays well formed; nothing else changes |
| `Storefront.Session.ClearCart` | App.tsx:101 | the cart becomes empty; nothing else changes |
| `Storefront.Session.Checkout` | App.tsx:106-124 | on an empty cart nothing changes and nothing is dispatched. Otherwise: the success toast names the payment method; at most one dispatch happens, exactly when subscribed and a subscription is found, carrying the pre-clear total and the payment method; the cart ends empty and the panel closed whatever the dispatch did; a lookup or send failure is reported as logged and swallowed; the sale state is untouched |
| `Storefront.CheckoutScenario` | App.tsx:79-124 | a verified client: three adds give count 3 and total 2500, a subscribed checkout whose send fails still records one dispatch of 2500 and empties the cart, and a second checkout on the empty cart does nothing |
| `Storefront.Session.PollSale` | App.tsx:70-73 | a successful fetch replaces the sale state wholesale; a failed one leaves it unchanged; nothing else changes |

## Left out

- Rendering, JSX and the child components (header, product list, cart panel, settings, toast, banners) are left out. Only the state they read is modelled.
- UI-only handlers are left out: opening and closing the settings panel, opening the cart from the header, closing it from the panel, dismissing the toast, and the search query (App.tsx:58, 62, 129-133, 138, 155).
- The poll timer (`setInterval` every 5 seconds, `clearInterval` on unmount, App.tsx:74-76) is left out. Each tick is one `PollSale` call.
- The network and browser calls are inputs, not models: `getSaleStatus`, `navigator.serviceWorker.ready`, `getSubscription` and `sendOrderConfirmationNotification`. The model does not cover a promise that never settles.
- The text that `console.error` logs is left out. Only the fact that an error was logged is modelled, as `ErrorLogged`.
- Storefront.Session.Checkout: treats the handler as one atomic step. In the source, other handlers can run while the dispatch is awaited, and an item added then is dropped by the clear that follows. Also, two checkouts started during the same await both pass the empty-cart test on the not-yet-cleared cart (App.tsx:107, 122), so one order can send two confirmations. The model does not capture that interleaving.
- The install-prompt and push-manager hooks are left out because their bodies are not part of this model. `isSubscribed` is an input flag.
- The subscribe/unsubscribe state machine is left out for the same reason: it lives in the push-manager hook.
- The admin login page, the protected route and `localStorage` are left out (App.tsx:19-52, 169-172). They are a fixed password compare and browser storage.
- Routing and the key-based remount of the storefront after an admin sale update are left out (App.tsx:186, 202). A remount is a fresh `Session`.
- Prices are non-negative whole cents, not floating-point numbers. Quantities are unbounded integers, so precision loss above 2^53 is not modelled.
