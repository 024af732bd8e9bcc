# E-commerce microservices: a Dafny model of the cart, the pages and the stores

This project models the core of a small e-commerce application. It has a
React storefront and three Spring services (products, users, orders), and it
proves properties of the model.

- **Storefront cart** (`cart.dfy`).
  - The application root holds the `cart` and `user` state slots.
  - `addToCart` either bumps an existing line or appends a new one.
  - `updateQuantity` removes a line when the quantity is not positive, and otherwise sets it.
  - The navbar count is the sum of all quantities.
  - The cart operations are pure functions on the sequence of lines. Class `AppState.App` holds the slots and follows them.
- **Pages**:
  - the cart page's rows, total and −/+ buttons (`cart_page.dfy`);
  - the checkout form, its totals with 10% tax, and the submit effects (`checkout.dfy`);
  - the product list's load lifecycle, its star rendering (a loop, as in the page) and its stock badges (`product_list.dfy`);
  - the registration form's validation order, payload and error messages (`register.dfy`);
  - the AI recommendation modal's `analysis`/`loading`/`error` state machine (`recommendation_modal.dfy`).
- **Stores** (`product_service.dfy`, `user_service.dfy`, `order_service.dfy`).
  - Each service is a map plus an id counter.
  - Each operation is a pure function on the service state, with the invariants proved about it. A class with the same fields has methods that follow those functions.
  - The product loader runs a loop over the fetched records. It falls back to three built-in products when the fetch or a record fails.
  - The user service keeps an index from lower-cased email to id.
  - Orders go PENDING → CANCELLED, and a user's orders are listed newest first.
- **Controllers** (`order_controller.dfy`, `ai_controller.dfy`): service results are mapped to HTTP status codes and bodies.

Shared pieces:

- `entities.dfy` holds the records and the `Http` response shape.
- `text.dfy` holds lower-casing, substring search and decimal rendering of lengths, with its read-back lemma.
- `wrappers.dfy` holds `Option`.

The pieces outside the model are passed in as parameters:

| piece | model |
|---|---|
| password encoder | functions `encode` and `matches` |
| AI analyzer | an outcome function |
| clock | a `now` value |
| fetched catalog | a `Feed` value |
| environment variables | `Option<string>` values |

## Model

| member | source | states |
|---|---|---|
| Cart.AddToCart | frontend/src/App.jsx:13-22 | a present id gets exactly that line's quantity raised by 1, other lines unchanged and in order; a new id appends `(product, 1)` at the end; no stock check; pairwise-distinct ids and quantities ≥ 1 are preserved |
| Cart.AddExisting | frontend/src/App.jsx:14-18 | on a well-formed cart, adding a product already at index k equals updating only index k to quantity+1 |
| Cart.AddIncrementsCount | frontend/src/App.jsx:13-22 | every addToCart raises the navbar count by exactly one |
| Cart.UpdateQuantity | frontend/src/App.jsx:24-32 | quantity ≤ 0 removes the id and keeps every other line; quantity > 0 sets that line's quantity to exactly q (absolute), same length, nothing else changes; an absent id leaves the cart unchanged; invariant preserved |
| Cart.RemoveLine | frontend/src/App.jsx:26 | the filter never lengthens the cart (its contents are stated by the next rows) |
| Cart.RemoveLineMembers | frontend/src/App.jsx:26 | the filter keeps exactly the lines whose id differs |
| Cart.RemoveLineWellFormed | frontend/src/App.jsx:26 | the filter preserves distinct ids and positive quantities |
| Cart.RemoveAbsent | frontend/src/App.jsx:26 | filtering an id not in the cart returns the cart unchanged |
| Cart.RemoveLineAt | frontend/src/App.jsx:26 | on a well-formed cart, removing the id of line k is deleting index k, the rest keep their order |
| Cart.SetQuantityAt | frontend/src/App.jsx:28-30 | on a well-formed cart, setting the id of line k to q > 0 replaces only index k |
| Cart.ItemCount | frontend/src/App.jsx:37 | the navbar reduce: 0 for the empty cart, never negative when no quantity is |
| Cart.Subtotal | frontend/src/pages/Cart.jsx:2 | the price × quantity reduce: 0 for the empty cart, never negative when no price or quantity is |
| Cart.ItemCountUpdate | frontend/src/App.jsx:37 | changing one line's quantity changes the count by the difference |
| Cart.ItemCountAtLeastLines | frontend/src/App.jsx:37 | with quantities ≥ 1 the count is at least the number of lines, and is 0 only for the empty cart |
| Cart.ItemCountAppend | frontend/src/App.jsx:37 | appending a line adds its quantity to the count |
| Cart.ReplayKeepsWellFormed | frontend/src/App.jsx:10-32 | from a well-formed cart (the initial empty one included), any sequence of add/update keeps ids distinct and quantities ≥ 1 |
| Cart.AddsFromLine | frontend/src/App.jsx:14-18 | n adds to a one-line cart of the same product raise its quantity by n |
| Cart.RepeatedAdds | frontend/src/App.jsx:13-20 | from the empty cart, n ≥ 1 adds of one product give exactly one line with quantity n |
| AppState.App.constructor | frontend/src/App.jsx:10-11 | cart starts empty and user null |
| AppState.App.AddToCart | frontend/src/App.jsx:13-22 | the new cart is `Cart.AddToCart` of the old one; user untouched; invariant kept |
| AppState.App.UpdateQuantity | frontend/src/App.jsx:24-32 | the new cart is `Cart.UpdateQuantity` of the old one; user untouched; invariant kept |
| AppState.App.SetUser | frontend/src/App.jsx:11 | replaces the user, leaves the cart |
| AppState.App.CartCount | frontend/src/App.jsx:37 | the navbar count is at least the number of lines and 0 exactly for an empty cart |
| CartPage.Render | frontend/src/pages/Cart.jsx:2-42 | empty-cart message exactly when the cart is empty; otherwise one row per line, in order |
| CartPage.RowsSum | frontend/src/pages/Cart.jsx:2 | the per-row amounts sum to the cart total |
| CartPage.RowAmountsSumToTotal | frontend/src/pages/Cart.jsx:37-42 | the displayed total equals the sum of the displayed line amounts |
| CartPage.MinusAtOneRemoves | frontend/src/pages/Cart.jsx:25 | − on a line with quantity 1 removes exactly that line |
| CartPage.MinusAboveOneDecrements | frontend/src/pages/Cart.jsx:25 | − on a line with quantity > 1 lowers only that line by one |
| CartPage.PlusIncrements | frontend/src/pages/Cart.jsx:32 | + raises only that line by one, and the navbar count by one |
| Checkout.InitialFormBlank | frontend/src/pages/Checkout.jsx:6-18 | the form has exactly the 11 distinct named fields, all "" |
| Checkout.WithField | frontend/src/pages/Checkout.jsx:24-29 | the named field takes the value, every other field is unchanged |
| Checkout.ChangeKeepsLimits | frontend/src/pages/Checkout.jsx:204-231 | accepted edits keep card number ≤ 19, expiry ≤ 5 and CVV ≤ 4 characters |
| Checkout.Tax | frontend/src/pages/Checkout.jsx:21 | the 10% tax lies between 0 and the subtotal |
| Checkout.FinalTotal | frontend/src/pages/Checkout.jsx:20-22 | subtotal plus 10% tax is 1.1 × subtotal |
| Checkout.Render | frontend/src/pages/Checkout.jsx:20-56 | empty state exactly for an empty cart; else subtotal is the cart reduction, tax = 0.1 × subtotal, shipping = 0, total = subtotal + shipping + tax = 1.1 × subtotal, and the Place Order amount equals the summary total |
| Checkout.HandleSubmit | frontend/src/pages/Checkout.jsx:31-37 | the alert comes first and navigation to "/" last; the cart is cleared, right after the alert, exactly when a clearCart function was supplied |
| Checkout.CheckoutPage.constructor | frontend/src/pages/Checkout.jsx:6-18 | form starts as the blank form |
| Checkout.CheckoutPage.HandleChange | frontend/src/pages/Checkout.jsx:24-29 | the form becomes `WithField` of the old one; length limits kept |
| ProductList.RenderStars | frontend/src/pages/ProductList.jsx:24-39 | the loop yields 5 stars, star i lit exactly when i < floor(rating) or (i = floor(rating) and rating % 1 ≥ 0.5) |
| ProductList.StarsRoundHalfUp | frontend/src/pages/ProductList.jsx:26-36 | star i ≥ 0 is lit exactly when i < floor(rating + 0.5): round half up |
| ProductList.LitStarsPrefix | frontend/src/pages/ProductList.jsx:29-36 | lit stars form a prefix |
| ProductList.RenderCard | frontend/src/pages/ProductList.jsx:56-94 | the brand line exactly when the brand is non-empty; "Only n left" exactly when 0 < stock < 10; "Out of Stock" badge, disabled button and its label exactly when stock = 0; never both badges; stars exactly when the rating is present and non-zero |
| ProductList.ProductListPage.constructor | frontend/src/pages/ProductList.jsx:5-6 | products empty, loading |
| ProductList.ProductListPage.OnFetched | frontend/src/pages/ProductList.jsx:10-13 | products become the data, loading ends |
| ProductList.ProductListPage.OnFetchFailed | frontend/src/pages/ProductList.jsx:14-17 | loading ends, products unchanged |
| ProductList.ProductListPage.View | frontend/src/pages/ProductList.jsx:20-22 | loading text exactly while loading; otherwise one card per product, in order |
| ProductList.MountThenFail | frontend/src/pages/ProductList.jsx:5-17 | a failed fetch leaves an empty grid, not the loading text |
| Register.WithField | frontend/src/pages/Register.jsx:16-21 | the named field takes the value, every other field unchanged |
| Register.Validate | frontend/src/pages/Register.jsx:27-35 | mismatch error exactly when passwords differ; too-short error exactly when they match and are shorter than 6; no error otherwise |
| Register.PayloadIgnoresConfirm | frontend/src/pages/Register.jsx:38-42 | the request carries name, email, password and never the confirmation |
| Register.FailureMessage | frontend/src/pages/Register.jsx:49-53 | the server's message verbatim when present and non-empty, else the fallback text; never empty |
| Register.RegisterPage.constructor | frontend/src/pages/Register.jsx:6-13 | blank form, no error, not successful |
| Register.RegisterPage.HandleChange | frontend/src/pages/Register.jsx:16-21 | only the form changes, by `WithField` |
| Register.RegisterPage.HandleRegister | frontend/src/pages/Register.jsx:23-42 | the error is cleared then set to the first failed check; a request is sent exactly when validation passes, with the payload |
| Register.RegisterPage.OnRegistered | frontend/src/pages/Register.jsx:43-47 | success set, then setUser(user), then navigation to "/" after 1500 ms |
| Register.RegisterPage.OnRegisterFailed | frontend/src/pages/Register.jsx:48-54 | error becomes `FailureMessage` of the server's reply |
| RecommendationModal.Step | frontend/src/components/ProductRecommendationModal.jsx:9-24 | no product: nothing changes; a product: loading on, error cleared, analysis kept; success: analysis set, loading off; failure: error text set, loading off; "loading implies no error" preserved |
| RecommendationModal.InitialConsistent | frontend/src/components/ProductRecommendationModal.jsx:5-7 | initial state is analysis null, loading, error null, and consistent |
| RecommendationModal.RunKeepsConsistent | frontend/src/components/ProductRecommendationModal.jsx:9-24 | every run of events keeps "loading implies no error" |
| RecommendationModal.Render | frontend/src/components/ProductRecommendationModal.jsx:26-68 | nothing without a product; spinner exactly while loading; error text shown as stored; analysis panel exactly when analysis present, not loading and no error; never spinner and error together |
| RecommendationModal.LateCompletionOverwrites | frontend/src/components/ProductRecommendationModal.jsx:9-24 | a late reply for the first product, arriving after the product changed, is shown for the second product |
| RecommendationModal.Modal.constructor | frontend/src/components/ProductRecommendationModal.jsx:5-7 | starts in the initial state |
| RecommendationModal.Modal.OnProductChanged | frontend/src/components/ProductRecommendationModal.jsx:10-13 | follows `Step`; an analysis is requested exactly when a product is given |
| RecommendationModal.Modal.OnResolved | frontend/src/components/ProductRecommendationModal.jsx:14-17 | follows `Step` on success |
| RecommendationModal.Modal.OnRejected | frontend/src/components/ProductRecommendationModal.jsx:18-22 | follows `Step` on failure |
| ProductService.FromRaw | backend/product-service/src/main/java/com/ecommerce/product/service/ProductService.java:35-51 | a record converts exactly when id, title, description, price, category and stock are present; id, title (as name), description, price, category, stock and the image list (empty when absent) are copied; brand defaults to "Generic", rating to 0.0; image URL is the first image, or null for none |
| ProductService.Put | backend/product-service/src/main/java/com/ecommerce/product/service/ProductService.java:53-56 | the product is stored under its own id and every other entry stays; the counter moves past that id and never back; the store invariant is kept |
| ProductService.LoadRecords | backend/product-service/src/main/java/com/ecommerce/product/service/ProductService.java:34-57 | the loader loop keeps the store invariant |
| ProductService.LoadedIdsBelowCounter | backend/product-service/src/main/java/com/ecommerce/product/service/ProductService.java:53-56 | every record loaded before the first failure is stored and its id is below the final counter |
| ProductService.LoadKeepsKeys | backend/product-service/src/main/java/com/ecommerce/product/service/ProductService.java:34-57 | loading never drops a product already stored nor lowers the counter |
| ProductService.Create | backend/product-service/src/main/java/com/ecommerce/product/service/ProductService.java:93-98 | the product gets the counter's id whatever it carried, the id is new, the stored entry under it is exactly the returned product, the counter rises by one, old entries stay |
| ProductService.WithFallback | backend/product-service/src/main/java/com/ecommerce/product/service/ProductService.java:65-69 | three creations: Laptop, Smartphone and Headphones are stored under the next three counter values, every earlier entry stays, the counter rises by three and the invariant holds |
| ProductService.Initialized | backend/product-service/src/main/java/com/ecommerce/product/service/ProductService.java:26-63 | the loader keeps the store invariant on every feed |
| ProductService.Search | backend/product-service/src/main/java/com/ecommerce/product/service/ProductService.java:85-91 | keeps exactly the products whose lower-cased name or description contains the lower-cased query |
| ProductService.SearchIgnoresQueryCase | backend/product-service/src/main/java/com/ecommerce/product/service/ProductService.java:86-89 | the query's case does not matter |
| ProductService.SearchIgnoresBrand | backend/product-service/src/main/java/com/ecommerce/product/service/ProductService.java:88-89 | the brand is not searched |
| ProductService.EmptyQueryKeepsAll | backend/product-service/src/main/java/com/ecommerce/product/service/ProductService.java:85-90 | the empty query returns every product |
| ProductService.ByCategory | backend/product-service/src/main/java/com/ecommerce/product/service/ProductService.java:79-83 | keeps exactly the products whose category equals the argument ignoring case |
| ProductService.ByCategoryIgnoresCase | backend/product-service/src/main/java/com/ecommerce/product/service/ProductService.java:81 | the argument's case does not matter |
| ProductService.ProductStore.constructor | backend/product-service/src/main/java/com/ecommerce/product/service/ProductService.java:17-24 | empty map, counter 1, then the loader on the fetched feed |
| ProductService.ProductStore.InitializeFromApi | backend/product-service/src/main/java/com/ecommerce/product/service/ProductService.java:26-63 | unreachable feed: fallback; no products array: nothing; records: the loop's state is `LoadRecords`, with the fallback after a failed record (partly loaded products stay) |
| ProductService.ProductStore.InitializeFallbackProducts | backend/product-service/src/main/java/com/ecommerce/product/service/ProductService.java:65-69 | the state becomes `WithFallback` of the old one: the three built-in products under the next three ids, earlier entries kept |
| ProductService.ProductStore.GetAllProducts | backend/product-service/src/main/java/com/ecommerce/product/service/ProductService.java:71-73 | a product is listed exactly when it is the entry under its own id |
| ProductService.ProductStore.GetProductById | backend/product-service/src/main/java/com/ecommerce/product/service/ProductService.java:75-77 | present exactly when the id is stored, and then that entry |
| ProductService.ProductStore.CreateProduct | backend/product-service/src/main/java/com/ecommerce/product/service/ProductService.java:93-98 | state and result are `Create` of the old state: the returned product, carrying the counter's id, is the entry stored under that id |
| ProductService.ProductStore.UpdateProduct | backend/product-service/src/main/java/com/ecommerce/product/service/ProductService.java:100-107 | a present id is replaced by the product carrying that id; an absent id changes nothing and gives empty; counter unchanged |
| ProductService.ProductStore.DeleteProduct | backend/product-service/src/main/java/com/ecommerce/product/service/ProductService.java:109-111 | true exactly when the id was present; only that entry is removed |
| UserService.EmptyValid | backend/user-service/src/main/java/com/ecommerce/user/service/UserService.java:15-17 | the empty service satisfies the invariant and a complete index |
| UserService.ByEmail | backend/user-service/src/main/java/com/ecommerce/user/service/UserService.java:30-33 | found exactly when the lower-cased email is indexed to a stored user; with a sound index the user's email equals the argument ignoring case |
| UserService.ByEmailIgnoresCase | backend/user-service/src/main/java/com/ecommerce/user/service/UserService.java:31 | emails equal ignoring case give the same lookup |
| UserService.ByEmailFindsStoredUser | backend/user-service/src/main/java/com/ecommerce/user/service/UserService.java:30-33 | with a complete index every stored user is found by its email in any case |
| UserService.Login | backend/user-service/src/main/java/com/ecommerce/user/service/UserService.java:53-56 | a user exactly when the email resolves and `matches(password, stored hash)` holds |
| UserService.Register | backend/user-service/src/main/java/com/ecommerce/user/service/UserService.java:35-51 | refused, with no change, exactly when the lower-cased email is indexed; else id = counter, password encoded, createdAt = now, counter + 1 |
| UserService.RegisterRejectsKnownEmail | backend/user-service/src/main/java/com/ecommerce/user/service/UserService.java:36-40 | an email equal ignoring case to a stored user's is refused and nothing changes |
| UserService.RegisterAddsOnlyNewUser | backend/user-service/src/main/java/com/ecommerce/user/service/UserService.java:42-48 | a registration adds one new id and one index key, and every old entry stays |
| UserService.RegisterKeepsValid | backend/user-service/src/main/java/com/ecommerce/user/service/UserService.java:35-51 | registration keeps the counter bound and index soundness |
| UserService.RegisterKeepsComplete | backend/user-service/src/main/java/com/ecommerce/user/service/UserService.java:38-48 | registration keeps every user indexed under its lower-cased email |
| UserService.LoginAfterRegister | backend/user-service/src/main/java/com/ecommerce/user/service/UserService.java:44-55 | right after registering, login by the email in any case succeeds exactly when the password matches its encoding |
| UserService.Update | backend/user-service/src/main/java/com/ecommerce/user/service/UserService.java:58-73 | absent id: empty, no change; present: stored with that id and the original createdAt, password not re-encoded, counter unchanged; an unchanged email leaves the index; a changed email removes lower(old email) and maps lower(new email) to the id, overwriting any other user's entry |
| UserService.UpdateKeepsValid | backend/user-service/src/main/java/com/ecommerce/user/service/UserService.java:58-73 | update keeps the counter bound and index soundness |
| UserService.UpdateCanOrphanAnotherUser | backend/user-service/src/main/java/com/ecommerce/user/service/UserService.java:64-67 | renaming one user to another's email takes over that index entry: the other user is no longer reachable by email |
| UserService.Delete | backend/user-service/src/main/java/com/ecommerce/user/service/UserService.java:75-82 | true exactly when present; removes the user and its lower-cased email key; else no change |
| UserService.DeleteKeepsValid | backend/user-service/src/main/java/com/ecommerce/user/service/UserService.java:75-82 | delete keeps the counter bound and index soundness |
| UserService.DeleteKeepsComplete | backend/user-service/src/main/java/com/ecommerce/user/service/UserService.java:75-82 | delete keeps every remaining user indexed |
| UserService.DeleteFreesEmail | backend/user-service/src/main/java/com/ecommerce/user/service/UserService.java:78 | after deletion the email is free for registration |
| UserService.UserStore.constructor | backend/user-service/src/main/java/com/ecommerce/user/service/UserService.java:15-20 | empty maps, counter 1, the injected encoder |
| UserService.UserStore.GetAllUsers | backend/user-service/src/main/java/com/ecommerce/user/service/UserService.java:22-24 | a user is listed exactly when it is the entry under its own id |
| UserService.UserStore.GetUserById | backend/user-service/src/main/java/com/ecommerce/user/service/UserService.java:26-28 | present exactly when stored, and then that entry |
| UserService.UserStore.GetUserByEmail | backend/user-service/src/main/java/com/ecommerce/user/service/UserService.java:30-33 | `ByEmail` of the state: present exactly when the lower-cased email is indexed to a stored user, then that user, whose email equals the argument ignoring case |
| UserService.UserStore.LoginUser | backend/user-service/src/main/java/com/ecommerce/user/service/UserService.java:53-56 | `Login` of the state: the user found by email, exactly when `matches` accepts the password against its stored hash |
| UserService.UserStore.RegisterUser | backend/user-service/src/main/java/com/ecommerce/user/service/UserService.java:35-51 | state and result are `Register` of the old state |
| UserService.UserStore.UpdateUser | backend/user-service/src/main/java/com/ecommerce/user/service/UserService.java:58-73 | state and result are `Update` of the old state |
| UserService.UserStore.DeleteUser | backend/user-service/src/main/java/com/ecommerce/user/service/UserService.java:75-82 | state and result are `Delete` of the old state |
| OrderService.Create | backend/order-service/src/main/java/com/ecommerce/order/service/OrderService.java:32-40 | id = counter (new), status PENDING, both timestamps now, counter + 1, other orders unchanged, invariant kept |
| OrderService.UpdateStatus | backend/order-service/src/main/java/com/ecommerce/order/service/OrderService.java:42-50 | absent id: empty, no change; present: any status (null included) with no transition check, updatedAt = now; every other order unchanged |
| OrderService.Cancel | backend/order-service/src/main/java/com/ecommerce/order/service/OrderService.java:52-60 | true exactly when present with status exactly PENDING, which becomes CANCELLED; otherwise no change; others unchanged |
| OrderService.CancelTwice | backend/order-service/src/main/java/com/ecommerce/order/service/OrderService.java:54-55 | a second cancel returns false and changes nothing |
| OrderService.ReopenThenCancel | backend/order-service/src/main/java/com/ecommerce/order/service/OrderService.java:42-60 | any stored order can be set back to PENDING and cancelled again |
| OrderService.CreatedOrderCancellable | backend/order-service/src/main/java/com/ecommerce/order/service/OrderService.java:32-60 | a freshly created order can be cancelled |
| OrderService.OfUser | backend/order-service/src/main/java/com/ecommerce/order/service/OrderService.java:27 | keeps exactly the orders of the user |
| OrderService.SortNewestFirst | backend/order-service/src/main/java/com/ecommerce/order/service/OrderService.java:28 | the sort is a permutation |
| OrderService.SortIsNewestFirst | backend/order-service/src/main/java/com/ecommerce/order/service/OrderService.java:28 | the sort orders by createdAt descending |
| OrderService.AllOrders | backend/order-service/src/main/java/com/ecommerce/order/service/OrderService.java:17-19 | every stored order exactly once |
| OrderService.ByUser | backend/order-service/src/main/java/com/ecommerce/order/service/OrderService.java:25-30 | exactly the stored orders of the user, as a permutation of the filtered list, newest first |
| OrderService.CreatedOrderListed | backend/order-service/src/main/java/com/ecommerce/order/service/OrderService.java:25-40 | a new order appears in its user's listing |
| OrderService.OrderStore.constructor | backend/order-service/src/main/java/com/ecommerce/order/service/OrderService.java:14-15 | empty map, counter 1 |
| OrderService.OrderStore.GetAllOrders | backend/order-service/src/main/java/com/ecommerce/order/service/OrderService.java:17-19 | `AllOrders` of the state: each stored order, in increasing id order |
| OrderService.OrderStore.GetOrderById | backend/order-service/src/main/java/com/ecommerce/order/service/OrderService.java:21-23 | present exactly when stored, and then that entry |
| OrderService.OrderStore.GetOrdersByUserId | backend/order-service/src/main/java/com/ecommerce/order/service/OrderService.java:25-30 | `ByUser` of the state: a permutation of the user's stored orders, newest first |
| OrderService.OrderStore.CreateOrder | backend/order-service/src/main/java/com/ecommerce/order/service/OrderService.java:32-40 | state and result are `Create` of the old state |
| OrderService.OrderStore.UpdateOrderStatus | backend/order-service/src/main/java/com/ecommerce/order/service/OrderService.java:42-50 | state and result are `UpdateStatus` of the old state |
| OrderService.OrderStore.CancelOrder | backend/order-service/src/main/java/com/ecommerce/order/service/OrderService.java:52-60 | state and result are `Cancel` of the old state |
| OrderController.GetAllOrders | backend/order-service/src/main/java/com/ecommerce/order/controller/OrderController.java:21-30 | always 200; with a userId exactly that user's orders newest first, else every stored order |
| OrderController.GetOrderById | backend/order-service/src/main/java/com/ecommerce/order/controller/OrderController.java:32-37 | 200 with the order exactly when present, else 404 without a body |
| OrderController.CreateOrder | backend/order-service/src/main/java/com/ecommerce/order/controller/OrderController.java:39-43 | always 201 with the created order, PENDING, newly stored |
| OrderController.StatusField | backend/order-service/src/main/java/com/ecommerce/order/controller/OrderController.java:47 | `body.get("status")`: null exactly when the key is absent |
| OrderController.UpdateOrderStatus | backend/order-service/src/main/java/com/ecommerce/order/controller/OrderController.java:45-51 | 200 exactly when present, with the stored status equal to the body's status field; else 404 and no change |
| OrderController.PatchWithoutStatusClears | backend/order-service/src/main/java/com/ecommerce/order/controller/OrderController.java:47-48 | a body without "status" stores null |
| OrderController.CancelOrder | backend/order-service/src/main/java/com/ecommerce/order/controller/OrderController.java:53-58 | 204 exactly when the order was PENDING and got cancelled, else 400 with no change |
| OrderController.DeleteTwice | backend/order-service/src/main/java/com/ecommerce/order/controller/OrderController.java:53-58 | a second DELETE of the same order is answered 400 |
| OrderController.PostThenDelete | backend/order-service/src/main/java/com/ecommerce/order/controller/OrderController.java:39-58 | a posted order can be deleted with 204 and is then CANCELLED |
| AIRecommendation.GetAIRecommendation | backend/product-service/src/main/java/com/ecommerce/product/controller/AIRecommendationController.java:38-57 | unknown id: 404 and the analyzer is not invoked; otherwise the analyzer gets the product, and success gives 200 with its result, a missing key 503 with the unavailable text, any other failure 500 with the failure text |
| AIRecommendation.RecommendationStatusMatchesBody | backend/product-service/src/main/java/com/ecommerce/product/controller/AIRecommendationController.java:43-56 | 200 exactly with an analysis body; 503/500 exactly with an error body |
| AIRecommendation.SelectKey | backend/product-service/src/main/java/com/ecommerce/product/service/AIRecommendationService.java:22-27 | GOOGLE_API_KEY when set and non-empty, else GEMINI_API_KEY |
| AIRecommendation.NotConfiguredIffNoKey | backend/product-service/src/main/java/com/ecommerce/product/service/AIRecommendationService.java:22-34 | the selected key is unset exactly when neither variable is set and non-empty: the guard of `analyzeProduct` |
| AIRecommendation.KeyReport | backend/product-service/src/main/java/com/ecommerce/product/controller/AIRecommendationController.java:32-33 | "SET (length: n)" exactly when set and non-empty, else "NOT SET" |
| AIRecommendation.KeyReportReadsBack | backend/product-service/src/main/java/com/ecommerce/product/controller/AIRecommendationController.java:32-33 | the two texts are told apart, and the digits in the report read back as the key's length |
| AIRecommendation.CheckAIHealth | backend/product-service/src/main/java/com/ecommerce/product/controller/AIRecommendationController.java:22-36 | always 200; the status text depends on `configured` alone; each variable is reported by `KeyReport` |
| Text.NatToString | backend/product-service/src/main/java/com/ecommerce/product/controller/AIRecommendationController.java:32 | at least one digit, all digits, no leading zero |
| Text.NatToStringRoundTrip | backend/product-service/src/main/java/com/ecommerce/product/controller/AIRecommendationController.java:32 | reading the rendered length back gives the length |

## Left out

- Money and ratings are `real`. Covered by this:
  - IEEE double rounding in JavaScript, BigDecimal parsing, and `toFixed` display formatting;
  - quantities, which are JavaScript numbers in the source and unbounded integers here.
- Text.Lower: lower-cases ASCII letters only. Java's `toLowerCase` and `equalsIgnoreCase` are Unicode-aware; other letters compare as written.
- Counters and ids are unbounded integers. Covered by this:
  - 64-bit `Long` overflow of `AtomicLong` counters;
  - concurrency of `ConcurrentHashMap`/`AtomicLong`, since the stores are modelled sequentially.
- Iteration order of `values()` is unspecified in Java. The model returns:
  - sets for `getAllProducts` and `getAllUsers`;
  - sub-maps for `searchProducts` and `getProductsByCategory` (`ProductService.Search`, `ProductService.ByCategory`);
  - ascending id order for `getAllOrders`.

  The order among a user's orders with equal `createdAt` is likewise unspecified.
- Aliasing: the services store and return the same mutable objects. A caller mutating a returned object would change the store. The model stores values.
- OrderService.Create: one `now` stands for both clock reads, so `createdAt` and `updatedAt` are equal. The source reads the clock twice.
- Lengths: Dafny's `|s|` counts Unicode scalar values, while JavaScript's `length` and Java's `length()` count UTF-16 code units. A character outside the Basic Multilingual Plane counts 1 here and 2 in the source. This affects:
  - Register.Validate and Register.RegisterPage.HandleRegister (the 6-character minimum);
  - AIRecommendation.KeyReport (the length it reports);
  - Checkout.ChangeKeepsLimits and Checkout.CheckoutPage.HandleChange (the `maxLength` limits).
- Checkout.HandleSubmit and Register.RegisterPage.HandleRegister: the browser's constraint validation is not modelled. The submit handlers are taken to run on every submit. In the source the browser blocks the submit first when a `required` field is empty, when the password is shorter than `minLength="6"`, or when the email fails `type="email"`.
- AIRecommendation.GetAIRecommendation: the analyzer's outcome is a free input. The model does not tie a `NotConfigured` outcome to the keys; `NotConfiguredIffNoKey` states only the key guard.
- OrderController.StatusField: the body is a `map<string, string>`, which cannot hold the JSON body `{"status": null}`. In the source that body also clears the status.
- Null fields. Covered by this:
  - user emails are never null, so the NPE of `registerUser` and `deleteUser` on a null email and the `getEmail() != null` guard of `updateUser` are not modelled;
  - a null `userId` or `createdAt` in orders, or null name, description or category in products, would throw in the filters and sort;
  - Jackson's coercion of non-numeric `id`/`stock` nodes to 0: a present field is taken at its value.
- Network and I/O become inputs:
  - the catalog fetch is a `Feed`;
  - the AI analyzer is an outcome function;
  - BCrypt is `encode`/`matches`;
  - the clock is `now`;
  - environment variables are `Option<string>`;
  - axios calls are split into a request and its success and failure callbacks;
  - logging, `alert`, navigation and `setTimeout` are recorded effects or dropped.
- AIRecommendation.CheckAIHealth: `configured` is an input, because the `isConfigured()` it calls is not part of AIRecommendationService.java.
- Checkout.HandleSubmit: App.jsx neither routes the checkout page nor passes it `clearCart`. Whether `clearCart` was supplied is a parameter.
- Checkout.CheckoutPage.HandleChange: requires the value to fit the field's `maxLength`. The browser enforces that limit on typed input, and the model takes it as given.
- The cart page's "Proceed to Checkout" button has no handler, so there is nothing to model.
- Presentation is not modelled: JSX markup, styles, the image `onError` placeholder and the modal's `onClose`.
- Not part of this model:
  - `Login.jsx`, `Navbar.jsx` (its count is `AppState.App.CartCount`), `api.js` and `gemini.js`;
  - the AI service's HTTP request and response parsing;
  - the API gateway's startup logging.
