# Food ordering: server routes and client views

A Dafny model of the slooze food-ordering application. It has two halves:

- **The Express server.** The bearer-token middleware and the `/auth`, `/restaurants`,
  `/orders` and `/payments` routes. They read and write four document collections:
  `users`, `restaurants`, `orders` and `paymentMethods`.
- **The React dashboard.** The logic of four views:
  - the restaurant list (favourites, search, cuisine filter);
  - the menu dialog (cart, total, order request);
  - the order history (which actions it offers, status badges, checkout request);
  - the payment methods view (edit, save and delete dialog).

Every user belongs to one country and has one role (`admin`, `manager` or `member`).
The server's guards decide who may do what, and in which country. The client views
hide buttons the server would refuse, or, as the model shows, some the server would allow.

Modules:

- `Common`, `Store`: option and reply values; `filter` and `includes`; a collection as a
  sequence of `{ id, data }` documents in the order they were added ("store order"); `getDoc`;
  `where` queries.
- `Records`: the stored documents (restaurant, menu item, order, payment method), order
  statuses, and `role`/`country` lookups on a user.
- `Middleware`: `authenticateToken`, `authorizeRole`, `authorizeCountry`. The decisions
  are pure functions. A request passing through the chain is a class `Exchange`.
- `AuthRoutes`: `POST /login` and `GET /me`.
- `RestaurantRoutes`: the restaurant list and the menu of one restaurant.
- `OrderRoutes`: create, list, cancel, checkout. Each handler is a pure step function
  returning the reply and the new collection. Its guards appear in checking order. The
  class `OrderStore` runs the same handlers as methods that update the stored collection
  in place.
- `PaymentRoutes`: the card-number mask and the four payment method handlers. The class
  `PaymentStore` works the same way as `OrderStore`.
- `MenuModal`, `RestaurantList`, `OrderHistory`, `PaymentMethodsView`: the client views.
  Component state that the code updates in place (cart, favourites, dialog) is a class.
- `EndToEnd`: how what a client view sends or offers relates to what the server then
  does.

External code and side effects are modelled as follows:

- `jwt.verify`, `jwt.sign` and `bcrypt.compare` are function parameters.
- The clock is a `now` parameter.
- A generated document id is a `newId` parameter.
- A user's confirmation in a browser dialog is a boolean parameter.
- Whether the server accepted a request is a `succeeded` parameter.

Where the code and the intended behaviour of the application disagree, the model follows
the code. The model states each such difference in a lemma:

- **Cancelling.** Cancel refuses only `delivered` and `cancelled` orders, so a paid order
  can be cancelled (`PaidOrderIsCancellable`).
- **Checkout, status.** Checkout has no status guard, so a cancelled or already paid order
  is paid again (`CheckoutIgnoresStatus`).
- **Checkout, country.** Checkout only asks whether a payment method with that id exists,
  never what country it belongs to (`CheckoutIgnoresMethodData`, `CheckoutChecksInOrder`).
- **Order total.** The server stores the total it is sent without recomputing it
  (`CreatedOrder`). Only the menu dialog makes it consistent (`DialogOrderTotalIsConsistent`).
- **Grouped card numbers.** The mask `/\d(?=\d{4})/g` leaves a card number typed in
  space-separated groups of four completely unmasked. The form's own placeholder is
  written that way (`GroupedNumberIsStoredAsIs`).
- **Editing a card.** Editing only removes the `*` characters. A card stored from an
  all-digit number therefore unmasks to its last four digits, and saving without retyping
  replaces the stored number with those four digits (`SaveWithoutRetypingKeepsLastFour`).
  A card stored in the grouped format `**** **** **** 1234` keeps its spaces: it unmasks to
  `   1234`, which saving stores as it is (`SeededCardSavedWithSpaces`).
- **Client versus server.** The history view hides cancel and checkout on a paid order,
  yet the server accepts both (`ServerAcceptsWhatClientHides`).

## Model

| member | source | states |
|---|---|---|
| `Store.IndexOf` | server/routes/orders.js:80-84 | the position found holds the id, no earlier document has it, and it is past the end exactly when the id is absent |
| `Store.Get` | server/routes/orders.js:80-86 | `getDoc` finds a document exactly when the id is stored, and returns the data of the first document with that id |
| `Store.WhereMembers` | server/routes/restaurants.js:12-14 | a query result holds exactly the stored documents whose data satisfies the condition |
| `Store.WhereIsSubsequence` | server/routes/restaurants.js:12-14 | a query result keeps store order |
| `Store.WhereFirst` | server/routes/auth.js:15-22 | `snapshot.empty` holds exactly when no document matches; otherwise `docs[0]` is the first matching document of the collection |
| `Store.WhereUnique` | server/routes/auth.js:15-16 | a query result keeps ids unique |
| `Common.FilterMembers` | client/src/components/Dashboard/RestaurantList.js:48-53 | `filter` keeps exactly the elements satisfying the test |
| `Common.FilterIsSubsequence` | client/src/components/Dashboard/RestaurantList.js:48-53 | `filter` keeps the elements in their order |
| `Common.FilterNarrows` | client/src/components/Dashboard/RestaurantList.js:48-53 | filtering by a stronger test keeps a subsequence of what the weaker test keeps |
| `Middleware.Split` | server/middleware/auth.js:7 | `split(' ')` yields at least one field and no field contains a space |
| `Middleware.JoinSplit` | server/middleware/auth.js:7 | splitting loses nothing: joining the fields with single spaces gives the header back |
| `Middleware.BearerToken` | server/middleware/auth.js:6-11 | a missing or empty header gives no token, so the 401 `Access token required`; an extracted token is non-empty and contains no space |
| `Middleware.TokenAfterFirstSpace` | server/middleware/auth.js:6-11 | for any scheme word, the token is the text between the first space and the next one |
| `Middleware.TokenShape` | server/middleware/auth.js:6-11 | conversely, every extracted token sits right after the header's first space |
| `Middleware.NoSpaceNoToken` | server/middleware/auth.js:6-11 | a header without a space yields no token (401) |
| `Middleware.SessionUser` | server/middleware/auth.js:22 | `req.user` has the stored fields plus `id`; stored fields win, and `id` is the token's user id when the document has none |
| `Middleware.Authenticate` | server/middleware/auth.js:5-27 | authentication succeeds exactly when there is a token, it verifies, and it names a stored user; every denial is 401, or 403 `Invalid token` |
| `Middleware.AuthenticateCases` | server/middleware/auth.js:9-26 | no token gives 401, a token that does not verify gives 403, an unknown user gives 401 `User not found`; success carries that user's stored fields |
| `Middleware.Exchange.AuthenticateToken` | server/middleware/auth.js:5-27 | on success sets `req.user` and calls `next` once without responding; on failure responds with the denial and neither sets `req.user` nor calls `next` |
| `Middleware.Exchange.AuthorizeRole` | server/middleware/auth.js:29-36 | calls `next` exactly when the user's role is listed; otherwise responds 403 `Insufficient permissions` |
| `Middleware.Exchange.AuthorizeCountry` | server/middleware/auth.js:38-44 | objects (403) only when the body names a country other than the user's |
| `Middleware.Exchange.Guard` | server/routes/orders.js:76 | `authenticateToken, authorizeRole(roles)` admit a request exactly when the token resolves to a stored user with a listed role; then `req.user` is that session user; a failed authentication sends its own denial, a listed-role failure 403 `Insufficient permissions` |
| `AuthRoutes.PublicUser` | server/routes/auth.js:39-46 | the returned user has no `password`, keeps every other stored field, and carries the document id |
| `AuthRoutes.Login` | server/routes/auth.js:9-52 | a failure is 401 `Invalid credentials` or 500; a success is 200 and never contains the password |
| `AuthRoutes.LoginFailuresIndistinguishable` | server/routes/auth.js:18-29 | an unknown email and a wrong password for the first user with that email give the same 401 |
| `AuthRoutes.LoginSucceedsForFirstMatch` | server/routes/auth.js:22-47 | a successful login is for the first user with that email, whose hash matched; the token is signed for that document with a 24h lifetime |
| `AuthRoutes.LoginByFirstMatch` | server/routes/auth.js:13-50 | for the first user with that email, an accepted password logs in as that user with a 24h token for its id; a user without a stored hash gives 500 |
| `AuthRoutes.Me` | server/routes/auth.js:55-85 | every failure is a 401; a success has an `id` and no password |
| `AuthRoutes.MeAgreesWithMiddleware` | server/routes/auth.js:57-84 | `/me` accepts exactly what `authenticateToken` accepts and returns that user minus the password; a token that does not verify gives 401 here, not 403 |
| `RestaurantRoutes.ListRestaurants` | server/routes/restaurants.js:8-29 | exactly the restaurants of the caller's country, in store order; 500 for a user without a country |
| `RestaurantRoutes.GetMenu` | server/routes/restaurants.js:32-65 | 404 for a missing restaurant before 403 for another country's; otherwise exactly that restaurant's menu items, in store order |
| `OrderRoutes.CreateCheck` | server/routes/orders.js:8-22 | creation proceeds only for an existing restaurant of the caller's country |
| `OrderRoutes.CancelCheck` | server/routes/orders.js:76-96 | cancelling proceeds only for an existing order |
| `OrderRoutes.CheckoutCheck` | server/routes/orders.js:111-134 | checkout proceeds only for an existing order |
| `OrderRoutes.CreateChecksInOrder` | server/routes/orders.js:8-22 | role 403, then missing restaurant 404, then other country 403; nothing is written in any of these cases |
| `OrderRoutes.CreatedOrder` | server/routes/orders.js:24-40 | a created order is appended with status `pending`, the caller's id and country, and the items and total as sent; it has no payment yet |
| `OrderRoutes.CancelChecksInOrder` | server/routes/orders.js:76-103 | role 403, missing 404, other country 403, delivered or cancelled 400; otherwise only that order becomes `cancelled` |
| `OrderRoutes.CancelIsNotRepeatable` | server/routes/orders.js:94-96 | cancelling a cancelled order always fails and writes nothing |
| `OrderRoutes.PaidOrderIsCancellable` | server/routes/orders.js:94-101 | a paid order of the caller's country is cancelled by an admin or manager |
| `OrderRoutes.CheckoutChecksInOrder` | server/routes/orders.js:111-144 | role 403, missing 404, other country 403, missing payment method 404; otherwise only that order becomes `paid`, with the method and time |
| `OrderRoutes.CheckoutIgnoresMethodData` | server/routes/orders.js:129-134 | checkout depends on the payment methods only through their ids, not their data or country |
| `OrderRoutes.CheckoutIgnoresStatus` | server/routes/orders.js:116-142 | the checkout verdict does not depend on the order's status |
| `OrderRoutes.ServeEvolves` | server/routes/orders.js:7-149 | across any sequence of requests, no order disappears or moves, and its owner, restaurant, items, total, country and creation time never change |
| `OrderRoutes.InsertNewestFirst` | server/routes/orders.js:55 | inserting into a newest-first list keeps it newest first and adds exactly that order |
| `OrderRoutes.SortNewestFirst` | server/routes/orders.js:55 | the result is newest first and a permutation of the input |
| `OrderRoutes.OrderStore.Create` | server/routes/orders.js:8-45 | the reply and new collection are those of the create step; ids stay unique |
| `OrderRoutes.OrderStore.List` | server/routes/orders.js:48-73 | exactly the caller's orders in the caller's country, newest first, as a permutation of the query result; 500 for a user without a country |
| `OrderRoutes.OrderStore.Cancel` | server/routes/orders.js:76-108 | the reply and new collection are those of the cancel step; ids stay unique |
| `OrderRoutes.OrderStore.Checkout` | server/routes/orders.js:111-149 | the reply and new collection are those of the checkout step; ids stay unique |
| `PaymentRoutes.Mask` | server/routes/payments.js:36 | the same length; a character becomes `*` exactly where `/\d(?=\d{4})/` matches, and every other character is kept |
| `PaymentRoutes.MaskLeavesNoLongRun` | server/routes/payments.js:36 | a masked number never has five consecutive digits |
| `PaymentRoutes.MaskIdempotent` | server/routes/payments.js:75 | masking an already masked number changes nothing |
| `PaymentRoutes.MaskDigits` | server/routes/payments.js:36 | a number of digits keeps only its last four digits, one `*` per other digit; four digits or fewer stay as they are |
| `PaymentRoutes.MaskShortIsIdentity` | server/routes/payments.js:36 | four characters or fewer are never masked |
| `PaymentRoutes.NonDigitBlocks` | server/routes/payments.js:36 | a non-digit shields itself and the four characters before it from the mask |
| `PaymentRoutes.GroupedNumberIsStoredAsIs` | server/routes/payments.js:36 | the mask leaves `1234 5678 9012 3456`, the form's placeholder format, entirely unmasked |
| `PaymentRoutes.Without` | server/routes/payments.js:111 | deleting the `k`-th document keeps all others in order |
| `PaymentRoutes.ListCases` | server/routes/payments.js:8-27 | only an admin gets a list, of exactly the methods of the admin's country, in store order; no country gives 500 |
| `PaymentRoutes.CreateCases` | server/routes/payments.js:30-54 | non-admin 403; no card number or no country 500; otherwise one document appended with the masked card, the caller's country and equal timestamps |
| `PaymentRoutes.UpdateCases` | server/routes/payments.js:57-93 | non-admin 403, missing 404, other country 403, no card number 500; otherwise only that document is rewritten, keeping country and creation time, and the reply is what is stored |
| `PaymentRoutes.DeleteCases` | server/routes/payments.js:96-118 | refuses like update; otherwise removes exactly the document with that id, keeps the others, and ids stay unique |
| `PaymentRoutes.WritesStayInCountry` | server/routes/payments.js:30-118 | no create, update or delete changes which documents of another country are stored |
| `PaymentRoutes.PaymentStore.List` | server/routes/payments.js:8-27 | the copied list is the list step's reply |
| `PaymentRoutes.PaymentStore.Create` | server/routes/payments.js:30-54 | the reply and new collection are those of the create step; ids stay unique |
| `PaymentRoutes.PaymentStore.Update` | server/routes/payments.js:57-93 | the reply and new collection are those of the update step; ids stay unique |
| `PaymentRoutes.PaymentStore.Delete` | server/routes/payments.js:96-118 | the reply and new collection are those of the delete step; ids stay unique |
| `MenuModal.Find` | client/src/components/Dashboard/MenuModal.js:31 | `cart.find` gives the first entry with that id, or none |
| `MenuModal.Quantity` | client/src/components/Dashboard/MenuModal.js:56-59 | 0 for an item not in the cart; otherwise that entry's quantity, never negative in a well-formed cart |
| `MenuModal.Bumped` | client/src/components/Dashboard/MenuModal.js:33-37 | changes the quantity of the entries with that id by `delta` and nothing else |
| `MenuModal.AddToCartEffect` | client/src/components/Dashboard/MenuModal.js:30-41 | the item's quantity rises by one (a new item is appended with 1); other items and entries are unchanged |
| `MenuModal.AddedWellFormed` | client/src/components/Dashboard/MenuModal.js:30-41 | adding keeps ids distinct and quantities positive |
| `MenuModal.RemoveFromCartEffect` | client/src/components/Dashboard/MenuModal.js:43-54 | nothing happens to an absent id; a quantity above one drops by one; a quantity of one removes the entry; other items keep their quantity |
| `MenuModal.RemovedWellFormed` | client/src/components/Dashboard/MenuModal.js:43-54 | removing keeps ids distinct and quantities positive |
| `MenuModal.RemoveUndoesAdd` | client/src/components/Dashboard/MenuModal.js:30-54 | removing an item right after adding it restores the cart exactly |
| `MenuModal.Total` | client/src/components/Dashboard/MenuModal.js:61-63 | the total is non-negative when prices and quantities are |
| `MenuModal.TotalUpdate` | client/src/components/Dashboard/MenuModal.js:61-63 | changing one entry changes the total by the difference of its subtotals |
| `MenuModal.TotalAfterAdd` | client/src/components/Dashboard/MenuModal.js:30-63 | adding an item raises the total by one unit price of that item |
| `MenuModal.Lines` | client/src/components/Dashboard/MenuModal.js:75-80 | one order line per cart entry, in cart order |
| `MenuModal.TotalIsItemsTotal` | client/src/components/Dashboard/MenuModal.js:73-82 | the displayed total equals the sum of price times quantity over the lines sent |
| `MenuModal.Payload` | client/src/components/Dashboard/MenuModal.js:65-82 | no request for an empty cart; otherwise the restaurant, one line per entry, and a total equal both to the cart total and to the sum of the lines |
| `MenuModal.PayloadOfCart` | client/src/components/Dashboard/MenuModal.js:73-82 | a non-empty cart sends exactly its lines and its total |
| `MenuModal.CartState.AddToCart` | client/src/components/Dashboard/MenuModal.js:30-41 | the cart becomes the added cart and stays well formed |
| `MenuModal.CartState.RemoveFromCart` | client/src/components/Dashboard/MenuModal.js:43-54 | the cart becomes the removed cart and stays well formed |
| `MenuModal.CartState.CreateOrder` | client/src/components/Dashboard/MenuModal.js:65-94 | sends the payload of the cart; the cart is emptied only after a request that succeeded |
| `RestaurantList.ToggleFlips` | client/src/components/Dashboard/RestaurantList.js:35-46 | toggling flips exactly that id's membership; toggling twice restores the set |
| `RestaurantList.Favorites.ToggleFavorite` | client/src/components/Dashboard/RestaurantList.js:35-46 | the favourites become the toggled set |
| `RestaurantList.LowerChar` | client/src/components/Dashboard/RestaurantList.js:49-50 | each upper-case ASCII letter becomes its own lower-case letter; every other character is kept |
| `RestaurantList.Lower` | client/src/components/Dashboard/RestaurantList.js:49-50 | lower-cases character by character, keeping the length |
| `RestaurantList.HasSubstringAt` | client/src/components/Dashboard/RestaurantList.js:49-50 | `includes` holds exactly when the term occurs at some position |
| `RestaurantList.FilteredMembers` | client/src/components/Dashboard/RestaurantList.js:48-53 | the shown list is exactly the matching restaurants, in fetched order |
| `RestaurantList.NoFilterKeepsAll` | client/src/components/Dashboard/RestaurantList.js:48-53 | an empty search with `all` selected shows every restaurant |
| `RestaurantList.CuisineNarrows` | client/src/components/Dashboard/RestaurantList.js:48-53 | picking a cuisine only narrows what `all` shows for the same search |
| `RestaurantList.Distinct` | client/src/components/Dashboard/RestaurantList.js:55 | `[...new Set(s)]` has no repeats and the same members as `s` |
| `RestaurantList.DistinctPrefix` | client/src/components/Dashboard/RestaurantList.js:55 | the distinct values of a prefix are a prefix of the distinct values of the whole |
| `RestaurantList.CuisineNames` | client/src/components/Dashboard/RestaurantList.js:55 | `restaurants.map(r => r.cuisine)`, position by position |
| `RestaurantList.Cuisines` | client/src/components/Dashboard/RestaurantList.js:55 | `all` comes first, then each cuisine of the list once |
| `RestaurantList.CuisinesInFirstAppearanceOrder` | client/src/components/Dashboard/RestaurantList.js:55 | the options follow the order in which cuisines first appear |
| `RestaurantList.AllListedTwice` | client/src/components/Dashboard/RestaurantList.js:55 | an option repeats exactly when some restaurant's cuisine is itself called `all` |
| `OrderHistory.ActionsOfferedTogether` | client/src/components/Dashboard/OrderHistory.js:102-110 | cancel and checkout are offered together, only to admins and managers and only on pending orders |
| `OrderHistory.PaymentMethodsForCheckoutRoles` | client/src/components/Dashboard/OrderHistory.js:18-20 | payment methods are fetched for exactly the roles that can be offered checkout |
| `OrderHistory.StatusColor` | client/src/components/Dashboard/OrderHistory.js:89-100 | pending is yellow, paid green, cancelled red; any unknown status is gray |
| `OrderHistory.StatusIcon` | client/src/components/Dashboard/OrderHistory.js:76-87 | pending shows a yellow clock, paid a green check, cancelled a red cross; any unknown status a gray clock |
| `OrderHistory.StatusesLookDifferent` | client/src/components/Dashboard/OrderHistory.js:76-100 | a known status differs from every other status in both colour and icon |
| `OrderHistory.UnknownStatusesLookAlike` | client/src/components/Dashboard/OrderHistory.js:76-100 | all unknown statuses look the same, in gray |
| `OrderHistory.OrderNumber` | client/src/components/Dashboard/OrderHistory.js:142 | `slice(-8)` is the last eight characters of the id, or all of a shorter id |
| `OrderHistory.CheckoutRequest` | client/src/components/Dashboard/OrderHistory.js:55-64 | nothing is sent without a selected payment method; otherwise the selected id is sent |
| `PaymentMethodsView.UnmaskKeepsOthers` | client/src/components/Dashboard/PaymentMethods.js:65 | removing `*` leaves no `*` and keeps every other character, as often as it occurs and in order |
| `PaymentMethodsView.UnmaskDropsLeadingStars` | client/src/components/Dashboard/PaymentMethods.js:65 | stars in front of a star-free text are all dropped |
| `PaymentMethodsView.UnmaskKeepsLastFour` | client/src/components/Dashboard/PaymentMethods.js:65 | a stored number of digits comes back as its last four digits only |
| `PaymentMethodsView.StoredCardEditedAsLastFour` | client/src/components/Dashboard/PaymentMethods.js:65 | `************3456` is edited as `3456` |
| `PaymentMethodsView.SaveRequestFor` | client/src/components/Dashboard/PaymentMethods.js:38-44 | PUT to the edited method's id when editing, POST otherwise, always with the form |
| `PaymentMethodsView.DeleteRequest` | client/src/components/Dashboard/PaymentMethods.js:72-78 | a DELETE for that id is sent exactly when the user confirms |
| `PaymentMethodsView.PaymentDialog.HandleEdit` | client/src/components/Dashboard/PaymentMethods.js:61-70 | opens the dialog on that method, with the number unmasked |
| `PaymentMethodsView.PaymentDialog.HandleSubmit` | client/src/components/Dashboard/PaymentMethods.js:34-59 | sends the request for the current form; closes and resets only after a request that succeeded |
| `PaymentMethodsView.PaymentDialog.CloseModal` | client/src/components/Dashboard/PaymentMethods.js:87-96 | closed, nothing being edited, form at its defaults |
| `EndToEnd.DialogOrderTotalIsConsistent` | client/src/components/Dashboard/MenuModal.js:73-84 | an order placed from the dialog is stored with a total equal to the sum of its lines and to the dialog's total, one line per cart entry |
| `EndToEnd.OrderButtonMatchesServerRoles` | client/src/components/Dashboard/MenuModal.js:96 | the order button is offered to exactly the roles the server lets create orders |
| `EndToEnd.CancelOfferedOnlyWhenServerAgrees` | client/src/components/Dashboard/OrderHistory.js:102-105 | where cancel is offered, the server's role and status guards pass; in the user's country it proceeds |
| `EndToEnd.CheckoutOfferedOnlyWhenServerAgrees` | client/src/components/Dashboard/OrderHistory.js:107-110 | where checkout is offered, the server never refuses on role; in the user's country, with an existing method, it proceeds |
| `EndToEnd.ServerAcceptsWhatClientHides` | client/src/components/Dashboard/OrderHistory.js:102-110 | on a paid order the view offers neither action, yet the server proceeds with both |
| `EndToEnd.SaveWithoutRetypingKeepsLastFour` | client/src/components/Dashboard/PaymentMethods.js:61-70 | saving an edited card without retyping stores only its last four digits, which differs from the stored mask when the number is longer than four digits |
| `EndToEnd.SeededCardSavedWithSpaces` | client/src/components/Dashboard/PaymentMethods.js:61-70 | a card stored in the grouped format `**** **** **** dddd` is edited as three spaces followed by `dddd`, and saving stores that text unchanged |

## Left out

- Document store I/O is left out. The model has no failing reads or writes, so it has
  none of the replies their `catch` blocks give: 403 `Invalid token` in `authenticateToken`,
  401 `Invalid token` in `GET /me`, and 500 in the other route handlers. It also leaves out
  ids that are not valid document paths. Missing documents are modelled. So are the two
  failures the code provokes itself for a user without a country: a query
  `where('country', '==', undefined)` and a write of `country: undefined` in `POST /payments`.
  Both give 500.
- Concurrency is left out. There are no interleaved requests, no read-then-write races,
  and no transactions. Each handler runs as one step.
- The insides of `jsonwebtoken` and `bcryptjs` are left out: signature checking, expiry
  and hashing. Verify, sign and compare are parameters. The scheme word before the token
  is, as in the code, not checked to be `Bearer`.
- Clock readings are left out. `new Date().toISOString()` is a natural-number instant
  passed in. ISO strings of one format order like the instants they denote.
- Money is whole cents (`int`). The client adds JavaScript floating-point numbers; the
  model has no rounding.
- `toLowerCase` is modelled on ASCII letters only. Unicode case mapping is left out.
- Rendering, toasts, loading flags, `axios` calls, `useEffect` fetching, menu fetching,
  `onClose`, `handleCancelOrder` and the refetch after a change are left out. A view's
  logic is modelled as the request it sends and the state it keeps.
- `window.confirm` and the server's answer are boolean parameters.
- Request bodies are modelled only in part. Body fields other than `cardNumber` are plain
  strings, so an absent `type`, `expiryDate` or `holderName` (which Firestore rejects) is
  not modelled. A missing `cardNumber` is modelled, as the 500 its `replace` throws.
- React's asynchronous state batching is left out. The cart, the favourites and the
  payment dialog are classes whose fields the handlers update in place.
- Context files are not part of this model: `config/firebase.js` and the server entry point
  that mounts the routers. The order and payment handlers' `authenticateToken` is modelled
  once, in `Middleware.Exchange.Guard`. Each handler's step function starts at the role check.
- PaymentRoutes.CreateCases: a new document is appended, so in the model a new payment
  method is listed after all older ones. The store answers a query without `orderBy` in
  document-id order, and a generated id can fall anywhere, so where a new document appears
  in later listings is not modelled. The same holds for `OrderRoutes.CreateStep`. There it
  only matters among orders with the same `createdAt`, because the order list is sorted by
  that field. `OrderRoutes.ServeEvolves`' "no order moves" is about this insertion order.
  Likewise, which of several users sharing an email logs in (`snapshot.docs[0]`) is the first
  in this order, not the one with the smallest id.
