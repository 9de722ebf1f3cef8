# Storefront decision logic, modelled in Dafny

This project models the parts of the storefront that make sequential
decisions: the mobile checkout wizard and the order it assembles, the cart
API's add-item handler, the catalog pagination helper, the product-path
listing built on it, and the product page's option selection and add-to-cart
button. Rendering, styling and the GraphQL plumbing are left out. Every
backend call is an oracle parameter that accepts or rejects. The model's
observable results are the requests issued, the cookies set, the response
sent and the new UI state, all as plain data.

Modules, one per source file:

- `Common` (common.dfy): optional values, JavaScript truthiness of optional strings, `toLowerCase`, GraphQL variable objects.
- `Checkout` (checkout.dfy): components/checkout/CheckoutView/CheckoutView.tsx.
- `AddItem` (add_item.dfy): framework/reactioncommerce/api/cart/handlers/add-item.ts.
- `Pagination` (fetch_all_products.dfy): framework/reactioncommerce/api/utils/fetch-all-products.ts.
- `ProductPaths` (product_paths.dfy): framework/reactioncommerce/product/get-all-product-paths.ts.
- `ProductView` (product_view.dfy): components/product/ProductView/ProductView.tsx.

Modelling conventions:

- Reading a property of `null` or `undefined` throws a TypeError; the
  TypeScript `!` assertions written in front of such reads are erased when
  compiled and check nothing. Inside an async handler the TypeError behaves
  like a rejected await. Where the model can represent the absent value
  (a missing cart checkout, line-item list, selected fulfillment method,
  first fulfillment option, first variant, catalog product, or an option
  without values), it returns `None`, `Throws`, `MissingProduct` or a failed
  `Effect` there. The absent values it cannot represent are listed under
  "Left out".
- The form library's judgements are booleans in the form records. These are
  "the phone casts to a number", "the e-mail is well formed" and "the
  shipping form is valid". The required-field rule of the personal-data
  schema is written out in `UserFormValid`.
- Money amounts are `real`. No arithmetic is done on them.

Behaviour of the checkout code worth noting, which the model reproduces:

- Every fulfillment group input repeats all cart line items. An order
  therefore carries (groups × line items) item inputs, not the cart's item
  count (`Checkout.OrderItemCount`).
- `handleBack` decrements without a guard. Only the back button's `disabled`
  flag keeps the step at 0.
- With no cart, `handlePlaceOrder` sends nothing, yet the wizard still
  advances to step 3.
- A rejected call never clears the in-flight flag (see Findings).

## Model

| member | source | states |
|---|---|---|
| Checkout.UserFormValid | components/checkout/CheckoutView/CheckoutView.tsx:52-60 | the personal-data schema: first name, last name and e-mail required, phone a required number, e-mail well formed; the number cast and the e-mail syntax are the schema library's judgements |
| Checkout.CanContinueNextStep | components/checkout/CheckoutView/CheckoutView.tsx:130-140 | continuing is allowed only at pages 0..2. Page 0 needs a valid personal-data form, page 1 a valid shipping form, page 2 a chosen payment. Any other index is refused. |
| Checkout.CanContinueDependsOnlyOnOwnPage | components/checkout/CheckoutView/CheckoutView.tsx:130-140 | editing the forms of other pages (or the cart) never changes whether the current page may continue |
| Checkout.SelectPayment | components/checkout/CheckoutView/CheckoutView.tsx:93 | choosing a payment method records it and leaves the step and the in-flight flag alone |
| Checkout.SelectingPaymentEnablesContinue | components/checkout/CheckoutView/CheckoutView.tsx:136-137 | at the payment page with nothing chosen, continue is disabled. Choosing any method enables it. |
| Checkout.ReadyToFinalize | components/checkout/CheckoutView/CheckoutView.tsx:126-128 | the finalize flag holds exactly at step 2 |
| Checkout.NextLabel | components/checkout/CheckoutView/CheckoutView.tsx:293 | the continue button reads 'Завърши' exactly when `readyToFinalize` holds (step 2), otherwise 'Продължи' |
| Checkout.ShippingAddressPayload | components/checkout/CheckoutView/CheckoutView.tsx:143-155 | the address sent satisfies fullName = firstName + " " + lastName and city = region = locality. The country is 'България'. The names, phone, street and postal code come from the forms. |
| Checkout.FirstFulfillmentTarget | components/checkout/CheckoutView/CheckoutView.tsx:156-160 | a target exists iff the cart, its checkout, a first group, a first available option and that option's method are all present. It is then that group's id and that option's method id. |
| Checkout.OrderItems | components/checkout/CheckoutView/CheckoutView.tsx:187-196 | line items become order items one for one, in cart order, with added-at, price, product configuration and quantity carried over |
| Checkout.GroupInputs | components/checkout/CheckoutView/CheckoutView.tsx:184-207 | one input per fulfillment group, in order, exists iff every group has a selected method and, when there is a group, the line-item list is present. Each input has all cart items, the checkout total, the group's selected method id, shop id, data and type. |
| Checkout.BuildOrder | components/checkout/CheckoutView/CheckoutView.tsx:179-216 | no cart gives nothing. An order is built iff the checkout exists, every group has a selected method and the line items are present when there is a group. It carries the cart id, the checkout currency, the form's e-mail, the cart's shop id and one group input per group. |
| Checkout.BuiltOrderGroups | components/checkout/CheckoutView/CheckoutView.tsx:184-206 | in a built order, group i has exactly the cart's line items as order items, in cart order, the checkout total as totalPrice, and group i's selected method, shop, data and type |
| Checkout.OrderItemCount | components/checkout/CheckoutView/CheckoutView.tsx:184-207 | a built order carries (number of groups) × (number of cart line items) item inputs |
| Checkout.PaymentAmount | components/checkout/CheckoutView/CheckoutView.tsx:172 | the payment amount is the checkout total, or 0 when the cart or its checkout is absent |
| Checkout.SetShippingAddressEffect | components/checkout/CheckoutView/CheckoutView.tsx:142-161 | the address call always comes first. The fulfillment-option call for the first group's first option follows iff the address was accepted and that target exists. Success needs both calls accepted. |
| Checkout.PlaceOrderEffect | components/checkout/CheckoutView/CheckoutView.tsx:163-177 | with no cart, nothing is sent and the handler succeeds. Exactly one place-order call is sent iff an order was built and a payment is chosen. It carries the built order and one payment of the checkout total by the chosen method's name. The handler succeeds iff there is no cart or that call is accepted, so it fails when buildOrder throws or no payment is chosen. |
| Checkout.HandleNextAsWritten | components/checkout/CheckoutView/CheckoutView.tsx:95-112 | while in flight, nothing happens. A success advances the step by exactly one and clears the flag. A rejection (only possible at steps 1 and 2) keeps the step and leaves the flag set. The payment choice is untouched. |
| Checkout.HandleNext | components/checkout/CheckoutView/CheckoutView.tsx:95-112 | the corrected handler: same as written, except that a rejection leaves the wizard exactly as before, with the flag clear |
| Checkout.StepEffect | components/checkout/CheckoutView/CheckoutView.tsx:98-109 | the backend work awaited at a step: the shipping-address handler at step 1, the place-order handler at step 2, nothing at any other step |
| Checkout.HandleNextCalls | components/checkout/CheckoutView/CheckoutView.tsx:98-111 | both handlers issue the same calls and reject alike. Step 0 (and any index other than 1 and 2) advances with no call. Step 1 sends the address and then the fulfillment option, and succeeds iff both are accepted. Step 2 sends the place-order calls, at most one, and succeeds iff there is no cart or that call is accepted; a missing cart at step 2 still advances to 3. |
| Checkout.HandleBack | components/checkout/CheckoutView/CheckoutView.tsx:114-116 | back lowers the step by exactly one and changes nothing else |
| Checkout.NextDisabled | components/checkout/CheckoutView/CheckoutView.tsx:291 | the continue button is disabled at step 3 or when the current page may not continue |
| Checkout.BackDisabled | components/checkout/CheckoutView/CheckoutView.tsx:301 | the back button is disabled exactly at step 0 |
| Checkout.ClickNext | components/checkout/CheckoutView/CheckoutView.tsx:286-291 | a disabled continue button (step 3, or the page cannot continue) does nothing, and a press while a call is in flight issues no call and changes nothing. An enabled, idle press issues exactly the step's calls, rejects iff that work fails, and otherwise advances the step by one; the step never moves by more than one. |
| Checkout.ClickBack | components/checkout/CheckoutView/CheckoutView.tsx:297-301 | back is a no-op at step 0 and decrements otherwise |
| Checkout.StepStaysInRange | components/checkout/CheckoutView/CheckoutView.tsx:286-304 | through the buttons, any sequence of presses and payment choices keeps the step within 0..3, for either handler |
| Checkout.RejectionStallsWizard | components/checkout/CheckoutView/CheckoutView.tsx:99-111 | as written, once the flag is stuck, no later sequence of events raises the step above its current value or clears the flag |
| Checkout.RejectedShippingAddressLocksContinue | components/checkout/CheckoutView/CheckoutView.tsx:99-103 | a refused shipping address leaves the as-written wizard at step 1 with the flag set. A second press against a backend that accepts everything does nothing. |
| Checkout.MissingCheckoutLocksContinue | components/checkout/CheckoutView/CheckoutView.tsx:105-111 | at step 2 with a method chosen, a cart without a checkout makes buildOrder throw before any call. The as-written wizard then stays at step 2 with the flag set, and a second press does nothing. |
| Checkout.RetryAfterRejection | components/checkout/CheckoutView/CheckoutView.tsx:99-111 | with the corrected handler, a rejection holds the step with the flag clear. A retry against an accepting backend then advances when the page's data is complete. |
| AddItem.Quantity | framework/reactioncommerce/api/cart/handlers/add-item.ts:40 | an absent or zero quantity becomes 1. Any other quantity is kept. The result is never 0. |
| AddItem.ItemInput | framework/reactioncommerce/api/cart/handlers/add-item.ts:47-55 | the mutation item carries the body's product id, variant id and pricing, with the normalised quantity |
| AddItem.CartTokenParam | framework/reactioncommerce/api/cart/handlers/add-item.ts:83-85 | `cartToken` is present iff the anonymous token cookie is truthy, and it is that cookie's value |
| AddItem.AuthorizationParam | framework/reactioncommerce/api/cart/handlers/add-item.ts:87-91 | the Authorization header is present iff the customer token cookie is truthy, and it reads "Bearer " followed by the token |
| AddItem.AddItems | framework/reactioncommerce/api/cart/handlers/add-item.ts:103-132 | the add-items mutation is appended to the requests. It targets the given cart with a one-element item list, the token field and the header. The handler replies 200 with the mutation's data iff the mutation resolves. |
| AddItem.HandleAddItem | framework/reactioncommerce/api/cart/handlers/add-item.ts:14-133 | a missing or empty cart-id cookie answers 400 "Missing cartId cookie" before the item is looked at, and a missing item answers 400 "Missing item"; requests are issued iff both are present. The dummy cart id leads to exactly one create-cart request for the shop and the one item, never add-items, and on success both cookies are set from the created cart (999 days) with a 200 carrying its data. Any other cart is reconciled first iff both tokens are set; the items then go to the reconciled cart, the anonymous-token cookie is cleared and the cart-id cookie reset to the new id, while without reconciliation they go to the cookie's cart and no cookie is set. A rejected reconcile ends the handler after that one request. The final add-items resolving gives 200 with its data. |
| AddItem.HandleAddItemPaths | framework/reactioncommerce/api/cart/handlers/add-item.ts:27-132 | on every path: 400 is answered iff no request is issued; every mutation carries exactly the body's one item with a non-zero quantity; the dummy cart never receives add-items; the handler stops at the first rejected request and replies iff all its requests resolved; a cookie is written only after a first create-cart or reconcile request resolved |
| Pagination.PageEdges | framework/reactioncommerce/api/utils/fetch-all-products.ts:21 | a page's edges, empty when `catalogItems` or its `edges` is absent |
| Pagination.HasNextPage | framework/reactioncommerce/api/utils/fetch-all-products.ts:22 | `pageInfo.hasNextPage` is true; absent `catalogItems` or `hasNextPage` counts as false |
| Pagination.NextCursor | framework/reactioncommerce/api/utils/fetch-all-products.ts:25-26 | a cursor to continue from exists iff the page reports a next page and its last edge has a truthy cursor. It is that edge's cursor. |
| Pagination.RequestVars | framework/reactioncommerce/api/utils/fetch-all-products.ts:18 | a request's variables are the caller's, with `cursor` overriding any caller value (set to `undefined` when there is none) |
| Pagination.FetchAll | framework/reactioncommerce/api/utils/fetch-all-products.ts:6-38 | the first request uses the starting cursor. Every request keeps the caller's keys plus `cursor`. A completed fold extends the accumulator. At most `fuel` requests are issued. |
| Pagination.FetchAllCollectsPages | framework/reactioncommerce/api/utils/fetch-all-products.ts:21-38 | a completed fold returns the accumulator followed by every visited page's edges in request order, last edges included. A missing page or edge list counts as empty. |
| Pagination.FetchAllLength | framework/reactioncommerce/api/utils/fetch-all-products.ts:23-38 | from an empty accumulator, the result length is the sum of the sizes of the pages visited |
| Pagination.FetchAllKeepsVariables | framework/reactioncommerce/api/utils/fetch-all-products.ts:18 | every request agrees with the caller's variables on every key but `cursor` |
| Pagination.FetchAllFollowsCursors | framework/reactioncommerce/api/utils/fetch-all-products.ts:25-35 | the fold only continues past a page that offered a next cursor, and the next request carries exactly that cursor |
| Pagination.FetchAllStopsAtLastPage | framework/reactioncommerce/api/utils/fetch-all-products.ts:17-38 | the fold rejects iff its last request is refused, and completes iff its last request is answered by a page with no next page or no truthy last cursor; otherwise it ran out of fuel |
| ProductPaths.CallerVariables | framework/reactioncommerce/product/get-all-product-paths.ts:23 | the variables default to `{ first: 250 }` when the options or their variables are absent, and are the caller's otherwise |
| ProductPaths.QueryVariables | framework/reactioncommerce/product/get-all-product-paths.ts:27-33 | `shopIds` is always `[config.shopId]`, overriding the caller's. All other caller keys are kept. |
| ProductPaths.PathOf | framework/reactioncommerce/product/get-all-product-paths.ts:41-45 | a path is "/" followed by the slug. Dropping the slash gives the slug back ("undefined" for a missing slug). |
| ProductPaths.PathsOf | framework/reactioncommerce/product/get-all-product-paths.ts:36-46 | one path per edge, in edge order, iff every edge has a node and product; otherwise the destructuring throws |
| ProductPaths.GetAllProductPaths | framework/reactioncommerce/product/get-all-product-paths.ts:18-48 | paths are returned iff the pagination completes and every fetched edge has a product, with as many paths as fetched edges. A completed fold with an edge lacking a node or product rejects. A rejected fetch is passed on. |
| ProductPaths.ProductPathRequests | framework/reactioncommerce/product/get-all-product-paths.ts:23-33 | every catalog request is scoped to the configured shop. It asks for 250 items when the caller gave no variables. |
| ProductPaths.PathsMatchSlugs | framework/reactioncommerce/product/get-all-product-paths.ts:36-46 | when paths are returned, every fetched edge has a product and the paths correspond to them one for one, in order. Each is "/" followed by the product's slug. |
| ProductView.ApplyFirstValues | components/product/ProductView/ProductView.tsx:33-42 | the mount effect completes iff every option has at least one value (it throws on an option without values) |
| ProductView.ChoiceKeys | components/product/ProductView/ProductView.tsx:35-39 | after the mount effect the keys are the keys before it plus every option's lower-cased name, and no others |
| ProductView.LastOptionWins | components/product/ProductView/ProductView.tsx:35-39 | a key holds the lower-cased first label of the last option with that lower-cased name. Later options overwrite earlier ones. |
| ProductView.UntouchedKeyKept | components/product/ProductView/ProductView.tsx:36-39 | a key that no option writes keeps its previous label |
| ProductView.InitialChoices | components/product/ProductView/ProductView.tsx:33-42 | the initial choices are the first variant's options written into an empty map (empty when it has none). There are none when the product has no variant. |
| ProductView.FirstValuesStartActive | components/product/ProductView/ProductView.tsx:122-129 | after mounting, each first-variant option's first value shows as active unless a later option with the same name overwrote it |
| ProductView.SwatchActive | components/product/ProductView/ProductView.tsx:122-129 | a swatch is active when the choices hold a value under its option's lower-cased name and that value equals its lower-cased label |
| ProductView.ClickSwatch | components/product/ProductView/ProductView.tsx:133-140 | a click sets only the option's lower-cased key, and the clicked swatch becomes active. Every other key is unchanged. |
| ProductView.SwatchClickSelectsOne | components/product/ProductView/ProductView.tsx:122-140 | after a click, a swatch of that option is active iff its label equals the clicked one up to case. Swatches under other keys keep their state. |
| ProductView.SelectedVariant | components/product/ProductView/ProductView.tsx:44-49 | the looked-up variant when there is one, else the product's first variant. No variant means the press fails. |
| ProductView.CartItemFor | components/product/ProductView/ProductView.tsx:51-58 | the item carries the product id, the selected variant's id and price, and the product currency or 'USD' when absent |
| ProductView.AddToCart | components/product/ProductView/ProductView.tsx:46-64 | the flag is set while the call is pending and cleared afterwards on success and failure alike. The sidebar opens iff the item was sent and accepted. The choices are untouched. |
| ProductView.PageRunInvariants | components/product/ProductView/ProductView.tsx:46-64 | over any sequence of add-to-cart presses and swatch clicks, the choices are those the swatch clicks alone produce; the loading flag is clear after any settled press and unchanged otherwise; the sidebar is open iff it was open before or some press had its item accepted |

## Left out

- Rendering and styling: JSX, Material-UI steppers, swipeable views, drawers, SEO tags, media breakpoints, the button component and the desktop checkout. The desktop checkout's step logic lives in a stepper hook that is not part of this model.
- Network and GraphQL: query documents, `config.fetch`, `placeOrder`, `reconcileCarts` and the cart-cookie formatter are oracles or opaque values. `CookieWrite` records what the cookie helper is asked to build, not the header text.
- Library code: the form library and schema internals (the e-mail syntax check and the phone number cast are booleans), the shipping form's registered rules (a single validity boolean), `normalizeCart`, `getVariant` (its answer is a parameter) and `usePrice`.
- The cart drawer, the cart-open flag and the displayed total: pure view state.
- framework/reactioncommerce/cart/use-remove-item.tsx, framework/reactioncommerce/api/operations/get-site-info.ts and framework/reactioncommerce/api/utils/get-anonymous-cart.ts: thin wrappers around a single fetch.
- utils/paymentMethods.ts: the list the payment form offers is decided by a component that is not part of this model, so any `PaymentMethod` may be chosen.
- React scheduling: `readyToFinalize` is treated as a function of the current step, though the effect updates it one render late. `handleNext` is one atomic step, and state-update batching is not modelled.
- Console logging in the add-item handler.
- What the server framework replies when the add-item handler's promise rejects: the model reports the rejection (`reply = None`) and the requests issued.
- JavaScript details outside the handled cases: `NaN` quantities, `null` as distinct from `undefined`, and number-typed ids (`String(id)` is taken to be the identity on string ids). The phone's `toString()` is taken to be the identity on the form's string.
- `null` entries inside `cart.items.edges`: line items are a flat list.
- Checkout.BuildOrder: a `null` entry of `fulfillmentGroups`, a `null` `fulfillmentGroups` list, and a `null` `summary`, `total`, `currency` or `shop` cannot be represented (the records hold those fields directly), although each makes `buildOrder` throw. The absent checkout, the absent line-item list and the absent selected method are modelled.
- Checkout.FirstFulfillmentTarget: the same reads in `handleSetShippingAddress` (CheckoutView.tsx:157-158) throw on a `null` `fulfillmentGroups` list, a `null` first group entry, a `null` `availableFulfillmentOptions` list or a `null` first option entry; none of these can be represented. An absent cart or checkout, an empty group or option list, and an absent fulfillment method are modelled.
- Pagination.FetchAll: the source's recursion has no bound, and a source whose cursors cycle never returns. The model stops after `fuel` requests with `OutOfFuel`, and says nothing about the source beyond that bound.
- Common.Lower: `toLowerCase` is modelled for Basic Latin and Cyrillic U+0400..U+042F capitals only. Other scripts keep their case in the model.

## Findings

| source | as written | input that shows it | evidently intended | confidence | as-written member | corrected member |
|---|---|---|---|---|---|---|
| components/checkout/CheckoutView/CheckoutView.tsx:99-111 | `continueButtonLoading` is set before the await and cleared only after it resolves. A rejection (or a TypeError from a missing cart or fulfillment option) leaves it set, and every later continue press returns at line 96. | Wizard at step 1, both forms valid, and the backend refuses the shipping address. The step stays 1 with the flag set, and a second press with an accepting backend does nothing. Likewise at step 2 with a method chosen and a cart without a checkout. | Hold the wizard at the current step and clear the flag so that the user can retry | medium; not executed | Checkout.HandleNextAsWritten (Checkout.RejectedShippingAddressLocksContinue, Checkout.MissingCheckoutLocksContinue, Checkout.RejectionStallsWizard) | Checkout.HandleNext (Checkout.RetryAfterRejection) |
