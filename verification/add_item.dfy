/** The cart API's add-item handler: it reads the cart cookies and the request
    body, and either answers 400, creates a cart for a visitor who only holds
    the dummy empty cart, or adds the item to the existing cart, reconciling
    the anonymous cart into the customer's cart first when the visitor holds
    both tokens.

    The GraphQL calls are an oracle `Backend`; the response, the cookies set
    and the requests issued are the handler's observable result. */
module AddItem {
  import opened Common

  datatype Pricing = Pricing(amount: real, currencyCode: string)

  /** The request body's `item`; `quantity` is `undefined` when absent. */
  datatype Item = Item(productId: string, variantId: string, quantity: Option<int>, pricing: Pricing)

  /** The three cookies the handler reads. */
  datatype Cookies = Cookies(cartId: Option<string>, anonymousCartToken: Option<string>, customerToken: Option<string>)

  datatype Config = Config(
    shopId: string,
    dummyEmptyCartId: string,
    anonymousCartTokenCookie: Option<string>,
    cartIdCookie: string)

  /** One entry of the mutation's `items` list. */
  datatype CartItemInput = CartItemInput(productId: string, productVariantId: string, quantity: int, price: Pricing)

  datatype Request =
    | CreateCart(shopId: string, items: seq<CartItemInput>)
    | ReconcileCarts
    | AddCartItems(cartId: string, cartToken: Option<string>, items: seq<CartItemInput>, authorization: Option<string>)

  /** A `Set-Cookie` value built by the cart-cookie helper: with a value and a
      lifetime in days, or with the name only, which clears the cookie. */
  datatype CookieWrite = SetCookie(name: string, value: string, days: int) | ClearCookie(name: string)

  /** The JSON body: an error message with `data: null`, or the mutation's data. */
  datatype Body = Errors(message: string) | Data(payload: string)

  datatype Reply = Reply(status: int, body: Body)

  /** The data of a successful `createCart` mutation. */
  datatype CreatedCart = CreatedCart(token: string, cartId: string, data: string)

  /** The backend: each fetch resolves (`Some`) or rejects (`None`). */
  datatype Backend = Backend(
    createCart: Request -> Option<CreatedCart>,
    reconciledCartId: Option<string>,
    addCartItems: Request -> Option<string>)

  /** The handler's observable result: the requests issued in order, the
      cookies set on the response, and the reply (`None`: the handler rejects). */
  datatype Outcome = Outcome(requests: seq<Request>, cookies: seq<CookieWrite>, reply: Option<Reply>)

  const MissingCartIdMessage: string := "Missing cartId cookie"
  const MissingItemMessage: string := "Missing item"

  /** The lifetime, in days, of every cookie the handler sets. */
  const CookieDays: int := 999

  /** `if (!item.quantity) item.quantity = 1`: absent or zero becomes 1. */
  function Quantity(q: Option<int>): (n: int)
    ensures n != 0
    ensures q.Some? && q.value != 0 ==> n == q.value
    ensures q.None? || q.value == 0 ==> n == 1
  {
    if q.None? || q.value == 0 then 1 else q.value
  }

  /** The single item sent with either mutation. */
  function ItemInput(item: Item): (e: CartItemInput)
    ensures e.productId == item.productId && e.productVariantId == item.variantId
    ensures e.quantity == Quantity(item.quantity) && e.price == item.pricing
  {
    CartItemInput(item.productId, item.variantId, Quantity(item.quantity), item.pricing)
  }

  /** `config.anonymousCartTokenCookie ?? ''`. */
  function AnonymousCookieName(config: Config): string {
    config.anonymousCartTokenCookie.GetOr("")
  }

  /** The `cartToken` field: present iff the anonymous token cookie is truthy. */
  function CartTokenParam(cookies: Cookies): (t: Option<string>)
    ensures t.Some? <==> Truthy(cookies.anonymousCartToken)
    ensures t.Some? ==> t == cookies.anonymousCartToken
  {
    if Truthy(cookies.anonymousCartToken) then cookies.anonymousCartToken else None
  }

  /** The `Authorization` header: `Bearer <token>` iff the customer token cookie is truthy. */
  function AuthorizationParam(cookies: Cookies): (h: Option<string>)
    ensures h.Some? <==> Truthy(cookies.customerToken)
    ensures h.Some? ==> h.value == "Bearer " + cookies.customerToken.value
  {
    if Truthy(cookies.customerToken) then Some("Bearer " + cookies.customerToken.value) else None
  }

  /** The add-items mutation against `cartId`, after the requests and cookies so far. */
  function AddItems(
    cartId: string, cookies: Cookies, item: Item, backend: Backend,
    before: seq<Request>, cookieWrites: seq<CookieWrite>): (o: Outcome)
    ensures o.requests == before + [AddCartItems(cartId, CartTokenParam(cookies), [ItemInput(item)], AuthorizationParam(cookies))]
    ensures o.cookies == cookieWrites
    ensures o.reply.Some? <==> backend.addCartItems(o.requests[|before|]).Some?
    ensures o.reply.Some? ==> o.reply.value == Reply(200, Data(backend.addCartItems(o.requests[|before|]).value))
  {
    var request := AddCartItems(cartId, CartTokenParam(cookies), [ItemInput(item)], AuthorizationParam(cookies));
    match backend.addCartItems(request)
    case None => Outcome(before + [request], cookieWrites, None)
    case Some(data) => Outcome(before + [request], cookieWrites, Some(Reply(200, Data(data))))
  }

  /** A valid request: the cart-id cookie is set and the body has an item. */
  predicate Accepted(cookies: Cookies, item: Option<Item>) {
    Truthy(cookies.cartId) && item.Some?
  }

  /** `addItem`.

      Validation: a missing cart-id cookie is reported before a missing item,
      and either answers 400 without a request.

      The dummy empty cart id: exactly one create-cart mutation, for the shop
      and the one item, and never add-items; on success both cookies are set
      from the created cart and the reply is 200 with its data.

      Any other cart: carts are reconciled first iff both tokens are set,
      and then the items go to the reconciled cart, the anonymous token cookie
      is cleared and the cart-id cookie is set to the reconciled id; without
      reconciliation the items go to the cookie's cart and no cookie is set.
      The add-items mutation carries the one item, the cart token iff the
      anonymous token cookie is set and the bearer header iff the customer
      token cookie is set. */
  function HandleAddItem(cookies: Cookies, item: Option<Item>, config: Config, backend: Backend): (o: Outcome)
    ensures !Truthy(cookies.cartId) ==> o == Outcome([], [], Some(Reply(400, Errors(MissingCartIdMessage))))
    ensures Truthy(cookies.cartId) && item.None? ==> o == Outcome([], [], Some(Reply(400, Errors(MissingItemMessage))))
    ensures o.requests != [] <==> Accepted(cookies, item)
    ensures Accepted(cookies, item) && cookies.cartId.value == config.dummyEmptyCartId ==>
      && o.requests == [CreateCart(config.shopId, [ItemInput(item.value)])]
      && (backend.createCart(o.requests[0]).None? ==> o.reply.None? && o.cookies == [])
      && (backend.createCart(o.requests[0]).Some? ==>
            var created := backend.createCart(o.requests[0]).value;
            && o.cookies == [SetCookie(AnonymousCookieName(config), created.token, CookieDays),
                             SetCookie(config.cartIdCookie, created.cartId, CookieDays)]
            && o.reply == Some(Reply(200, Data(created.data))))
    ensures Accepted(cookies, item) && cookies.cartId.value != config.dummyEmptyCartId ==>
      && (o.requests[0] == ReconcileCarts <==> Truthy(cookies.anonymousCartToken) && Truthy(cookies.customerToken))
      && (o.requests[0] != ReconcileCarts ==>
            && o.requests == [AddCartItems(cookies.cartId.value, CartTokenParam(cookies), [ItemInput(item.value)], AuthorizationParam(cookies))]
            && o.cookies == [])
      && (o.requests[0] == ReconcileCarts && backend.reconciledCartId.None? ==>
            o == Outcome([ReconcileCarts], [], None))
      && (o.requests[0] == ReconcileCarts && backend.reconciledCartId.Some? ==>
            var id := backend.reconciledCartId.value;
            && o.requests == [ReconcileCarts, AddCartItems(id, CartTokenParam(cookies), [ItemInput(item.value)], AuthorizationParam(cookies))]
            && o.cookies == [ClearCookie(AnonymousCookieName(config)), SetCookie(config.cartIdCookie, id, CookieDays)])
      && (o.requests[|o.requests| - 1].AddCartItems? ==>
            var last := o.requests[|o.requests| - 1];
            o.reply == (if backend.addCartItems(last).Some? then Some(Reply(200, Data(backend.addCartItems(last).value))) else None))
  {
    if !Truthy(cookies.cartId) then
      Outcome([], [], Some(Reply(400, Errors(MissingCartIdMessage))))
    else if item.None? then
      Outcome([], [], Some(Reply(400, Errors(MissingItemMessage))))
    else
      var cartId := cookies.cartId.value;
      if cartId == config.dummyEmptyCartId then
        var request := CreateCart(config.shopId, [ItemInput(item.value)]);
        match backend.createCart(request)
        case None => Outcome([request], [], None)
        case Some(created) =>
          Outcome(
            [request],
            [SetCookie(AnonymousCookieName(config), created.token, CookieDays),
             SetCookie(config.cartIdCookie, created.cartId, CookieDays)],
            Some(Reply(200, Data(created.data))))
      else if Truthy(cookies.anonymousCartToken) && Truthy(cookies.customerToken) then
        match backend.reconciledCartId
        case None => Outcome([ReconcileCarts], [], None)
        case Some(reconciled) =>
          AddItems(
            reconciled, cookies, item.value, backend, [ReconcileCarts],
            [ClearCookie(AnonymousCookieName(config)), SetCookie(config.cartIdCookie, reconciled, CookieDays)])
      else
        AddItems(cartId, cookies, item.value, backend, [], [])
  }

  /** The item list a request carries; a reconcile carries none. */
  function SentItems(r: Request): seq<CartItemInput> {
    match r
    case CreateCart(_, items) => items
    case ReconcileCarts => []
    case AddCartItems(_, _, items, _) => items
  }

  /** Whether the backend resolves a request. */
  predicate Resolved(backend: Backend, r: Request) {
    match r
    case CreateCart(_, _) => backend.createCart(r).Some?
    case ReconcileCarts => backend.reconciledCartId.Some?
    case AddCartItems(_, _, _, _) => backend.addCartItems(r).Some?
  }

  /** What holds on every path through the handler. A 400 is answered exactly
      when no request is issued. Every mutation carries the body's one item,
      with a non-zero quantity. The dummy cart never receives add-items. The
      handler stops at the first rejected request, and it replies exactly
      when every request it issued resolved. A cookie is written only after
      a first request that creates or reconciles a cart has resolved. */
  lemma {:induction false} HandleAddItemPaths(cookies: Cookies, item: Option<Item>, config: Config, backend: Backend)
    ensures var o := HandleAddItem(cookies, item, config, backend);
      && (o.requests == [] <==> o.reply.Some? && o.reply.value.status == 400)
      && (forall k :: 0 <= k < |o.requests| ==>
            && item.Some?
            && (SentItems(o.requests[k]) == [] || SentItems(o.requests[k]) == [ItemInput(item.value)])
            && (o.requests[k].ReconcileCarts? <==> SentItems(o.requests[k]) == []))
      && (forall k :: 0 <= k < |o.requests| ==> forall j :: 0 <= j < |SentItems(o.requests[k])| ==>
            SentItems(o.requests[k])[j].quantity != 0)
      && (cookies.cartId == Some(config.dummyEmptyCartId) ==>
            forall k :: 0 <= k < |o.requests| ==> !o.requests[k].AddCartItems?)
      && (forall k :: 0 <= k < |o.requests| - 1 ==> Resolved(backend, o.requests[k]))
      && (o.reply.Some? <==> forall k :: 0 <= k < |o.requests| ==> Resolved(backend, o.requests[k]))
      && (o.cookies != [] ==>
            && |o.requests| > 0
            && !o.requests[0].AddCartItems?
            && Resolved(backend, o.requests[0]))
  {
  }
}
