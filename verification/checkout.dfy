/** The mobile checkout wizard: three form pages (personal data, shipping
    address, payment), a "continue" button that runs the page's backend calls
    before it advances, a "back" button, and the assembly of the order and
    payment inputs sent when the order is placed.

    The backend mutations (set shipping address, set fulfillment option, place
    order) are an oracle `Backend` that accepts or rejects each call. Reading
    a property of `null` or `undefined` throws a TypeError inside the async
    handler (the TypeScript `!` assertions in front of those reads are erased
    at compile time and check nothing); the model treats that like a rejected
    call. */
module Checkout {
  import opened Common

  /** A JavaScript number holding a money amount; the wizard does no arithmetic on it. */
  type Amount = real

  datatype ProductConfiguration = ProductConfiguration(productId: string, productVariantId: string)

  /** The node of one `cart.items.edges` entry. */
  datatype CartItem = CartItem(
    addedAt: string,
    price: Amount,
    productConfiguration: ProductConfiguration,
    quantity: int)

  /** An available or selected fulfillment option; `methodId` is `fulfillmentMethod?._id`. */
  datatype FulfillmentOption = FulfillmentOption(methodId: Option<string>)

  datatype FulfillmentGroup = FulfillmentGroup(
    id: string,
    shopId: string,
    groupType: string,
    data: string,
    availableOptions: seq<FulfillmentOption>,
    selectedOption: Option<FulfillmentOption>)

  /** `cart.checkout`: the fulfillment groups and the summary total. */
  datatype CartCheckout = CartCheckout(groups: seq<FulfillmentGroup>, total: Amount, currencyCode: string)

  /** A cart; `items` is `None` when `cart.items` or `cart.items.edges` is `null`. */
  datatype Cart = Cart(id: string, shopId: string, items: Option<seq<CartItem>>, checkout: Option<CartCheckout>)

  datatype PaymentMethod = PaymentMethod(name: string, displayName: string, isEnabled: bool, canRefund: bool)

  /** The personal-data form. `phoneIsNumber` and `emailWellFormed` are the
      schema library's judgements (number cast of the phone field, e-mail syntax). */
  datatype UserForm = UserForm(
    firstName: string,
    sureName: string,
    phone: string,
    email: string,
    phoneIsNumber: bool,
    emailWellFormed: bool)

  /** The shipping-address form; its validity comes from field rules registered
      by a form component that is not part of this model. */
  datatype ShippingForm = ShippingForm(address: string, locality: string, postalCode: string, isValid: bool)

  /** What the view reads but never writes: the cart prop and the two forms. */
  datatype View = View(cart: Option<Cart>, user: UserForm, shipping: ShippingForm)

  /** The wizard's own state: active step, the continue button's in-flight flag, the chosen payment. */
  datatype Wizard = Wizard(step: int, loading: bool, payment: Option<PaymentMethod>)

  /** The fixed country of every shipping address. */
  const Country: string := "България"

  const ContinueLabel: string := "Продължи"
  const FinishLabel: string := "Завърши"

  // ---------------------------------------------------------------------------
  // Step validators

  /** The personal-data schema: first and last name required, phone a required
      number, e-mail required and well formed. */
  predicate UserFormValid(u: UserForm) {
    u.firstName != "" && u.sureName != "" && u.phoneIsNumber && u.email != "" && u.emailWellFormed
  }

  /** `canContinueNextStep`: the validity of the page's form, fail-closed for any other index. */
  function CanContinueNextStep(pageIndex: int, v: View, w: Wizard): (r: bool)
    ensures r ==> 0 <= pageIndex <= 2
    ensures pageIndex == 0 ==> (r <==> UserFormValid(v.user))
    ensures pageIndex == 1 ==> (r <==> v.shipping.isValid)
    ensures pageIndex == 2 ==> (r <==> w.payment.Some?)
  {
    match pageIndex
    case 0 => UserFormValid(v.user)
    case 1 => v.shipping.isValid
    case 2 => w.payment.Some?
    case _ => false
  }

  /** Only the current page's own form decides whether the wizard may continue:
      editing the other pages, or the cart, leaves the answer unchanged. */
  lemma {:induction false} CanContinueDependsOnlyOnOwnPage(pageIndex: int, v: View, v': View, w: Wizard, w': Wizard)
    requires pageIndex == 0 ==> v'.user == v.user
    requires pageIndex == 1 ==> v'.shipping == v.shipping
    requires pageIndex == 2 ==> w'.payment.Some? == w.payment.Some?
    ensures CanContinueNextStep(pageIndex, v, w) == CanContinueNextStep(pageIndex, v', w')
  {
    if pageIndex == 0 {
      assert UserFormValid(v'.user) == UserFormValid(v.user);
    }
  }

  /** The payment page's chooser sets the selected payment method. */
  function SelectPayment(w: Wizard, chosen: PaymentMethod): (r: Wizard)
    ensures r.payment == Some(chosen)
    ensures r.step == w.step && r.loading == w.loading
  {
    w.(payment := Some(chosen))
  }

  /** At the payment page with nothing chosen the wizard may not continue;
      choosing a method enables it and changes nothing else. */
  lemma SelectingPaymentEnablesContinue(v: View, w: Wizard, chosen: PaymentMethod)
    requires w.step == 2 && w.payment.None?
    ensures !CanContinueNextStep(w.step, v, w)
    ensures CanContinueNextStep(w.step, v, SelectPayment(w, chosen))
  {
  }

  /** The effect that keeps `readyToFinalize` in step with the active step. */
  predicate ReadyToFinalize(step: int) {
    step == 2
  }

  /** The continue button's label. */
  function NextLabel(step: int): (caption: string)
    ensures caption == FinishLabel <==> ReadyToFinalize(step)
    ensures caption == FinishLabel || caption == ContinueLabel
  {
    if !ReadyToFinalize(step) then ContinueLabel else FinishLabel
  }

  // ---------------------------------------------------------------------------
  // Payloads

  datatype AddressInput = AddressInput(
    phone: string,
    firstName: string,
    lastName: string,
    fullName: string,
    address1: string,
    city: string,
    region: string,
    country: string,
    postal: string)

  /** The address sent by `handleSetShippingAddress`. */
  function ShippingAddressPayload(u: UserForm, s: ShippingForm): (a: AddressInput)
    ensures a.fullName == a.firstName + " " + a.lastName
    ensures a.city == a.region == s.locality
    ensures a.country == Country
    ensures a.firstName == u.firstName && a.lastName == u.sureName && a.phone == u.phone
    ensures a.address1 == s.address && a.postal == s.postalCode
  {
    AddressInput(
      u.phone, u.firstName, u.sureName, u.firstName + " " + u.sureName,
      s.address, s.locality, s.locality, Country, s.postalCode)
  }

  /** The group id and method id `handleSetShippingAddress` reads from the first
      fulfillment group and its first available option; `None` when any link of
      that chain is absent, where the source's expression throws. */
  function FirstFulfillmentTarget(cart: Option<Cart>): (t: Option<(string, string)>)
    ensures t.Some? <==>
      && cart.Some? && cart.value.checkout.Some?
      && |cart.value.checkout.value.groups| > 0
      && |cart.value.checkout.value.groups[0].availableOptions| > 0
      && cart.value.checkout.value.groups[0].availableOptions[0].methodId.Some?
    ensures t.Some? ==>
      && t.value.0 == cart.value.checkout.value.groups[0].id
      && t.value.1 == cart.value.checkout.value.groups[0].availableOptions[0].methodId.value
  {
    if cart.None? || cart.value.checkout.None? then None
    else
      var groups := cart.value.checkout.value.groups;
      if |groups| == 0 || |groups[0].availableOptions| == 0 then None
      else
        match groups[0].availableOptions[0].methodId
        case None => None
        case Some(m) => Some((groups[0].id, m))
  }

  datatype OrderItemInput = OrderItemInput(
    addedAt: string,
    price: Amount,
    productConfiguration: ProductConfiguration,
    quantity: int)

  datatype GroupInput = GroupInput(
    data: string,
    items: seq<OrderItemInput>,
    selectedFulfillmentMethodId: string,
    shopId: string,
    totalPrice: Amount,
    groupType: string)

  datatype OrderInput = OrderInput(
    cartId: string,
    currencyCode: string,
    email: string,
    groups: seq<GroupInput>,
    shopId: string)

  datatype PaymentInput = PaymentInput(amount: Amount, methodName: string)

  /** `buildOrder`'s outcome: no cart (it returns `undefined`), a thrown
      TypeError (absent checkout or selected method), or the order input. */
  datatype BuildResult = NoCart | Throws | Built(order: OrderInput)

  /** The order-item input made from one cart line item. */
  function OrderItem(item: CartItem): OrderItemInput {
    OrderItemInput(item.addedAt, item.price, item.productConfiguration, item.quantity)
  }

  /** Every cart line item, as order-item inputs, in cart order. */
  function OrderItems(items: seq<CartItem>): (r: seq<OrderItemInput>)
    ensures |r| == |items|
    ensures forall i :: 0 <= i < |items| ==>
      && r[i].addedAt == items[i].addedAt
      && r[i].price == items[i].price
      && r[i].productConfiguration == items[i].productConfiguration
      && r[i].quantity == items[i].quantity
  {
    if items == [] then [] else [OrderItem(items[0])] + OrderItems(items[1..])
  }

  /** `selectedFulfillmentOption?.fulfillmentMethod?._id` of a group. */
  function SelectedMethodId(g: FulfillmentGroup): Option<string> {
    if g.selectedOption.None? then None else g.selectedOption.value.methodId
  }

  /** One group input per fulfillment group, each carrying all cart items and
      the checkout total; `None` when a group has no selected method, or when
      there is a group and the cart's line-item list is absent, where the
      source throws. With no group the line items are never read. */
  function GroupInputs(groups: seq<FulfillmentGroup>, items: Option<seq<CartItem>>, total: Amount): (r: Option<seq<GroupInput>>)
    ensures r.Some? <==>
      && (|groups| > 0 ==> items.Some?)
      && forall i :: 0 <= i < |groups| ==> SelectedMethodId(groups[i]).Some?
    ensures r.Some? ==> |r.value| == |groups|
    ensures r.Some? ==> forall i :: 0 <= i < |groups| ==>
      && items.Some?
      && r.value[i].items == OrderItems(items.value)
      && r.value[i].totalPrice == total
      && r.value[i].selectedFulfillmentMethodId == SelectedMethodId(groups[i]).value
      && r.value[i].shopId == groups[i].shopId
      && r.value[i].data == groups[i].data
      && r.value[i].groupType == groups[i].groupType
  {
    if groups == [] then Some([])
    else if items.None? then None
    else
      var g := groups[0];
      match SelectedMethodId(g)
      case None => None
      case Some(m) =>
        match GroupInputs(groups[1..], items, total)
        case None => None
        case Some(rest) =>
          Some([GroupInput(g.data, OrderItems(items.value), m, g.shopId, total, g.groupType)] + rest)
  }

  /** `buildOrder`. */
  function BuildOrder(cart: Option<Cart>, u: UserForm): (r: BuildResult)
    ensures r.NoCart? <==> cart.None?
    ensures r.Built? <==>
      && cart.Some? && cart.value.checkout.Some?
      && (|cart.value.checkout.value.groups| > 0 ==> cart.value.items.Some?)
      && forall i :: 0 <= i < |cart.value.checkout.value.groups| ==>
           SelectedMethodId(cart.value.checkout.value.groups[i]).Some?
    ensures r.Built? ==>
      && r.order.cartId == cart.value.id
      && r.order.currencyCode == cart.value.checkout.value.currencyCode
      && r.order.email == u.email
      && r.order.shopId == cart.value.shopId
      && |r.order.groups| == |cart.value.checkout.value.groups|
  {
    match cart
    case None => NoCart
    case Some(c) =>
      match c.checkout
      case None => Throws
      case Some(co) =>
        match GroupInputs(co.groups, c.items, co.total)
        case None => Throws
        case Some(gs) => Built(OrderInput(c.id, co.currencyCode, u.email, gs, c.shopId))
  }

  /** What an assembled order looks like, group by group: the group's shop,
      type, selected method and opaque data, every cart line item in cart
      order, and the checkout total. */
  lemma {:induction false} BuiltOrderGroups(cart: Option<Cart>, u: UserForm, i: int)
    requires BuildOrder(cart, u).Built?
    requires 0 <= i < |cart.value.checkout.value.groups|
    ensures var o := BuildOrder(cart, u).order;
      var g := cart.value.checkout.value.groups[i];
      && cart.value.items.Some?
      && o.groups[i].items == OrderItems(cart.value.items.value)
      && o.groups[i].groupType == g.groupType
      && o.groups[i].totalPrice == cart.value.checkout.value.total
      && Some(o.groups[i].selectedFulfillmentMethodId) == SelectedMethodId(g)
      && o.groups[i].shopId == g.shopId
      && o.groups[i].data == g.data
  {
    var c := cart.value;
    var co := c.checkout.value;
    var gs := GroupInputs(co.groups, c.items, co.total);
    assert gs.Some?;
    assert BuildOrder(cart, u).order.groups == gs.value;
  }

  /** The sum of the item counts of the group inputs. */
  function ItemCount(groups: seq<GroupInput>): nat {
    if groups == [] then 0 else |groups[0].items| + ItemCount(groups[1..])
  }

  /** The number of line items of a cart; an absent list counts as none. */
  function LineItemCount(c: Cart): nat {
    if c.items.None? then 0 else |c.items.value|
  }

  /** Every group input repeats all cart line items, so the order carries
      (number of groups) x (number of line items) item inputs. */
  lemma {:induction false} OrderItemCount(cart: Option<Cart>, u: UserForm)
    requires BuildOrder(cart, u).Built?
    ensures ItemCount(BuildOrder(cart, u).order.groups)
      == |cart.value.checkout.value.groups| * LineItemCount(cart.value)
  {
    var gs := BuildOrder(cart, u).order.groups;
    var n := LineItemCount(cart.value);
    assert forall i :: 0 <= i < |gs| ==> |gs[i].items| == n by {
      forall i | 0 <= i < |gs| {
        BuiltOrderGroups(cart, u, i);
      }
    }
    UniformItemCount(gs, n);
  }

  lemma {:induction false} UniformItemCount(gs: seq<GroupInput>, n: nat)
    requires forall i :: 0 <= i < |gs| ==> |gs[i].items| == n
    ensures ItemCount(gs) == |gs| * n
  {
    if gs != [] {
      UniformItemCount(gs[1..], n);
    }
  }

  /** `cart?.checkout?.summary.total.amount ?? 0`. */
  function PaymentAmount(cart: Option<Cart>): (a: Amount)
    ensures cart.Some? && cart.value.checkout.Some? ==> a == cart.value.checkout.value.total
    ensures cart.None? || cart.value.checkout.None? ==> a == 0.0
  {
    if cart.Some? && cart.value.checkout.Some? then cart.value.checkout.value.total else 0.0
  }

  // ---------------------------------------------------------------------------
  // Backend calls and the continue/back handlers

  datatype Call =
    | SetShippingAddress(address: AddressInput)
    | SetFulfillmentOption(groupId: string, methodId: string)
    | PlaceOrder(order: OrderInput, payments: seq<PaymentInput>)

  /** The backend's answer to each call: true when the awaited promise resolves. */
  type Backend = Call -> bool

  /** The calls a handler issued, in order, and whether it completed without a rejection. */
  datatype Effect = Effect(calls: seq<Call>, ok: bool)

  /** `handleSetShippingAddress`: set the address, then the fulfillment option
      of the first group. */
  function SetShippingAddressEffect(v: View, backend: Backend): (e: Effect)
    ensures 1 <= |e.calls| <= 2
    ensures e.calls[0] == SetShippingAddress(ShippingAddressPayload(v.user, v.shipping))
    ensures |e.calls| == 2 <==> backend(e.calls[0]) && FirstFulfillmentTarget(v.cart).Some?
    ensures |e.calls| == 2 ==>
      e.calls[1] == SetFulfillmentOption(FirstFulfillmentTarget(v.cart).value.0, FirstFulfillmentTarget(v.cart).value.1)
    ensures e.ok <==> |e.calls| == 2 && backend(e.calls[0]) && backend(e.calls[1])
  {
    var address := SetShippingAddress(ShippingAddressPayload(v.user, v.shipping));
    if !backend(address) then Effect([address], false)
    else
      match FirstFulfillmentTarget(v.cart)
      case None => Effect([address], false)
      case Some(target) =>
        var option := SetFulfillmentOption(target.0, target.1);
        Effect([address, option], backend(option))
  }

  /** `handlePlaceOrder`: build the order; with no cart return without a call,
      otherwise place it with one payment of the checkout total by the chosen
      method. It fails when `buildOrder` throws, when no method is chosen
      (reading `payment.name` throws) and when the backend refuses the order. */
  function PlaceOrderEffect(v: View, payment: Option<PaymentMethod>, backend: Backend): (e: Effect)
    ensures |e.calls| <= 1
    ensures e.ok <==> BuildOrder(v.cart, v.user).NoCart? || (|e.calls| == 1 && backend(e.calls[0]))
    ensures BuildOrder(v.cart, v.user).NoCart? ==> e == Effect([], true)
    ensures |e.calls| == 1 <==> BuildOrder(v.cart, v.user).Built? && payment.Some?
    ensures |e.calls| == 1 ==>
      && e.calls[0].PlaceOrder?
      && e.calls[0].order == BuildOrder(v.cart, v.user).order
      && e.calls[0].payments == [PaymentInput(PaymentAmount(v.cart), payment.value.name)]
      && (e.ok <==> backend(e.calls[0]))
  {
    match BuildOrder(v.cart, v.user)
    case NoCart => Effect([], true)
    case Throws => Effect([], false)
    case Built(order) =>
      match payment
      case None => Effect([], false)
      case Some(chosen) =>
        var call := PlaceOrder(order, [PaymentInput(PaymentAmount(v.cart), chosen.name)]);
        Effect([call], backend(call))
  }

  /** The backend work `handleNext` awaits at a step: none outside steps 1 and 2. */
  function StepEffect(w: Wizard, v: View, backend: Backend): Effect {
    if w.step == 1 then SetShippingAddressEffect(v, backend)
    else if w.step == 2 then PlaceOrderEffect(v, w.payment, backend)
    else Effect([], true)
  }

  /** One press of the continue handler: the new wizard state, the calls issued,
      and whether the handler's promise rejected. */
  datatype NextOutcome = NextOutcome(wizard: Wizard, calls: seq<Call>, rejected: bool)

  /** `handleNext` as written: a rejection ends the handler after the in-flight
      flag was set, so the flag is never cleared. */
  function HandleNextAsWritten(w: Wizard, v: View, backend: Backend): (r: NextOutcome)
    ensures w.loading ==> r == NextOutcome(w, [], false)
    ensures r.wizard.payment == w.payment
    ensures !w.loading && !r.rejected ==> r.wizard.step == w.step + 1 && !r.wizard.loading
    ensures r.rejected ==> (w.step == 1 || w.step == 2) && r.wizard.step == w.step && r.wizard.loading
  {
    if w.loading then NextOutcome(w, [], false)
    else
      var e := StepEffect(w, v, backend);
      if e.ok then NextOutcome(w.(step := w.step + 1, loading := false), e.calls, false)
      else NextOutcome(w.(loading := true), e.calls, true)
  }

  /** `handleNext` with the rejection caught: the wizard holds its step and the
      in-flight flag is cleared so that the user may retry. */
  function HandleNext(w: Wizard, v: View, backend: Backend): (r: NextOutcome)
    ensures w.loading ==> r == NextOutcome(w, [], false)
    ensures r.wizard.payment == w.payment
    ensures !w.loading && !r.rejected ==> r.wizard.step == w.step + 1
    ensures r.rejected ==> (w.step == 1 || w.step == 2) && r.wizard == w
    ensures !r.wizard.loading <== !w.loading
  {
    if w.loading then NextOutcome(w, [], false)
    else
      var e := StepEffect(w, v, backend);
      if e.ok then NextOutcome(w.(step := w.step + 1), e.calls, false)
      else NextOutcome(w, e.calls, true)
  }

  /** What each step's continue does with the backend, for either handler:
      step 0 calls nothing; step 1 sets the address and then the fulfillment
      option; step 2 places the order; a cart that is absent at step 2 is
      skipped silently and the wizard still advances. */
  lemma HandleNextCalls(w: Wizard, v: View, backend: Backend)
    requires !w.loading
    ensures var r := HandleNextAsWritten(w, v, backend);
      && r.calls == HandleNext(w, v, backend).calls
      && r.rejected == HandleNext(w, v, backend).rejected
      && (w.step != 1 && w.step != 2 ==> r.calls == [] && r.wizard.step == w.step + 1)
      && (w.step == 1 ==>
            && 1 <= |r.calls| <= 2
            && r.calls[0] == SetShippingAddress(ShippingAddressPayload(v.user, v.shipping))
            && (|r.calls| == 2 ==> r.calls[1].SetFulfillmentOption?)
            && (!r.rejected <==> |r.calls| == 2 && backend(r.calls[0]) && backend(r.calls[1])))
      && (w.step == 2 ==>
            && r.calls == PlaceOrderEffect(v, w.payment, backend).calls
            && |r.calls| <= 1 && (|r.calls| == 1 ==> r.calls[0].PlaceOrder?)
            && (!r.rejected <==> v.cart.None? || (|r.calls| == 1 && backend(r.calls[0]))))
      && (w.step == 2 && v.cart.None? ==> r.calls == [] && r.wizard.step == 3)
  {
  }

  /** `handleBack`: the step goes down by one, unguarded. */
  function HandleBack(w: Wizard): (r: Wizard)
    ensures r.step == w.step - 1
    ensures r.loading == w.loading && r.payment == w.payment
  {
    w.(step := w.step - 1)
  }

  /** The continue button's `disabled` expression. */
  predicate NextDisabled(w: Wizard, v: View) {
    w.step == 3 || !CanContinueNextStep(w.step, v, w)
  }

  /** The back button's `disabled` expression. */
  predicate BackDisabled(w: Wizard) {
    w.step == 0
  }

  /** A press of the continue button: nothing when it is disabled, and
      nothing while a previous press is still in flight, so a double click
      sends one call sequence; otherwise the page's calls run and the wizard
      advances one step unless one of them is refused. */
  function ClickNext(w: Wizard, v: View, backend: Backend, asWritten: bool): (r: NextOutcome)
    ensures NextDisabled(w, v) ==> r == NextOutcome(w, [], false)
    ensures w.loading ==> r == NextOutcome(w, [], false)
    ensures !NextDisabled(w, v) && !w.loading ==>
      && r.calls == StepEffect(w, v, backend).calls
      && (r.rejected <==> !StepEffect(w, v, backend).ok)
      && (!r.rejected ==> r.wizard.step == w.step + 1)
    ensures r.wizard.step == w.step || (r.wizard.step == w.step + 1 && 0 <= w.step <= 2)
  {
    if NextDisabled(w, v) then NextOutcome(w, [], false)
    else if asWritten then HandleNextAsWritten(w, v, backend)
    else HandleNext(w, v, backend)
  }

  /** A press of the back button: nothing at the first step. */
  function ClickBack(w: Wizard): (r: Wizard)
    ensures w.step == 0 ==> r == w
    ensures w.step != 0 ==> r.step == w.step - 1
  {
    if BackDisabled(w) then w else HandleBack(w)
  }

  /** A user action on the wizard. `Next` carries the view at the moment of the
      press (forms may have been edited) and the backend's answers. */
  datatype Event =
    | Next(view: View, backend: Backend)
    | Back
    | ChoosePayment(chosen: PaymentMethod)

  function Apply(w: Wizard, e: Event, asWritten: bool): Wizard {
    match e
    case Next(v, backend) => ClickNext(w, v, backend, asWritten).wizard
    case Back => ClickBack(w)
    case ChoosePayment(m) => SelectPayment(w, m)
  }

  /** The wizard after a sequence of user actions. */
  function Run(w: Wizard, events: seq<Event>, asWritten: bool): Wizard
    decreases |events|
  {
    if events == [] then w else Run(Apply(w, events[0], asWritten), events[1..], asWritten)
  }

  /** Through the buttons, the step never leaves 0..3, whichever handler runs. */
  lemma {:induction false} StepStaysInRange(w: Wizard, events: seq<Event>, asWritten: bool)
    requires 0 <= w.step <= 3
    ensures 0 <= Run(w, events, asWritten).step <= 3
    decreases |events|
  {
    if events != [] {
      var w' := Apply(w, events[0], asWritten);
      assert 0 <= w'.step <= 3;
      StepStaysInRange(w', events[1..], asWritten);
    }
  }

  // ---------------------------------------------------------------------------
  // The stuck in-flight flag

  /** As written, once a handler rejects, continue never again does anything:
      from then on the step can only go down. */
  lemma {:induction false} RejectionStallsWizard(w: Wizard, events: seq<Event>)
    requires w.loading
    ensures Run(w, events, true).step <= w.step
    ensures Run(w, events, true).loading
    decreases |events|
  {
    if events != [] {
      var w' := Apply(w, events[0], true);
      assert w'.loading && w'.step <= w.step;
      RejectionStallsWizard(w', events[1..]);
    }
  }

  /** A concrete instance: a shipping address the backend refuses leaves the
      as-written wizard at step 1 with the in-flight flag set, and a second
      press, even with a backend that now accepts everything, does nothing. */
  lemma RejectedShippingAddressLocksContinue(v: View)
    requires UserFormValid(v.user) && v.shipping.isValid
    ensures var refuse: Backend := (c: Call) => false;
      var accept: Backend := (c: Call) => true;
      var first := ClickNext(Wizard(1, false, None), v, refuse, true);
      && first.rejected
      && first.wizard == Wizard(1, true, None)
      && ClickNext(first.wizard, v, accept, true) == NextOutcome(first.wizard, [], false)
  {
  }

  /** A second concrete instance: at the payment page with a method chosen, a
      cart whose checkout is absent makes `buildOrder` throw before any call,
      and the as-written wizard is stuck at step 2 with the flag set. */
  lemma MissingCheckoutLocksContinue(v: View, chosen: PaymentMethod, backend: Backend)
    requires v.cart.Some? && v.cart.value.checkout.None?
    ensures var first := ClickNext(Wizard(2, false, Some(chosen)), v, backend, true);
      && first.calls == []
      && first.rejected
      && first.wizard == Wizard(2, true, Some(chosen))
      && ClickNext(first.wizard, v, backend, true) == NextOutcome(first.wizard, [], false)
  {
  }

  /** With the rejection caught, the wizard holds its step, continue stays
      usable, and a retry against a backend that now accepts every call
      advances whenever the page's data is complete. */
  lemma RetryAfterRejection(w: Wizard, v: View, backend: Backend, retry: Backend)
    requires HandleNext(w, v, backend).rejected
    requires forall c :: retry(c)
    requires w.step == 1 ==> FirstFulfillmentTarget(v.cart).Some?
    requires w.step == 2 ==> BuildOrder(v.cart, v.user).Built? && w.payment.Some?
    ensures var r := HandleNext(w, v, backend);
      && r.wizard.step == w.step
      && !r.wizard.loading
      && HandleNext(r.wizard, v, retry).wizard.step == w.step + 1
  {
  }
}
