/** The product page's option selection and add-to-cart button: the `choices`
    map from lower-cased option name to lower-cased value label, filled from
    the first variant when the page mounts and updated one key per swatch
    click; which swatch shows as active; and the cart item sent when the
    button is pressed.

    Finding the variant that matches the choices is done by a helper that is
    not part of this model; its answer is a parameter. The cart call is an
    oracle that accepts or rejects the item. */
module ProductView {
  import opened Common

  datatype OptionValue = OptionValue(labelText: string)

  datatype ProductOption = ProductOption(displayName: string, values: seq<OptionValue>)

  /** A variant; `options` is `undefined` for a variant without options. */
  datatype Variant = Variant(id: string, price: real, options: Option<seq<ProductOption>>)

  datatype Product = Product(
    id: string,
    currencyCode: Option<string>,
    variants: seq<Variant>,
    options: seq<ProductOption>)

  /** Lower-cased option name to lower-cased value label. */
  type Choices = map<string, string>

  /** The currency sent when the product has none. */
  const DefaultCurrency: string := "USD"

  /** The key an option is stored under. */
  function ChoiceKey(o: ProductOption): string {
    Lower(o.displayName)
  }

  /** `choices` after the mount effect has processed `options` in order, each
      option writing its first value's label; `None` when an option has no
      values, where the effect throws. */
  function ApplyFirstValues(choices: Choices, options: seq<ProductOption>): (r: Option<Choices>)
    ensures r.Some? <==> forall i :: 0 <= i < |options| ==> |options[i].values| > 0
    decreases |options|
  {
    if options == [] then Some(choices)
    else if |options[0].values| == 0 then None
    else ApplyFirstValues(choices[ChoiceKey(options[0]) := Lower(options[0].values[0].labelText)], options[1..])
  }

  /** The keys after the mount effect are the keys before it plus the
      lower-cased name of every option. */
  lemma {:induction false} ChoiceKeys(choices: Choices, options: seq<ProductOption>)
    requires ApplyFirstValues(choices, options).Some?
    ensures ApplyFirstValues(choices, options).value.Keys
      == choices.Keys + set i | 0 <= i < |options| :: ChoiceKey(options[i])
    decreases |options|
  {
    if options != [] {
      var c' := choices[ChoiceKey(options[0]) := Lower(options[0].values[0].labelText)];
      ChoiceKeys(c', options[1..]);
      assert forall i :: 1 <= i < |options| ==> options[i] == options[1..][i - 1];
      assert (set i | 0 <= i < |options| :: ChoiceKey(options[i]))
        == {ChoiceKey(options[0])} + set i | 0 <= i < |options[1..]| :: ChoiceKey(options[1..][i]);
    }
  }

  /** The last option written under a key wins: the stored label is the
      lower-cased first value of the last option with that lower-cased name. */
  lemma {:induction false} LastOptionWins(choices: Choices, options: seq<ProductOption>, i: int)
    requires ApplyFirstValues(choices, options).Some?
    requires 0 <= i < |options|
    requires forall j :: i < j < |options| ==> ChoiceKey(options[j]) != ChoiceKey(options[i])
    ensures ChoiceKey(options[i]) in ApplyFirstValues(choices, options).value
    ensures ApplyFirstValues(choices, options).value[ChoiceKey(options[i])] == Lower(options[i].values[0].labelText)
    decreases |options|
  {
    var c' := choices[ChoiceKey(options[0]) := Lower(options[0].values[0].labelText)];
    assert ApplyFirstValues(choices, options) == ApplyFirstValues(c', options[1..]);
    if i == 0 {
      UntouchedKeyKept(c', options[1..], ChoiceKey(options[0]));
    } else {
      assert options[1..][i - 1] == options[i];
      LastOptionWins(c', options[1..], i - 1);
    }
  }

  /** A key that no option writes keeps its previous label. */
  lemma {:induction false} UntouchedKeyKept(choices: Choices, options: seq<ProductOption>, key: string)
    requires ApplyFirstValues(choices, options).Some?
    requires forall j :: 0 <= j < |options| ==> ChoiceKey(options[j]) != key
    requires key in choices
    ensures key in ApplyFirstValues(choices, options).value
    ensures ApplyFirstValues(choices, options).value[key] == choices[key]
    decreases |options|
  {
    if options != [] {
      var c' := choices[ChoiceKey(options[0]) := Lower(options[0].values[0].labelText)];
      assert ApplyFirstValues(choices, options) == ApplyFirstValues(c', options[1..]);
      assert forall j :: 0 <= j < |options[1..]| ==> options[1..][j] == options[j + 1];
      UntouchedKeyKept(c', options[1..], key);
    }
  }

  /** The mount effect: the first variant's options (none when `undefined`)
      written into the empty map; `None` when the product has no variant or an
      option has no values, where the effect throws. */
  function InitialChoices(p: Product): (r: Option<Choices>)
    ensures |p.variants| == 0 ==> r.None?
    ensures |p.variants| > 0 && p.variants[0].options.None? ==> r == Some(map[])
    ensures |p.variants| > 0 && p.variants[0].options.Some? ==>
      r == ApplyFirstValues(map[], p.variants[0].options.value)
  {
    if |p.variants| == 0 then None
    else
      match p.variants[0].options
      case None => Some(map[])
      case Some(options) => ApplyFirstValues(map[], options)
  }

  /** Whether the swatch for value `v` of option `o` is shown as active. */
  predicate SwatchActive(choices: Choices, o: ProductOption, v: OptionValue) {
    ChoiceKey(o) in choices && Lower(v.labelText) == choices[ChoiceKey(o)]
  }

  /** A click on the swatch for value `v` of option `o`. */
  function ClickSwatch(choices: Choices, o: ProductOption, v: OptionValue): (r: Choices)
    ensures r.Keys == choices.Keys + {ChoiceKey(o)}
    ensures forall k :: k in choices && k != ChoiceKey(o) ==> r[k] == choices[k]
    ensures SwatchActive(r, o, v)
  {
    choices[ChoiceKey(o) := Lower(v.labelText)]
  }

  /** After a click, a swatch of the same option is active iff its label
      matches the clicked one up to case, and the swatches of every option
      stored under another key keep their state. */
  lemma SwatchClickSelectsOne(choices: Choices, o: ProductOption, v: OptionValue, o': ProductOption, v': OptionValue)
    ensures ChoiceKey(o') == ChoiceKey(o) ==>
      (SwatchActive(ClickSwatch(choices, o, v), o', v') <==> Lower(v'.labelText) == Lower(v.labelText))
    ensures ChoiceKey(o') != ChoiceKey(o) ==>
      (SwatchActive(ClickSwatch(choices, o, v), o', v') <==> SwatchActive(choices, o', v'))
  {
  }

  /** Right after mounting, the first value of each of the first variant's
      options is active, unless a later option with the same lower-cased name
      overwrote it. */
  lemma {:induction false} FirstValuesStartActive(p: Product, i: int)
    requires InitialChoices(p).Some? && p.variants[0].options.Some?
    requires 0 <= i < |p.variants[0].options.value|
    requires forall j :: i < j < |p.variants[0].options.value| ==>
      ChoiceKey(p.variants[0].options.value[j]) != ChoiceKey(p.variants[0].options.value[i])
    ensures var o := p.variants[0].options.value[i];
      SwatchActive(InitialChoices(p).value, o, o.values[0])
  {
    var options := p.variants[0].options.value;
    LastOptionWins(map[], options, i);
  }

  datatype Pricing = Pricing(amount: real, currencyCode: string)

  /** The item given to the add-to-cart hook. */
  datatype CartItemBody = CartItemBody(productId: string, variantId: string, pricing: Pricing)

  /** `variant ? variant : product.variants[0]`; `None` when both are missing,
      where reading the variant's id throws. */
  function SelectedVariant(p: Product, found: Option<Variant>): (v: Option<Variant>)
    ensures found.Some? ==> v == found
    ensures found.None? && |p.variants| > 0 ==> v == Some(p.variants[0])
    ensures v.None? <==> found.None? && |p.variants| == 0
  {
    if found.Some? then found
    else if |p.variants| > 0 then Some(p.variants[0])
    else None
  }

  /** The item `addToCart` sends for the selected variant. */
  function CartItemFor(p: Product, found: Option<Variant>): (b: Option<CartItemBody>)
    ensures b.Some? <==> SelectedVariant(p, found).Some?
    ensures b.Some? ==>
      && b.value.productId == p.id
      && b.value.variantId == SelectedVariant(p, found).value.id
      && b.value.pricing.amount == SelectedVariant(p, found).value.price
      && b.value.pricing.currencyCode == p.currencyCode.GetOr(DefaultCurrency)
  {
    match SelectedVariant(p, found)
    case None => None
    case Some(v) => Some(CartItemBody(p.id, v.id, Pricing(v.price, p.currencyCode.GetOr(DefaultCurrency))))
  }

  /** The page's state: the choices, the button's loading flag, and whether the cart sidebar is open. */
  datatype PageState = PageState(choices: Choices, loading: bool, sidebarOpen: bool)

  /** One press of the button: the state while the call is pending, the item
      sent (none when reading the variant throws), and the state afterwards. */
  datatype AddToCartRun = AddToCartRun(pending: PageState, sent: Option<CartItemBody>, settled: PageState)

  /** `addToCart`: set the loading flag, send the item, open the sidebar on
      success; the flag is cleared on success and on failure alike. */
  function AddToCart(s: PageState, p: Product, found: Option<Variant>, accept: CartItemBody -> bool): (r: AddToCartRun)
    ensures r.pending.loading && !r.settled.loading
    ensures r.sent == CartItemFor(p, found)
    ensures r.settled.sidebarOpen <==> s.sidebarOpen || (r.sent.Some? && accept(r.sent.value))
    ensures r.pending.choices == s.choices && r.settled.choices == s.choices
  {
    var pending := s.(loading := true);
    match CartItemFor(p, found)
    case None => AddToCartRun(pending, None, pending.(loading := false))
    case Some(item) =>
      if accept(item) then AddToCartRun(pending, Some(item), pending.(loading := false, sidebarOpen := true))
      else AddToCartRun(pending, Some(item), pending.(loading := false))
  }

  /** A user action on the product page: a press of the add-to-cart button
      (with the variant lookup's answer and the cart's verdict), or a swatch click. */
  datatype PageEvent =
    | Press(product: Product, found: Option<Variant>, accept: CartItemBody -> bool)
    | Swatch(option: ProductOption, value: OptionValue)

  /** The page state once an action has settled. */
  function Settle(s: PageState, e: PageEvent): PageState {
    match e
    case Press(p, found, accept) => AddToCart(s, p, found, accept).settled
    case Swatch(o, v) => s.(choices := ClickSwatch(s.choices, o, v))
  }

  /** The page state after a sequence of settled actions. */
  function RunPage(s: PageState, events: seq<PageEvent>): PageState
    decreases |events|
  {
    if events == [] then s else RunPage(Settle(s, events[0]), events[1..])
  }

  /** The reference for the choices: the swatch clicks alone, in order. */
  function SwatchChoices(choices: Choices, events: seq<PageEvent>): Choices
    decreases |events|
  {
    if events == [] then choices
    else if events[0].Swatch? then
      SwatchChoices(ClickSwatch(choices, events[0].option, events[0].value), events[1..])
    else SwatchChoices(choices, events[1..])
  }

  /** A press that sends an item the cart accepts. */
  predicate OpensSidebar(e: PageEvent) {
    e.Press? && CartItemFor(e.product, e.found).Some? && e.accept(CartItemFor(e.product, e.found).value)
  }

  /** Over any sequence of presses and swatch clicks: the choices are those
      the swatch clicks alone produce, so presses never change them; the
      loading flag is clear after any settled press and otherwise keeps its
      value; and the sidebar is open iff it was open before or some press
      had its item accepted, so once open it stays open. */
  lemma {:induction false} PageRunInvariants(s: PageState, events: seq<PageEvent>)
    ensures RunPage(s, events).choices == SwatchChoices(s.choices, events)
    ensures RunPage(s, events).loading <==> s.loading && forall i :: 0 <= i < |events| ==> !events[i].Press?
    ensures RunPage(s, events).sidebarOpen <==> s.sidebarOpen || exists i :: 0 <= i < |events| && OpensSidebar(events[i])
    decreases |events|
  {
    if events != [] {
      var s' := Settle(s, events[0]);
      PageRunInvariants(s', events[1..]);
      assert forall i :: 1 <= i < |events| ==> events[i] == events[1..][i - 1];
      assert RunPage(s, events) == RunPage(s', events[1..]);
      if (exists i :: 0 <= i < |events| && OpensSidebar(events[i])) && !OpensSidebar(events[0]) {
        var i :| 0 <= i < |events| && OpensSidebar(events[i]);
        assert events[1..][i - 1] == events[i];
      }
    }
  }
}
