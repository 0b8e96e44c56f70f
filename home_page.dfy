/** The home page component: which screen is shown, the catalogue it has
    loaded, the saved addresses and payment methods with the selected ones,
    and the order id of the last order. Each event handler is a method that
    updates this state; the cart store, which the component only reads and
    empties, is a field holding its entries. */
module HomePage {
  import opened Js
  import opened Seqs
  import opened ProductsApi
  import opened Catalog
  import opened Checkout

  datatype Screen =
    | HomeScreen
    | CategoryScreen
    | CartScreen
    | AddressScreen
    | AddAddressScreen
    | PaymentScreen
    | AddCardScreen
    | SummaryScreen
    | SuccessScreen

  /** The screen a back (or cancel, or return-home) button leads to, if the
      screen has one. */
  function BackTarget(s: Screen): (r: Option<Screen>)
    ensures r.Some? <==> s != HomeScreen
    ensures r.Some? ==> r.value in {HomeScreen, CartScreen, AddressScreen, PaymentScreen}
  {
    match s
    case HomeScreen => None
    case CategoryScreen => Some(HomeScreen)
    case CartScreen => Some(HomeScreen)
    case AddressScreen => Some(CartScreen)
    case AddAddressScreen => Some(AddressScreen)
    case PaymentScreen => Some(AddressScreen)
    case AddCardScreen => Some(PaymentScreen)
    case SummaryScreen => Some(PaymentScreen)
    case SuccessScreen => Some(HomeScreen)
  }

  /** The screens a forward button leads to: a category pill or the floating
      cart, checkout, continue, add, save, and submitting the order. */
  function ForwardTargets(s: Screen): (r: set<Screen>)
    ensures r == {} <==> s == SuccessScreen
    ensures s !in r
  {
    match s
    case HomeScreen => {CategoryScreen, CartScreen}
    case CategoryScreen => {CartScreen}
    case CartScreen => {AddressScreen}
    case AddressScreen => {PaymentScreen, AddAddressScreen}
    case AddAddressScreen => {AddressScreen}
    case PaymentScreen => {SummaryScreen, AddCardScreen}
    case AddCardScreen => {PaymentScreen}
    case SummaryScreen => {SuccessScreen}
    case SuccessScreen => {}
  }

  /** Back undoes a forward move exactly when the move opens a screen from
      home, the cart, the address list or the payment list; the cart opened
      from a category, a save and a submitted order go back elsewhere. */
  lemma BackUndoesForward(s: Screen, t: Screen)
    requires t in ForwardTargets(s)
    ensures BackTarget(t) == Some(s) <==> s in {HomeScreen, CartScreen, AddressScreen, PaymentScreen}
  {
  }

  /** Saving a form and cancelling it lead to the same screen. */
  lemma FormSaveMatchesCancel(s: Screen)
    requires s in {AddAddressScreen, AddCardScreen}
    ensures ForwardTargets(s) == {BackTarget(s).value}
  {
  }

  /** The whole state of the component, for stating what a handler changes. */
  datatype State = State(
    activeScreen: Screen,
    products: seq<ProductDto>,
    categories: seq<CategoryDto>,
    selectedCategoryId: Option<string>,
    addresses: seq<Address>,
    paymentMethods: seq<PaymentMethod>,
    selectedAddressId: string,
    selectedPaymentId: string,
    orderId: Json,
    cart: seq<CartEntry>)

  const InitialPaymentMethods: seq<PaymentMethod> := [PaymentMethod("card", "Kredi Kartı", "Visa - **** 4242")]

  class Storefront {
    var activeScreen: Screen
    var products: seq<ProductDto>
    var categories: seq<CategoryDto>
    var selectedCategoryId: Option<string>
    var addresses: seq<Address>
    var paymentMethods: seq<PaymentMethod>
    var selectedAddressId: string
    var selectedPaymentId: string
    var orderId: Json
    /** The entries of the cart store. */
    var cart: seq<CartEntry>

    function Snapshot(): State
      reads this
    {
      State(activeScreen, products, categories, selectedCategoryId, addresses, paymentMethods,
            selectedAddressId, selectedPaymentId, orderId, cart)
    }

    /** The category list, once loaded, is headed by the campaign category
        and mentions its id and name nowhere else. */
    predicate Valid()
      reads this
    {
      categories == [] || CampaignHeaded(categories)
    }

    /** The line items shown in the cart and submitted with an order. */
    function LineItems(): seq<LineItem>
      reads this
    {
      CartDetails(cart, products)
    }

    /** The component as first rendered, over the cart store's entries. */
    constructor (storedCart: seq<CartEntry>)
      ensures Valid()
      ensures Snapshot() == State(HomeScreen, [], [], Some(CampaignId), [], InitialPaymentMethods,
                                  "", "card", JStr(""), storedCart)
    {
      activeScreen := HomeScreen;
      products := [];
      categories := [];
      selectedCategoryId := Some(CampaignId);
      addresses := [];
      paymentMethods := InitialPaymentMethods;
      selectedAddressId := "";
      selectedPaymentId := InitialPaymentMethods[0].id;
      orderId := JStr("");
      cart := storedCart;
    }

    /** The products effect, once `getProducts` has settled. */
    method LoadProducts(fetched: Outcome<seq<ProductDto>>)
      requires Valid()
      modifies this
      ensures Valid()
      ensures Snapshot() == old(Snapshot()).(products := LoadedProducts(fetched))
      ensures products != []
    {
      if fetched.Returned? && |fetched.value| > 0 {
        products := fetched.value;
      } else {
        products := FallbackProducts;
      }
    }

    /** The categories effect, once `getCategories` has settled, followed by
        the effect that selects the campaign when nothing (or "") is selected. */
    method LoadCategories(fetched: Outcome<Option<seq<CategoryDto>>>, nowIso: string)
      requires Valid()
      modifies this
      ensures Valid()
      ensures categories != []
      ensures Snapshot() == old(Snapshot()).(
        categories := LoadedCategories(fetched, nowIso),
        selectedCategoryId := if NoSelection(old(selectedCategoryId)) then Some(CampaignId) else old(selectedCategoryId))
    {
      match fetched {
        case Threw =>
          categories := EnsureCampaignCategory(FallbackCategories, nowIso);
        case Returned(data) =>
          var active := Filter(if data.Some? then data.value else [], IsActive);
          categories := EnsureCampaignCategory(if |active| > 0 then active else FallbackCategories, nowIso);
      }
      if NoSelection(selectedCategoryId) && |categories| > 0 {
        selectedCategoryId := Some(CampaignId);
      }
    }

    /** A category pill: select it, and show the category screen. */
    method SelectCategory(id: string)
      requires Valid() && activeScreen in {HomeScreen, CategoryScreen}
      requires exists i :: 0 <= i < |categories| && categories[i].id == id
      modifies this
      ensures Valid()
      ensures Snapshot() == old(Snapshot()).(selectedCategoryId := Some(id), activeScreen := CategoryScreen)
      ensures old(activeScreen) == HomeScreen ==> activeScreen in ForwardTargets(old(activeScreen))
      ensures SelectedCategory(categories, selectedCategoryId).Some?
    {
      selectedCategoryId := Some(id);
      if activeScreen != CategoryScreen {
        activeScreen := CategoryScreen;
      }
    }

    /** The end of a horizontal swipe over the product area. */
    method Swipe(dx: real)
      requires Valid() && activeScreen in {HomeScreen, CategoryScreen}
      modifies this
      ensures Valid()
      ensures var target := SwipeTarget(old(categories), old(selectedCategoryId), dx);
              Snapshot() == old(Snapshot()).(selectedCategoryId :=
                if target.Some? then Some(old(categories)[target.value].id) else old(selectedCategoryId))
      ensures selectedCategoryId != old(selectedCategoryId) ==> SelectedCategory(categories, selectedCategoryId).Some?
    {
      var abs := if dx < 0.0 then -dx else dx;
      if abs > 50.0 {
        var selected := selectedCategoryId;
        var currentIndex := FindIndex(categories, (c: CategoryDto) => selected == Some(c.id));
        if dx > 0.0 {
          if currentIndex > 0 {
            selectedCategoryId := Some(categories[currentIndex - 1].id);
          }
        } else {
          if currentIndex < |categories| - 1 {
            selectedCategoryId := Some(categories[currentIndex + 1].id);
          }
        }
      }
    }

    /** The floating cart button, shown while the cart has entries. */
    method OpenCart()
      requires Valid() && activeScreen in {HomeScreen, CategoryScreen} && |cart| > 0
      modifies this
      ensures Valid()
      ensures Snapshot() == old(Snapshot()).(activeScreen := CartScreen)
      ensures activeScreen in ForwardTargets(old(activeScreen))
    {
      activeScreen := CartScreen;
    }

    /** `handleCheckout`: on to the addresses only when there are line items. */
    method Checkout()
      requires Valid() && activeScreen == CartScreen
      modifies this
      ensures Valid()
      ensures LineItems() != [] ==> Snapshot() == old(Snapshot()).(activeScreen := AddressScreen)
      ensures LineItems() != [] ==> activeScreen in ForwardTargets(old(activeScreen))
      ensures LineItems() == [] ==> Snapshot() == old(Snapshot())
    {
      var details := CartDetails(cart, products);
      if |details| > 0 {
        activeScreen := AddressScreen;
      }
    }

    /** A back, cancel or return-home button. */
    method Back()
      requires Valid() && activeScreen != HomeScreen
      modifies this
      ensures Valid()
      ensures Snapshot() == old(Snapshot()).(activeScreen := BackTarget(old(activeScreen)).value)
    {
      match activeScreen {
        case CategoryScreen => activeScreen := HomeScreen;
        case CartScreen => activeScreen := HomeScreen;
        case AddressScreen => activeScreen := CartScreen;
        case AddAddressScreen => activeScreen := AddressScreen;
        case PaymentScreen => activeScreen := AddressScreen;
        case AddCardScreen => activeScreen := PaymentScreen;
        case SummaryScreen => activeScreen := PaymentScreen;
        case SuccessScreen => activeScreen := HomeScreen;
      }
    }

    /** The continue button of the address list; it does not check that an address is selected. */
    method ContinueFromAddresses()
      requires Valid() && activeScreen == AddressScreen
      modifies this
      ensures Valid()
      ensures Snapshot() == old(Snapshot()).(activeScreen := PaymentScreen)
      ensures activeScreen in ForwardTargets(old(activeScreen))
    {
      activeScreen := PaymentScreen;
    }

    /** The continue button of the payment list; it does not check that a method is selected. */
    method ContinueFromPayment()
      requires Valid() && activeScreen == PaymentScreen
      modifies this
      ensures Valid()
      ensures Snapshot() == old(Snapshot()).(activeScreen := SummaryScreen)
      ensures activeScreen in ForwardTargets(old(activeScreen))
    {
      activeScreen := SummaryScreen;
    }

    method OpenAddAddress()
      requires Valid() && activeScreen == AddressScreen
      modifies this
      ensures Valid()
      ensures Snapshot() == old(Snapshot()).(activeScreen := AddAddressScreen)
      ensures activeScreen in ForwardTargets(old(activeScreen))
    {
      activeScreen := AddAddressScreen;
    }

    method OpenAddCard()
      requires Valid() && activeScreen == PaymentScreen
      modifies this
      ensures Valid()
      ensures Snapshot() == old(Snapshot()).(activeScreen := AddCardScreen)
      ensures activeScreen in ForwardTargets(old(activeScreen))
    {
      activeScreen := AddCardScreen;
    }

    method SelectAddress(id: string)
      requires Valid() && activeScreen == AddressScreen
      modifies this
      ensures Valid()
      ensures Snapshot() == old(Snapshot()).(selectedAddressId := id)
    {
      selectedAddressId := id;
    }

    method SelectPayment(id: string)
      requires Valid() && activeScreen == PaymentScreen
      modifies this
      ensures Valid()
      ensures Snapshot() == old(Snapshot()).(selectedPaymentId := id)
    {
      selectedPaymentId := id;
    }

    /** `handleSaveAddress`: the form's values, as entered, under an id made
        from the current time in milliseconds. */
    method SaveAddress(title: string, detail: string, note: string, nowMillis: nat)
      requires Valid() && activeScreen == AddAddressScreen
      modifies this
      ensures Valid()
      ensures var added := Address(NatToString(nowMillis), title, detail, Some(note));
              Snapshot() == old(Snapshot()).(
                addresses := old(addresses) + [added],
                selectedAddressId := added.id,
                activeScreen := AddressScreen)
      ensures activeScreen in ForwardTargets(old(activeScreen))
    {
      var added := Address(NatToString(nowMillis), title, detail, Some(note));
      addresses := addresses + [added];
      selectedAddressId := added.id;
      activeScreen := AddressScreen;
    }

    /** The payment method a saved card becomes: an id made from the current
        time in milliseconds, the holder's name as label and the last four
        characters of the number in the description. */
    static function SavedCard(holder: string, number: string, nowMillis: nat): PaymentMethod {
      PaymentMethod(NatToString(nowMillis), holder, CardDescription(number))
    }

    /** `handleSaveCard`; expiry and CVV are not kept. */
    method SaveCard(holder: string, number: string, nowMillis: nat)
      requires Valid() && activeScreen == AddCardScreen
      modifies this
      ensures Valid()
      ensures Snapshot() == old(Snapshot()).(
                paymentMethods := old(paymentMethods) + [SavedCard(holder, number, nowMillis)],
                selectedPaymentId := NatToString(nowMillis),
                activeScreen := PaymentScreen)
      ensures activeScreen in ForwardTargets(old(activeScreen))
    {
      paymentMethods := paymentMethods + [SavedCard(holder, number, nowMillis)];
      selectedPaymentId := NatToString(nowMillis);
      activeScreen := PaymentScreen;
    }

    /** The delete button of an address; the selected id is left as it is. */
    method DeleteAddress(id: string)
      requires Valid() && activeScreen == AddressScreen
      modifies this
      ensures Valid()
      ensures Snapshot() == old(Snapshot()).(addresses := Filter(old(addresses), (a: Address) => a.id != id))
      ensures AddressWithId(addresses, id).None?
    {
      addresses := Filter(addresses, (a: Address) => a.id != id);
    }

    /** The delete button of a payment method; the selected id is left as it is. */
    method DeletePayment(id: string)
      requires Valid() && activeScreen == PaymentScreen
      modifies this
      ensures Valid()
      ensures Snapshot() == old(Snapshot()).(paymentMethods := Filter(old(paymentMethods), (m: PaymentMethod) => m.id != id))
      ensures PaymentWithId(paymentMethods, id).None?
    {
      paymentMethods := Filter(paymentMethods, (m: PaymentMethod) => m.id != id);
    }

    /** `handleSubmitOrder`. `response` is how the order request ended,
        `random` the value `Math.random()` returns and `nowIso` the current
        time; `sent` is the order posted, if the guards let it through. */
    method SubmitOrder(response: OrderResponse, random: real, nowIso: string) returns (sent: Option<OrderPayload>)
      requires Valid() && activeScreen == SummaryScreen
      requires 0.0 <= random < 1.0
      modifies this
      ensures Valid()
      ensures sent == OrderToSend(old(LineItems()), old(addresses), old(selectedAddressId),
                                  old(paymentMethods), old(selectedPaymentId), nowIso)
      ensures sent.None? ==> Snapshot() == old(Snapshot())
      ensures sent.Some? ==>
        && Snapshot() == old(Snapshot()).(orderId := OrderIdAfter(response, random), cart := [], activeScreen := SuccessScreen)
        && activeScreen in ForwardTargets(old(activeScreen))
    {
      sent := OrderToSend(CartDetails(cart, products), addresses, selectedAddressId, paymentMethods, selectedPaymentId, nowIso);
      if sent.None? {
        return;
      }
      orderId := OrderIdAfter(response, random);
      cart := [];
      activeScreen := SuccessScreen;
    }
  }

  /** Once its guards pass, an order always ends on the success screen with
      an empty cart and a non-empty order id, whatever the network did. */
  method SubmitAlwaysSucceeds(s: Storefront, response: OrderResponse, random: real, nowIso: string)
    requires s.Valid() && s.activeScreen == SummaryScreen && 0.0 <= random < 1.0
    requires s.LineItems() != []
    requires AddressWithId(s.addresses, s.selectedAddressId).Some?
    requires PaymentWithId(s.paymentMethods, s.selectedPaymentId).Some?
    modifies s
    ensures s.activeScreen == SuccessScreen && s.cart == []
    ensures Truthy(Some(s.orderId))
  {
    var sent := s.SubmitOrder(response, random, nowIso);
    if ServerOrderId(response).None? {
      FallbackOrderIdIsSixDigits(response, random);
    }
  }
}
