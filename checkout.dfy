/** The checkout side of the home page: joining the cart against the
    products, the cart total, the order payload, the card description and
    the order number the success screen shows. */
module Checkout {
  import opened Js
  import opened Seqs
  import opened ProductsApi

  /** An entry of the cart store: a product id and a quantity. */
  datatype CartEntry = CartEntry(id: string, quantity: int)

  datatype LineItem = LineItem(product: ProductDto, quantity: int)

  /** `products.find(x => x.id === id)` */
  function ProductWithId(products: seq<ProductDto>, id: string): (r: Option<ProductDto>)
    ensures r.Some? ==> r.value in products && r.value.id == id
    ensures r.Some? ==> exists k :: 0 <= k < |products| && products[k] == r.value
                                    && forall j :: 0 <= j < k ==> products[j].id != id
    ensures r.None? <==> forall i :: 0 <= i < |products| ==> products[i].id != id
  {
    Find(products, (p: ProductDto) => p.id == id)
  }

  /** `cartDetails`: each cart entry whose id matches a product gives a line
      item with the first matching product and the entry's quantity; the
      other entries are dropped. */
  function CartDetails(cart: seq<CartEntry>, products: seq<ProductDto>): (r: seq<LineItem>)
    ensures |r| <= |cart|
    ensures forall k :: 0 <= k < |r| ==> r[k].product in products
  {
    if cart == [] then []
    else
      var rest := CartDetails(cart[1..], products);
      match ProductWithId(products, cart[0].id)
      case None => rest
      case Some(p) => [LineItem(p, cart[0].quantity)] + rest
  }

  predicate InCatalogue(products: seq<ProductDto>, e: CartEntry) {
    ProductWithId(products, e.id).Some?
  }

  /** The line item of an entry whose product is known. */
  function LineItemOf(products: seq<ProductDto>, e: CartEntry): LineItem
    requires InCatalogue(products, e)
  {
    LineItem(ProductWithId(products, e.id).value, e.quantity)
  }

  /** The test that an entry's product is known, as a value to filter with. */
  function Known(products: seq<ProductDto>): CartEntry -> bool {
    e => InCatalogue(products, e)
  }

  /** Line items, stated by filtering first and mapping after: one line item
      per known entry, in cart order. */
  lemma {:induction false} CartDetailsIsFilterThenMap(cart: seq<CartEntry>, products: seq<ProductDto>)
    ensures var known := Filter(cart, Known(products));
            var r := CartDetails(cart, products);
            |r| == |known|
            && forall k :: 0 <= k < |r| ==> InCatalogue(products, known[k]) && r[k] == LineItemOf(products, known[k])
  {
    if cart != [] {
      CartDetailsIsFilterThenMap(cart[1..], products);
      var known := Filter(cart, Known(products));
      var rest := Filter(cart[1..], Known(products));
      var r := CartDetails(cart, products);
      var rr := CartDetails(cart[1..], products);
      if InCatalogue(products, cart[0]) {
        assert known == [cart[0]] + rest;
        assert r == [LineItemOf(products, cart[0])] + rr;
        forall k | 0 <= k < |r|
          ensures InCatalogue(products, known[k]) && r[k] == LineItemOf(products, known[k])
        {
          if k > 0 {
            assert known[k] == rest[k - 1];
            assert r[k] == rr[k - 1];
          }
        }
      } else {
        assert known == rest;
        assert r == rr;
      }
    }
  }

  /** The line items of two carts joined are the line items of each, joined. */
  lemma {:induction false} CartDetailsAppend(a: seq<CartEntry>, b: seq<CartEntry>, products: seq<ProductDto>)
    ensures CartDetails(a + b, products) == CartDetails(a, products) + CartDetails(b, products)
  {
    if a == [] {
      assert a + b == b;
    } else {
      assert (a + b)[1..] == a[1..] + b;
      CartDetailsAppend(a[1..], b, products);
    }
  }

  function LineTotal(item: LineItem): real {
    item.product.price * item.quantity as real
  }

  /** The sum of `price * quantity` over the line items. */
  function Sum(items: seq<LineItem>): real {
    if items == [] then 0.0 else LineTotal(items[0]) + Sum(items[1..])
  }

  /** `items.reduce((sum, item) => sum + item.product.price * item.quantity, acc)` */
  function Fold(acc: real, items: seq<LineItem>): (r: real)
    ensures (forall k :: 0 <= k < |items| ==> items[k].product.price >= 0.0 && items[k].quantity >= 0) ==> r >= acc
    decreases items
  {
    if items == [] then acc else Fold(acc + LineTotal(items[0]), items[1..])
  }

  /** `cartTotal` */
  function CartTotal(items: seq<LineItem>): (r: real)
    ensures items == [] ==> r == 0.0
  {
    Fold(0.0, items)
  }

  /** The left fold computes the sum. */
  lemma {:induction false} FoldIsSum(acc: real, items: seq<LineItem>)
    ensures Fold(acc, items) == acc + Sum(items)
    decreases items
  {
    if items != [] {
      FoldIsSum(acc + LineTotal(items[0]), items[1..]);
    }
  }

  lemma {:induction false} SumAppend(a: seq<LineItem>, b: seq<LineItem>)
    ensures Sum(a + b) == Sum(a) + Sum(b)
  {
    if a == [] {
      assert a + b == b;
    } else {
      assert (a + b)[1..] == a[1..] + b;
      SumAppend(a[1..], b);
    }
  }

  /** The total of two carts joined is the sum of their totals. */
  lemma CartTotalAppend(a: seq<CartEntry>, b: seq<CartEntry>, products: seq<ProductDto>)
    ensures CartTotal(CartDetails(a + b, products))
            == CartTotal(CartDetails(a, products)) + CartTotal(CartDetails(b, products))
  {
    CartDetailsAppend(a, b, products);
    FoldIsSum(0.0, CartDetails(a + b, products));
    FoldIsSum(0.0, CartDetails(a, products));
    FoldIsSum(0.0, CartDetails(b, products));
    SumAppend(CartDetails(a, products), CartDetails(b, products));
  }

  /** With no negative price or quantity, the total is not negative. */
  lemma {:induction false} SumNonNegative(items: seq<LineItem>)
    requires forall k :: 0 <= k < |items| ==> items[k].product.price >= 0.0 && items[k].quantity >= 0
    ensures Sum(items) >= 0.0
  {
    if items != [] {
      SumNonNegative(items[1..]);
    }
  }

  /** A cart entry for an unknown product adds nothing to the total. */
  lemma UnknownEntryAddsNothing(cart: seq<CartEntry>, e: CartEntry, products: seq<ProductDto>)
    requires !InCatalogue(products, e)
    ensures CartTotal(CartDetails(cart + [e], products)) == CartTotal(CartDetails(cart, products))
  {
    CartDetailsAppend(cart, [e], products);
    assert CartDetails([e], products) == [];
    assert CartDetails(cart, products) + [] == CartDetails(cart, products);
  }

  /** Two of a product at 10 and one at 5 come to 25, in whatever order
      the cart holds them, and entries for unknown products change nothing. */
  lemma TwoProductScenario(a: ProductDto, b: ProductDto, stale: string)
    requires a.id != b.id && a.price == 10.0 && b.price == 5.0
    requires stale != a.id && stale != b.id
    ensures CartTotal(CartDetails([CartEntry(a.id, 2), CartEntry(b.id, 1)], [a, b])) == 25.0
    ensures CartTotal(CartDetails([CartEntry(stale, 3), CartEntry(b.id, 1), CartEntry(a.id, 2)], [a, b])) == 25.0
  {
    var products := [a, b];
    assert products[0].id == a.id && products[1].id == b.id;
    assert ProductWithId(products, a.id) == Some(a);
    assert ProductWithId(products, b.id) == Some(b);
    assert ProductWithId(products, stale).None?;
    var items := [LineItem(a, 2), LineItem(b, 1)];
    var one := [CartEntry(a.id, 2), CartEntry(b.id, 1)];
    assert one[1..] == [CartEntry(b.id, 1)];
    assert CartDetails(one, products) == items;
    assert items[1..] == [LineItem(b, 1)] && items[1..][1..] == [];
    assert Fold(20.0, items[1..]) == 25.0;
    assert CartTotal(items) == 25.0;
    var two := [CartEntry(stale, 3), CartEntry(b.id, 1), CartEntry(a.id, 2)];
    assert two[1..] == [CartEntry(b.id, 1), CartEntry(a.id, 2)];
    assert two[1..][1..] == [CartEntry(a.id, 2)] && two[1..][1..][1..] == [];
    assert CartDetails(two[1..][1..], products) == [LineItem(a, 2)];
    assert CartDetails(two[1..], products) == [LineItem(b, 1), LineItem(a, 2)];
    var swapped := [LineItem(b, 1), LineItem(a, 2)];
    assert CartDetails(two, products) == swapped;
    assert swapped[1..] == [LineItem(a, 2)] && swapped[1..][1..] == [];
    assert Fold(5.0, swapped[1..]) == 25.0;
    assert CartTotal(swapped) == 25.0;
  }

  // ---------------------------------------------------------------------
  // The order

  datatype Address = Address(id: string, title: string, detail: string, note: Option<string>)

  datatype PaymentMethod = PaymentMethod(id: string, labelText: string, description: string)

  /** `addresses.find(a => a.id === id)` */
  function AddressWithId(addresses: seq<Address>, id: string): (r: Option<Address>)
    ensures r.Some? ==> r.value in addresses && r.value.id == id
    ensures r.Some? ==> exists k :: 0 <= k < |addresses| && addresses[k] == r.value
                                    && forall j :: 0 <= j < k ==> addresses[j].id != id
    ensures r.None? ==> forall i :: 0 <= i < |addresses| ==> addresses[i].id != id
  {
    Find(addresses, (a: Address) => a.id == id)
  }

  /** `paymentMethods.find(p => p.id === id)` */
  function PaymentWithId(methods: seq<PaymentMethod>, id: string): (r: Option<PaymentMethod>)
    ensures r.Some? ==> r.value in methods && r.value.id == id
    ensures r.Some? ==> exists k :: 0 <= k < |methods| && methods[k] == r.value
                                    && forall j :: 0 <= j < k ==> methods[j].id != id
    ensures r.None? ==> forall i :: 0 <= i < |methods| ==> methods[i].id != id
  {
    Find(methods, (m: PaymentMethod) => m.id == id)
  }

  /** An address appended under an id no earlier address has is the one found under that id. */
  lemma AddressWithIdAppend(addresses: seq<Address>, added: Address)
    requires AddressWithId(addresses, added.id).None?
    ensures AddressWithId(addresses + [added], added.id) == Some(added)
  {
    var all := addresses + [added];
    assert all[|addresses|] == added;
    assert forall i :: 0 <= i < |addresses| ==> all[i] == addresses[i];
  }

  /** A payment method appended under an id no earlier one has is the one found under that id. */
  lemma PaymentWithIdAppend(methods: seq<PaymentMethod>, added: PaymentMethod)
    requires PaymentWithId(methods, added.id).None?
    ensures PaymentWithId(methods + [added], added.id) == Some(added)
  {
    var all := methods + [added];
    assert all[|methods|] == added;
    assert forall i :: 0 <= i < |methods| ==> all[i] == methods[i];
  }

  datatype OrderItem = OrderItem(productId: string, name: Json, price: real, quantity: int)

  datatype Customer = Customer(title: string, detail: string, note: Option<string>)

  datatype PaymentRef = PaymentRef(id: string, labelText: string)

  datatype OrderPayload = OrderPayload(
    items: seq<OrderItem>,
    totalPrice: real,
    customer: Customer,
    paymentMethod: PaymentRef,
    createdAt: string)

  function OrderItemOf(item: LineItem): (r: OrderItem)
    ensures r.productId == item.product.id && r.name == item.product.name
    ensures r.price == item.product.price && r.quantity == item.quantity
  {
    OrderItem(item.product.id, item.product.name, item.product.price, item.quantity)
  }

  /** `buildOrderPayload(cartDetails, totalPrice, address, payment)`, with
      `nowIso` the rendering of the current time. */
  function BuildOrderPayload(details: seq<LineItem>, totalPrice: real, address: Address, payment: PaymentMethod, nowIso: string): (r: OrderPayload)
    ensures |r.items| == |details|
    ensures forall k :: 0 <= k < |details| ==> r.items[k] == OrderItemOf(details[k])
    ensures r.totalPrice == totalPrice
    ensures r.customer == Customer(address.title, address.detail, address.note)
    ensures r.paymentMethod == PaymentRef(payment.id, payment.labelText)
    ensures r.createdAt == nowIso
  {
    OrderPayload(
      seq(|details|, k requires 0 <= k < |details| => OrderItemOf(details[k])),
      totalPrice,
      Customer(address.title, address.detail, address.note),
      PaymentRef(payment.id, payment.labelText),
      nowIso)
  }

  /** The sum of `price * quantity` over an order's items. */
  function ItemsSum(items: seq<OrderItem>): real {
    if items == [] then 0.0 else items[0].price * items[0].quantity as real + ItemsSum(items[1..])
  }

  lemma {:induction false} ItemsSumOfLineItems(details: seq<LineItem>)
    ensures ItemsSum(seq(|details|, k requires 0 <= k < |details| => OrderItemOf(details[k]))) == Sum(details)
  {
    if details != [] {
      ItemsSumOfLineItems(details[1..]);
      var all := seq(|details|, k requires 0 <= k < |details| => OrderItemOf(details[k]));
      assert all[1..] == seq(|details[1..]|, k requires 0 <= k < |details[1..]| => OrderItemOf(details[1..][k]));
    }
  }

  /** An order built from the cart total states a total equal to what its
      items add up to. */
  lemma PayloadTotalMatchesItems(details: seq<LineItem>, address: Address, payment: PaymentMethod, nowIso: string)
    ensures var payload := BuildOrderPayload(details, CartTotal(details), address, payment, nowIso);
            payload.totalPrice == ItemsSum(payload.items)
  {
    FoldIsSum(0.0, details);
    ItemsSumOfLineItems(details);
  }

  /** The order `handleSubmitOrder` posts, if its guards let one through: none
      for an empty cart or a selected address or payment method that is not
      in its list; otherwise the payload of the cart at its total. */
  function OrderToSend(details: seq<LineItem>, addresses: seq<Address>, addressId: string,
                       methods: seq<PaymentMethod>, paymentId: string, nowIso: string): (r: Option<OrderPayload>)
    ensures r.None? <==> details == [] || AddressWithId(addresses, addressId).None? || PaymentWithId(methods, paymentId).None?
    ensures r.Some? ==>
      && r.value == BuildOrderPayload(details, CartTotal(details), AddressWithId(addresses, addressId).value,
                                      PaymentWithId(methods, paymentId).value, nowIso)
      && r.value.totalPrice == ItemsSum(r.value.items)
  {
    var address := AddressWithId(addresses, addressId);
    var payment := PaymentWithId(methods, paymentId);
    if details == [] || address.None? || payment.None? then None
    else
      PayloadTotalMatchesItems(details, address.value, payment.value, nowIso);
      Some(BuildOrderPayload(details, CartTotal(details), address.value, payment.value, nowIso))
  }

  // ---------------------------------------------------------------------
  // Card description and order number

  /** `number.slice(-4)` */
  function Last4(number: string): (r: string)
    ensures |r| == if |number| < 4 then |number| else 4
    ensures r == number[|number| - |r|..]
  {
    if |number| <= 4 then number else number[|number| - 4..]
  }

  /** The description of a saved card. */
  function CardDescription(number: string): (r: string)
    ensures 5 <= |r| <= 9 && r[..5] == "**** " && r[5..] == Last4(number)
  {
    "**** " + Last4(number)
  }

  /** A card's description is the mask followed by at most the last four
      characters of its number: all of a shorter number, four of a longer one. */
  lemma CardDescriptionShape(number: string)
    ensures var d := CardDescription(number);
            && |d| == 5 + (if |number| < 4 then |number| else 4)
            && d[..5] == "**** "
            && d[5..] == number[|number| - (|d| - 5)..]
  {
    var d := CardDescription(number);
    assert d[5..] == Last4(number);
  }

  /** `Math.floor(100000 + random * 900000)` for `random` in [0, 1). */
  function RandomOrderNumber(random: real): (n: int)
    requires 0.0 <= random < 1.0
    ensures 100000 <= n <= 999999
  {
    (100000.0 + random * 900000.0).Floor
  }

  /** How the order request ended: `fetch` threw, or it answered with
      `response.ok` and what `response.json()` resolved to (`None`: it threw). */
  datatype OrderResponse = OrderNetworkError | OrderAnswered(ok: bool, body: Option<Json>)

  /** The server's order id, when the request succeeded and it sent a truthy one. */
  function ServerOrderId(response: OrderResponse): (r: Option<Json>)
    ensures r.Some? <==> response.OrderAnswered? && response.ok && response.body.Some?
                         && !response.body.value.JNull? && Truthy(Get(response.body.value, "orderId"))
    ensures r.Some? ==> r == Get(response.body.value, "orderId") && Truthy(r)
  {
    if response.OrderAnswered? && response.ok && response.body.Some? && !response.body.value.JNull?
       && Truthy(Get(response.body.value, "orderId"))
    then Get(response.body.value, "orderId")
    else None
  }

  /** The order id set by `handleSubmitOrder`: the server's, else a random
      six-digit number as a string, whether the request failed or not. */
  function OrderIdAfter(response: OrderResponse, random: real): (r: Json)
    requires 0.0 <= random < 1.0
    ensures ServerOrderId(response).Some? ==> r == ServerOrderId(response).value
    ensures ServerOrderId(response).None? ==> r == JStr(NatToString(RandomOrderNumber(random)))
  {
    match ServerOrderId(response)
    case Some(id) => id
    case None => JStr(NatToString(RandomOrderNumber(random)))
  }

  /** Without a server order id (a failed request, a non-ok status, an
      unreadable body or no truthy `orderId`) the order id is a six-digit
      number that does not start with 0. */
  lemma FallbackOrderIdIsSixDigits(response: OrderResponse, random: real)
    requires 0.0 <= random < 1.0
    requires ServerOrderId(response).None?
    ensures var r := OrderIdAfter(response, random);
            r.JStr? && |r.s| == 6 && AllDigits(r.s) && r.s[0] != '0'
  {
    SixDigitRendering(RandomOrderNumber(random));
  }

  /** The number shown reads back as the random number drawn. */
  lemma FallbackOrderIdReadsBack(response: OrderResponse, random: real)
    requires 0.0 <= random < 1.0 && ServerOrderId(response).None?
    ensures ToNumber(Some(OrderIdAfter(response, random))) == Some(RandomOrderNumber(random) as real)
  {
    var n := RandomOrderNumber(random);
    assert OrderIdAfter(response, random) == JStr(NatToString(n));
    NumberOfNatString(n);
  }

  /** A successful answer carrying `orderId` "778899" gives that id. */
  lemma ServerOrderIdScenario(random: real)
    requires 0.0 <= random < 1.0
    ensures OrderIdAfter(OrderAnswered(true, Some(JObj(map["orderId" := JStr("778899")]))), random) == JStr("778899")
  {
  }
}
