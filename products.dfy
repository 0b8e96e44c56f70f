/** `getProducts`: unwraps the `/products` response, whichever of its three
    shapes it has, and maps each raw record to a `ProductDto`, dropping the
    records that end up without an id. */
module ProductsApi {
  import opened Js
  import opened Seqs
  import ApiClient

  /** A product as the client holds it. `name` and `image` are passed on from
      the response as they are, so they are JSON values; `category` keeps the
      elements of a raw array whatever their type. */
  datatype ProductDto = ProductDto(
    id: string,
    name: Json,
    price: real,
    image: Option<Json>,
    category: seq<Json>,
    isCampaign: bool,
    isDiscounted: bool)

  const UnnamedProduct := "Adsız Ürün"

  /** The raw records of a response: a bare array, else an array under `data`,
      else an array under `data.data`, else none. */
  function RawRecords(response: Json): (r: seq<Json>)
    ensures response.JArr? ==> r == response.items
    ensures !response.JArr? && IsArray(Get(response, "data")) ==> r == Get(response, "data").value.items
    ensures !response.JArr? && !IsArray(Get(response, "data")) ==>
      var inner := GetOpt(Get(response, "data"), "data");
      r == if IsArray(inner) then inner.value.items else []
  {
    var data := Get(response, "data");
    var inner := GetOpt(data, "data");
    if response.JArr? then response.items
    else if IsArray(data) then data.value.items
    else if IsArray(inner) then inner.value.items
    else []
  }

  /** `item.id ?? item._id ?? item.clientId ?? ""` */
  function IdSource(item: Json): (r: Json)
    ensures !Nullish(Get(item, "id")) ==> r == Get(item, "id").value
    ensures Nullish(Get(item, "id")) && !Nullish(Get(item, "_id")) ==> r == Get(item, "_id").value
    ensures Nullish(Get(item, "id")) && Nullish(Get(item, "_id")) && !Nullish(Get(item, "clientId")) ==>
      r == Get(item, "clientId").value
    ensures Nullish(Get(item, "id")) && Nullish(Get(item, "_id")) && Nullish(Get(item, "clientId")) ==>
      r == JStr("")
  {
    Coalesce(Coalesce(Coalesce(Get(item, "id"), Get(item, "_id")), Get(item, "clientId")), Some(JStr(""))).value
  }

  /** The `category` rule: an array is kept, any other truthy value becomes a
      one-element list, a missing or falsy value an empty one. */
  function CategoryList(raw: Option<Json>): (r: seq<Json>)
    ensures IsArray(raw) ==> r == raw.value.items
    ensures forall s :: raw == Some(JStr(s)) && s != "" ==> r == [JStr(s)]
    ensures !Truthy(raw) ==> r == []
    ensures !IsArray(raw) && Truthy(raw) ==> r == [raw.value]
  {
    if IsArray(raw) then raw.value.items else if Truthy(raw) then [raw.value] else []
  }

  /** The per-record mapping of `getProducts` (for a record that is not null). */
  function MapProduct(item: Json): (r: ProductDto)
    ensures r.id == JsString(IdSource(item))
    ensures Nullish(Get(item, "name")) ==> r.name == JStr(UnnamedProduct)
    ensures !Nullish(Get(item, "name")) ==> r.name == Get(item, "name").value
    ensures r.price != 0.0 ==> ToNumber(Get(item, "price")) == Some(r.price)
    ensures ToNumber(Get(item, "price")) !in {None, Some(0.0)} ==> ToNumber(Get(item, "price")) == Some(r.price)
    ensures !Nullish(Get(item, "image")) ==> r.image == Get(item, "image")
    ensures Nullish(Get(item, "image")) ==> r.image == Get(item, "imageUrl")
    ensures r.category == CategoryList(Get(item, "category"))
    ensures r.isCampaign == Truthy(Get(item, "isCampaign"))
    ensures r.isDiscounted == Truthy(Get(item, "isDiscounted"))
  {
    var name := Get(item, "name");
    ProductDto(
      id := JsString(IdSource(item)),
      name := if Nullish(name) then JStr(UnnamedProduct) else name.value,
      price := NumberOrZero(Get(item, "price")),
      image := Coalesce(Get(item, "image"), Get(item, "imageUrl")),
      category := CategoryList(Get(item, "category")),
      isCampaign := Truthy(Get(item, "isCampaign")),
      isDiscounted := Truthy(Get(item, "isDiscounted")))
  }

  predicate HasId(p: ProductDto) {
    p.id != ""
  }

  function MapAll(raw: seq<Json>): (r: seq<ProductDto>)
    ensures |r| == |raw| && forall i :: 0 <= i < |raw| ==> r[i] == MapProduct(raw[i])
  {
    seq(|raw|, i requires 0 <= i < |raw| => MapProduct(raw[i]))
  }

  /** `getProducts()` once the response has arrived. Reading a property of a
      null record throws, so one null record makes the whole call throw. */
  function GetProducts(response: Json): (r: Outcome<seq<ProductDto>>)
    ensures r.Threw? <==> JNull in RawRecords(response)
    ensures r.Returned? ==>
      var raw := RawRecords(response);
      && |r.value| <= |raw|
      && IsSubsequence(r.value, MapAll(raw))
      && (forall k :: 0 <= k < |r.value| ==> r.value[k].id != "")
      && (forall i :: 0 <= i < |raw| && MapProduct(raw[i]).id != "" ==> MapProduct(raw[i]) in r.value)
  {
    var raw := RawRecords(response);
    if JNull in raw then Threw
    else
      FilterIsSubsequence(MapAll(raw), HasId);
      Returned(Filter(MapAll(raw), HasId))
  }

  /** `getProducts()` as a whole: `apiFetch` failures propagate, an empty
      response (null) gives no products. */
  function GetProductsFrom(fetched: ApiClient.FetchResult): (r: Outcome<seq<ProductDto>>)
    ensures fetched.NoContent? ==> r == Returned([])
    ensures !fetched.NoContent? && !fetched.Value? ==> r == Threw
    ensures fetched.Value? ==> r == GetProducts(fetched.json)
  {
    match fetched
    case Value(json) => GetProducts(json)
    case NoContent => GetProducts(JNull)
    case _ => Threw
  }

  /** The same records give the same products under each of the three
      response shapes, whatever else the wrapping objects hold. */
  lemma ShapeInvariance(records: seq<Json>, outer: map<string, Json>, middle: map<string, Json>, inner: map<string, Json>)
    requires "data" in outer && outer["data"] == JArr(records)
    requires "data" in middle && "data" in inner && middle["data"] == JObj(inner) && inner["data"] == JArr(records)
    ensures GetProducts(JObj(outer)) == GetProducts(JArr(records))
    ensures GetProducts(JObj(middle)) == GetProducts(JArr(records))
  {
  }

  /** A response of no recognised shape gives no products and no error. */
  lemma UnrecognisedShapeIsEmpty(response: Json)
    requires !response.JArr? && !IsArray(Get(response, "data")) && !IsArray(GetOpt(Get(response, "data"), "data"))
    ensures GetProducts(response) == Returned([])
  {
  }

  /** Mapping distributes over concatenation of record lists. */
  lemma {:induction false} MapAllAppend(a: seq<Json>, b: seq<Json>)
    ensures MapAll(a + b) == MapAll(a) + MapAll(b)
  {
    var l := MapAll(a + b);
    var r := MapAll(a) + MapAll(b);
    forall i | 0 <= i < |l|
      ensures l[i] == r[i]
    {
      if i < |a| {
        assert (a + b)[i] == a[i];
      } else {
        assert (a + b)[i] == b[i - |a|];
      }
    }
  }

  /** A bare array without null records gives its id-bearing products. */
  lemma {:induction false} ArrayResponse(raw: seq<Json>)
    requires JNull !in raw
    ensures GetProducts(JArr(raw)) == Returned(Filter(MapAll(raw), HasId))
  {
  }

  /** A record that maps to an empty id contributes nothing to the list. */
  lemma {:induction false} IdlessRecordIsDropped(item: Json, others: seq<Json>)
    requires item != JNull && MapProduct(item).id == ""
    requires JNull !in others
    ensures GetProducts(JArr([item] + others)) == GetProducts(JArr(others))
  {
    var first := MapAll([item]);
    var rest := MapAll(others);
    assert first == [MapProduct(item)];
    assert Filter(first, HasId) == [];
    MapAllAppend([item], others);
    FilterAppend(first, rest, HasId);
    assert Filter(MapAll([item] + others), HasId) == Filter(rest, HasId);
    assert JNull !in [item] + others;
    ArrayResponse([item] + others);
    ArrayResponse(others);
  }

  /** An explicit empty `id` does not fall through to `_id`: the record is dropped. */
  lemma {:induction false} EmptyIdIsDropped(item: Json, others: seq<Json>)
    requires Get(item, "id") == Some(JStr(""))
    requires JNull !in others
    ensures MapProduct(item).id == ""
    ensures GetProducts(JArr([item] + others)) == GetProducts(JArr(others))
  {
    assert IdSource(item) == JStr("");
    IdlessRecordIsDropped(item, others);
  }

  /** A price sent as a decimal string (`"12.5"`, `"12."`, `".5"`) converts
      to its whole part plus its fraction. */
  lemma {:induction false} NumericStringPrice(s: string, k: nat)
    requires k < |s| && s[k] == '.' && AllDigits(s[..k]) && AllDigits(s[k + 1..]) && |s| > 1
    ensures NumberOrZero(Some(JStr(s)))
            == DigitsValue(s[..k]) as real + FractionValue(s[k + 1..])
  {
    if k > 0 {
      assert s[0] == s[..k][0];
    }
    if k < |s| - 1 {
      assert s[|s| - 1] == s[k + 1..][|s| - k - 2];
    }
    NumberOfUnsignedText(s);
    ParseUnsignedDecimal(s, k);
  }

  /** A price sent as a string that is not a number (`"abc"`, `"x12"`) becomes 0. */
  lemma {:induction false} NonNumericStringPrice(s: string)
    requires s != [] && !IsSpace(s[0]) && !IsSpace(s[|s| - 1])
    requires !IsDigit(s[0]) && s[0] != '.' && s[0] != '+' && s[0] != '-'
    ensures NumberOrZero(Some(JStr(s))) == 0.0
  {
    NumberOfUnsignedText(s);
    ParseUnsignedNonDigitLed(s);
  }
}
