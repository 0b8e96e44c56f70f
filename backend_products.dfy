/** The backend's `/products` route: `normalizeProduct`, the listing (`GET /`)
    and the validation and defaulting of a new product (`POST /`). The
    database is not modelled: a stored document is an input, with the two
    values the route reads through methods of its own (`_id.toString()` and
    `createdAt.toISOString()`) given as the texts those methods return. */
module BackendProducts {
  import opened Js
  import opened Seqs
  import opened ProductsApi

  /** A stored product document (`lean()` or `toJSON()` output). */
  datatype StoredDoc = StoredDoc(
    fields: map<string, Json>,
    objectIdText: Option<string>,  // `item._id?.toString?.()`
    createdAtIso: Option<string>)  // `item.createdAt?.toISOString?.()`

  /** `normalizeProduct`'s result; `name` is undefined when the document has none. */
  datatype NormalizedProduct = NormalizedProduct(
    id: Json,
    name: Option<Json>,
    price: real,
    category: seq<Json>,
    image: Json,
    isActive: bool,
    createdAt: string)

  function Field(doc: StoredDoc, key: string): Option<Json> {
    if key in doc.fields then Some(doc.fields[key]) else None
  }

  /** `x || ""` for a text that may be missing. */
  predicate TruthyText(t: Option<string>) {
    t.Some? && t.value != ""
  }

  /** `normalizeProduct(item)`, with `nowIso` the rendering of the current time. */
  function NormalizeProduct(doc: StoredDoc, nowIso: string): (r: NormalizedProduct)
    ensures Truthy(Field(doc, "id")) ==> r.id == Field(doc, "id").value
    ensures !Truthy(Field(doc, "id")) && TruthyText(doc.objectIdText) ==> r.id == JStr(doc.objectIdText.value)
    ensures !Truthy(Field(doc, "id")) && !TruthyText(doc.objectIdText) ==> r.id == JStr("")
    ensures Truthy(Some(r.id)) || r.id == JStr("")
    ensures r.name == Field(doc, "name")
    ensures r.price == NumberOrZero(Field(doc, "price"))
    ensures IsArray(Field(doc, "category")) ==> r.category == Field(doc, "category").value.items
    ensures !IsArray(Field(doc, "category")) ==> r.category == []
    ensures Truthy(Field(doc, "imageUrl")) ==> r.image == Field(doc, "imageUrl").value
    ensures !Truthy(Field(doc, "imageUrl")) ==> r.image == JStr("")
    ensures Truthy(Some(r.image)) || r.image == JStr("")
    ensures r.isActive == Truthy(Field(doc, "isActive"))
    ensures r.createdAt == if TruthyText(doc.createdAtIso) then doc.createdAtIso.value else nowIso
  {
    var id := Field(doc, "id");
    var imageUrl := Field(doc, "imageUrl");
    var category := Field(doc, "category");
    NormalizedProduct(
      id := if Truthy(id) then id.value
            else if TruthyText(doc.objectIdText) then JStr(doc.objectIdText.value)
            else JStr(""),
      name := Field(doc, "name"),
      price := NumberOrZero(Field(doc, "price")),
      category := if IsArray(category) then category.value.items else [],
      image := if Truthy(imageUrl) then imageUrl.value else JStr(""),
      isActive := Truthy(Field(doc, "isActive")),
      createdAt := if TruthyText(doc.createdAtIso) then doc.createdAtIso.value else nowIso)
  }

  /** What `res.json` sends for a normalized product: an undefined `name` is omitted. */
  function Encode(p: NormalizedProduct): (r: Json)
    ensures r.JObj?
    ensures "name" in r.fields <==> p.name.Some?
    ensures p.name.Some? ==> r.fields["name"] == p.name.value
    ensures forall k :: k in r.fields <==> k in {"id", "price", "category", "image", "isActive", "createdAt"} || (k == "name" && p.name.Some?)
  {
    var fields := map[
      "id" := p.id,
      "price" := JNum(p.price),
      "category" := JArr(p.category),
      "image" := p.image,
      "isActive" := JBool(p.isActive),
      "createdAt" := JStr(p.createdAt)];
    JObj(if p.name.Some? then fields["name" := p.name.value] else fields)
  }

  /** The query `{ isActive: true }` matches documents whose `isActive` is `true`. */
  predicate MatchesActive(doc: StoredDoc)
    ensures MatchesActive(doc) ==> Truthy(Field(doc, "isActive"))
  {
    Field(doc, "isActive") == Some(JBool(true))
  }

  /** `GET /`: the active documents, in the order the database returns them
      (`createdAt` descending), normalized and wrapped under `data`. */
  function ListResponse(docs: seq<StoredDoc>, nowIso: string): (r: Json)
    ensures r.JObj? && r.fields.Keys == {"data"} && r.fields["data"].JArr?
    ensures var items := r.fields["data"].items;
            var active := Filter(docs, MatchesActive);
            |items| == |active|
            && forall i :: 0 <= i < |items| ==> items[i] == Encode(NormalizeProduct(active[i], nowIso))
  {
    var active := Filter(docs, MatchesActive);
    JObj(map["data" := JArr(seq(|active|, i requires 0 <= i < |active| => Encode(NormalizeProduct(active[i], nowIso))))])
  }

  /** Every product the listing sends is active. */
  lemma {:induction false} ListedProductsAreActive(docs: seq<StoredDoc>, nowIso: string)
    ensures var items := ListResponse(docs, nowIso).fields["data"].items;
            forall i :: 0 <= i < |items| ==> items[i].fields["isActive"] == JBool(true)
  {
    var active := Filter(docs, MatchesActive);
    forall i | 0 <= i < |active|
      ensures NormalizeProduct(active[i], nowIso).isActive
    {
      assert MatchesActive(active[i]);
    }
  }

  // ---------------------------------------------------------------------
  // POST /

  const RequiredFieldsMessage := "'name' ve 'price' alanları zorunludur."

  /** The values `Product.create` receives. */
  datatype NewProduct = NewProduct(
    name: string,
    price: real,
    category: seq<Json>,
    imageUrl: string,
    isActive: bool,
    createdAt: Option<Json>)  // the value given to `new Date(...)`, when truthy

  datatype CreateResult = Rejected(status: int, message: string) | Accepted(product: NewProduct)

  /** A destructuring default: it applies only to an undefined property. */
  function Default(v: Option<Json>, d: Json): (r: Json)
    ensures v.None? ==> r == d
    ensures v.Some? ==> r == v.value
  {
    if v.None? then d else v.value
  }

  /** `Array.isArray(c) ? c : [c].filter(Boolean)` */
  function CategoryInput(c: Json): (r: seq<Json>)
    ensures c.JArr? ==> r == c.items
    ensures !c.JArr? && Truthy(Some(c)) ==> r == [c]
    ensures !Truthy(Some(c)) ==> r == []
  {
    if c.JArr? then c.items else Filter([c], x => Truthy(Some(x)))
  }

  /** The body fields the handler reads, from `req.body ?? {}`. */
  function BodyField(body: Option<Json>, key: string): (r: Option<Json>)
    ensures Nullish(body) ==> r.None?
    ensures !Nullish(body) ==> r == Get(body.value, key)
  {
    if Nullish(body) then None else Get(body.value, key)
  }

  /** Validation and defaulting of `POST /`. */
  function CreateProduct(body: Option<Json>): (r: CreateResult)
    ensures r.Rejected? <==> !Truthy(BodyField(body, "name")) || !IsNumber(BodyField(body, "price"))
    ensures r.Rejected? ==> r.status == 400 && r.message == RequiredFieldsMessage
    ensures r.Accepted? ==>
      && r.product.name == Trim(JsString(BodyField(body, "name").value))
      && Some(JNum(r.product.price)) == BodyField(body, "price")
      && r.product.category == CategoryInput(Default(BodyField(body, "category"), JArr([])))
      && r.product.isActive == (BodyField(body, "isActive").None? || Truthy(BodyField(body, "isActive")))
      && (Truthy(BodyField(body, "imageUrl")) ==> r.product.imageUrl == JsString(BodyField(body, "imageUrl").value))
      && (!Truthy(BodyField(body, "imageUrl")) ==> r.product.imageUrl == "")
      && (Truthy(BodyField(body, "createdAt")) <==> r.product.createdAt.Some?)
      && (r.product.createdAt.Some? ==> r.product.createdAt == BodyField(body, "createdAt"))
  {
    var name := BodyField(body, "name");
    var price := BodyField(body, "price");
    var category := Default(BodyField(body, "category"), JArr([]));
    var imageUrl := Default(BodyField(body, "imageUrl"), JStr(""));
    var isActive := Default(BodyField(body, "isActive"), JBool(true));
    var createdAt := BodyField(body, "createdAt");
    if !Truthy(name) || !IsNumber(price) then Rejected(400, RequiredFieldsMessage)
    else
      Accepted(NewProduct(
        name := Trim(JsString(name.value)),
        price := price.value.n,
        category := CategoryInput(category),
        imageUrl := JsString(if Truthy(Some(imageUrl)) then imageUrl else JStr("")),
        isActive := Truthy(Some(isActive)),
        createdAt := if Truthy(createdAt) then createdAt else None))
  }

  /** `typeof v === "number"` */
  predicate IsNumber(v: Option<Json>) {
    v.Some? && v.value.JNum?
  }

  /** The document a new product is stored as, given the id the database
      assigns and the rendering of the stored `createdAt` date, if any. */
  function StoredFrom(p: NewProduct, objectIdText: string, createdAtIso: Option<string>): (r: StoredDoc)
    ensures MatchesActive(r) <==> p.isActive
    ensures Field(r, "name") == Some(JStr(p.name)) && Field(r, "price") == Some(JNum(p.price))
    ensures Field(r, "id").None? && r.objectIdText == Some(objectIdText)
  {
    StoredDoc(
      map["name" := JStr(p.name), "price" := JNum(p.price), "category" := JArr(p.category),
          "imageUrl" := JStr(p.imageUrl), "isActive" := JBool(p.isActive)],
      Some(objectIdText), createdAtIso)
  }

  /** The 201 answer to `POST /`. */
  datatype Reply = Reply(status: int, body: Json)

  /** The 201 answer to `POST /`: the stored product, normalized, under `data`. */
  function CreatedResponse(p: NewProduct, objectIdText: string, createdAtIso: Option<string>, nowIso: string): (r: Reply)
    ensures r.status == 201
    ensures r.body.JObj? && r.body.fields.Keys == {"data"} && r.body.fields["data"].JObj?
    ensures var data := r.body.fields["data"].fields;
            && "name" in data && data["name"] == JStr(p.name)
            && "price" in data && data["price"] == JNum(p.price)
            && "isActive" in data && data["isActive"] == JBool(p.isActive)
            && "id" in data && data["id"] == JStr(objectIdText)
  {
    Reply(201, JObj(map["data" := Encode(NormalizeProduct(StoredFrom(p, objectIdText, createdAtIso), nowIso))]))
  }

  /** What `POST /` answers with carries back every accepted value: the
      trimmed name, the price, the category list, the image URL (or ""),
      the active flag, and the database id as the product's id. */
  lemma CreatedProductRoundTrip(p: NewProduct, objectIdText: string, createdAtIso: Option<string>, nowIso: string)
    ensures var n := NormalizeProduct(StoredFrom(p, objectIdText, createdAtIso), nowIso);
            && n.name == Some(JStr(p.name))
            && n.price == p.price
            && n.category == p.category
            && n.image == JStr(p.imageUrl)
            && n.isActive == p.isActive
            && n.id == JStr(objectIdText)
  {
  }

  /** An accepted body with no `isActive` creates an active product, which the listing then shows. */
  lemma OmittedIsActiveIsListed(body: Option<Json>, objectIdText: string, createdAtIso: Option<string>)
    requires CreateProduct(body).Accepted? && BodyField(body, "isActive").None?
    ensures MatchesActive(StoredFrom(CreateProduct(body).product, objectIdText, createdAtIso))
  {
  }

  /** An explicit `isActive: null` is not replaced by the default: the product is inactive. */
  lemma NullIsActiveIsInactive(fields: map<string, Json>)
    requires "name" in fields && fields["name"] == JStr("Su") && "price" in fields && fields["price"].JNum?
    requires "isActive" in fields && fields["isActive"] == JNull
    ensures CreateProduct(Some(JObj(fields))).Accepted?
    ensures !CreateProduct(Some(JObj(fields))).product.isActive
  {
  }

  // ---------------------------------------------------------------------
  // The client reading the listing

  /** How the client's `getProducts` sees one normalized product. */
  function ClientView(n: NormalizedProduct): ProductDto {
    ProductDto(
      id := JsString(n.id),
      name := if Nullish(n.name) then JStr(UnnamedProduct) else n.name.value,
      price := n.price,
      image := Some(n.image),
      category := n.category,
      isCampaign := false,
      isDiscounted := false)
  }

  /** The client maps an encoded normalized product to exactly its client view:
      price, category and image pass through unchanged. */
  lemma MapProductOfEncoded(n: NormalizedProduct)
    requires n.id != JNull && n.image != JNull
    ensures MapProduct(Encode(n)) == ClientView(n)
  {
    var e := Encode(n);
    assert Get(e, "id") == Some(n.id);
    assert !Nullish(Get(e, "id"));
    assert Get(e, "price") == Some(JNum(n.price));
    assert Get(e, "image") == Some(n.image);
    assert Get(e, "category") == Some(JArr(n.category));
    assert Get(e, "isCampaign").None? && Get(e, "isDiscounted").None?;
    assert Get(e, "name") == n.name;
    assert ToNumber(Some(JNum(n.price))) == Some(n.price);
    var m := MapProduct(e);
    assert m.id == JsString(n.id);
    assert m.price == n.price;
    assert m.name == ClientView(n).name;
    assert m.image == Some(n.image);
    assert m.category == n.category;
  }

  /** The client never throws on the backend's listing, and keeps exactly
      the listed products whose id renders as a non-empty string. */
  lemma ClientReadsListing(docs: seq<StoredDoc>, nowIso: string)
    ensures var active := Filter(docs, MatchesActive);
            GetProducts(ListResponse(docs, nowIso))
            == Returned(Filter(seq(|active|, i requires 0 <= i < |active| => ClientView(NormalizeProduct(active[i], nowIso))), HasId))
  {
    var active := Filter(docs, MatchesActive);
    var response := ListResponse(docs, nowIso);
    var raw := RawRecords(response);
    assert raw == response.fields["data"].items;
    forall i | 0 <= i < |raw|
      ensures raw[i] != JNull && MapAll(raw)[i] == ClientView(NormalizeProduct(active[i], nowIso))
    {
      MapProductOfEncoded(NormalizeProduct(active[i], nowIso));
    }
    assert JNull !in raw;
    assert MapAll(raw) == seq(|active|, i requires 0 <= i < |active| => ClientView(NormalizeProduct(active[i], nowIso)));
  }
}
