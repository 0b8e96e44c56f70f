/** The catalogue side of the home page: the "campaign" pseudo-category, the
    fallbacks used when loading fails, the products shown for the selected
    category and the swipe rule that moves the selection. */
module Catalog {
  import opened Js
  import opened Seqs
  import opened ProductsApi

  /** A category as `getCategories` returns it. */
  datatype CategoryDto = CategoryDto(id: string, name: string, isActive: bool, createdAt: string)

  const CampaignId := "campaign"
  const CampaignName := "Fırsatlar"

  const FallbackProducts: seq<ProductDto> := [
    ProductDto(
      id := "sample-su",
      name := JStr("Doğal Kaynak Suyu 5L"),
      price := 45.90,
      image := Some(JStr("https://cdn.example.com/ayran.png")),
      category := [JStr("İçecek"), JStr("Temel Gıda")],
      isCampaign := true,
      isDiscounted := false)]

  const FallbackCategories: seq<CategoryDto> := [
    CategoryDto("İçecek", "İçecek", true, ""),
    CategoryDto("Temel Gıda", "Temel Gıda", true, "")]

  /** Neither the campaign id nor the campaign name. */
  predicate NotCampaign(c: CategoryDto) {
    c.id != CampaignId && c.name != CampaignName
  }

  /** The campaign pseudo-category, created now. */
  function CampaignCategory(nowIso: string): (r: CategoryDto)
    ensures !NotCampaign(r) && r.isActive && r.createdAt == nowIso
    ensures CampaignHeaded([r])
  {
    CategoryDto(CampaignId, CampaignName, true, nowIso)
  }

  /** The list starts with the campaign category and has no other entry
      carrying its id or its name. */
  predicate CampaignHeaded(list: seq<CategoryDto>) {
    && list != []
    && list[0].id == CampaignId && list[0].name == CampaignName && list[0].isActive
    && forall i :: 1 <= i < |list| ==> NotCampaign(list[i])
  }

  /** `ensureCampaignCategory(list)`, with `nowIso` the rendering of the current time. */
  function EnsureCampaignCategory(list: seq<CategoryDto>, nowIso: string): (r: seq<CategoryDto>)
    ensures CampaignHeaded(r)
    ensures r[0].createdAt == nowIso
    ensures r[1..] == Filter(list, NotCampaign)
  {
    var filtered := Filter(list, NotCampaign);
    var r := [CampaignCategory(nowIso)] + filtered;
    assert r[1..] == filtered;
    r
  }

  /** Ensuring the campaign category twice is the same as once (with the later time). */
  lemma EnsureCampaignCategoryIdempotent(list: seq<CategoryDto>, t1: string, t2: string)
    ensures EnsureCampaignCategory(EnsureCampaignCategory(list, t1), t2) == EnsureCampaignCategory(list, t2)
  {
    var once := EnsureCampaignCategory(list, t1);
    assert once == [CampaignCategory(t1)] + Filter(list, NotCampaign);
    FilterAppend([CampaignCategory(t1)], Filter(list, NotCampaign), NotCampaign);
    FilterIdempotent(list, NotCampaign);
  }

  /** The entries after the campaign category are an order-preserving
      sub-list of the input, and every non-colliding entry is kept. */
  lemma EnsureCampaignCategoryKeepsOthers(list: seq<CategoryDto>, nowIso: string)
    ensures IsSubsequence(EnsureCampaignCategory(list, nowIso)[1..], list)
    ensures forall i :: 0 <= i < |list| && NotCampaign(list[i]) ==> list[i] in EnsureCampaignCategory(list, nowIso)[1..]
  {
    FilterIsSubsequence(list, NotCampaign);
  }

  /** The product list after loading: the products fetched, or the fallback
      when there are none or the fetch throws. */
  function LoadedProducts(fetched: Outcome<seq<ProductDto>>): (r: seq<ProductDto>)
    ensures r != []
    ensures fetched.Returned? && fetched.value != [] ==> r == fetched.value
    ensures fetched.Threw? || fetched.value == [] ==> r == FallbackProducts
  {
    if fetched.Returned? && |fetched.value| > 0 then fetched.value else FallbackProducts
  }

  predicate IsActive(c: CategoryDto) {
    c.isActive
  }

  /** The category list after loading. `fetched` is what `getCategories`
      resolved to (`None`: a null or undefined `data`), or that it threw. */
  function LoadedCategories(fetched: Outcome<Option<seq<CategoryDto>>>, nowIso: string): (r: seq<CategoryDto>)
    ensures CampaignHeaded(r)
    ensures fetched.Threw? ==> r == EnsureCampaignCategory(FallbackCategories, nowIso)
    ensures fetched.Returned? ==>
      var active := Filter(if fetched.value.Some? then fetched.value.value else [], IsActive);
      r == EnsureCampaignCategory(if active != [] then active else FallbackCategories, nowIso)
  {
    match fetched
    case Threw => EnsureCampaignCategory(FallbackCategories, nowIso)
    case Returned(data) =>
      var active := Filter(if data.Some? then data.value else [], IsActive);
      EnsureCampaignCategory(if |active| > 0 then active else FallbackCategories, nowIso)
  }

  /** Every category listed after the campaign one is active: a fetched
      active one, or a fallback. */
  lemma {:induction false} LoadedCategoriesAreActive(fetched: Outcome<Option<seq<CategoryDto>>>, nowIso: string)
    ensures var r := LoadedCategories(fetched, nowIso);
            forall i :: 0 <= i < |r| ==> r[i].isActive
  {
    var source := if fetched.Returned? && fetched.value.Some? then fetched.value.value else [];
    var active := Filter(source, IsActive);
    var list := if fetched.Returned? && active != [] then active else FallbackCategories;
    assert forall i :: 0 <= i < |list| ==> IsActive(list[i]);
    FilterPreserves(list, NotCampaign, IsActive);
    var r := LoadedCategories(fetched, nowIso);
    assert r == EnsureCampaignCategory(list, nowIso);
    assert r[1..] == Filter(list, NotCampaign);
    forall i | 0 <= i < |r|
      ensures r[i].isActive
    {
      if i > 0 {
        assert r[i] == r[1..][i - 1];
      }
    }
  }

  // ---------------------------------------------------------------------
  // Products of the selected category

  /** `categories.find(c => c.id === selectedCategoryId)` */
  function SelectedCategory(categories: seq<CategoryDto>, selected: Option<string>): (r: Option<CategoryDto>)
    ensures r.Some? ==> r.value in categories && selected == Some(r.value.id)
    ensures r.Some? ==> exists k :: 0 <= k < |categories| && categories[k] == r.value
                                    && forall j :: 0 <= j < k ==> selected != Some(categories[j].id)
    ensures r.None? ==> forall i :: 0 <= i < |categories| ==> selected != Some(categories[i].id)
  {
    Find(categories, (c: CategoryDto) => selected == Some(c.id))
  }

  predicate IsCampaignProduct(p: ProductDto) {
    p.isCampaign
  }

  /** A product's tags as strings: `[...category, ...categoryIds].map(String)`
      (no product in this model carries `categoryIds`). */
  function Tags(p: ProductDto): (r: seq<string>)
    ensures |r| == |p.category| && forall i :: 0 <= i < |r| ==> r[i] == JsString(p.category[i])
  {
    seq(|p.category|, i requires 0 <= i < |p.category| => JsString(p.category[i]))
  }

  /** A product belongs to the selection when one of its tags is the selected
      id or the name of the category with that id. */
  predicate MatchesSelection(p: ProductDto, selectedId: string, selected: Option<CategoryDto>) {
    selectedId in Tags(p) || (selected.Some? && selected.value.name in Tags(p))
  }

  /** A selection that is missing or empty (falsy). */
  predicate NoSelection(selected: Option<string>) {
    selected.None? || selected.value == ""
  }

  /** `selectedCategoryProducts` */
  function SelectedCategoryProducts(products: seq<ProductDto>, categories: seq<CategoryDto>, selected: Option<string>): (r: seq<ProductDto>)
    ensures IsSubsequence(r, products)
    ensures NoSelection(selected) ==> r == []
    ensures selected == Some(CampaignId) ==> r == Filter(products, IsCampaignProduct)
    ensures !NoSelection(selected) && selected != Some(CampaignId) ==>
      && (forall i :: 0 <= i < |products| && MatchesSelection(products[i], selected.value, SelectedCategory(categories, selected))
            ==> products[i] in r)
      && (forall k :: 0 <= k < |r| ==> MatchesSelection(r[k], selected.value, SelectedCategory(categories, selected)))
  {
    if NoSelection(selected) then []
    else if selected.value == CampaignId then
      FilterIsSubsequence(products, IsCampaignProduct);
      Filter(products, IsCampaignProduct)
    else
      var category := SelectedCategory(categories, selected);
      var matches := (p: ProductDto) => MatchesSelection(p, selected.value, category);
      FilterIsSubsequence(products, matches);
      Filter(products, matches)
  }

  /** The selection's products distribute over concatenation: each product
      is kept or dropped on its own, so repeated products keep every copy
      and the order is the catalogue's. */
  lemma SelectedCategoryProductsAppend(a: seq<ProductDto>, b: seq<ProductDto>, categories: seq<CategoryDto>, selected: Option<string>)
    ensures SelectedCategoryProducts(a + b, categories, selected)
            == SelectedCategoryProducts(a, categories, selected) + SelectedCategoryProducts(b, categories, selected)
  {
    if NoSelection(selected) {
    } else if selected.value == CampaignId {
      FilterAppend(a, b, IsCampaignProduct);
    } else {
      var category := SelectedCategory(categories, selected);
      FilterAppend(a, b, (p: ProductDto) => MatchesSelection(p, selected.value, category));
    }
  }

  /** A product tagged with the selected category's name is listed even when
      none of its tags is the id. */
  lemma ListedByName(products: seq<ProductDto>, categories: seq<CategoryDto>, i: nat, j: nat)
    requires i < |categories| && j < |products|
    requires categories[i].id != "" && categories[i].id != CampaignId
    requires forall k :: 0 <= k < i ==> categories[k].id != categories[i].id
    requires categories[i].name in Tags(products[j])
    ensures products[j] in SelectedCategoryProducts(products, categories, Some(categories[i].id))
  {
    var selected := Some(categories[i].id);
    assert FindIndex(categories, (c: CategoryDto) => selected == Some(c.id)) == i;
  }

  // ---------------------------------------------------------------------
  // Swipe

  /** The index the selection moves to after a horizontal swipe of `dx`, or
      `None` when it stays. A right swipe (positive `dx`) goes to the previous
      category, a left swipe to the next; an unknown selection counts as
      index -1, so a left swipe then selects the first category. */
  function SwipeTarget(categories: seq<CategoryDto>, selected: Option<string>, dx: real): (r: Option<nat>)
    ensures r.Some? ==> r.value < |categories|
    ensures -50.0 <= dx <= 50.0 ==> r.None?
    ensures var k := FindIndex(categories, (c: CategoryDto) => selected == Some(c.id));
            && (dx > 50.0 ==> (r.Some? <==> k > 0) && (r.Some? ==> r.value == k - 1))
            && (dx < -50.0 ==> (r.Some? <==> k < |categories| - 1) && (r.Some? ==> r.value == k + 1))
  {
    var abs := if dx < 0.0 then -dx else dx;
    var k := FindIndex(categories, (c: CategoryDto) => selected == Some(c.id));
    if abs <= 50.0 then None
    else if dx > 0.0 then (if k > 0 then Some(k - 1) else None)
    else if k < |categories| - 1 then Some(k + 1)
    else None
  }

  /** A left swipe with no known selection selects the first category. */
  lemma SwipeFromUnknownSelection(categories: seq<CategoryDto>, dx: real)
    requires |categories| >= 1 && dx < -50.0
    requires forall i :: 0 <= i < |categories| ==> categories[i].id != ""
    ensures SwipeTarget(categories, Some(""), dx) == Some(0)
  {
  }

  /** A right swipe then a left swipe returns to the same category, when ids are distinct. */
  lemma SwipeBackAndForth(categories: seq<CategoryDto>, k: nat, dx: real)
    requires 0 < k < |categories| && dx > 50.0
    requires forall i, j :: 0 <= i < j < |categories| ==> categories[i].id != categories[j].id
    ensures SwipeTarget(categories, Some(categories[k].id), dx) == Some(k - 1)
    ensures SwipeTarget(categories, Some(categories[k - 1].id), -dx) == Some(k)
  {
    var sel := Some(categories[k].id);
    assert FindIndex(categories, (c: CategoryDto) => sel == Some(c.id)) == k;
    var back := Some(categories[k - 1].id);
    assert FindIndex(categories, (c: CategoryDto) => back == Some(c.id)) == k - 1;
  }
}
