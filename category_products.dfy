/** The category screen's product list: the products one of whose category
    tags equals the screen's category id or its category name. */
module CategoryProducts {
  import opened Js
  import opened Seqs
  import opened ProductsApi

  /** `new Set([categoryId, categoryName].filter(Boolean))` */
  function CategoryTargets(categoryId: string, categoryName: string): (r: set<string>)
    ensures "" !in r
    ensures forall t :: t in r <==> t != "" && (t == categoryId || t == categoryName)
  {
    (if categoryId != "" then {categoryId} else {}) + (if categoryName != "" then {categoryName} else {})
  }

  /** `product.category.some(c => targets.has(c))`: only string tags can equal a target. */
  predicate InCategory(targets: set<string>, product: ProductDto) {
    exists i :: 0 <= i < |product.category| && product.category[i].JStr? && product.category[i].s in targets
  }

  /** `filteredProducts` */
  function FilteredProducts(categoryId: string, categoryName: string, products: seq<ProductDto>): (r: seq<ProductDto>)
    ensures IsSubsequence(r, products)
    ensures forall k :: 0 <= k < |r| ==> InCategory(CategoryTargets(categoryId, categoryName), r[k])
    ensures forall k :: 0 <= k < |products| && InCategory(CategoryTargets(categoryId, categoryName), products[k]) ==>
      products[k] in r
  {
    var targets := CategoryTargets(categoryId, categoryName);
    FilterIsSubsequence(products, p => InCategory(targets, p));
    var r := Filter(products, p => InCategory(targets, p));
    assert forall k :: 0 <= k < |r| ==> InCategory(targets, r[k]);
    r
  }

  /** Filtering the screen's list for the same category again keeps all of it. */
  lemma FilteredProductsIdempotent(categoryId: string, categoryName: string, products: seq<ProductDto>)
    ensures var once := FilteredProducts(categoryId, categoryName, products);
            FilteredProducts(categoryId, categoryName, once) == once
  {
    var targets := CategoryTargets(categoryId, categoryName);
    FilterIdempotent(products, p => InCategory(targets, p));
  }

  /** A product without category tags is never listed. */
  lemma UntaggedNeverListed(categoryId: string, categoryName: string, products: seq<ProductDto>, p: ProductDto)
    requires p.category == []
    ensures p !in FilteredProducts(categoryId, categoryName, products)
  {
  }

  /** A screen with neither an id nor a name lists nothing: the empty
      string is never a target, even for a product tagged with it. */
  lemma NoTargetsListsNothing(products: seq<ProductDto>)
    ensures FilteredProducts("", "", products) == []
  {
  }

  /** Listing distributes over concatenation of product lists. */
  lemma FilteredProductsAppend(categoryId: string, categoryName: string, a: seq<ProductDto>, b: seq<ProductDto>)
    ensures FilteredProducts(categoryId, categoryName, a + b)
            == FilteredProducts(categoryId, categoryName, a) + FilteredProducts(categoryId, categoryName, b)
  {
    var targets := CategoryTargets(categoryId, categoryName);
    FilterAppend(a, b, p => InCategory(targets, p));
  }
}
