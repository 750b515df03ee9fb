/**
 * The catalogue page: free-text search, category and material filters, and
 * the three sort orders, applied in that sequence to a copy of the catalogue.
 */
module ProductsPage {
  import opened Domain
  import Text
  import Lists
  import Sorting

  /** A filter drop-down: the `'all'` entry or one value. */
  datatype Choice<T> = All | Only(value: T)

  /** The search compares lower-cased name and description with the lower-cased term. */
  predicate MatchesSearch(p: Product, term: string) {
    Text.Contains(Text.Lower(p.name), Text.Lower(term)) ||
    Text.Contains(Text.Lower(p.description), Text.Lower(term))
  }

  predicate InCategory(p: Product, category: Choice<ProductCategory>) {
    category.All? || p.category == category.value
  }

  predicate InMaterial(p: Product, material: Choice<Material>) {
    material.All? || p.material == material.value
  }

  /** Every active condition at once; an empty search term is inactive. */
  predicate Selected(p: Product, term: string, category: Choice<ProductCategory>, material: Choice<Material>) {
    (term == "" || MatchesSearch(p, term)) && InCategory(p, category) && InMaterial(p, material)
  }

  function SearchKeep(term: string): Product -> bool {
    p => term == "" || MatchesSearch(p, term)
  }

  function CategoryKeep(category: Choice<ProductCategory>): Product -> bool {
    p => InCategory(p, category)
  }

  function MaterialKeep(material: Choice<Material>): Product -> bool {
    p => InMaterial(p, material)
  }

  function SelectedKeep(term: string, category: Choice<ProductCategory>, material: Choice<Material>): Product -> bool {
    p => Selected(p, term, category, material)
  }

  /** Each step is skipped when its control is empty or `'all'`. */
  function BySearch(products: seq<Product>, term: string): seq<Product> {
    if term == "" then products else Lists.Filter(products, SearchKeep(term))
  }

  function ByCategory(products: seq<Product>, category: Choice<ProductCategory>): seq<Product> {
    if category.All? then products else Lists.Filter(products, CategoryKeep(category))
  }

  function ByMaterial(products: seq<Product>, material: Choice<Material>): seq<Product> {
    if material.All? then products else Lists.Filter(products, MaterialKeep(material))
  }

  /**
   * The comparator chosen by the sort drop-down: `price-low`, `price-high`,
   * and for any other value the name order.
   */
  function Comparator(sortBy: string): (Product, Product) -> bool {
    if sortBy == "price-low" then (a: Product, b: Product) => a.price <= b.price
    else if sortBy == "price-high" then (a: Product, b: Product) => b.price <= a.price
    else (a: Product, b: Product) => Text.LexLe(a.name, b.name)
  }

  lemma ComparatorIsTotalPreorder(sortBy: string)
    ensures Sorting.IsTotalPreorder(Comparator(sortBy))
  {
    if sortBy != "price-low" && sortBy != "price-high" {
      forall a: Product, b: Product
        ensures Text.LexLe(a.name, b.name) || Text.LexLe(b.name, a.name)
      {
        Text.LexLeTotal(a.name, b.name);
      }
      forall a: Product, b: Product, c: Product | Text.LexLe(a.name, b.name) && Text.LexLe(b.name, c.name)
        ensures Text.LexLe(a.name, c.name)
      {
        Text.LexLeTransitive(a.name, b.name, c.name);
      }
    }
  }

  /** A skipped step is the same as filtering by its condition, which then holds everywhere. */
  lemma StepsAreFilters(products: seq<Product>, term: string, category: Choice<ProductCategory>, material: Choice<Material>)
    ensures BySearch(products, term) == Lists.Filter(products, SearchKeep(term))
    ensures ByCategory(products, category) == Lists.Filter(products, CategoryKeep(category))
    ensures ByMaterial(products, material) == Lists.Filter(products, MaterialKeep(material))
  {
    if term == "" {
      Lists.FilterKeepsAll(products, SearchKeep(term));
    }
    if category.All? {
      Lists.FilterKeepsAll(products, CategoryKeep(category));
    }
    if material.All? {
      Lists.FilterKeepsAll(products, MaterialKeep(material));
    }
  }

  /** A blank search term and "all" keep the whole catalogue, in order. */
  lemma SkippedStepsKeepAll(products: seq<Product>, term: string, category: Choice<ProductCategory>, material: Choice<Material>)
    ensures term == "" ==> Lists.Filter(products, SearchKeep(term)) == products
    ensures category.All? ==> Lists.Filter(products, CategoryKeep(category)) == products
    ensures material.All? ==> Lists.Filter(products, MaterialKeep(material)) == products
  {
    if term == "" {
      Lists.FilterKeepsAll(products, SearchKeep(term));
    }
    if category.All? {
      Lists.FilterKeepsAll(products, CategoryKeep(category));
    }
    if material.All? {
      Lists.FilterKeepsAll(products, MaterialKeep(material));
    }
  }

  /** Filtering in three steps is filtering once by every active condition. */
  lemma FilterStepsCombine(products: seq<Product>, term: string, category: Choice<ProductCategory>, material: Choice<Material>)
    ensures ByMaterial(ByCategory(BySearch(products, term), category), material) ==
            Lists.Filter(products, SelectedKeep(term, category, material))
  {
    var s, c, m := SearchKeep(term), CategoryKeep(category), MaterialKeep(material);
    var afterSearch := BySearch(products, term);
    StepsAreFilters(products, term, category, material);
    StepsAreFilters(afterSearch, term, category, material);
    var afterCategory := ByCategory(afterSearch, category);
    StepsAreFilters(afterCategory, term, category, material);
    Lists.FilterFilter(products, s, c);
    Lists.FilterFilter(products, Lists.Both(s, c), m);
    Lists.FilterAgree(products, Lists.Both(Lists.Both(s, c), m), SelectedKeep(term, category, material));
  }

  /**
   * `filteredProducts`: exactly the products meeting every active condition,
   * each as often as in the catalogue, sorted by the chosen comparator.
   */
  function FilteredProducts(products: seq<Product>, term: string, category: Choice<ProductCategory>,
                            material: Choice<Material>, sortBy: string): (r: seq<Product>)
    ensures multiset(r) == multiset(Lists.Filter(products, SelectedKeep(term, category, material)))
  {
    FilterStepsCombine(products, term, category, material);
    Sorting.Sort(ByMaterial(ByCategory(BySearch(products, term), category), material), Comparator(sortBy))
  }

  /** Every product shown is in the catalogue and meets every active condition, and each such product is shown. */
  lemma FilteredProductsMembers(products: seq<Product>, term: string, category: Choice<ProductCategory>,
                                material: Choice<Material>, sortBy: string, p: Product)
    ensures p in FilteredProducts(products, term, category, material, sortBy) <==>
            p in products && Selected(p, term, category, material)
  {
    var r := FilteredProducts(products, term, category, material, sortBy);
    var kept := Lists.Filter(products, SelectedKeep(term, category, material));
    assert p in r <==> p in multiset(r);
    assert p in kept <==> p in multiset(kept);
    if p in kept {
      var k :| 0 <= k < |kept| && kept[k] == p;
    }
    if p in products && Selected(p, term, category, material) {
      var k :| 0 <= k < |products| && products[k] == p;
    }
  }

  /** The order on screen is the order the sort drop-down names. */
  lemma FilteredProductsOrder(products: seq<Product>, term: string, category: Choice<ProductCategory>,
                              material: Choice<Material>, sortBy: string)
    ensures var r := FilteredProducts(products, term, category, material, sortBy);
      && (sortBy == "price-low" ==> forall i, j :: 0 <= i < j < |r| ==> r[i].price <= r[j].price)
      && (sortBy == "price-high" ==> forall i, j :: 0 <= i < j < |r| ==> r[i].price >= r[j].price)
      && (sortBy != "price-low" && sortBy != "price-high" ==>
            forall i, j :: 0 <= i < j < |r| ==> Text.LexLe(r[i].name, r[j].name))
  {
    ComparatorIsTotalPreorder(sortBy);
    Sorting.SortSorted(ByMaterial(ByCategory(BySearch(products, term), category), material), Comparator(sortBy));
  }
}
