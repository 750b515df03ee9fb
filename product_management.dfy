/** The admin product list: search over the name and the category label, and the stock badge. */
module ProductManagement {
  import opened Domain
  import Text
  import Lists

  /** A product matches when its lower-cased name or category label contains the lower-cased term. */
  predicate MatchesAdminSearch(p: Product, term: string) {
    Text.Contains(Text.Lower(p.name), Text.Lower(term)) ||
    Text.Contains(Text.Lower(CategoryLabel(p.category)), Text.Lower(term))
  }

  function AdminSearchKeep(term: string): Product -> bool {
    p => MatchesAdminSearch(p, term)
  }

  /** `filteredProducts`: the matching products, in catalogue order. */
  function AdminSearch(products: seq<Product>, term: string): (r: seq<Product>)
    ensures forall i :: 0 <= i < |r| ==> r[i] in products && MatchesAdminSearch(r[i], term)
    ensures forall i :: 0 <= i < |products| && MatchesAdminSearch(products[i], term) ==> products[i] in r
  {
    Lists.Filter(products, AdminSearchKeep(term))
  }

  /** An empty search term keeps every product, in the original order. */
  lemma EmptySearchKeepsAll(products: seq<Product>)
    ensures AdminSearch(products, "") == products
  {
    assert Text.Lower("") == "";
    forall i | 0 <= i < |products|
      ensures MatchesAdminSearch(products[i], "")
    {
      Text.ContainsEmpty(Text.Lower(products[i].name));
    }
    Lists.FilterKeepsAll(products, AdminSearchKeep(""));
  }

  /** The category label is searchable: every headpiece is found by "Necklace", whatever its name. */
  lemma LabelIsSearchable(products: seq<Product>, p: Product)
    requires p in products && p.category == Headpiece
    ensures p in AdminSearch(products, "Necklace")
  {
    var shown := Text.Lower(CategoryLabel(p.category));
    var term := Text.Lower("Necklace");
    assert shown == "necklaces";
    assert term == "necklace";
    assert Text.IsPrefix(term, shown);
    var k :| 0 <= k < |products| && products[k] == p;
  }
}
