/** The product filter run whenever the category select or the search box changes. */
module Catalog {
  import opened Text
  import opened Sequences

  datatype Product = Product(
    id: string,
    name: string,
    brand: string,
    category: string,
    description: string,
    image: string)

  /** Category test; `selectedCategory` is the select's value, already lower-cased. */
  predicate MatchesCategory(p: Product, selectedCategory: string) {
    selectedCategory == [] || Lower(p.category) == selectedCategory
  }

  /** Search test; `searchQuery` is the search box's value, already lower-cased. */
  predicate MatchesSearch(p: Product, searchQuery: string) {
    searchQuery == []
    || Includes(Lower(p.name), searchQuery)
    || Includes(Lower(p.description), searchQuery)
  }

  /** The callback handed to `products.filter`. */
  predicate Keep(p: Product, selectedCategory: string, searchQuery: string) {
    MatchesCategory(p, selectedCategory) && MatchesSearch(p, searchQuery)
  }

  /**
   * `products.filter(Keep)`: the products that pass both tests, in catalog order,
   * and no others.
   */
  function FilterProducts(products: seq<Product>, selectedCategory: string, searchQuery: string)
    : (r: seq<Product>)
    ensures IsSubsequence(r, products)
    ensures forall p :: p in r <==> p in products && Keep(p, selectedCategory, searchQuery)
    ensures forall p :: multiset(r)[p]
                       == if Keep(p, selectedCategory, searchQuery) then multiset(products)[p] else 0
  {
    if products == [] then []
    else
      var rest := FilterProducts(products[1..], selectedCategory, searchQuery);
      assert forall p :: p in products <==> p == products[0] || p in products[1..];
      assert products == [products[0]] + products[1..];
      if Keep(products[0], selectedCategory, searchQuery) then [products[0]] + rest else rest
  }

  /**
   * The list `filterAndDisplayProducts` displays for the raw values of the category
   * select and the search box; both are lower-cased first.
   */
  function VisibleProducts(products: seq<Product>, categoryValue: string, searchValue: string)
    : seq<Product>
  {
    FilterProducts(products, Lower(categoryValue), Lower(searchValue))
  }

  /** Kept products pass the category test and the search test, stated on the raw values. */
  lemma VisibleProductsMatch(products: seq<Product>, categoryValue: string, searchValue: string, p: Product)
    requires p in VisibleProducts(products, categoryValue, searchValue)
    ensures p in products
    ensures categoryValue == [] || Lower(p.category) == Lower(categoryValue)
    ensures searchValue == []
            || (exists i :: OccursAt(Lower(searchValue), Lower(p.name), i))
            || (exists i :: OccursAt(Lower(searchValue), Lower(p.description), i))
  {
    LowerEmpty(categoryValue);
    LowerEmpty(searchValue);
    IncludesIffOccurs(Lower(p.name), Lower(searchValue));
    IncludesIffOccurs(Lower(p.description), Lower(searchValue));
  }

  /** With no category and no query nothing is filtered out. */
  lemma {:induction false} UnfilteredIsWholeCatalog(products: seq<Product>)
    ensures FilterProducts(products, "", "") == products
  {
    if products != [] {
      UnfilteredIsWholeCatalog(products[1..]);
      assert [products[0]] + products[1..] == products;
    }
  }

  lemma VisibleUnfiltered(products: seq<Product>)
    ensures VisibleProducts(products, "", "") == products
  {
    UnfilteredIsWholeCatalog(products);
  }

  /** Filtering a second time with the same values changes nothing. */
  lemma {:induction false} FilterIdempotent(products: seq<Product>, selectedCategory: string, searchQuery: string)
    ensures var once := FilterProducts(products, selectedCategory, searchQuery);
            FilterProducts(once, selectedCategory, searchQuery) == once
  {
    if products != [] {
      FilterIdempotent(products[1..], selectedCategory, searchQuery);
      var rest := FilterProducts(products[1..], selectedCategory, searchQuery);
      if Keep(products[0], selectedCategory, searchQuery) {
        assert ([products[0]] + rest)[1..] == rest;
      }
    }
  }

  /** The raw values are compared case-insensitively: lower-casing them first gives the same list. */
  lemma VisibleCaseInsensitive(products: seq<Product>, categoryValue: string, searchValue: string)
    ensures VisibleProducts(products, categoryValue, searchValue)
         == VisibleProducts(products, Lower(categoryValue), Lower(searchValue))
  {
    LowerIdempotent(categoryValue);
    LowerIdempotent(searchValue);
  }
}
