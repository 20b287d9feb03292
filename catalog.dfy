/**
 * The storefront's product listing (App.tsx): the catalog narrowed by the
 * search text, the selected categories and the price range, then ordered by
 * the chosen sort key; and the category toggle that the sidebar triggers.
 */
module Catalog {
  import opened Types
  import opened Sequences
  import opened Text

  /** What the listing currently filters and sorts by. */
  datatype Filters = Filters(
    searchTerm: string,
    selectedCategories: seq<string>,
    lo: int,                   // whole currency units
    hi: int,                   // whole currency units
    sortBy: string
  )

  /** The listing's state when the storefront opens. */
  const InitialFilters := Filters("", [], 0, 2000, "relevance")

  /** The orders the listing knows; every other sort key leaves the catalog order. */
  datatype SortOrder = Relevance | PriceAsc | PriceDesc | RatingDesc

  function SortOrderOf(key: string): (o: SortOrder)
    ensures o == PriceAsc <==> key == "price-asc"
    ensures o == PriceDesc <==> key == "price-desc"
    ensures o == RatingDesc <==> key == "rating-desc"
  {
    if key == "price-asc" then PriceAsc
    else if key == "price-desc" then PriceDesc
    else if key == "rating-desc" then RatingDesc
    else Relevance
  }

  /** Sort ranks: the comparators `a.price - b.price`, `b.price - a.price` and `b.rating - a.rating`. */
  function PriceRank(p: Product): int { p.price }
  function PriceDescRank(p: Product): int { -p.price }
  function RatingDescRank(p: Product): int { -p.rating }

  /** The product name contains the search text, ignoring case. */
  predicate MatchesSearch(term: string, p: Product)
  {
    Includes(Lower(p.name), Lower(term))
  }

  function SearchMatcher(term: string): Product -> bool
  {
    (p: Product) => MatchesSearch(term, p)
  }

  function CategoryMatcher(categories: seq<string>): Product -> bool
  {
    (p: Product) => p.category in categories
  }

  /** The price, in cents, lies within the range given in whole units. */
  predicate InRange(p: Product, lo: int, hi: int)
  {
    lo * 100 <= p.price <= hi * 100
  }

  function RangeMatcher(lo: int, hi: int): Product -> bool
  {
    (p: Product) => InRange(p, lo, hi)
  }

  function SearchStep(products: seq<Product>, term: string): seq<Product>
  {
    if term != "" then Keep(products, SearchMatcher(term)) else products
  }

  function CategoryStep(products: seq<Product>, categories: seq<string>): seq<Product>
  {
    if |categories| > 0 then Keep(products, CategoryMatcher(categories)) else products
  }

  /** The products that pass all three filters, in catalog order. */
  function Filtered(products: seq<Product>, f: Filters): seq<Product>
  {
    Keep(CategoryStep(SearchStep(products, f.searchTerm), f.selectedCategories), RangeMatcher(f.lo, f.hi))
  }

  function Arrange(s: seq<Product>, order: SortOrder): seq<Product>
  {
    match order
    case Relevance => s
    case PriceAsc => SortByRank(s, PriceRank)
    case PriceDesc => SortByRank(s, PriceDescRank)
    case RatingDesc => SortByRank(s, RatingDescRank)
  }

  /** The list of products the grid shows. */
  function Listing(products: seq<Product>, f: Filters): seq<Product>
  {
    Arrange(Filtered(products, f), SortOrderOf(f.sortBy))
  }

  /** What decides whether a product is listed. */
  predicate Selected(p: Product, f: Filters)
  {
    MatchesSearch(f.searchTerm, p)
    && (|f.selectedCategories| == 0 || p.category in f.selectedCategories)
    && InRange(p, f.lo, f.hi)
  }

  /**
   * The memoised listing, computed as the component does: a copy of the
   * catalog narrowed step by step, then sorted in place when a known sort
   * key is chosen.
   */
  method FilteredProducts(products: seq<Product>, f: Filters) returns (result: seq<Product>)
    ensures result == Listing(products, f)
  {
    result := products;
    if f.searchTerm != "" {
      result := Keep(result, SearchMatcher(f.searchTerm));
    }
    if |f.selectedCategories| > 0 {
      result := Keep(result, CategoryMatcher(f.selectedCategories));
    }
    result := Keep(result, RangeMatcher(f.lo, f.hi));
    var order := SortOrderOf(f.sortBy);
    if order != Relevance {
      var current := result;
      var a := new Product[|current|](i requires 0 <= i < |current| => current[i]);
      assert a[..] == current;
      match order {
        case PriceAsc => SortInPlace(a, PriceRank);
        case PriceDesc => SortInPlace(a, PriceDescRank);
        case RatingDesc => SortInPlace(a, RatingDescRank);
      }
      result := a[..];
    }
  }

  /** The empty search text matches every product, so skipping the search filter for it changes nothing. */
  lemma EmptySearchMatchesAll(products: seq<Product>)
    ensures Keep(products, SearchMatcher("")) == products
  {
    forall i | 0 <= i < |products|
      ensures SearchMatcher("")(products[i])
    {
      assert Lower("") <= Lower(products[i].name);
    }
    KeepAll(products, SearchMatcher(""));
  }

  /** A product is listed exactly when it is in the catalog and passes every filter. */
  lemma ListingMembers(products: seq<Product>, f: Filters, p: Product)
    ensures p in Listing(products, f) <==> p in products && Selected(p, f)
  {
    var afterSearch := SearchStep(products, f.searchTerm);
    var afterCategory := CategoryStep(afterSearch, f.selectedCategories);
    var filtered := Filtered(products, f);
    if f.searchTerm != "" {
      KeepMembers(products, SearchMatcher(f.searchTerm), p);
    } else {
      assert Lower(f.searchTerm) <= Lower(p.name);
    }
    if |f.selectedCategories| > 0 {
      KeepMembers(afterSearch, CategoryMatcher(f.selectedCategories), p);
    }
    KeepMembers(afterCategory, RangeMatcher(f.lo, f.hi), p);
    assert multiset(Listing(products, f)) == multiset(filtered);
    assert p in Listing(products, f) <==> p in multiset(filtered);
  }

  /** The filters keep the catalog order: the filtered list is a subsequence of the catalog. */
  lemma FilteredKeepsOrder(products: seq<Product>, f: Filters)
    ensures IsSubsequence(Filtered(products, f), products)
  {
    var afterSearch := SearchStep(products, f.searchTerm);
    var afterCategory := CategoryStep(afterSearch, f.selectedCategories);
    if f.searchTerm != "" {
      KeepIsSubsequence(products, SearchMatcher(f.searchTerm));
    } else {
      SubsequenceReflexive(products);
    }
    if |f.selectedCategories| > 0 {
      KeepIsSubsequence(afterSearch, CategoryMatcher(f.selectedCategories));
      SubsequenceTransitive(afterCategory, afterSearch, products);
    }
    KeepIsSubsequence(afterCategory, RangeMatcher(f.lo, f.hi));
    SubsequenceTransitive(Filtered(products, f), afterCategory, products);
  }

  /** Sorting only reorders: the listing holds the filtered products, each as often. */
  lemma ListingIsPermutation(products: seq<Product>, f: Filters)
    ensures multiset(Listing(products, f)) == multiset(Filtered(products, f))
  {
  }

  /** Each sort key orders the listing as its comparator says; "relevance" (or an unknown key) keeps catalog order. */
  lemma ListingOrder(products: seq<Product>, f: Filters)
    ensures SortOrderOf(f.sortBy) == Relevance ==> Listing(products, f) == Filtered(products, f)
    ensures f.sortBy == "price-asc" ==> SortedBy(Listing(products, f), PriceRank)
    ensures f.sortBy == "price-desc" ==> SortedBy(Listing(products, f), PriceDescRank)
    ensures f.sortBy == "rating-desc" ==> SortedBy(Listing(products, f), RatingDescRank)
  {
    var s := Filtered(products, f);
    match SortOrderOf(f.sortBy)
    case Relevance =>
    case PriceAsc => SortByRankSorted(s, PriceRank);
    case PriceDesc => SortByRankSorted(s, PriceDescRank);
    case RatingDesc => SortByRankSorted(s, RatingDescRank);
  }

  /** The sort is stable: products that tie on the sort key keep their catalog order. */
  lemma ListingStable(products: seq<Product>, f: Filters, k: int)
    ensures f.sortBy == "price-asc" ==> WithRank(Listing(products, f), PriceRank, k) == WithRank(Filtered(products, f), PriceRank, k)
    ensures f.sortBy == "price-desc" ==> WithRank(Listing(products, f), PriceDescRank, k) == WithRank(Filtered(products, f), PriceDescRank, k)
    ensures f.sortBy == "rating-desc" ==> WithRank(Listing(products, f), RatingDescRank, k) == WithRank(Filtered(products, f), RatingDescRank, k)
  {
    var s := Filtered(products, f);
    match SortOrderOf(f.sortBy)
    case Relevance =>
    case PriceAsc => SortByRankStable(s, PriceRank, k);
    case PriceDesc => SortByRankStable(s, PriceDescRank, k);
    case RatingDesc => SortByRankStable(s, RatingDescRank, k);
  }

  /** Search ignores case: two search texts that lower-case alike list the same products. */
  lemma SearchIgnoresCase(products: seq<Product>, f: Filters, term: string)
    requires Lower(term) == Lower(f.searchTerm)
    ensures Listing(products, f.(searchTerm := term)) == Listing(products, f)
  {
    assert |term| == |f.searchTerm|;
    KeepExtensional(products, SearchMatcher(term), SearchMatcher(f.searchTerm));
  }

  /** Searching "SHIRT" lists exactly what searching "shirt" lists. */
  lemma SearchCaseExample(products: seq<Product>, f: Filters)
    ensures Listing(products, f.(searchTerm := "SHIRT")) == Listing(products, f.(searchTerm := "shirt"))
  {
    assert Lower("SHIRT") == Lower("shirt") == "shirt";
    SearchIgnoresCase(products, f.(searchTerm := "shirt"), "SHIRT");
  }

  /** On opening, the listing is the whole catalog when every price lies between 0 and 2000. */
  lemma InitialListing(products: seq<Product>)
    requires forall i :: 0 <= i < |products| ==> 0 <= products[i].price <= 200000
    ensures Listing(products, InitialFilters) == products
  {
    KeepAll(products, RangeMatcher(0, 2000));
  }

  function Other(category: string): string -> bool
  {
    (c: string) => c != category
  }

  /**
   * The sidebar's category toggle: a selected category is removed (every
   * occurrence), any other one is appended.
   */
  function ToggleCategory(selected: seq<string>, category: string): (r: seq<string>)
    ensures category in r <==> category !in selected
    ensures forall c :: c != category ==> (c in r <==> c in selected)
  {
    var others := Keep(selected, Other(category));
    forall c
      ensures c in others <==> c in selected && c != category
    {
      KeepMembers(selected, Other(category), c);
    }
    if category in selected then others else selected + [category]
  }

  /** Toggling keeps the selection free of duplicates. */
  lemma ToggleNoDuplicates(selected: seq<string>, category: string)
    requires NoDuplicates(selected)
    ensures NoDuplicates(ToggleCategory(selected, category))
  {
    if category in selected {
      KeepNoDuplicates(selected, Other(category));
    }
  }

  /** Toggling a category on and then off again restores the previous selection exactly. */
  lemma ToggleOnOff(selected: seq<string>, category: string)
    requires category !in selected
    ensures ToggleCategory(ToggleCategory(selected, category), category) == selected
  {
    var keep := Other(category);
    KeepConcat(selected, [category], keep);
    KeepAll(selected, keep);
    assert Keep([category], keep) == [];
  }
}
