/** The marketplace's product list: a case-insensitive name search combined with a
    category choice, over the fixed catalogue of listings. */
module Marketplace {
  import opened Numbers
  import opened Seqs
  import opened Text

  /** A listing; `price`, `quantity` and `harvest` are display texts. */
  datatype Product = Product(
    id: nat, name: string, price: string, seller: string, location: string,
    rating: Decimal, reviews: nat, quantity: string, image: string,
    category: string, organic: bool, harvest: string)

  /** The category choice that places no restriction. */
  const AllCategories := "all"

  const TomatoImage := "https://images.pexels.com/photos/1327838/pexels-photo-1327838.jpeg?auto=compress&cs=tinysrgb&w=400"
  const PepperImage := "https://images.pexels.com/photos/1300972/pexels-photo-1300972.jpeg?auto=compress&cs=tinysrgb&w=400"
  const WheatImage := "https://images.pexels.com/photos/2252618/pexels-photo-2252618.jpeg?auto=compress&cs=tinysrgb&w=400"
  const CornImage := "https://images.pexels.com/photos/547263/pexels-photo-547263.jpeg?auto=compress&cs=tinysrgb&w=400"

  const Tomatoes := Product(1, "Fresh Organic Tomatoes", "$4.50/kg", "Green Valley Farm", "California, USA",
                            Decimal(48, 1), 156, "500 kg available", TomatoImage, "vegetables", true, "2 days ago")
  const Peppers := Product(2, "Premium Bell Peppers", "$6.20/kg", "Sunny Acres", "Texas, USA",
                           Decimal(47, 1), 89, "200 kg available", PepperImage, "vegetables", false, "1 day ago")
  const Wheat := Product(3, "Organic Wheat Grain", "$2.80/kg", "Prairie Gold Farm", "Kansas, USA",
                         Decimal(49, 1), 234, "2000 kg available", WheatImage, "grains", true, "1 week ago")
  const Corn := Product(4, "Fresh Sweet Corn", "$3.20/kg", "Midwest Harvest", "Iowa, USA",
                        Decimal(46, 1), 78, "800 kg available", CornImage, "vegetables", false, "3 days ago")

  /** The listings the page offers, in display order. */
  const Catalogue := [Tomatoes, Peppers, Wheat, Corn]

  /** The lowercased name contains the lowercased search term. */
  predicate MatchesSearch(p: Product, searchTerm: string) {
    Contains(ToLower(p.name), ToLower(searchTerm))
  }

  predicate MatchesCategory(p: Product, selectedCategory: string) {
    selectedCategory == AllCategories || p.category == selectedCategory
  }

  predicate Shown(p: Product, searchTerm: string, selectedCategory: string) {
    MatchesSearch(p, searchTerm) && MatchesCategory(p, selectedCategory)
  }

  /** The filter's callback for one search term and category choice. */
  function ShownUnder(searchTerm: string, selectedCategory: string): Product -> bool {
    p => Shown(p, searchTerm, selectedCategory)
  }

  /** `filteredProducts`. */
  function FilteredProducts(products: seq<Product>, searchTerm: string, selectedCategory: string): (r: seq<Product>)
    ensures |r| <= |products|
  {
    Filter(ShownUnder(searchTerm, selectedCategory), products)
  }

  /** The list shown keeps the catalogue's order, and a listing is in it exactly when its
      name matches the search and its category the choice. */
  lemma FilteredExactly(products: seq<Product>, searchTerm: string, selectedCategory: string)
    ensures var r := FilteredProducts(products, searchTerm, selectedCategory);
            && IsSubsequence(r, products)
            && forall p :: p in products ==>
                 (p in r <==> MatchesSearch(p, searchTerm) && MatchesCategory(p, selectedCategory))
  {
    var keep := ShownUnder(searchTerm, selectedCategory);
    FilterIsSubsequence(keep, products);
    var r := FilteredProducts(products, searchTerm, selectedCategory);
    forall p | p in products
      ensures p in r <==> MatchesSearch(p, searchTerm) && MatchesCategory(p, selectedCategory)
    {
      if p in r {
        var i :| 0 <= i < |r| && r[i] == p;
        assert keep(r[i]);
      }
    }
  }

  /** Nothing is hidden when the search is empty and every category is chosen. */
  lemma EmptySearchShowsAll(products: seq<Product>)
    ensures FilteredProducts(products, "", AllCategories) == products
  {
    forall i | 0 <= i < |products| ensures Shown(products[i], "", AllCategories) {
      ContainsEmpty(ToLower(products[i].name));
    }
    FilterAllPass(ShownUnder("", AllCategories), products);
  }

  /** Choosing every category leaves only the search to decide. */
  lemma AllCategoriesOnlySearches(products: seq<Product>, searchTerm: string)
    ensures FilteredProducts(products, searchTerm, AllCategories) == Filter(p => MatchesSearch(p, searchTerm), products)
  {
    FilterSame(ShownUnder(searchTerm, AllCategories), p => MatchesSearch(p, searchTerm), products);
  }

  /** The search ignores the case of both the names and the term. */
  lemma SearchIgnoresCase(products: seq<Product>, searchTerm: string, selectedCategory: string)
    ensures FilteredProducts(products, ToLower(searchTerm), selectedCategory) ==
            FilteredProducts(products, searchTerm, selectedCategory)
  {
    ToLowerIdempotent(searchTerm);
    FilterSame(ShownUnder(ToLower(searchTerm), selectedCategory), ShownUnder(searchTerm, selectedCategory), products);
  }

  /** Filtering the shown list again with the same choices changes nothing. */
  lemma FilterAgainUnchanged(products: seq<Product>, searchTerm: string, selectedCategory: string)
    ensures var r := FilteredProducts(products, searchTerm, selectedCategory);
            FilteredProducts(r, searchTerm, selectedCategory) == r
  {
    FilterIdempotent(ShownUnder(searchTerm, selectedCategory), products);
  }

  /** Choosing the grains shows the wheat alone. */
  lemma GrainsAreWheat()
    ensures FilteredProducts(Catalogue, "", "grains") == [Wheat]
  {
    var keep := ShownUnder("", "grains");
    ContainsEmpty(ToLower(Wheat.name));
    assert !keep(Tomatoes) && !keep(Peppers) && keep(Wheat) && !keep(Corn);
    assert Filter(keep, [Corn]) == [];
    assert Filter(keep, [Wheat, Corn]) == [Wheat] + Filter(keep, [Corn]);
    assert Filter(keep, [Peppers, Wheat, Corn]) == Filter(keep, [Wheat, Corn]);
    assert Filter(keep, Catalogue) == Filter(keep, [Peppers, Wheat, Corn]);
  }

  /** Two predicates that agree everywhere filter alike. */
  lemma {:induction false} FilterSame(p: Product -> bool, q: Product -> bool, s: seq<Product>)
    requires forall x :: p(x) == q(x)
    ensures Filter(p, s) == Filter(q, s)
  {
    if |s| > 0 {
      FilterSame(p, q, s[1..]);
    }
  }
}
