/** The catalog page (src/pages/Store.tsx): raw inventory records become
    products, which are filtered by the provider's filters and sorted by the
    chosen option. */
module Store {
  import opened Common
  import opened Seqs
  import opened StoreCard
  import opened GlobalContext

  /** The inventory fields the catalog reads: `código`, `descripción`,
      `s._ent` (whole units in stock) and `total_precio`. */
  datatype RawProduct = RawProduct(codigo: int, descripcion: string, stockUnits: int, totalPrecio: int)

  function ToProduct(raw: RawProduct): Product {
    Product(raw.codigo, raw.descripcion, "General", raw.totalPrecio, Some(raw.stockUnits))
  }

  /** The product list: empty until the inventory arrives, then one product
      per record, in order, all in the "General" category. */
  function CatalogProducts(raw: Option<seq<RawProduct>>): (ps: seq<Product>)
    ensures raw.None? ==> ps == []
    ensures raw.Some? ==> |ps| == |raw.value|
    ensures raw.Some? ==> forall i :: 0 <= i < |ps| ==>
      && ps[i].id == raw.value[i].codigo && ps[i].name == raw.value[i].descripcion
      && ps[i].price == raw.value[i].totalPrecio && ps[i].stock == Some(raw.value[i].stockUnits)
    ensures forall i :: 0 <= i < |ps| ==> ps[i].category == "General"
  {
    match raw
    case None => []
    case Some(rs) => seq(|rs|, i requires 0 <= i < |rs| => ToProduct(rs[i]))
  }

  // The four tests a product must pass, in the order the filter applies them.

  predicate InCategory(p: Product, f: FilterState) {
    f.category == "Todos" || p.category == f.category
  }

  predicate MatchesName(p: Product, f: FilterState) {
    f.searchQuery == "" || ContainsIgnoreCase(p.name, f.searchQuery)
  }

  predicate InPriceRange(p: Product, f: FilterState) {
    f.maxPrice <= 0 || (f.minPrice <= p.price && p.price <= f.maxPrice)
  }

  predicate MatchesId(p: Product, f: FilterState) {
    f.searchQueryId == "" || Contains(IntToString(p.id), f.searchQueryId)
  }

  predicate MatchesFilters(p: Product, f: FilterState) {
    InCategory(p, f) && MatchesName(p, f) && InPriceRange(p, f) && MatchesId(p, f)
  }

  function Keep(f: FilterState): Product -> bool {
    (p: Product) => MatchesFilters(p, f)
  }

  const Ascending: string := "Precio: Menor a Mayor"
  const Descending: string := "Precio: Mayor a Menor"

  /** The comparator as a sort key: by price, by price reversed, or all equal. */
  function SortKey(option: string): Product -> int {
    if option == Ascending then (p: Product) => p.price
    else if option == Descending then (p: Product) => -p.price
    else (p: Product) => 0
  }

  /** `filteredProducts` */
  function FilteredProducts(products: seq<Product>, f: FilterState): seq<Product> {
    SortBy(Filter(products, Keep(f)), SortKey(f.sortOption))
  }

  /** The list shows exactly the catalog products that pass every filter, so
      it is never longer than the catalog. */
  lemma FilteredIsSubset(products: seq<Product>, f: FilterState)
    ensures var r := FilteredProducts(products, f);
      && |r| <= |products|
      && (forall i :: 0 <= i < |r| ==> r[i] in products && MatchesFilters(r[i], f))
      && (forall i :: 0 <= i < |products| && MatchesFilters(products[i], f) ==> products[i] in r)
  {
    var kept := Filter(products, Keep(f));
    var r := FilteredProducts(products, f);
    forall i | 0 <= i < |r|
      ensures r[i] in products && MatchesFilters(r[i], f)
    {
      SortByMembership(kept, SortKey(f.sortOption), r[i]);
      FilterMember(products, Keep(f), r[i]);
    }
    forall i | 0 <= i < |products| && MatchesFilters(products[i], f)
      ensures products[i] in r
    {
      FilterMember(products, Keep(f), products[i]);
      SortByMembership(kept, SortKey(f.sortOption), products[i]);
    }
  }

  /** A category that no product carries empties the list. */
  lemma UnknownCategoryShowsNothing(products: seq<Product>, f: FilterState)
    requires f.category != "Todos"
    requires forall i :: 0 <= i < |products| ==> products[i].category != f.category
    ensures FilteredProducts(products, f) == []
  {
    FilterNone(products, Keep(f));
  }

  /** The provider starts on "All Products", which no catalog product carries,
      so the first render of the catalog lists nothing. */
  lemma InitialFiltersShowNothing(raw: Option<seq<RawProduct>>)
    ensures FilteredProducts(CatalogProducts(raw), InitialFilters) == []
  {
    UnknownCategoryShowsNothing(CatalogProducts(raw), InitialFilters);
  }

  /** "Precio: Menor a Mayor" lists prices in non-decreasing order. */
  lemma AscendingOption(products: seq<Product>, f: FilterState)
    requires f.sortOption == Ascending
    ensures var r := FilteredProducts(products, f);
      forall i, j :: 0 <= i < j < |r| ==> r[i].price <= r[j].price
  {
  }

  /** "Precio: Mayor a Menor" lists prices in non-increasing order. */
  lemma DescendingOption(products: seq<Product>, f: FilterState)
    requires f.sortOption == Descending
    ensures var r := FilteredProducts(products, f);
      forall i, j :: 0 <= i < j < |r| ==> r[i].price >= r[j].price
  {
    var r := FilteredProducts(products, f);
    assert SortedBy(r, SortKey(f.sortOption));
  }

  /** Any other option keeps the catalog order of the products that pass. */
  lemma OtherOptionKeepsOrder(products: seq<Product>, f: FilterState)
    requires f.sortOption != Ascending && f.sortOption != Descending
    ensures FilteredProducts(products, f) == Filter(products, Keep(f))
  {
    SortByConstantKey(Filter(products, Keep(f)), SortKey(f.sortOption), 0);
  }

  /** With every filter off ("Todos", no query, no price cap, no id) and no
      price ordering, the whole catalog is shown in order. */
  lemma NoFiltersShowEverything(products: seq<Product>, f: FilterState)
    requires f.category == "Todos" && f.searchQuery == "" && f.maxPrice <= 0 && f.searchQueryId == ""
    requires f.sortOption != Ascending && f.sortOption != Descending
    ensures FilteredProducts(products, f) == products
  {
    FilterAll(products, Keep(f));
    OtherOptionKeepsOrder(products, f);
  }

  /** Searching for a product's full id, or its name in any case, keeps it. */
  lemma SearchFindsItself(p: Product, f: FilterState)
    requires f.searchQueryId == IntToString(p.id) && f.searchQuery == p.name
    ensures MatchesId(p, f) && MatchesName(p, f)
  {
    var s := IntToString(p.id);
    assert s[..|s|] == s;
    var n := ToLower(p.name);
    assert n[..|n|] == n;
  }
}
