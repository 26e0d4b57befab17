/**
 * The catalog client: a deterministic 200-item mock catalog, the mock query
 * engine (search, category, page window), the normalisation of upstream
 * records into the product shape, and the fetch that falls back to the mock
 * catalog on any failure. The HTTP transport is an input (`Transport`), and
 * every `Math.random()` draw is an input (`Draw`).
 */
module ApiService {
  import opened Wrappers
  import opened Strings
  import opened Sequences

  /** The product shape shared by mock and upstream data. `rating` is in tenths. */
  datatype Product = Product(
    id: string,
    name: string,
    price: int,
    category: string,
    description: string,
    image: string,
    stock: int,
    brand: string,
    rating: int,
    features: seq<string>,
    gtin: string,
    sellingUnit: string,
    isLocalProduct: bool)

  /**
   * The random values one product consumes: a whole number below 500 for
   * the price, one below 100 for the stock, a rating of at most 5.0 counted
   * in tenths, and a coin for the local-product flag.
   */
  datatype Draw = Draw(price: nat, stock: nat, rating: nat, local: bool)

  /** The ranges `Math.random()` in [0, 1) confines each draw to. */
  predicate ValidDraw(d: Draw) {
    d.price < 500 && d.stock < 100 && d.rating <= 50
  }

  ghost predicate ValidDraws(draws: nat -> Draw) {
    forall i: nat :: ValidDraw(draws(i))
  }

  /** One page of results with its pagination metadata. */
  datatype PageResult = PageResult(
    products: seq<Product>,
    total: int,
    page: int,
    totalPages: int,
    currentPageResults: int)

  // ---------------------------------------------------------------------
  // The mock catalog

  const MockCatalogSize: nat := 200

  const Categories: seq<string> := [
    "HOUSE HOLD NEEDS",
    "CLEANING & HOUSEHOLD",
    "ELECTRONICS",
    "FOOD & BEVERAGES",
    "PERSONAL CARE",
    "HOME & KITCHEN",
    "SPORTS & FITNESS",
    "BOOKS & STATIONERY"
  ]

  const HouseholdProducts: seq<string> := [
    "KOLORR ROYAL PEDAL BIN LARGE", "RTN DLX BUCKET 18L", "RTN ROYAL TUB NO:1",
    "RTN BASIN NO:16", "RN SUPER SAVER BUCKET 25LTR", "Plastic Storage Container",
    "Laundry Basket", "Dustbin with Lid", "Water Bottle", "Food Container"
  ]

  const ElectronicProducts: seq<string> := [
    "Wireless Bluetooth Headphones", "Smart Watch Fitness Tracker", "LED Desk Lamp",
    "Power Bank 10000mAh", "Bluetooth Speaker", "USB Cable", "Phone Stand",
    "Wireless Charger", "Tablet Holder", "Cable Organizer"
  ]

  const FoodProducts: seq<string> := [
    "Organic Rice 5KG", "Premium Tea Leaves", "Fresh Coffee Beans", "Cooking Oil 1L",
    "Basmati Rice", "Wheat Flour", "Sugar 1KG", "Salt 1KG", "Spice Mix", "Honey 500g"
  ]

  const PersonalCareProducts: seq<string> := [
    "Premium Face Wash", "Moisturizing Lotion", "Shampoo 400ml", "Body Soap",
    "Toothbrush Set", "Hand Sanitizer", "Face Cream", "Body Lotion", "Hair Oil", "Sunscreen"
  ]

  const AllProducts: seq<string> :=
    HouseholdProducts + ElectronicProducts + FoodProducts + PersonalCareProducts

  const MockFeatures: seq<string> :=
    ["High Quality Materials", "Long Lasting", "Easy to Use", "Excellent Value", "Eco-Friendly"]

  const ApiFeatures: seq<string> :=
    ["High Quality Materials", "Durable Construction", "Easy to Use", "Value for Money"]

  /** The category of mock item `index`: the categories in rotation. */
  function MockCategory(index: nat): string {
    Categories[index % |Categories|]
  }

  /** The pool entry that names mock item `index`, chosen by its category. */
  function MockBaseName(index: nat): string {
    var category := MockCategory(index);
    if category == "HOUSE HOLD NEEDS" || category == "CLEANING & HOUSEHOLD" then
      HouseholdProducts[index % |HouseholdProducts|]
    else if category == "ELECTRONICS" then
      ElectronicProducts[index % |ElectronicProducts|]
    else if category == "FOOD & BEVERAGES" then
      FoodProducts[index % |FoodProducts|]
    else if category == "PERSONAL CARE" then
      PersonalCareProducts[index % |PersonalCareProducts|]
    else
      AllProducts[index % |AllProducts|]
  }

  /** Mock item `index`, built from its position and its random draws. */
  function MockProduct(index: nat, d: Draw): (r: Product)
    ensures r.isLocalProduct == d.local
    ensures ValidDraw(d) ==> 10 <= r.price <= 509 && 1 <= r.stock <= 100 && 0 <= r.rating <= 50
  {
    var base := MockBaseName(index);
    Product(
      id := "mock-" + NatToString(index + 1),
      name := base + " " + NatToString(index / |AllProducts| + 1),
      price := d.price + 10,
      category := MockCategory(index),
      description := "High-quality " + Lower(base)
        + " with excellent features and premium quality. Perfect for daily use with long-lasting durability.",
      image := "https://picsum.photos/400/400?random=" + NatToString(index + 1),
      stock := d.stock + 1,
      brand := "Brand " + NatToString(index / 10 + 1),
      rating := d.rating,
      features := MockFeatures,
      gtin := "82541" + PadStart(NatToString(index), 7, '0'),
      sellingUnit := "nos",
      isLocalProduct := d.local)
  }

  /** `generateEnhancedMockProducts(count)`: item `i` is built from index `i`. */
  function GenerateEnhancedMockProducts(count: nat, draws: nat -> Draw): (r: seq<Product>)
    ensures |r| == count
    ensures forall i :: 0 <= i < count ==> r[i] == MockProduct(i, draws(i))
  {
    seq(count, i requires 0 <= i < count => MockProduct(i, draws(i)))
  }

  /** The identifying fields of mock item `i` are fixed functions of `i`. */
  lemma MockProductShape(count: nat, draws: nat -> Draw, i: nat)
    requires i < count
    ensures var p := GenerateEnhancedMockProducts(count, draws)[i];
      && p.id == "mock-" + NatToString(i + 1)
      && p.category == Categories[i % 8]
      && p.brand == "Brand " + NatToString(i / 10 + 1)
      && p.gtin == "82541" + PadStart(NatToString(i), 7, '0')
      && p.name == MockBaseName(i) + " " + NatToString(i / 40 + 1)
      && p.image == "https://picsum.photos/400/400?random=" + p.id[5..]
      && p.sellingUnit == "nos" && p.features == MockFeatures
  {
    var p := GenerateEnhancedMockProducts(count, draws)[i];
    assert p.id[5..] == NatToString(i + 1);
  }

  /** Which name pool each category draws from. */
  lemma MockNamePool(i: nat)
    ensures i % 8 < 2 ==> MockBaseName(i) == HouseholdProducts[i % 10]
    ensures i % 8 == 2 ==> MockBaseName(i) == ElectronicProducts[i % 10]
    ensures i % 8 == 3 ==> MockBaseName(i) == FoodProducts[i % 10]
    ensures i % 8 == 4 ==> MockBaseName(i) == PersonalCareProducts[i % 10]
    ensures i % 8 >= 5 ==> MockBaseName(i) == AllProducts[i % 40]
  {
    assert |AllProducts| == 40;
    var c := Categories[i % 8];
    if i % 8 >= 5 {
      assert c[0] != 'H' || c[1] != 'O' || c[2] != 'U';
    }
  }

  /** Every mock id carries the `mock-` marker, and encodes its 1-based position. */
  lemma MockIdMarked(count: nat, draws: nat -> Draw, i: nat)
    requires i < count
    ensures var id := GenerateEnhancedMockProducts(count, draws)[i].id;
      StartsWith(id, "mock-") && ParseNat(id[5..]) == i + 1
  {
    var id := GenerateEnhancedMockProducts(count, draws)[i].id;
    assert id[5..] == NatToString(i + 1);
    ParseNatToString(i + 1);
  }

  /** Mock ids identify items: no two items of one catalog share an id. */
  lemma MockIdsDistinct(count: nat, draws: nat -> Draw, i: nat, j: nat)
    requires i < count && j < count && i != j
    ensures GenerateEnhancedMockProducts(count, draws)[i].id != GenerateEnhancedMockProducts(count, draws)[j].id
  {
    MockIdMarked(count, draws, i);
    MockIdMarked(count, draws, j);
  }

  /** The gtin is the prefix `82541` and the index zero-padded to 7 digits (12 characters below 10^7). */
  lemma MockGtinEncodesIndex(count: nat, draws: nat -> Draw, i: nat)
    requires i < count
    ensures var g := GenerateEnhancedMockProducts(count, draws)[i].gtin;
      && |g| >= 12 && g[..5] == "82541" && ParseNat(g[5..]) == i
      && (i < 10000000 ==> |g| == 12)
  {
    var g := GenerateEnhancedMockProducts(count, draws)[i].gtin;
    assert g[5..] == PadStart(NatToString(i), 7, '0');
    PaddedNatRoundTrip(i, 7);
    if i < 10000000 {
      NatToStringShort(i, 7);
    }
  }

  /** The random fields of a mock item stay in the ranges their draws allow. */
  lemma MockRandomFieldsBounded(count: nat, draws: nat -> Draw, i: nat)
    requires i < count && ValidDraws(draws)
    ensures var p := GenerateEnhancedMockProducts(count, draws)[i];
      10 <= p.price <= 509 && 1 <= p.stock <= 100 && 0 <= p.rating <= 50
  {
    assert ValidDraw(draws(i));
  }

  // ---------------------------------------------------------------------
  // The mock query engine

  /** The case-insensitive search: the query occurs in the name or the brand. */
  predicate MatchesSearch(p: Product, search: string) {
    Contains(Lower(p.name), Lower(search)) || Contains(Lower(p.brand), Lower(search))
  }

  /** The search step of `getMockData`; an empty search keeps everything. */
  function FilterBySearch(ps: seq<Product>, search: string): (r: seq<Product>)
    ensures search == "" ==> r == ps
    ensures forall p :: p in r <==> p in ps && (search == "" || MatchesSearch(p, search))
    ensures forall p :: multiset(r)[p] == if search == "" || MatchesSearch(p, search) then multiset(ps)[p] else 0
    ensures SubsequenceOf(r, ps)
  {
    SubsequenceOfSelf(ps);
    if search == "" then ps else Filter(ps, (p: Product) => MatchesSearch(p, search))
  }

  /** The category step of `getMockData`; an empty category keeps everything. */
  function FilterByCategory(ps: seq<Product>, category: string): (r: seq<Product>)
    ensures category == "" ==> r == ps
    ensures forall p :: p in r <==> p in ps && (category == "" || p.category == category)
    ensures forall p :: multiset(r)[p] == if category == "" || p.category == category then multiset(ps)[p] else 0
    ensures SubsequenceOf(r, ps)
  {
    SubsequenceOfSelf(ps);
    if category == "" then ps else Filter(ps, (p: Product) => p.category == category)
  }

  /** The whole mock catalog after both filters. */
  function FilteredMockProducts(search: string, category: string, draws: nat -> Draw): seq<Product> {
    FilterByCategory(FilterBySearch(GenerateEnhancedMockProducts(MockCatalogSize, draws), search), category)
  }

  /** Filtering selects exactly the catalog items that pass both filters, each as often as in the catalog, in catalog order. */
  lemma {:induction false} FilteredMockProductsExact(search: string, category: string, draws: nat -> Draw)
    ensures var catalog := GenerateEnhancedMockProducts(MockCatalogSize, draws);
      var f := FilteredMockProducts(search, category, draws);
      && SubsequenceOf(f, catalog)
      && (forall p :: p in f <==>
           p in catalog && (search == "" || MatchesSearch(p, search)) && (category == "" || p.category == category))
      && forall p :: multiset(f)[p] ==
           if (search == "" || MatchesSearch(p, search)) && (category == "" || p.category == category)
           then multiset(catalog)[p] else 0
  {
    var catalog := GenerateEnhancedMockProducts(MockCatalogSize, draws);
    var s := FilterBySearch(catalog, search);
    SubsequenceTransitive(FilterByCategory(s, category), s, catalog);
  }

  /** `Math.ceil(n / d)` for a positive divisor: the fewest pages of size `d` holding `n` items. */
  function CeilDiv(n: nat, d: nat): (q: nat)
    requires d > 0
    ensures q * d >= n
    ensures q > 0 ==> (q - 1) * d < n
    ensures q == 0 <==> n == 0
  {
    var q := (n + d - 1) / d;
    var rem := (n + d - 1) % d;
    assert n + d - 1 == q * d + rem && 0 <= rem < d;
    assert (q - 1) * d == q * d - d;
    q
  }

  /**
   * `r` is the 1-indexed page `page` of `filtered`: the window starting at
   * `(page - 1) * limit`, cut short at the end, with the total count, the
   * number of pages (the ceiling of total over limit) and the window's size.
   */
  ghost predicate IsPageOf(r: PageResult, filtered: seq<Product>, page: int, limit: int)
    requires page >= 1 && limit > 0
  {
    var start := (page - 1) * limit;
    && r.products == (if start >= |filtered| then [] else filtered[start..if start + limit < |filtered| then start + limit else |filtered|])
    && r.total == |filtered|
    && r.page == page
    && r.totalPages * limit >= r.total
    && (r.totalPages > 0 ==> (r.totalPages - 1) * limit < r.total)
    && r.currentPageResults == |r.products| <= limit
  }

  /** Every product on a page comes from the list it was cut from. */
  lemma PageDrawnFromFiltered(r: PageResult, filtered: seq<Product>, page: int, limit: int, p: Product)
    requires page >= 1 && limit > 0
    requires IsPageOf(r, filtered, page, limit) && p in r.products
    ensures p in filtered
  {
    var k :| 0 <= k < |r.products| && r.products[k] == p;
    assert p == filtered[(page - 1) * limit + k];
  }

  /** The page arithmetic of `getMockData`. */
  function Paginate(filtered: seq<Product>, page: int, limit: int): (r: PageResult)
    requires page >= 1 && limit > 0
    ensures IsPageOf(r, filtered, page, limit)
  {
    var startIndex: nat := (page - 1) * limit;
    var paginated := Slice(filtered, startIndex, startIndex + limit);
    PageResult(paginated, |filtered|, page, CeilDiv(|filtered|, limit), |paginated|)
  }

  /** `getMockData`: filter the mock catalog, then cut out the 1-indexed page. */
  function GetMockData(page: int, limit: int, search: string, category: string, draws: nat -> Draw): (r: PageResult)
    requires page >= 1 && limit > 0
    ensures IsPageOf(r, FilteredMockProducts(search, category, draws), page, limit)
  {
    Paginate(FilteredMockProducts(search, category, draws), page, limit)
  }

  /** Every product on a mock page passes both filters and comes from the catalog. */
  lemma MockPageMatchesFilters(page: int, limit: int, search: string, category: string, draws: nat -> Draw, p: Product)
    requires page >= 1 && limit > 0
    requires p in GetMockData(page, limit, search, category, draws).products
    ensures search != "" ==> MatchesSearch(p, search)
    ensures category != "" ==> p.category == category
    ensures p in GenerateEnhancedMockProducts(MockCatalogSize, draws)
  {
    PageDrawnFromFiltered(GetMockData(page, limit, search, category, draws),
                          FilteredMockProducts(search, category, draws), page, limit, p);
    FilteredMockProductsExact(search, category, draws);
  }

  /** Every product on a mock page carries the `mock-` id marker. */
  lemma MockPageMarked(page: int, limit: int, search: string, category: string, draws: nat -> Draw, k: nat)
    requires page >= 1 && limit > 0
    requires k < |GetMockData(page, limit, search, category, draws).products|
    ensures StartsWith(GetMockData(page, limit, search, category, draws).products[k].id, "mock-")
  {
    var catalog := GenerateEnhancedMockProducts(MockCatalogSize, draws);
    var p := GetMockData(page, limit, search, category, draws).products[k];
    MockPageMatchesFilters(page, limit, search, category, draws, p);
    var i :| 0 <= i < |catalog| && catalog[i] == p;
    MockIdMarked(MockCatalogSize, draws, i);
  }

  /** Without filters, page 3 of size 20 is items 40..59 of the 200, out of 10 pages. */
  lemma MockPageThree(draws: nat -> Draw)
    ensures var r := GetMockData(3, 20, "", "", draws);
      && r.products == GenerateEnhancedMockProducts(MockCatalogSize, draws)[40..60]
      && r.total == 200 && r.totalPages == 10 && r.currentPageResults == 20
  {
    assert CeilDiv(200, 20) == 10;
  }

  // ---------------------------------------------------------------------
  // Normalising upstream records

  /**
   * One upstream catalog record. An empty string stands for a field that is
   * absent (or otherwise falsy, which the `||` chains treat the same way);
   * `mrp` is `product.mrp?.mrp`.
   */
  datatype Upstream = Upstream(
    id: string,
    gtin: string,
    name: string,
    mrp: Option<int>,
    mainCategory: string,
    description: string,
    derivedDescription: string,
    imageFront: string,
    brand: string,
    companyBrand: string,
    sellingUnit: string,
    isLocalProduct: string)

  /** The upstream body; the numbers are the results of `parseInt`, `None` for NaN. */
  datatype ApiData = ApiData(
    products: Option<seq<Upstream>>,
    totalResults: Option<int>,
    currentPage: Option<int>,
    totalPages: Option<int>,
    currentPageResults: Option<int>)

  /** JavaScript's `a || b` on strings. */
  function OrElse(a: string, b: string): (r: string)
    ensures a != "" ==> r == a
    ensures a == "" ==> r == b
  {
    if a != "" then a else b
  }

  /** JavaScript's `a || b` when `a` is a number that may be absent or NaN. */
  function NumOrElse(a: Option<int>, b: int): (r: int)
    ensures a.Some? && a.value != 0 ==> r == a.value
    ensures a.None? || a.value == 0 ==> r == b
  {
    if a.Some? && a.value != 0 then a.value else b
  }

  /** The mapping applied to each upstream record. */
  function TransformProduct(u: Upstream, d: Draw): (r: Product)
    ensures r.name == u.name && r.gtin == u.gtin && r.features == ApiFeatures
    ensures u.description != "" ==> r.description == u.description
    ensures u.description == "" && u.derivedDescription != "" ==> r.description == u.derivedDescription
    ensures u.description == "" && u.derivedDescription == "" ==>
      r.description == "High-quality " + u.name + " with excellent features."
    ensures u.imageFront != "" ==> r.image == u.imageFront
    ensures u.imageFront == "" ==> r.image == "https://picsum.photos/400/400?random=" + u.gtin
  {
    Product(
      id := OrElse(u.id, u.gtin),
      name := u.name,
      price := NumOrElse(u.mrp, d.price + 10),
      category := OrElse(u.mainCategory, "General"),
      description := OrElse(OrElse(u.description, u.derivedDescription),
                            "High-quality " + u.name + " with excellent features."),
      image := OrElse(u.imageFront, "https://picsum.photos/400/400?random=" + u.gtin),
      stock := d.stock + 1,
      brand := OrElse(OrElse(u.brand, u.companyBrand), "Generic Brand"),
      rating := d.rating,
      features := ApiFeatures,
      gtin := u.gtin,
      sellingUnit := OrElse(u.sellingUnit, "nos"),
      isLocalProduct := u.isLocalProduct == "Yes")
  }

  /** The field rules of the normalisation, as fallback chains. */
  lemma TransformProductRules(u: Upstream, d: Draw)
    ensures var p := TransformProduct(u, d);
      && (u.id != "" ==> p.id == u.id) && (u.id == "" ==> p.id == u.gtin)
      && p.category != "" && (u.mainCategory != "" ==> p.category == u.mainCategory)
      && (u.mainCategory == "" ==> p.category == "General")
      && p.brand != ""
      && (u.brand != "" ==> p.brand == u.brand)
      && (u.brand == "" && u.companyBrand != "" ==> p.brand == u.companyBrand)
      && (u.brand == "" && u.companyBrand == "" ==> p.brand == "Generic Brand")
      && p.sellingUnit != "" && (u.sellingUnit != "" ==> p.sellingUnit == u.sellingUnit)
      && (u.sellingUnit == "" ==> p.sellingUnit == "nos")
      && (p.isLocalProduct <==> u.isLocalProduct == "Yes")
      && p.gtin == u.gtin && p.name == u.name
  {
  }

  /** Stock is always drawn; price is drawn only when the upstream price is missing or zero. */
  lemma TransformRandomFieldsBounded(u: Upstream, d: Draw)
    requires ValidDraw(d)
    ensures var p := TransformProduct(u, d);
      && 1 <= p.stock <= 100 && 0 <= p.rating <= 50
      && (u.mrp.None? || u.mrp.value == 0 ==> 10 <= p.price <= 509)
      && (u.mrp.Some? && u.mrp.value != 0 ==> p.price == u.mrp.value)
  {
  }

  /** The upstream records, or none when `products` is absent. */
  function Records(data: ApiData): seq<Upstream> {
    data.products.GetOr([])
  }

  /** `transformApiResponse`: one product per record, in order, with the metadata fallbacks. */
  function TransformApiResponse(data: ApiData, page: int, limit: int, draws: nat -> Draw): (r: PageResult)
    requires limit > 0
    ensures |r.products| == |Records(data)|
    ensures data.products.None? ==> r.products == []
    ensures forall j :: 0 <= j < |r.products| ==> r.products[j] == TransformProduct(Records(data)[j], draws(j))
    ensures data.totalResults.None? || data.totalResults.value == 0 ==> r.total == |r.products|
    ensures data.totalResults.Some? && data.totalResults.value != 0 ==> r.total == data.totalResults.value
    ensures data.currentPage.Some? && data.currentPage.value != 0 ==> r.page == data.currentPage.value
    ensures data.currentPage.None? || data.currentPage.value == 0 ==> r.page == page
    ensures data.totalPages.Some? && data.totalPages.value != 0 ==> r.totalPages == data.totalPages.value
    ensures data.totalPages.None? || data.totalPages.value == 0 ==> r.totalPages == CeilDiv(|r.products|, limit)
    ensures data.currentPageResults.Some? && data.currentPageResults.value != 0 ==> r.currentPageResults == data.currentPageResults.value
    ensures data.currentPageResults.None? || data.currentPageResults.value == 0 ==> r.currentPageResults == |r.products|
  {
    var records := Records(data);
    var transformed := seq(|records|, j requires 0 <= j < |records| => TransformProduct(records[j], draws(j)));
    PageResult(
      transformed,
      NumOrElse(data.totalResults, |transformed|),
      NumOrElse(data.currentPage, page),
      NumOrElse(data.totalPages, CeilDiv(|transformed|, limit)),
      NumOrElse(data.currentPageResults, |transformed|))
  }

  // ---------------------------------------------------------------------
  // Fetch with fallback

  /**
   * What the transport delivered: a network failure, or a response with its
   * `ok` status and its parsed body (`None` when the body is not JSON or is
   * JSON `null`, so that reading `products` throws).
   */
  datatype Transport = NetworkError | Response(ok: bool, body: Option<ApiData>)

  predicate Succeeded(t: Transport) {
    t.Response? && t.ok && t.body.Some?
  }

  /** `fetchProducts`: upstream data when the call succeeds, the mock page on any failure. */
  function FetchProducts(page: int, limit: int, search: string, category: string, t: Transport, draws: nat -> Draw): (r: PageResult)
    requires page >= 1 && limit > 0
    ensures Succeeded(t) ==> r == TransformApiResponse(t.body.value, page, limit, draws)
    ensures !Succeeded(t) ==> r == GetMockData(page, limit, search, category, draws)
    ensures !Succeeded(t) ==> IsPageOf(r, FilteredMockProducts(search, category, draws), page, limit)
    ensures Succeeded(t) ==> |r.products| == |Records(t.body.value)|
  {
    if Succeeded(t) then TransformApiResponse(t.body.value, page, limit, draws)
    else GetMockData(page, limit, search, category, draws)
  }

  /** With a failing transport, the first page of 20 is 20 marked mock products out of 200. */
  lemma FallbackFirstPage(t: Transport, draws: nat -> Draw)
    requires !Succeeded(t)
    ensures var r := FetchProducts(1, 20, "", "", t, draws);
      && |r.products| == 20 && r.total == 200 && r.totalPages == 10
      && forall k :: 0 <= k < |r.products| ==> StartsWith(r.products[k].id, "mock-")
  {
    var r := FetchProducts(1, 20, "", "", t, draws);
    assert CeilDiv(200, 20) == 10;
    forall k | 0 <= k < |r.products|
      ensures StartsWith(r.products[k].id, "mock-")
    {
      MockPageMarked(1, 20, "", "", draws, k);
    }
  }
}
