/**
 * The data logic of the product dashboard: the request it sends for a grid
 * page, the offline flag, the client-side sort of the returned page (in place,
 * on an array), the category facet, and the filter and pagination state it
 * persists and restores through the key/value store.
 */
module Dashboard {
  import opened Wrappers
  import opened Strings
  import opened Sequences
  import opened ApiService
  import opened StorageHelper

  /** One entry of the grid's sort model: a field name and `'asc'` or `'desc'`. */
  datatype SortItem = SortItem(field: string, sort: string)

  /** The grid's 0-indexed page and its page size. */
  datatype PaginationModel = PaginationModel(page: nat, pageSize: nat)

  /** The query state the dashboard keeps and persists. */
  datatype QueryState = QueryState(
    searchTerm: string,
    categoryFilter: string,
    sortModel: seq<SortItem>,
    pagination: PaginationModel)

  const DefaultPagination: PaginationModel := PaginationModel(0, 20)
  const DefaultQuery: QueryState := QueryState("", "", [], DefaultPagination)

  // ---------------------------------------------------------------------
  // Offline detection

  /** The offline test of `loadProducts`: some product on the page carries an id with the `mock-` marker. */
  function UsingMockData(ps: seq<Product>): (b: bool)
    ensures b <==> exists k :: 0 <= k < |ps| && StartsWith(ps[k].id, "mock-")
  {
    if ps == [] then false
    else StartsWith(ps[0].id, "mock-") || UsingMockData(ps[1..])
  }

  /** Falling back to the mock catalog shows as offline exactly when the page has rows. */
  lemma FallbackIsOffline(page: int, limit: int, search: string, category: string, t: Transport, draws: nat -> Draw)
    requires page >= 1 && limit > 0 && !Succeeded(t)
    ensures var ps := FetchProducts(page, limit, search, category, t, draws).products;
      UsingMockData(ps) <==> ps != []
  {
    var ps := FetchProducts(page, limit, search, category, t, draws).products;
    if ps != [] {
      MockPageMarked(page, limit, search, category, draws, 0);
    }
  }

  /** Upstream data whose ids (or gtins standing in for them) lack the marker never shows as offline. */
  lemma UpstreamIsOnline(page: int, limit: int, search: string, category: string, t: Transport, draws: nat -> Draw)
    requires page >= 1 && limit > 0 && Succeeded(t)
    requires forall u :: u in Records(t.body.value) ==> !StartsWith(u.id, "mock-") && !StartsWith(u.gtin, "mock-")
    ensures !UsingMockData(FetchProducts(page, limit, search, category, t, draws).products)
  {
    var records := Records(t.body.value);
    var ps := FetchProducts(page, limit, search, category, t, draws).products;
    forall k | 0 <= k < |ps|
      ensures !StartsWith(ps[k].id, "mock-")
    {
      assert records[k] in records;
    }
  }

  // ---------------------------------------------------------------------
  // Sorting the page

  /** A value compared by the sort comparator: a number, or a string compared by character code. */
  datatype Key = Num(n: int) | Text(s: string)

  /** `items.join(',')`, the string an array turns into under `>`. */
  function JoinComma(items: seq<string>): string {
    if items == [] then ""
    else if |items| == 1 then items[0]
    else items[0] + "," + JoinComma(items[1..])
  }

  /**
   * `a[sortField]`, with price and stock as numbers. The rating strings
   * produced by `toFixed(1)` all have the form `d.d`, so comparing them as
   * strings agrees with comparing their tenths; booleans compare as 0 and 1.
   * Features compare as their comma-joined text. An unknown field reads as
   * the empty string, where the code reads `undefined`.
   */
  function SortKey(p: Product, field: string): Key {
    if field == "price" then Num(p.price)
    else if field == "stock" then Num(p.stock)
    else if field == "rating" then Num(p.rating)
    else if field == "isLocalProduct" then Num(if p.isLocalProduct then 1 else 0)
    else if field == "id" then Text(p.id)
    else if field == "name" then Text(p.name)
    else if field == "category" then Text(p.category)
    else if field == "description" then Text(p.description)
    else if field == "image" then Text(p.image)
    else if field == "brand" then Text(p.brand)
    else if field == "gtin" then Text(p.gtin)
    else if field == "sellingUnit" then Text(p.sellingUnit)
    else if field == "features" then Text(JoinComma(p.features))
    else Text("")
  }

  /**
   * Price and stock are compared as numbers, ratings by their tenths,
   * booleans as 0 and 1, and the string fields as the strings they hold.
   */
  lemma SortKeyFields(p: Product, field: string)
    ensures var k := SortKey(p, field);
      && (field == "price" ==> k == Num(p.price))
      && (field == "stock" ==> k == Num(p.stock))
      && (field == "rating" ==> k == Num(p.rating))
      && (field == "isLocalProduct" ==> (k == Num(1) <==> p.isLocalProduct) && (k == Num(0) <==> !p.isLocalProduct))
      && (field == "name" ==> k == Text(p.name))
      && (field == "brand" ==> k == Text(p.brand))
      && (field == "category" ==> k == Text(p.category))
      && (field == "id" ==> k == Text(p.id))
      && (k.Num? <==> field == "price" || field == "stock" || field == "rating" || field == "isLocalProduct")
  {
  }

  /** JavaScript's `a > b` on two keys. */
  predicate KeyGreater(a: Key, b: Key) {
    match (a, b)
    case (Num(x), Num(y)) => x > y
    case (Text(x), Text(y)) => Greater(x, y)
    case _ => false
  }

  /** Comparing ratings in tenths agrees with comparing their `toFixed(1)` strings. */
  lemma RatingKeyMatchesText(p: Product, q: Product)
    requires 0 <= p.rating <= 50 && 0 <= q.rating <= 50
    ensures KeyGreater(SortKey(p, "rating"), SortKey(q, "rating"))
        <==> Greater(TenthsToString(p.rating), TenthsToString(q.rating))
  {
    TenthsStringOrder(p.rating, q.rating);
  }

  /**
   * `x` may stand right before `y` in the sorted page: for `'asc'` the
   * comparator puts `x` after `y` only when `x > y`; for any other
   * direction only when `x < y`.
   */
  predicate InOrder(x: Product, y: Product, field: string, dir: string) {
    if dir == "asc" then !KeyGreater(SortKey(x, field), SortKey(y, field))
    else !KeyGreater(SortKey(y, field), SortKey(x, field))
  }

  /**
   * The comparator handed to `sort`: 1 puts `a` after `b`, -1 before it.
   * It never answers 0, so on equal keys it answers -1 both ways.
   */
  function Compare(a: Product, b: Product, field: string, dir: string): (r: int)
    ensures r == 1 || r == -1
    ensures r == -1 <==> InOrder(a, b, field, dir)
  {
    var aVal, bVal := SortKey(a, field), SortKey(b, field);
    if dir == "asc" then (if KeyGreater(aVal, bVal) then 1 else -1)
    else (if KeyGreater(bVal, aVal) then 1 else -1)
  }

  /** On equal keys the comparator claims each product goes first. */
  lemma CompareEqualKeys(a: Product, b: Product, field: string, dir: string)
    requires SortKey(a, field) == SortKey(b, field)
    ensures Compare(a, b, field, dir) == -1 && Compare(b, a, field, dir) == -1
  {
    var k := SortKey(a, field);
    if k.Text? {
      GreaterAsymmetric(k.s, k.s);
    }
  }

  /** Each element may stand before the next: non-decreasing for `'asc'`, non-increasing otherwise. */
  ghost predicate Ordered(s: seq<Product>, field: string, dir: string) {
    forall k :: 0 <= k < |s| - 1 ==> InOrder(s[k], s[k + 1], field, dir)
  }

  /** Of two products, one can always go first. */
  lemma InOrderTotal(x: Product, y: Product, field: string, dir: string)
    ensures InOrder(x, y, field, dir) || InOrder(y, x, field, dir)
  {
    var kx, ky := SortKey(x, field), SortKey(y, field);
    if kx.Text? && ky.Text? {
      GreaterAsymmetric(kx.s, ky.s);
    }
  }

  /** For one field, all keys are of the same kind. */
  lemma SortKeySameKind(x: Product, y: Product, field: string)
    ensures SortKey(x, field).Num? <==> SortKey(y, field).Num?
  {
  }

  lemma InOrderTransitive(x: Product, y: Product, z: Product, field: string, dir: string)
    requires InOrder(x, y, field, dir) && InOrder(y, z, field, dir)
    ensures InOrder(x, z, field, dir)
  {
    SortKeySameKind(x, y, field);
    SortKeySameKind(y, z, field);
    var kx, ky, kz := SortKey(x, field), SortKey(y, field), SortKey(z, field);
    if kx.Text? {
      if dir == "asc" {
        NotGreaterTransitive(kx.s, ky.s, kz.s);
      } else {
        NotGreaterTransitive(kz.s, ky.s, kx.s);
      }
    }
  }

  /** An ordered page is ordered between any two positions, not only neighbours. */
  lemma {:induction false} OrderedPairwise(s: seq<Product>, field: string, dir: string, i: nat, j: nat)
    requires Ordered(s, field, dir) && i < j < |s|
    ensures InOrder(s[i], s[j], field, dir)
    decreases j - i
  {
    if i + 1 < j {
      OrderedPairwise(s, field, dir, i + 1, j);
      InOrderTransitive(s[i], s[i + 1], s[j], field, dir);
    }
  }

  /**
   * `productData.sort(comparator)` on one field and direction. The
   * comparator never returns 0, so nothing is promised about the order of
   * equal keys; the page ends ordered and is a permutation of what it was.
   */
  method SortInPlace(a: array<Product>, field: string, dir: string)
    modifies a
    ensures Ordered(a[..], field, dir)
    ensures multiset(a[..]) == old(multiset(a[..]))
  {
    var i := 0;
    while i < a.Length
      invariant 0 <= i <= a.Length
      invariant forall k :: 0 <= k < i - 1 ==> InOrder(a[k], a[k + 1], field, dir)
      invariant multiset(a[..]) == old(multiset(a[..]))
    {
      SinkInto(a, i, field, dir);
      i := i + 1;
    }
  }

  /** One insertion step: swap `a[i]` down until the first `i + 1` elements are ordered. */
  method SinkInto(a: array<Product>, i: nat, field: string, dir: string)
    requires i < a.Length
    requires forall k :: 0 <= k < i - 1 ==> InOrder(a[k], a[k + 1], field, dir)
    modifies a
    ensures forall k :: 0 <= k < i ==> InOrder(a[k], a[k + 1], field, dir)
    ensures multiset(a[..]) == old(multiset(a[..]))
    ensures a[i + 1..] == old(a[i + 1..])
  {
    var j := i;
    while j > 0 && !InOrder(a[j - 1], a[j], field, dir)
      invariant 0 <= j <= i
      invariant forall k :: 0 <= k < j - 1 ==> InOrder(a[k], a[k + 1], field, dir)
      invariant forall k :: j <= k < i ==> InOrder(a[k], a[k + 1], field, dir)
      invariant 0 < j < i ==> InOrder(a[j - 1], a[j + 1], field, dir)
      invariant multiset(a[..]) == old(multiset(a[..]))
      invariant a[i + 1..] == old(a[i + 1..])
    {
      ghost var before := a[..];
      a[j - 1], a[j] := a[j], a[j - 1];
      SwapKeepsOrder(before, a[..], i, j, field, dir);
      j := j - 1;
    }
  }

  /**
   * What one swap of `SinkInto` keeps: swapping an out-of-order neighbour
   * pair at `j - 1`, `j` moves the unsorted gap one step down, permutes the
   * elements and leaves everything past `i` alone.
   */
  lemma SwapKeepsOrder(s: seq<Product>, t: seq<Product>, i: nat, j: nat, field: string, dir: string)
    requires 0 < j <= i < |s|
    requires forall k :: 0 <= k < j - 1 ==> InOrder(s[k], s[k + 1], field, dir)
    requires forall k :: j <= k < i ==> InOrder(s[k], s[k + 1], field, dir)
    requires j < i ==> InOrder(s[j - 1], s[j + 1], field, dir)
    requires !InOrder(s[j - 1], s[j], field, dir)
    requires t == s[j - 1 := s[j]][j := s[j - 1]]
    ensures forall k :: 0 <= k < j - 2 ==> InOrder(t[k], t[k + 1], field, dir)
    ensures forall k :: j - 1 <= k < i ==> InOrder(t[k], t[k + 1], field, dir)
    ensures 1 < j ==> InOrder(t[j - 2], t[j], field, dir)
    ensures multiset(t) == multiset(s) && t[i + 1..] == s[i + 1..]
  {
    InOrderTotal(s[j - 1], s[j], field, dir);
    SwapPermutes(s, t, i, j);
  }

  /** Swapping two neighbours below `i` permutes a sequence and leaves everything past `i` alone. */
  lemma SwapPermutes<T>(s: seq<T>, t: seq<T>, i: nat, j: nat)
    requires 0 < j <= i < |s|
    requires t == s[j - 1 := s[j]][j := s[j - 1]]
    ensures multiset(t) == multiset(s) && t[i + 1..] == s[i + 1..]
  {
    assert t == s[..j - 1] + [s[j], s[j - 1]] + s[j + 1..];
    assert s == s[..j - 1] + [s[j - 1], s[j]] + s[j + 1..];
  }

  /** Prices 30, 10, 20 end as 10, 20, 30 ascending and as 30, 20, 10 descending. */
  lemma SortByPriceExample(p30: Product, p10: Product, p20: Product, r: seq<Product>, dir: string)
    requires p30.price == 30 && p10.price == 10 && p20.price == 20
    requires multiset(r) == multiset([p30, p10, p20])
    requires Ordered(r, "price", dir)
    ensures dir == "asc" ==> r == [p10, p20, p30]
    ensures dir != "asc" ==> r == [p30, p20, p10]
  {
    assert |r| == |multiset(r)| == 3;
    var m := multiset([p30, p10, p20]);
    assert r[0] in m && r[1] in m && r[2] in m by {
      assert r[0] in multiset(r) && r[1] in multiset(r) && r[2] in multiset(r);
    }
    assert r == [r[0], r[1], r[2]];
  }

  /** The sort step of `loadProducts`: sort by the first sort-model entry, or keep the response order. */
  method ApplySort(products: seq<Product>, sortModel: seq<SortItem>) returns (r: seq<Product>)
    ensures multiset(r) == multiset(products)
    ensures sortModel == [] ==> r == products
    ensures sortModel != [] ==> Ordered(r, sortModel[0].field, sortModel[0].sort)
  {
    if sortModel == [] {
      return products;
    }
    var a := new Product[|products|](k requires 0 <= k < |products| => products[k]);
    assert a[..] == products;
    SortInPlace(a, sortModel[0].field, sortModel[0].sort);
    r := a[..];
  }

  // ---------------------------------------------------------------------
  // The category facet

  /** The category facet of `loadProducts`: the page's categories, each once, in order of first appearance. */
  function UniqueCategories(ps: seq<Product>): (r: seq<string>)
    ensures forall c :: c in r <==> exists k :: 0 <= k < |ps| && ps[k].category == c
    ensures NoDuplicates(r)
  {
    var cats := seq(|ps|, k requires 0 <= k < |ps| => ps[k].category);
    assert forall c :: c in cats <==> exists k :: 0 <= k < |ps| && ps[k].category == c by {
      forall c | c in cats ensures exists k :: 0 <= k < |ps| && ps[k].category == c {
        var k :| 0 <= k < |cats| && cats[k] == c;
      }
      forall c | exists k :: 0 <= k < |ps| && ps[k].category == c ensures c in cats {
        var k :| 0 <= k < |ps| && ps[k].category == c;
        assert cats[k] == c;
      }
    }
    Dedup(cats)
  }

  /** The facet lists categories in the order they first appear on the page. */
  lemma UniqueCategoriesFirstOccurrence(ps: seq<Product>)
    ensures var cats := seq(|ps|, k requires 0 <= k < |ps| => ps[k].category);
      var r := UniqueCategories(ps);
      forall i, j :: 0 <= i < j < |r| ==> FirstIndex(cats, r[i]) < FirstIndex(cats, r[j])
  {
    DedupFirstOccurrenceOrder(seq(|ps|, k requires 0 <= k < |ps| => ps[k].category));
  }

  // ---------------------------------------------------------------------
  // Persisting and restoring the query state

  const FiltersKey: string := "dashboardFilters"
  const PaginationKey: string := "dashboardPagination"

  /**
   * The values the dashboard stores. A field of the saved filters may be
   * missing (`None`) in what was stored earlier.
   */
  datatype SavedValue =
    | SavedFilters(searchTerm: Option<string>, categoryFilter: Option<string>, sortModel: Option<seq<SortItem>>)
    | SavedPagination(pagination: PaginationModel)

  /** What the filter effect stores. */
  function FiltersRecord(st: QueryState): SavedValue {
    SavedFilters(Some(st.searchTerm), Some(st.categoryFilter), Some(st.sortModel))
  }

  /** The mount effect: saved filters with `''`/`[]` for what is missing; saved pagination, else the default. */
  function RestoreState(savedFilters: Option<SavedValue>, savedPagination: Option<SavedValue>): (st: QueryState)
    ensures savedFilters.None? || !savedFilters.value.SavedFilters? ==>
      st.searchTerm == "" && st.categoryFilter == "" && st.sortModel == []
    ensures savedFilters.Some? && savedFilters.value.SavedFilters? ==>
      && (savedFilters.value.searchTerm.None? ==> st.searchTerm == "")
      && (savedFilters.value.searchTerm.Some? ==> st.searchTerm == savedFilters.value.searchTerm.value)
      && (savedFilters.value.categoryFilter.None? ==> st.categoryFilter == "")
      && (savedFilters.value.categoryFilter.Some? ==> st.categoryFilter == savedFilters.value.categoryFilter.value)
      && (savedFilters.value.sortModel.None? ==> st.sortModel == [])
      && (savedFilters.value.sortModel.Some? ==> st.sortModel == savedFilters.value.sortModel.value)
    ensures savedPagination.Some? && savedPagination.value.SavedPagination? ==>
      st.pagination == savedPagination.value.pagination
    ensures savedPagination.None? ==> st.pagination == DefaultPagination
  {
    var pagination :=
      if savedPagination.Some? && savedPagination.value.SavedPagination? then savedPagination.value.pagination
      else DefaultPagination;
    match savedFilters
    case Some(SavedFilters(s, c, m)) => QueryState(s.GetOr(""), c.GetOr(""), m.GetOr([]), pagination)
    case _ => QueryState("", "", [], pagination)
  }

  /** A fresh store restores the defaults. */
  lemma RestoreFromEmpty()
    ensures RestoreState(Lookup<SavedValue>(map[], FiltersKey), Lookup<SavedValue>(map[], PaginationKey)) == DefaultQuery
  {
  }

  /** What the two persist effects write is exactly what the mount effect reads back. */
  lemma RestoreAfterPersist(m: map<string, Entry<SavedValue>>, st: QueryState, t1: int, t2: int)
    ensures var m' := Set(Set(m, FiltersKey, FiltersRecord(st), t1, true), PaginationKey, SavedPagination(st.pagination), t2, true);
      RestoreState(Lookup(m', FiltersKey), Lookup(m', PaginationKey)) == st
  {
    assert FiltersKey != PaginationKey by {
      assert |FiltersKey| != |PaginationKey|;
    }
  }

  /** The restore effect run on mount: read both keys and restore the state from them. */
  method RestoreOnMount(store: KeyValueStore<SavedValue>) returns (st: QueryState)
    ensures st == RestoreState(Lookup(store.entries, FiltersKey), Lookup(store.entries, PaginationKey))
  {
    var savedFilters := store.GetItem(FiltersKey);
    var savedPagination := store.GetItem(PaginationKey);
    st := RestoreState(savedFilters, savedPagination);
  }

  /** The effect run when the search, category or sort changes: write the filter part of the state under its key. */
  method PersistFilters(store: KeyValueStore<SavedValue>, st: QueryState, now: int)
    modifies store
    ensures store.entries == old(store.entries)[FiltersKey := Entry(FiltersRecord(st), now)]
  {
    store.SetItem(FiltersKey, FiltersRecord(st), now, true);
  }

  /** The effect run when the pagination changes: write it under its key. */
  method PersistPagination(store: KeyValueStore<SavedValue>, pagination: PaginationModel, now: int)
    modifies store
    ensures store.entries == old(store.entries)[PaginationKey := Entry(SavedPagination(pagination), now)]
  {
    store.SetItem(PaginationKey, SavedPagination(pagination), now, true);
  }

  /** Persisting the state and mounting again restores it unchanged. */
  method PersistThenRestore(store: KeyValueStore<SavedValue>, st: QueryState, t1: int, t2: int) returns (restored: QueryState)
    modifies store
    ensures restored == st
  {
    PersistFilters(store, st, t1);
    PersistPagination(store, st.pagination, t2);
    RestoreAfterPersist(old(store.entries), st, t1, t2);
    restored := RestoreOnMount(store);
  }

  // ---------------------------------------------------------------------
  // Loading a page

  /** What the dashboard shows after a load. */
  datatype View = View(
    products: seq<Product>,
    totalRows: int,
    categories: seq<string>,
    isOffline: bool,
    error: Option<string>,
    loading: bool)

  /**
   * `loadProducts`: fetch the 1-indexed page for the grid's 0-indexed one,
   * flag offline mode by the mock marker, sort the page when a sort is
   * set, and derive the facet from the page shown.
   */
  method LoadProducts(st: QueryState, t: Transport, draws: nat -> Draw) returns (v: View)
    requires st.pagination.pageSize > 0
    ensures var response := FetchProducts(st.pagination.page + 1, st.pagination.pageSize,
                                          st.searchTerm, st.categoryFilter, t, draws);
      && multiset(v.products) == multiset(response.products)
      && (st.sortModel == [] ==> v.products == response.products)
      && (st.sortModel != [] ==> Ordered(v.products, st.sortModel[0].field, st.sortModel[0].sort))
      && v.totalRows == response.total
      && v.isOffline == UsingMockData(response.products)
      && v.categories == UniqueCategories(v.products)
      && v.error == None && !v.loading
  {
    var apiPage := st.pagination.page + 1;
    var response := FetchProducts(apiPage, st.pagination.pageSize, st.searchTerm, st.categoryFilter, t, draws);
    var productData := response.products;
    var usingMockData := UsingMockData(productData);
    productData := ApplySort(productData, st.sortModel);
    v := View(productData, response.total, UniqueCategories(productData), usingMockData, None, false);
  }

  /** The failure branch of `loadProducts`: a load that throws keeps the rows, reports the error and shows offline. */
  function LoadFailed(v: View): (v': View)
    ensures v'.isOffline && v'.error.Some? && !v'.loading
    ensures v'.products == v.products && v'.totalRows == v.totalRows && v'.categories == v.categories
  {
    v.(error := Some("Failed to load products. Please check your connection."), isOffline := true, loading := false)
  }
}
