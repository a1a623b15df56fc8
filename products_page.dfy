/** The listing page's filter state: seeding it from the query string,
    writing it back as query pairs, and the handlers that change it. */
module ProductsPage {
  import opened Wrappers
  import opened ProductCatalog

  /** A key name other than the five the page reads and writes. */
  type OtherName = name: string
    | name != "category" && name != "search" && name != "sort"
      && name != "minPrice" && name != "maxPrice"
    witness "page"

  /** A query-string key: one of the five the page reads and writes, or any
      other key. */
  datatype QueryKey =
    | CategoryKey | SearchKey | SortParamKey | MinPriceKey | MaxPriceKey
    | OtherKey(name: OtherName)

  /** The key as it appears in the query string. */
  function KeyName(k: QueryKey): string {
    match k
    case CategoryKey => "category"
    case SearchKey => "search"
    case SortParamKey => "sort"
    case MinPriceKey => "minPrice"
    case MaxPriceKey => "maxPrice"
    case OtherKey(name) => name
  }

  /** Each key name in the query string stands for exactly one key. */
  lemma KeyNameInjective(a: QueryKey, b: QueryKey)
    ensures KeyName(a) == KeyName(b) <==> a == b
  {
    if KeyName(a) == KeyName(b) {
      if !a.OtherKey? && !b.OtherKey? {
        assert a == b by {
          match a
          case CategoryKey => assert KeyName(b)[0] == 'c';
          case SearchKey => assert KeyName(b)[1] == 'e';
          case SortParamKey => assert KeyName(b)[1] == 'o';
          case MinPriceKey => assert KeyName(b)[1] == 'i';
          case MaxPriceKey => assert KeyName(b)[1] == 'a';
        }
      }
    }
  }

  /** The ordered key/value pairs of a query string. */
  type QueryParams = seq<(QueryKey, string)>

  const DefaultSort := "newest"

  /** URLSearchParams.get: the value of the first pair with that key. */
  function Get(params: QueryParams, key: QueryKey): (r: Option<string>)
    ensures r.None? <==> forall i :: 0 <= i < |params| ==> params[i].0 != key
    ensures r.Some? ==>
      exists i :: (0 <= i < |params| && params[i] == (key, r.value)
                   && forall j :: 0 <= j < i ==> params[j].0 != key)
  {
    if params == [] then None
    else if params[0].0 == key then Some(params[0].1)
    else Get(params[1..], key)
  }

  /** `params.get(key) || fallback`: a missing or empty value gives the fallback. */
  function OrElse(v: Option<string>, fallback: string): (r: string)
    ensures v == None || v == Some("") ==> r == fallback
    ensures v.Some? && v.value != "" ==> r == v.value
  {
    if v.Some? && v.value != "" then v.value else fallback
  }

  /** `field` is what the page reads for `key`: the fallback when the key is
      missing or its first value is empty, and that first value otherwise. */
  predicate Read(params: QueryParams, key: QueryKey, field: string, fallback: string) {
    && (Get(params, key) == None ==> field == fallback)
    && (Get(params, key) == Some("") ==> field == fallback)
    && (Get(params, key).Some? && Get(params, key).value != "" ==> field == Get(params, key).value)
  }

  /** The criteria the page starts with: each query parameter, or the empty
      string, or "newest" for the sort. */
  function CriteriaFromUrl(params: QueryParams): (c: Criteria)
    ensures c.sortOption != ""
    ensures Read(params, CategoryKey, c.category, "")
    ensures Read(params, SearchKey, c.search, "")
    ensures Read(params, SortParamKey, c.sortOption, DefaultSort)
    ensures Read(params, MinPriceKey, c.minPrice, "")
    ensures Read(params, MaxPriceKey, c.maxPrice, "")
  {
    Criteria(
      OrElse(Get(params, CategoryKey), ""),
      OrElse(Get(params, SearchKey), ""),
      OrElse(Get(params, SortParamKey), DefaultSort),
      OrElse(Get(params, MinPriceKey), ""),
      OrElse(Get(params, MaxPriceKey), ""))
  }

  /** The position of each key in the order updateUrlParams writes them. */
  function KeyRank(key: QueryKey): nat {
    match key
    case CategoryKey => 0
    case SearchKey => 1
    case SortParamKey => 2
    case MinPriceKey => 3
    case MaxPriceKey => 4
    case OtherKey(_) => 5
  }

  /** `if (present) params.set(key, value)` on a fresh URLSearchParams. */
  function Param(present: bool, key: QueryKey, value: string): (r: QueryParams)
    ensures |r| <= 1
    ensures r != [] <==> present
    ensures r != [] ==> r[0] == (key, value)
  {
    if present then [(key, value)] else []
  }

  /** Keys in strictly increasing write order. */
  predicate InKeyOrder(r: QueryParams) {
    forall i, j :: 0 <= i < j < |r| ==> KeyRank(r[i].0) < KeyRank(r[j].0)
  }

  /** The shape of what updateUrlParams writes for criteria `c`: known keys in
      write order, no empty value except possibly an empty sort, and never the
      default sort. */
  predicate WellFormedParams(r: QueryParams, c: Criteria) {
    && InKeyOrder(r)
    && (forall i :: 0 <= i < |r| ==> !r[i].0.OtherKey?)
    && (forall i :: 0 <= i < |r| && r[i].0 != SortParamKey ==> r[i].1 != "")
    && (forall i :: 0 <= i < |r| ==> r[i] != (SortParamKey, DefaultSort))
    && (c.sortOption != "" ==> forall i :: 0 <= i < |r| ==> r[i].1 != "")
  }

  predicate RanksAbove(r: QueryParams, lo: nat) {
    forall i :: 0 <= i < |r| ==> lo <= KeyRank(r[i].0)
  }

  /** Writing one more pair in front of pairs of later keys keeps the shape. */
  lemma PrependParam(present: bool, key: QueryKey, value: string, rest: QueryParams, c: Criteria, lo: nat)
    requires WellFormedParams(rest, c) && RanksAbove(rest, lo) && KeyRank(key) < lo
    requires present ==> !key.OtherKey? && (key, value) != (SortParamKey, DefaultSort)
    requires present && key != SortParamKey ==> value != ""
    requires present && c.sortOption != "" ==> value != ""
    ensures WellFormedParams(Param(present, key, value) + rest, c)
    ensures RanksAbove(Param(present, key, value) + rest, KeyRank(key))
  {
    var r := Param(present, key, value) + rest;
    if present {
      forall i | 0 < i < |r| ensures r[i] == rest[i - 1] {
      }
    } else {
      assert r == rest;
    }
  }

  /** updateUrlParams, up to the pair list: category, search, sort, minPrice,
      maxPrice in that order, each only when set, and the sort only when it is
      not the default. */
  function UrlParams(c: Criteria): (r: QueryParams)
    ensures WellFormedParams(r, c)
  {
    var p5 := Param(c.maxPrice != "", MaxPriceKey, c.maxPrice);
    PrependParam(c.maxPrice != "", MaxPriceKey, c.maxPrice, [], c, 5);
    assert p5 + [] == p5;
    var p4 := Param(c.minPrice != "", MinPriceKey, c.minPrice) + p5;
    PrependParam(c.minPrice != "", MinPriceKey, c.minPrice, p5, c, 4);
    var p3 := Param(c.sortOption != DefaultSort, SortParamKey, c.sortOption) + p4;
    PrependParam(c.sortOption != DefaultSort, SortParamKey, c.sortOption, p4, c, 3);
    var p2 := Param(c.search != "", SearchKey, c.search) + p3;
    PrependParam(c.search != "", SearchKey, c.search, p3, c, 2);
    var p1 := Param(c.category != "", CategoryKey, c.category) + p2;
    PrependParam(c.category != "", CategoryKey, c.category, p2, c, 1);
    p1
  }

  /** A pair is in the written list exactly when its key was written with
      that value. */
  lemma UrlParamsPairs(c: Criteria, key: QueryKey, v: string)
    ensures (key, v) in UrlParams(c) <==> PairWritten(c, key, v)
  {
    var p1 := Param(c.category != "", CategoryKey, c.category);
    var p2 := Param(c.search != "", SearchKey, c.search);
    var p3 := Param(c.sortOption != DefaultSort, SortParamKey, c.sortOption);
    var p4 := Param(c.minPrice != "", MinPriceKey, c.minPrice);
    var p5 := Param(c.maxPrice != "", MaxPriceKey, c.maxPrice);
    assert UrlParams(c) == p1 + (p2 + (p3 + (p4 + p5)));
    assert (key, v) in UrlParams(c) <==>
      (key, v) in p1 || (key, v) in p2 || (key, v) in p3 || (key, v) in p4 || (key, v) in p5;
  }

  /** Whether updateUrlParams writes the pair (key, v) for criteria `c`. */
  predicate PairWritten(c: Criteria, key: QueryKey, v: string) {
    match key
    case CategoryKey => c.category != "" && v == c.category
    case SearchKey => c.search != "" && v == c.search
    case SortParamKey => c.sortOption != DefaultSort && v == c.sortOption
    case MinPriceKey => c.minPrice != "" && v == c.minPrice
    case MaxPriceKey => c.maxPrice != "" && v == c.maxPrice
    case OtherKey(_) => false
  }

  /** No key occurs in two pairs. */
  predicate DistinctKeys(r: QueryParams) {
    forall i, j :: 0 <= i < j < |r| ==> r[i].0 != r[j].0
  }

  /** In pairs with distinct keys, get finds exactly the pair present. */
  lemma {:induction false} GetWithDistinctKeys(r: QueryParams, key: QueryKey, value: string)
    requires DistinctKeys(r)
    ensures Get(r, key) == Some(value) <==> (key, value) in r
  {
    if r != [] {
      var tail := r[1..];
      assert DistinctKeys(tail) by {
        forall i, j | 0 <= i < j < |tail| ensures tail[i].0 != tail[j].0 {
          assert tail[i] == r[i + 1] && tail[j] == r[j + 1];
        }
      }
      GetWithDistinctKeys(tail, key, value);
      if r[0].0 == key {
        forall j | 0 <= j < |tail| ensures tail[j].0 != key {
          assert tail[j] == r[j + 1];
        }
      }
      assert (key, value) in r <==> r[0] == (key, value) || (key, value) in tail;
    }
  }

  /** What get returns for one key of the written pairs. */
  lemma GetWritten(c: Criteria, key: QueryKey, present: bool, value: string)
    requires forall v :: PairWritten(c, key, v) <==> present && v == value
    ensures Get(UrlParams(c), key) == if present then Some(value) else None
  {
    var r := UrlParams(c);
    assert DistinctKeys(r) by {
      forall i, j | 0 <= i < j < |r| ensures r[i].0 != r[j].0 {
        assert KeyRank(r[i].0) < KeyRank(r[j].0);
      }
    }
    if present {
      GetWithDistinctKeys(r, key, value);
      UrlParamsPairs(c, key, value);
    } else if Get(r, key).Some? {
      GetWithDistinctKeys(r, key, Get(r, key).value);
      UrlParamsPairs(c, key, Get(r, key).value);
    }
  }

  /** Writing the criteria to the query string and reading them back with the
      defaults "" and "newest" gives the same criteria, whenever the sort
      option is not the empty string. */
  lemma UrlRoundTrip(c: Criteria)
    requires c.sortOption != ""
    ensures CriteriaFromUrl(UrlParams(c)) == c
  {
    GetWritten(c, CategoryKey, c.category != "", c.category);
    GetWritten(c, SearchKey, c.search != "", c.search);
    GetWritten(c, SortParamKey, c.sortOption != DefaultSort, c.sortOption);
    GetWritten(c, MinPriceKey, c.minPrice != "", c.minPrice);
    GetWritten(c, MaxPriceKey, c.maxPrice != "", c.maxPrice);
  }

  /** The criteria read from any query string survive a write and a re-read. */
  lemma UrlReadWriteRead(params: QueryParams)
    ensures CriteriaFromUrl(UrlParams(CriteriaFromUrl(params))) == CriteriaFromUrl(params)
  {
    UrlRoundTrip(CriteriaFromUrl(params));
  }

  /** With the empty sort option the round trip fails: the pair ("sort", "")
      is written and reads back as "newest". The page never holds that value. */
  lemma EmptySortDoesNotRoundTrip(c: Criteria)
    requires c.sortOption == ""
    ensures (SortParamKey, "") in UrlParams(c)
    ensures CriteriaFromUrl(UrlParams(c)).sortOption == DefaultSort
  {
    UrlParamsPairs(c, SortParamKey, "");
    GetWritten(c, SortParamKey, true, "");
  }

  // ---------------------------------------------------------------------------
  // Handlers

  /** handleCategoryChange: clicking the selected category clears the
      selection, clicking another selects it. */
  function ToggleCategory(selected: string, categoryId: string): (r: string)
    ensures categoryId != selected ==> r == categoryId
    ensures categoryId == selected ==> r == ""
  {
    if categoryId == selected then "" else categoryId
  }

  /** Clicking the same category twice restores the selection exactly when the
      selection was empty or was that category. */
  lemma ToggleTwice(selected: string, categoryId: string)
    ensures ToggleCategory(ToggleCategory(selected, categoryId), categoryId) == selected
        <==> selected == "" || selected == categoryId
  {
  }

  /** handleClearFilters */
  const ClearedCriteria := Criteria("", "", DefaultSort, "", "")

  /** The number shown on the filter badge: one for a selected category, one
      for any price bound. */
  function ActiveFilterCount(c: Criteria): (n: int)
    ensures 0 <= n <= 2
    ensures n == 0 <==> c.category == "" && c.minPrice == "" && c.maxPrice == ""
    ensures n == 2 <==> c.category != "" && (c.minPrice != "" || c.maxPrice != "")
  {
    (if c.category != "" then 1 else 0) + (if c.minPrice != "" || c.maxPrice != "" then 1 else 0)
  }

  /** After clearing, no criterion narrows the catalog, the query string is
      empty and the badge count is 0. */
  lemma ClearedShowsEverything(products: seq<Product>, parse: Parser)
    ensures Selection(products, ClearedCriteria, parse) == products
    ensures UrlParams(ClearedCriteria) == []
    ensures ActiveFilterCount(ClearedCriteria) == 0
  {
    FilterAll(products, p => Matches(ClearedCriteria, parse, p));
  }

  /** Which price input changed (the input's `name`). */
  datatype PriceInput = Min | Max

  /** The Products page component: its state fields, and the query pairs it
      last navigated to. */
  class ProductsView {
    var products: seq<Product>
    var filteredProducts: seq<Product>
    var selectedCategory: string
    var searchQuery: string
    var sortOption: string
    var priceMin: string
    var priceMax: string
    var isFilterMenuOpen: bool
    var location: QueryParams

    function CurrentCriteria(): Criteria
      reads this
    {
      Criteria(selectedCategory, searchQuery, sortOption, priceMin, priceMax)
    }

    /** The page opened at a query string: criteria seeded from it, no products. */
    constructor (search: QueryParams)
      ensures CurrentCriteria() == CriteriaFromUrl(search)
      ensures products == [] && filteredProducts == [] && !isFilterMenuOpen
      ensures location == search
    {
      var c := CriteriaFromUrl(search);
      selectedCategory, searchQuery, sortOption := c.category, c.search, c.sortOption;
      priceMin, priceMax := c.minPrice, c.maxPrice;
      products, filteredProducts := [], [];
      isFilterMenuOpen := false;
      location := search;
    }

    /** The mount effect: the catalog is loaded. */
    method LoadCatalog(catalog: seq<Product>)
      modifies this
      ensures products == catalog
      ensures CurrentCriteria() == old(CurrentCriteria()) && filteredProducts == old(filteredProducts)
      ensures isFilterMenuOpen == old(isFilterMenuOpen) && location == old(location)
    {
      products := catalog;
    }

    /** The effect run on every criteria or catalog change: applyFilters, then
        updateUrlParams and navigate. */
    method Refresh(parse: Parser)
      modifies this
      ensures multiset(filteredProducts) == multiset(Selection(products, CurrentCriteria(), parse))
      ensures forall p :: p in filteredProducts <==> p in products && Matches(CurrentCriteria(), parse, p)
      ensures SortedFor(sortOption, filteredProducts)
      ensures location == UrlParams(CurrentCriteria())
      ensures CurrentCriteria() == old(CurrentCriteria()) && products == old(products)
      ensures isFilterMenuOpen == old(isFilterMenuOpen)
    {
      filteredProducts := ApplyFilters(products, CurrentCriteria(), parse);
      location := UrlParams(CurrentCriteria());
    }

    method HandleCategoryChange(categoryId: string)
      modifies this
      ensures selectedCategory == ToggleCategory(old(selectedCategory), categoryId)
      ensures !isFilterMenuOpen
      ensures searchQuery == old(searchQuery) && sortOption == old(sortOption)
      ensures priceMin == old(priceMin) && priceMax == old(priceMax)
      ensures products == old(products) && filteredProducts == old(filteredProducts)
      ensures location == old(location)
    {
      selectedCategory := ToggleCategory(selectedCategory, categoryId);
      isFilterMenuOpen := false;
    }

    method HandleSearchChange(value: string)
      modifies this
      ensures CurrentCriteria() == old(CurrentCriteria()).(search := value)
      ensures isFilterMenuOpen == old(isFilterMenuOpen)
      ensures products == old(products) && filteredProducts == old(filteredProducts)
      ensures location == old(location)
    {
      searchQuery := value;
    }

    method HandleSortChange(value: string)
      modifies this
      ensures CurrentCriteria() == old(CurrentCriteria()).(sortOption := value)
      ensures isFilterMenuOpen == old(isFilterMenuOpen)
      ensures products == old(products) && filteredProducts == old(filteredProducts)
      ensures location == old(location)
    {
      sortOption := value;
    }

    /** handlePriceChange: `{ ...prev, [name]: value }` */
    method HandlePriceChange(input: PriceInput, value: string)
      modifies this
      ensures input == Min ==> CurrentCriteria() == old(CurrentCriteria()).(minPrice := value)
      ensures input == Max ==> CurrentCriteria() == old(CurrentCriteria()).(maxPrice := value)
      ensures isFilterMenuOpen == old(isFilterMenuOpen)
      ensures products == old(products) && filteredProducts == old(filteredProducts)
      ensures location == old(location)
    {
      match input
      case Min => priceMin := value;
      case Max => priceMax := value;
    }

    method HandleClearFilters()
      modifies this
      ensures CurrentCriteria() == ClearedCriteria
      ensures isFilterMenuOpen == old(isFilterMenuOpen)
      ensures products == old(products) && filteredProducts == old(filteredProducts)
      ensures location == old(location)
    {
      selectedCategory := "";
      searchQuery := "";
      sortOption := DefaultSort;
      priceMin, priceMax := "", "";
    }

    method ToggleFilterMenu()
      modifies this
      ensures isFilterMenuOpen == !old(isFilterMenuOpen)
      ensures CurrentCriteria() == old(CurrentCriteria())
      ensures products == old(products) && filteredProducts == old(filteredProducts)
      ensures location == old(location)
    {
      isFilterMenuOpen := !isFilterMenuOpen;
    }
  }
}
