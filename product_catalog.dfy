/** The listing page's pipeline: four narrowing filters over the catalog,
    applied in order, then an in-place sort by the selected option. */
module ProductCatalog {
  import opened Wrappers
  import Pricing
  import Text

  /** A catalog record. Prices are in cents; the rating is scaled to an
      integer (tenths of a star). */
  datatype Product = Product(
    id: int, name: string, price: int, discountPrice: Option<int>,
    image: string, category: string, rating: int, reviews: int,
    isNew: Option<bool>, isBestSeller: Option<bool>, inStock: bool)

  /** The page's filter state, as text: an empty string means "not set". */
  datatype Criteria = Criteria(
    category: string, search: string, sortOption: string,
    minPrice: string, maxPrice: string)

  /** parseFloat on a price bound: the amount in cents, or None for NaN. */
  type Parser = string -> Option<int>

  function EffectivePrice(p: Product): int {
    Pricing.EffectivePrice(p.price, p.discountPrice)
  }

  // ---------------------------------------------------------------------------
  // filter, and how successive filters compose

  /** Array.prototype.filter */
  function Filter(s: seq<Product>, keep: Product -> bool): (r: seq<Product>)
    ensures |r| <= |s|
  {
    if s == [] then []
    else (if keep(s[0]) then [s[0]] else []) + Filter(s[1..], keep)
  }

  /** filter keeps exactly the elements that pass, and drops the rest. */
  lemma {:induction false} FilterMembers(s: seq<Product>, keep: Product -> bool)
    ensures forall p :: p in Filter(s, keep) <==> p in s && keep(p)
    ensures multiset(Filter(s, keep)) <= multiset(s)
  {
    if s != [] {
      FilterMembers(s[1..], keep);
      assert s == [s[0]] + s[1..];
    }
  }

  /** Filtering by `f` and then by `g` is filtering once by `f && g`. */
  lemma {:induction false} FilterFuse(s: seq<Product>, f: Product -> bool, g: Product -> bool, h: Product -> bool)
    requires forall p :: h(p) == (f(p) && g(p))
    ensures Filter(Filter(s, f), g) == Filter(s, h)
  {
    if s != [] {
      var rest := Filter(s[1..], f);
      FilterFuse(s[1..], f, g, h);
      if f(s[0]) {
        calc {
          Filter(Filter(s, f), g);
          Filter([s[0]] + rest, g);
          { assert ([s[0]] + rest)[0] == s[0] && ([s[0]] + rest)[1..] == rest; }
          (if g(s[0]) then [s[0]] else []) + Filter(rest, g);
          Filter(s, h);
        }
      } else {
        assert Filter(s, f) == rest;
      }
    }
  }

  /** Filters with pointwise equal predicates agree. */
  lemma {:induction false} FilterSame(s: seq<Product>, f: Product -> bool, h: Product -> bool)
    requires forall p :: f(p) == h(p)
    ensures Filter(s, f) == Filter(s, h)
  {
    if s != [] { FilterSame(s[1..], f, h); }
  }

  /** A predicate that holds of every product filters nothing out. */
  lemma {:induction false} FilterAll(s: seq<Product>, f: Product -> bool)
    requires forall p :: f(p)
    ensures Filter(s, f) == s
  {
    if s != [] {
      FilterAll(s[1..], f);
      assert s == [s[0]] + s[1..];
    }
  }

  // ---------------------------------------------------------------------------
  // The four criteria, each true when its criterion is not set

  predicate InCategory(c: Criteria, p: Product) {
    c.category == "" || p.category == c.category
  }

  predicate MatchesSearch(c: Criteria, p: Product) {
    c.search == ""
    || Text.Includes(Text.ToLower(p.name), Text.ToLower(c.search))
    || Text.Includes(Text.ToLower(p.category), Text.ToLower(c.search))
  }

  /** A set but unparsable bound (NaN) fails every comparison. */
  predicate AboveMin(c: Criteria, parse: Parser, p: Product) {
    c.minPrice == "" || (parse(c.minPrice).Some? && EffectivePrice(p) >= parse(c.minPrice).value)
  }

  predicate BelowMax(c: Criteria, parse: Parser, p: Product) {
    c.maxPrice == "" || (parse(c.maxPrice).Some? && EffectivePrice(p) <= parse(c.maxPrice).value)
  }

  predicate Matches(c: Criteria, parse: Parser, p: Product) {
    InCategory(c, p) && MatchesSearch(c, p) && AboveMin(c, parse, p) && BelowMax(c, parse, p)
  }

  /** The reference selection: one pass keeping the products that meet all
      four criteria. */
  function Selection(products: seq<Product>, c: Criteria, parse: Parser): seq<Product> {
    Filter(products, p => Matches(c, parse, p))
  }

  // ---------------------------------------------------------------------------
  // The sort

  /** The comparator of each sort option; any option not listed is "newest". */
  function Compare(sortOption: string, a: Product, b: Product): (r: int)
    ensures r == SortKey(sortOption, a) - SortKey(sortOption, b)
  {
    if sortOption == "price_asc" then EffectivePrice(a) - EffectivePrice(b)
    else if sortOption == "price_desc" then EffectivePrice(b) - EffectivePrice(a)
    else if sortOption == "rating" then b.rating - a.rating
    else if sortOption == "popularity" then b.reviews - a.reviews
    else b.id - a.id
  }

  /** The order each option asks for, as one ascending key: effective price
      for "price_asc"; negated effective price, rating, review count or id for
      "price_desc", "rating", "popularity" and everything else. */
  function SortKey(sortOption: string, p: Product): int {
    if sortOption == "price_asc" then EffectivePrice(p)
    else if sortOption == "price_desc" then -EffectivePrice(p)
    else if sortOption == "rating" then -p.rating
    else if sortOption == "popularity" then -p.reviews
    else -p.id
  }

  predicate SortedFor(sortOption: string, s: seq<Product>) {
    forall i, j :: 0 <= i < j < |s| ==> SortKey(sortOption, s[i]) <= SortKey(sortOption, s[j])
  }

  method Swap(a: array<Product>, i: nat, j: nat)
    requires i < a.Length && j < a.Length
    modifies a
    ensures a[..] == old(a[..])[i := old(a[j])][j := old(a[i])]
    ensures multiset(a[..]) == multiset(old(a[..]))
  {
    a[i], a[j] := a[j], a[i];
  }

  /** `filtered.sort(comparator)`: an insertion sort that moves an element left
      past every element the comparator puts after it. */
  method SortInPlace(a: array<Product>, sortOption: string)
    modifies a
    ensures SortedFor(sortOption, a[..])
    ensures multiset(a[..]) == multiset(old(a[..]))
  {
    var i := 0;
    while i < a.Length
      invariant 0 <= i <= a.Length
      invariant forall k, l :: 0 <= k < l < i ==> SortKey(sortOption, a[k]) <= SortKey(sortOption, a[l])
      invariant multiset(a[..]) == multiset(old(a[..]))
    {
      var j := i;
      while j > 0 && Compare(sortOption, a[j - 1], a[j]) > 0
        invariant 0 <= j <= i
        invariant forall k, l :: 0 <= k < l <= i && k != j && l != j ==> SortKey(sortOption, a[k]) <= SortKey(sortOption, a[l])
        invariant forall l :: j < l <= i ==> SortKey(sortOption, a[j]) < SortKey(sortOption, a[l])
        invariant 0 < j < i ==> SortKey(sortOption, a[j - 1]) <= SortKey(sortOption, a[j + 1])
        invariant multiset(a[..]) == multiset(old(a[..]))
      {
        Swap(a, j - 1, j);
        j := j - 1;
      }
      i := i + 1;
    }
  }

  /** What each sort option's order means for adjacent and distant pairs. */
  lemma SortedOrders(sortOption: string, s: seq<Product>)
    requires SortedFor(sortOption, s)
    ensures sortOption == "price_asc" ==>
      forall i, j :: 0 <= i < j < |s| ==> EffectivePrice(s[i]) <= EffectivePrice(s[j])
    ensures sortOption == "price_desc" ==>
      forall i, j :: 0 <= i < j < |s| ==> EffectivePrice(s[i]) >= EffectivePrice(s[j])
    ensures sortOption == "rating" ==>
      forall i, j :: 0 <= i < j < |s| ==> s[i].rating >= s[j].rating
    ensures sortOption == "popularity" ==>
      forall i, j :: 0 <= i < j < |s| ==> s[i].reviews >= s[j].reviews
    ensures (sortOption != "price_asc" && sortOption != "price_desc"
             && sortOption != "rating" && sortOption != "popularity") ==>
      forall i, j :: 0 <= i < j < |s| ==> s[i].id >= s[j].id
  {
  }

  // ---------------------------------------------------------------------------
  // applyFilters

  /** The selection holds exactly the catalog products meeting all criteria. */
  lemma SelectionMembers(products: seq<Product>, c: Criteria, parse: Parser)
    ensures forall p :: p in Selection(products, c, parse) <==> p in products && Matches(c, parse, p)
    ensures multiset(Selection(products, c, parse)) <= multiset(products)
  {
    FilterMembers(products, p => Matches(c, parse, p));
  }

  /** The four narrowing steps of applyFilters, each applied only when its
      criterion is set; together they compute the reference selection. */
  method Narrow(products: seq<Product>, c: Criteria, parse: Parser) returns (filtered: seq<Product>)
    ensures filtered == Selection(products, c, parse)
  {
    ghost var upToCategory: Product -> bool := p => InCategory(c, p);
    ghost var upToSearch: Product -> bool := p => InCategory(c, p) && MatchesSearch(c, p);
    ghost var upToMin: Product -> bool := p => upToSearch(p) && AboveMin(c, parse, p);
    ghost var upToMax: Product -> bool := p => Matches(c, parse, p);

    filtered := products;

    if c.category != "" {
      var keep := (p: Product) => p.category == c.category;
      filtered := Filter(filtered, keep);
      FilterSame(products, keep, upToCategory);
    } else {
      FilterAll(products, upToCategory);
    }
    assert filtered == Filter(products, upToCategory);

    if c.search != "" {
      var query := Text.ToLower(c.search);
      var keep := (p: Product) => Text.Includes(Text.ToLower(p.name), query) || Text.Includes(Text.ToLower(p.category), query);
      filtered := Filter(filtered, keep);
      FilterFuse(products, upToCategory, keep, upToSearch);
    } else {
      FilterSame(products, upToCategory, upToSearch);
    }
    assert filtered == Filter(products, upToSearch);

    if c.minPrice != "" {
      var keep := (p: Product) => var bound := parse(c.minPrice); bound.Some? && EffectivePrice(p) >= bound.value;
      filtered := Filter(filtered, keep);
      FilterFuse(products, upToSearch, keep, upToMin);
    } else {
      FilterSame(products, upToSearch, upToMin);
    }
    assert filtered == Filter(products, upToMin);

    if c.maxPrice != "" {
      var keep := (p: Product) => var bound := parse(c.maxPrice); bound.Some? && EffectivePrice(p) <= bound.value;
      filtered := Filter(filtered, keep);
      FilterFuse(products, upToMin, keep, upToMax);
    } else {
      FilterSame(products, upToMin, upToMax);
    }
    FilterSame(products, upToMax, p => Matches(c, parse, p));
  }

  /** applyFilters: exactly the catalog products that meet the criteria, as a
      permutation of the reference selection, in the order of the sort option. */
  method ApplyFilters(products: seq<Product>, c: Criteria, parse: Parser) returns (result: seq<Product>)
    ensures multiset(result) == multiset(Selection(products, c, parse))
    ensures forall p :: p in result <==> p in products && Matches(c, parse, p)
    ensures c.category != "" ==> forall p :: p in result ==> p.category == c.category
    ensures c.search != "" ==> forall p :: p in result ==>
      Text.Includes(Text.ToLower(p.name), Text.ToLower(c.search))
      || Text.Includes(Text.ToLower(p.category), Text.ToLower(c.search))
    ensures c.minPrice != "" && parse(c.minPrice).Some? ==>
      forall p :: p in result ==> parse(c.minPrice).value <= EffectivePrice(p)
    ensures c.maxPrice != "" && parse(c.maxPrice).Some? ==>
      forall p :: p in result ==> EffectivePrice(p) <= parse(c.maxPrice).value
    ensures (c.minPrice != "" && parse(c.minPrice).None?) || (c.maxPrice != "" && parse(c.maxPrice).None?) ==>
      result == []
    ensures SortedFor(c.sortOption, result)
    ensures c.sortOption == "price_asc" ==>
      forall i, j :: 0 <= i < j < |result| ==> EffectivePrice(result[i]) <= EffectivePrice(result[j])
    ensures c.sortOption == "price_desc" ==>
      forall i, j :: 0 <= i < j < |result| ==> EffectivePrice(result[i]) >= EffectivePrice(result[j])
    ensures c.sortOption == "rating" ==>
      forall i, j :: 0 <= i < j < |result| ==> result[i].rating >= result[j].rating
    ensures c.sortOption == "popularity" ==>
      forall i, j :: 0 <= i < j < |result| ==> result[i].reviews >= result[j].reviews
    ensures (c.sortOption != "price_asc" && c.sortOption != "price_desc"
             && c.sortOption != "rating" && c.sortOption != "popularity") ==>
      forall i, j :: 0 <= i < j < |result| ==> result[i].id >= result[j].id
  {
    var filtered := Narrow(products, c, parse);
    var a := new Product[|filtered|](k requires 0 <= k < |filtered| => filtered[k]);
    assert a[..] == filtered;
    SortInPlace(a, c.sortOption);
    result := a[..];

    SelectionMembers(products, c, parse);
    SortedOrders(c.sortOption, result);
    forall p ensures p in result <==> p in filtered {
      assert p in result <==> p in multiset(result);
      assert p in filtered <==> p in multiset(filtered);
    }
    if result != [] {
      assert result[0] in result;
    }
  }
}
