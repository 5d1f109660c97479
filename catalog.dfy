/** The catalog hook: the fetched products as catalog entries, the sorted list of their
    categories, the pipeline that searches, filters by category and sorts by price, and the
    two filter menus. Navigation is modelled by the path a click pushes. */
module Catalog {
  import opened Wrappers
  import opened Text
  import opened Numbers
  import opened Seqs
  import opened ProductApi

  /** A catalog entry; `target` is the path its click pushes. */
  datatype CatalogProduct = CatalogProduct(
    id: string,
    name: string,
    price: string,
    imageSrc: string,
    imageAlt: string,
    rating: Num,
    reviewCount: Option<string>,
    category: Option<string>,
    target: string)

  const DefaultBasePath := "/shop"

  /** JavaScript truthiness of a number: neither zero nor `NaN`. */
  predicate NumTruthy(n: Num) {
    !n.NaN? && n != Finite(0.0)
  }

  /** `product.rating || 0` */
  function RatingOf(rating: Option<Num>): (r: Num)
    ensures rating.Some? && NumTruthy(rating.value) ==> r == rating.value
    ensures !(rating.Some? && NumTruthy(rating.value)) ==> r == Finite(0.0)
  {
    if rating.Some? && NumTruthy(rating.value) then rating.value else Finite(0.0)
  }

  /** `${basePath}/${productId}` */
  function ProductPath(basePath: string, id: string): (path: string)
    ensures StartsWith(path, basePath + "/") && path[|basePath| + 1..] == id
  {
    assert (basePath + "/" + id)[..|basePath + "/"|] == basePath + "/";
    basePath + "/" + id
  }

  function CatalogEntry(p: Product, basePath: string): CatalogProduct {
    CatalogProduct(p.id, p.name, p.price, p.imageSrc, Or(p.imageAlt, p.name), RatingOf(p.rating),
                   p.reviewCount, p.brand, ProductPath(basePath, p.id))
  }

  /** `catalogProducts`: one entry per product, in order, its category the brand. */
  function CatalogProducts(products: seq<Product>, basePath: string): (cs: seq<CatalogProduct>)
    ensures |cs| == |products|
    ensures forall i :: 0 <= i < |products| ==> cs[i] == CatalogEntry(products[i], basePath)
  {
    seq(|products|, i requires 0 <= i < |products| => CatalogEntry(products[i], basePath))
  }

  /** What an entry shows and where it leads. */
  lemma CatalogEntryFields(p: Product, basePath: string)
    ensures var c := CatalogEntry(p, basePath);
      && c.id == p.id && c.name == p.name && c.price == p.price && c.imageSrc == p.imageSrc
      && c.category == p.brand && c.reviewCount == p.reviewCount
      && (Truthy(p.imageAlt) ==> c.imageAlt == p.imageAlt.value)
      && (!Truthy(p.imageAlt) ==> c.imageAlt == p.name)
      && (p.rating.None? ==> c.rating == Finite(0.0))
      && StartsWith(c.target, basePath + "/") && c.target[|basePath| + 1..] == p.id
  {
  }

  // ---------------------------------------------------------------------------------------
  // Categories

  /** `product.category` is truthy and equals `c`. */
  predicate HasCategory(products: seq<CatalogProduct>, c: string) {
    c != "" && exists i :: 0 <= i < |products| && products[i].category == Some(c)
  }

  predicate Distinct(s: seq<string>) {
    forall i, j :: 0 <= i < j < |s| ==> s[i] != s[j]
  }

  /** The `forEach` that fills the category set, as the list of its members in insertion
      order (the order `Array.from` gives back). */
  method CategorySet(products: seq<CatalogProduct>) returns (seen: seq<string>)
    ensures Distinct(seen)
    ensures forall c :: c in seen <==> HasCategory(products, c)
  {
    seen := [];
    for i := 0 to |products|
      invariant Distinct(seen)
      invariant forall c :: c in seen <==> HasCategory(products[..i], c)
    {
      assert forall j :: 0 <= j < i ==> products[..i + 1][j] == products[..i][j];
      assert products[..i + 1][i] == products[i];
      var category := products[i].category;
      if Truthy(category) && category.value !in seen {
        seen := seen + [category.value];
      }
      forall c ensures c in seen <==> HasCategory(products[..i + 1], c) {
        if HasCategory(products[..i + 1], c) {
          var j :| 0 <= j < i + 1 && products[..i + 1][j].category == Some(c);
          if j < i {
            assert products[..i][j].category == Some(c);
          }
        }
      }
    }
    assert products[..|products|] == products;
  }

  function ByName(): (string, string) -> bool {
    (a: string, b: string) => LexLe(a, b)
  }

  /** `Array.from(categorySet).sort()` */
  function SortedCategories(seen: seq<string>): (r: seq<string>)
    requires Distinct(seen)
    ensures multiset(r) == multiset(seen)
    ensures SortedBy(r, ByName())
    ensures Distinct(r)
    ensures forall c :: c in r <==> c in seen
  {
    var le := ByName();
    assert TotalOn(le, seen) by {
      forall i, j | 0 <= i < |seen| && 0 <= j < |seen| ensures le(seen[i], seen[j]) || le(seen[j], seen[i]) {
        LexLeTotal(seen[i], seen[j]);
      }
    }
    assert TransitiveOn(le, seen) by {
      forall i, j, k | 0 <= i < |seen| && 0 <= j < |seen| && 0 <= k < |seen| && le(seen[i], seen[j]) && le(seen[j], seen[k])
        ensures le(seen[i], seen[k])
      {
        LexLeTransitive(seen[i], seen[j], seen[k]);
      }
    }
    SortBySorted(seen, le);
    var r := SortBy(seen, le);
    DistinctPermutation(seen, r);
    forall c ensures c in r <==> c in seen {
      assert c in r <==> c in multiset(r);
      assert c in seen <==> c in multiset(seen);
    }
    r
  }

  /** A rearrangement of a list without repeats has no repeats. */
  lemma DistinctPermutation(s: seq<string>, r: seq<string>)
    requires Distinct(s) && multiset(r) == multiset(s)
    ensures Distinct(r)
  {
    forall i, j | 0 <= i < j < |r| ensures r[i] != r[j] {
      if r[i] == r[j] {
        MultisetTwice(r, i, j);
        assert multiset(s)[r[i]] >= 2;
        SeqCountOne(s, r[i]);
      }
    }
  }

  lemma MultisetTwice(r: seq<string>, i: nat, j: nat)
    requires i < j < |r| && r[i] == r[j]
    ensures multiset(r)[r[i]] >= 2
  {
    assert r == r[..i] + [r[i]] + r[i + 1..j] + [r[j]] + r[j + 1..];
  }

  lemma {:induction false} SeqCountOne(s: seq<string>, x: string)
    requires Distinct(s)
    ensures multiset(s)[x] <= 1
  {
    if s != [] {
      assert s == [s[0]] + s[1..];
      assert Distinct(s[1..]) by {
        forall i, j | 0 <= i < j < |s[1..]| ensures s[1..][i] != s[1..][j] {
          assert s[1..][i] == s[i + 1] && s[1..][j] == s[j + 1];
        }
      }
      SeqCountOne(s[1..], x);
      if s[0] == x {
        assert x !in s[1..] by {
          forall k | 0 <= k < |s[1..]| ensures s[1..][k] != x {
            assert s[1..][k] == s[k + 1];
          }
        }
        assert multiset(s[1..])[x] == 0;
      }
    }
  }

  /** `categories`: sorted, without repeats, and exactly the truthy categories. */
  method Categories(products: seq<CatalogProduct>) returns (r: seq<string>)
    ensures SortedBy(r, ByName()) && Distinct(r)
    ensures forall c :: c in r <==> HasCategory(products, c)
  {
    var seen := CategorySet(products);
    r := SortedCategories(seen);
  }

  /** Sorted by `LexLe` without repeats means strictly increasing. */
  lemma SortedDistinctIncreasing(r: seq<string>, i: nat, j: nat)
    requires SortedBy(r, ByName()) && Distinct(r) && i < j < |r|
    ensures LexLe(r[i], r[j]) && !LexLe(r[j], r[i])
  {
    assert ByName()(r[i], r[j]);
    if LexLe(r[j], r[i]) {
      LexLeAntisymmetric(r[i], r[j]);
    }
  }

  // ---------------------------------------------------------------------------------------
  // The filter pipeline

  /** The search box: the lower-cased query occurs in the lower-cased name or category. */
  predicate Matches(query: string, p: CatalogProduct) {
    Contains(ToLower(p.name), query) || (p.category.Some? && Contains(ToLower(p.category.value), query))
  }

  function MatchesQuery(query: string): CatalogProduct -> bool {
    (p: CatalogProduct) => Matches(query, p)
  }

  function Searched(products: seq<CatalogProduct>, search: string): (r: seq<CatalogProduct>)
    ensures search == "" ==> r == products
    ensures search != "" ==> forall i :: 0 <= i < |r| ==> Matches(ToLower(search), r[i])
    ensures search != "" ==> forall i :: 0 <= i < |products| && Matches(ToLower(search), products[i]) ==> products[i] in r
    ensures search != "" ==> forall x | x in products ::
      multiset(r)[x] == if Matches(ToLower(search), x) then multiset(products)[x] else 0
    ensures multiset(r) <= multiset(products)
    ensures IsSubseq(r, products)
  {
    if search == "" then
      SubseqOfSelf(products);
      products
    else
      FilterIsSubseq(products, MatchesQuery(ToLower(search)));
      Filter(products, MatchesQuery(ToLower(search)))
  }

  lemma {:induction false} SubseqOfSelf<T>(s: seq<T>)
    ensures IsSubseq(s, s)
  {
    if s != [] {
      SubseqOfSelf(s[1..]);
    }
  }

  const AllCategories := "All"

  function InCategory(category: string): CatalogProduct -> bool {
    (p: CatalogProduct) => p.category == Some(category)
  }

  function OfCategory(products: seq<CatalogProduct>, category: string): (r: seq<CatalogProduct>)
    ensures category == AllCategories ==> r == products
    ensures category != AllCategories ==> forall i :: 0 <= i < |r| ==> r[i].category == Some(category)
    ensures category != AllCategories ==>
      forall i :: 0 <= i < |products| && products[i].category == Some(category) ==> products[i] in r
    ensures category != AllCategories ==> forall x | x in products ::
      multiset(r)[x] == if x.category == Some(category) then multiset(products)[x] else 0
    ensures multiset(r) <= multiset(products)
    ensures IsSubseq(r, products)
  {
    if category == AllCategories then
      SubseqOfSelf(products);
      products
    else
      FilterIsSubseq(products, InCategory(category));
      Filter(products, InCategory(category))
  }

  const Newest := "Newest"
  const LowHigh := "Price: Low-High"
  const HighLow := "Price: High-Low"

  /** The sort comparator on prices read by `value`, as "compares at most zero": a `NaN`
      difference counts as zero, as `Array.prototype.sort` takes it. */
  function ByPrice(value: string -> Num, ascending: bool): (CatalogProduct, CatalogProduct) -> bool {
    (a: CatalogProduct, b: CatalogProduct) =>
      var x, y := value(a.price), value(b.price);
      if x.Finite? && y.Finite? then (if ascending then x.value <= y.value else y.value <= x.value)
      else true
  }

  predicate PricesRead(products: seq<CatalogProduct>, value: string -> Num) {
    forall i :: 0 <= i < |products| ==> value(products[i].price).Finite?
  }

  /** When every price reads as a number the comparator is a total preorder. */
  lemma ByPriceConsistent(products: seq<CatalogProduct>, value: string -> Num, ascending: bool)
    requires PricesRead(products, value)
    ensures TotalOn(ByPrice(value, ascending), products) && TransitiveOn(ByPrice(value, ascending), products)
  {
  }

  /** `a` costs at most what `b` costs, both prices reading as numbers. */
  predicate PriceAtMost(value: string -> Num, a: CatalogProduct, b: CatalogProduct) {
    value(a.price).Finite? && value(b.price).Finite? && value(a.price).value <= value(b.price).value
  }

  /** Sorting by price rearranges the products; when every price reads as a number they come
      out in order of price. */
  lemma SortedByPrice(products: seq<CatalogProduct>, value: string -> Num, ascending: bool)
    requires PricesRead(products, value)
    ensures var r := SortBy(products, ByPrice(value, ascending));
      && multiset(r) == multiset(products)
      && forall i, j :: 0 <= i < j < |r| ==>
           if ascending then PriceAtMost(value, r[i], r[j]) else PriceAtMost(value, r[j], r[i])
  {
    var le := ByPrice(value, ascending);
    ByPriceConsistent(products, value, ascending);
    SortBySorted(products, le);
    var r := SortBy(products, le);
    forall k | 0 <= k < |r| ensures value(r[k].price).Finite? {
      assert r[k] in multiset(r);
      assert r[k] in multiset(products);
      var m :| 0 <= m < |products| && products[m] == r[k];
    }
    forall i, j | 0 <= i < j < |r|
      ensures if ascending then PriceAtMost(value, r[i], r[j]) else PriceAtMost(value, r[j], r[i])
    {
      assert le(r[i], r[j]);
    }
  }

  function Sorted(products: seq<CatalogProduct>, sort: string): (r: seq<CatalogProduct>)
    ensures sort == LowHigh ==> r == SortBy(products, ByPrice(PriceValue, true))
    ensures sort == HighLow ==> r == SortBy(products, ByPrice(PriceValue, false))
    ensures sort != LowHigh && sort != HighLow ==> r == products
    ensures multiset(r) == multiset(products)
  {
    if sort == LowHigh then SortBy(products, ByPrice(PriceValue, true))
    else if sort == HighLow then SortBy(products, ByPrice(PriceValue, false))
    else products
  }

  /** The entry passes both the search box and the category menu. */
  predicate Shown(search: string, category: string, p: CatalogProduct) {
    (search == "" || Matches(ToLower(search), p)) && (category == AllCategories || p.category == Some(category))
  }

  /** `filteredProducts`: search, then category, then sort. Whatever the sort, the result holds
      exactly the entries that pass both filters, each as often as in the catalog. */
  function FilteredProducts(products: seq<CatalogProduct>, search: string, category: string, sort: string)
    : (r: seq<CatalogProduct>)
    ensures multiset(r) <= multiset(products)
    ensures forall x | x in products :: multiset(r)[x] == if Shown(search, category, x) then multiset(products)[x] else 0
  {
    FilteredCounts(products, search, category);
    Sorted(OfCategory(Searched(products, search), category), sort)
  }

  lemma FilteredCounts(products: seq<CatalogProduct>, search: string, category: string)
    ensures var f := OfCategory(Searched(products, search), category);
      forall x | x in products :: multiset(f)[x] == if Shown(search, category, x) then multiset(products)[x] else 0
  {
    var s := Searched(products, search);
    var f := OfCategory(s, category);
    forall x | x in products
      ensures multiset(f)[x] == if Shown(search, category, x) then multiset(products)[x] else 0
    {
      if x !in s {
        assert multiset(s)[x] == 0;
      }
    }
  }

  /** With "Newest", and with neither filter set, the pipeline changes nothing; "Newest"
      keeps the filtered products in their original order. */
  lemma NewestKeepsOrder(products: seq<CatalogProduct>, search: string, category: string)
    ensures FilteredProducts(products, search, category, Newest) == OfCategory(Searched(products, search), category)
    ensures IsSubseq(FilteredProducts(products, search, category, Newest), products)
    ensures FilteredProducts(products, "", AllCategories, Newest) == products
  {
    SubseqTransitive(OfCategory(Searched(products, search), category), Searched(products, search), products);
  }

  lemma {:induction false} SubseqTransitive<T>(a: seq<T>, b: seq<T>, c: seq<T>)
    requires IsSubseq(a, b) && IsSubseq(b, c)
    ensures IsSubseq(a, c)
    decreases |c|
  {
    if a != [] && c != [] {
      if b[0] == c[0] && IsSubseq(b[1..], c[1..]) {
        if a[0] == b[0] && IsSubseq(a[1..], b[1..]) {
          SubseqTransitive(a[1..], b[1..], c[1..]);
        } else {
          SubseqTransitive(a, b[1..], c[1..]);
        }
        SubseqDropFront(a, c);
      } else {
        SubseqTransitive(a, b, c[1..]);
      }
    }
  }

  /** Dropping the first element of the larger list keeps a subsequence of the rest... */
  lemma SubseqDropFront<T>(a: seq<T>, c: seq<T>)
    requires c != [] && (IsSubseq(a, c[1..]) || (a != [] && a[0] == c[0] && IsSubseq(a[1..], c[1..])))
    ensures IsSubseq(a, c)
  {
  }

  /** The price sorts: a rearrangement of the filtered products, in order of price when
      every price parses. */
  lemma PriceSortOrders(products: seq<CatalogProduct>, search: string, category: string, sort: string)
    requires sort == LowHigh || sort == HighLow
    requires PricesRead(OfCategory(Searched(products, search), category), PriceValue)
    ensures var f, r := OfCategory(Searched(products, search), category), FilteredProducts(products, search, category, sort);
      && multiset(r) == multiset(f)
      && forall i, j :: 0 <= i < j < |r| ==>
           (sort == LowHigh ==> PriceAtMost(PriceValue, r[i], r[j]))
           && (sort == HighLow ==> PriceAtMost(PriceValue, r[j], r[i]))
  {
    var f := OfCategory(Searched(products, search), category);
    SortedByPrice(f, PriceValue, sort == LowHigh);
  }

  // ---------------------------------------------------------------------------------------
  // The filter menus

  /** A filter menu: its title, its options and the selected one. */
  datatype FilterMenu = FilterMenu(title: string, options: seq<string>, selected: string)

  const SortOptions := [Newest, LowHigh, HighLow]

  /** `filters`: choosing an option of the first menu sets `category`, of the second `sort`. */
  function Filters(categories: seq<string>, category: string, sort: string): (fs: seq<FilterMenu>)
    ensures |fs| == 2 && forall m | m in fs :: |m.options| >= 1
  {
    [FilterMenu("Category", [AllCategories] + categories, category), FilterMenu("Sort", SortOptions, sort)]
  }

  /** What `categories` is, as `Categories` ensures it. */
  ghost predicate CategoriesOf(products: seq<CatalogProduct>, categories: seq<string>) {
    SortedBy(categories, ByName()) && Distinct(categories) && forall c :: c in categories <==> HasCategory(products, c)
  }

  /** The category menu of a catalog: it shows the current choice; its first option keeps every
      entry; it offers every category of an entry, after "All" and in strictly increasing order;
      and each of those options keeps at least one entry of that category. */
  lemma CategoryMenu(products: seq<CatalogProduct>, categories: seq<string>, category: string, sort: string)
    requires CategoriesOf(products, categories)
    ensures var menu := Filters(categories, category, sort)[0];
      && menu.selected == category
      && menu.options[0] == AllCategories && OfCategory(products, menu.options[0]) == products
      && (forall c :: HasCategory(products, c) ==> c in menu.options[1..])
      && (forall k, l :: 1 <= k < l < |menu.options| ==>
            LexLe(menu.options[k], menu.options[l]) && !LexLe(menu.options[l], menu.options[k]))
      && forall k :: 1 <= k < |menu.options| ==> ChoosingKeepsOne(products, menu.options[k])
  {
    var options := Filters(categories, category, sort)[0].options;
    assert options[1..] == categories;
    forall k, l | 1 <= k < l < |options|
      ensures LexLe(options[k], options[l]) && !LexLe(options[l], options[k])
    {
      SortedDistinctIncreasing(categories, k - 1, l - 1);
    }
    forall k | 1 <= k < |options| ensures ChoosingKeepsOne(products, options[k]) {
      assert options[k] == categories[k - 1];
      CategoryKeepsOne(products, options[k]);
    }
  }

  /** Choosing category `c` keeps some entry of category `c`. */
  predicate ChoosingKeepsOne(products: seq<CatalogProduct>, c: string) {
    exists i :: 0 <= i < |products| && products[i].category == Some(c) && products[i] in OfCategory(products, c)
  }

  lemma CategoryKeepsOne(products: seq<CatalogProduct>, c: string)
    requires HasCategory(products, c)
    ensures ChoosingKeepsOne(products, c) && OfCategory(products, c) != []
  {
    var i :| 0 <= i < |products| && products[i].category == Some(c);
    assert products[i] in OfCategory(products, c);
  }

  /** A brand named "All" is offered a second time after the first "All", and choosing it
      too keeps every entry, not only those of that brand. */
  lemma AllCategoryOfferedTwice(products: seq<CatalogProduct>, categories: seq<string>, category: string, sort: string)
    requires CategoriesOf(products, categories) && HasCategory(products, AllCategories)
    ensures var options := Filters(categories, category, sort)[0].options;
      exists k :: 1 <= k < |options| && options[k] == AllCategories && OfCategory(products, options[k]) == products
  {
    var options := Filters(categories, category, sort)[0].options;
    var j :| 0 <= j < |categories| && categories[j] == AllCategories;
    assert options[j + 1] == AllCategories;
  }

  /** The sort menu: it shows the current choice; "Newest" keeps the order; the two price
      options rearrange the entries, rising and then falling in price when every price parses. */
  lemma SortMenu(products: seq<CatalogProduct>, categories: seq<string>, category: string, sort: string)
    ensures var menu := Filters(categories, category, sort)[1];
      && menu.selected == sort && |menu.options| == 3
      && Sorted(products, menu.options[0]) == products
      && multiset(Sorted(products, menu.options[1])) == multiset(products)
      && multiset(Sorted(products, menu.options[2])) == multiset(products)
      && (PricesRead(products, PriceValue) ==>
            && (forall i, j :: 0 <= i < j < |products| ==>
                  PriceAtMost(PriceValue, Sorted(products, menu.options[1])[i], Sorted(products, menu.options[1])[j]))
            && (forall i, j :: 0 <= i < j < |products| ==>
                  PriceAtMost(PriceValue, Sorted(products, menu.options[2])[j], Sorted(products, menu.options[2])[i])))
  {
    if PricesRead(products, PriceValue) {
      SortedByPrice(products, PriceValue, true);
      SortedByPrice(products, PriceValue, false);
    }
  }
}
