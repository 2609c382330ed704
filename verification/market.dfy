/**
 * The product query of the marketplace: a filter over the fixed catalogue by
 * search text, purchase type and category, followed by a sort by price,
 * rating or recency. Ratings are held in tenths of a star.
 */
module Market {
  import opened JsString

  datatype Product = Product(
    id: int,
    name: string,
    price: int,
    rentalPrice: int,
    description: string,
    category: string,
    rating: int)

  const Catalogue: seq<Product> := [
    Product(1, "Smart Drip Irrigation Kit", 5000, 800,
      "Advanced water-efficient drip irrigation system with smart controls, perfect for Indian farming conditions. Includes automated scheduling and mobile monitoring.",
      "Irrigation", 47),
    Product(2, "Premium Seeds Collection", 4999, 0,
      "Comprehensive collection of premium indigenous seed varieties, specially selected for Indian farming conditions. Includes major crop varieties with high yield potential.",
      "Seeds", 46),
    Product(3, "Kisan Pro Sprayer Drone", 50000, 2500,
      "Professional-grade agricultural drone with advanced spraying capabilities. Features precision controls, HD camera, and intelligent flight planning for efficient crop management.",
      "Technology", 49),
    Product(4, "Digital Soil Analysis Kit", 8999, 400,
      "Professional digital soil testing kit with comprehensive analysis capabilities. Includes mobile app integration and access to regional soil type database for accurate results.",
      "Tools", 44),
    Product(5, "Smart Polyhouse System", 65000, 1200,
      "Automated polyhouse management system designed for Indian weather conditions. Features smart climate control, remote monitoring, and integrated pest management system.",
      "Technology", 47),
    Product(6, "Organic Farming Bundle", 3499, 100,
      "Complete organic farming starter kit including premium vermicompost, organic pesticides, and bio-fertilizers. Perfect for sustainable agriculture practices.",
      "Organic", 45)
  ]

  /** The options of the category selector. */
  const Categories: seq<string> := ["All", "Heavy Equipment", "Technology", "Chemicals", "Tools", "Seeds", "Irrigation"]

  datatype TypeFilter = AllTypes | Buy | Rent

  datatype SortOrder = ByPrice | ByRating | Newest

  // ---------------------------------------------------------------------------
  // Filtering

  /** The lower-cased query occurs in the lower-cased name or description. */
  predicate MatchesSearch(p: Product, query: string) {
    Includes(ToLower(p.name), ToLower(query)) || Includes(ToLower(p.description), ToLower(query))
  }

  predicate MatchesType(p: Product, kind: TypeFilter) {
    kind == AllTypes || (kind == Buy && p.price > 0) || (kind == Rent && p.rentalPrice > 0)
  }

  predicate MatchesCategory(p: Product, category: string) {
    category == "All" || p.category == category
  }

  predicate Matches(p: Product, query: string, kind: TypeFilter, category: string) {
    MatchesSearch(p, query) && MatchesType(p, kind) && MatchesCategory(p, category)
  }

  /** `a` is `b` with some elements left out, the rest in their order. */
  predicate IsSubsequence(a: seq<Product>, b: seq<Product>)
    decreases |b|
  {
    a == [] || (b != [] && ((a[0] == b[0] && IsSubsequence(a[1..], b[1..])) || IsSubsequence(a, b[1..])))
  }

  /** The `filter` step: exactly the matching products, in catalogue order. */
  function FilterProducts(ps: seq<Product>, query: string, kind: TypeFilter, category: string): (r: seq<Product>)
    ensures forall p :: p in r ==> Matches(p, query, kind, category)
    ensures forall p :: p in ps && Matches(p, query, kind, category) ==> p in r
    ensures IsSubsequence(r, ps)
  {
    if ps == [] then []
    else if Matches(ps[0], query, kind, category) then
      var rest := FilterProducts(ps[1..], query, kind, category);
      assert ([ps[0]] + rest)[1..] == rest;
      [ps[0]] + rest
    else FilterProducts(ps[1..], query, kind, category)
  }

  /** A subsequence holds only elements of the sequence it was taken from. */
  lemma {:induction false} SubsequenceMembers(a: seq<Product>, b: seq<Product>)
    requires IsSubsequence(a, b)
    ensures forall x :: x in a ==> x in b
    decreases |b|
  {
    if a != [] {
      if a[0] == b[0] && IsSubsequence(a[1..], b[1..]) {
        SubsequenceMembers(a[1..], b[1..]);
        forall x | x in a ensures x in b {
          if x != a[0] { assert x in a[1..]; }
        }
      } else {
        SubsequenceMembers(a, b[1..]);
      }
    }
  }

  predicate NoDuplicates(s: seq<Product>) {
    forall i, j :: 0 <= i < j < |s| ==> s[i] != s[j]
  }

  /** Leaving elements out cannot create a duplicate. */
  lemma {:induction false} SubsequenceNoDuplicates(a: seq<Product>, b: seq<Product>)
    requires IsSubsequence(a, b) && NoDuplicates(b)
    ensures NoDuplicates(a)
    decreases |b|
  {
    if a != [] {
      assert NoDuplicates(b[1..]) by {
        forall i, j | 0 <= i < j < |b| - 1 ensures b[1..][i] != b[1..][j] {
          assert b[1..][i] == b[i + 1] && b[1..][j] == b[j + 1];
        }
      }
      if a[0] == b[0] && IsSubsequence(a[1..], b[1..]) {
        SubsequenceNoDuplicates(a[1..], b[1..]);
        SubsequenceMembers(a[1..], b[1..]);
        forall i, j | 0 <= i < j < |a| ensures a[i] != a[j] {
          if i == 0 {
            assert a[j] == a[1..][j - 1];
            assert a[j] in b[1..];
            var k :| 0 <= k < |b| - 1 && b[1..][k] == a[j];
            assert b[k + 1] == a[j];
          } else {
            assert a[i] == a[1..][i - 1] && a[j] == a[1..][j - 1];
          }
        }
      } else {
        SubsequenceNoDuplicates(a, b[1..]);
      }
    }
  }

  // ---------------------------------------------------------------------------
  // Sorting

  /** The comparator of each order is `SortKey(a) - SortKey(b)`: price ascending, rating and id descending. */
  function SortKey(p: Product, order: SortOrder): int {
    match order
    case ByPrice => p.price
    case ByRating => -p.rating
    case Newest => -p.id
  }

  predicate Sorted(s: seq<Product>, order: SortOrder) {
    forall i, j :: 0 <= i < j < |s| ==> SortKey(s[i], order) <= SortKey(s[j], order)
  }

  /** A key no larger than any key of a sorted sequence can go in front of it. */
  lemma SortedCons(h: Product, t: seq<Product>, order: SortOrder)
    requires Sorted(t, order)
    requires forall y :: y in t ==> SortKey(h, order) <= SortKey(y, order)
    ensures Sorted([h] + t, order)
  {
    forall i, j | 0 <= i < j < |t| + 1 ensures SortKey(([h] + t)[i], order) <= SortKey(([h] + t)[j], order) {
      assert ([h] + t)[j] == t[j - 1];
      if i > 0 {
        assert ([h] + t)[i] == t[i - 1];
      } else {
        assert t[j - 1] in t;
      }
    }
  }

  /** Inserts `x` before the first element whose key is not smaller, keeping equal keys in input order. */
  function Insert(x: Product, s: seq<Product>, order: SortOrder): (r: seq<Product>)
    requires Sorted(s, order)
    ensures Sorted(r, order)
    ensures multiset(r) == multiset(s) + multiset{x}
  {
    if s == [] then [x]
    else if SortKey(x, order) <= SortKey(s[0], order) then
      assert forall y :: y in s ==> SortKey(s[0], order) <= SortKey(y, order);
      SortedCons(x, s, order);
      [x] + s
    else
      assert s == [s[0]] + s[1..];
      var rest := Insert(x, s[1..], order);
      assert forall y :: y in rest ==> SortKey(s[0], order) <= SortKey(y, order) by {
        forall y | y in rest ensures SortKey(s[0], order) <= SortKey(y, order) {
          assert y in multiset(rest);
          if y != x {
            assert y in multiset(s[1..]);
            var k :| 0 <= k < |s| - 1 && s[1..][k] == y;
            assert s[k + 1] == y;
          }
        }
      }
      SortedCons(s[0], rest, order);
      [s[0]] + rest
  }

  /** The `sort` step: a stable insertion sort by the order's key. */
  function SortProducts(s: seq<Product>, order: SortOrder): (r: seq<Product>)
    ensures Sorted(r, order)
    ensures multiset(r) == multiset(s)
  {
    if s == [] then []
    else
      assert s == [s[0]] + s[1..];
      Insert(s[0], SortProducts(s[1..], order), order)
  }

  // ---------------------------------------------------------------------------
  // Duplicates and permutations

  lemma {:induction false} CountAtMostOne(s: seq<Product>, x: Product)
    requires NoDuplicates(s)
    ensures multiset(s)[x] <= 1
  {
    if s != [] {
      assert s == [s[0]] + s[1..];
      assert NoDuplicates(s[1..]) by {
        forall i, j | 0 <= i < j < |s| - 1 ensures s[1..][i] != s[1..][j] {
          assert s[1..][i] == s[i + 1] && s[1..][j] == s[j + 1];
        }
      }
      CountAtMostOne(s[1..], x);
      if x == s[0] {
        assert x !in s[1..] by {
          forall k | 0 <= k < |s| - 1 ensures s[1..][k] != x {
            assert s[1..][k] == s[k + 1];
          }
        }
      }
    }
  }

  /** Two equal elements at different positions count twice. */
  lemma RepeatCountsTwice(s: seq<Product>, i: int, j: int)
    requires 0 <= i < j < |s| && s[i] == s[j]
    ensures multiset(s)[s[i]] >= 2
  {
    assert s == s[..j] + s[j..];
    assert s[i] in s[..j];
    assert s[j] in s[j..];
  }

  /** A permutation of a sequence without duplicates has none either. */
  lemma PermutationNoDuplicates(a: seq<Product>, b: seq<Product>)
    requires multiset(a) == multiset(b) && NoDuplicates(a)
    ensures NoDuplicates(b)
  {
    forall i, j | 0 <= i < j < |b| ensures b[i] != b[j] {
      if b[i] == b[j] {
        RepeatCountsTwice(b, i, j);
        CountAtMostOne(a, b[i]);
        assert false;
      }
    }
  }

  // ---------------------------------------------------------------------------
  // The whole query

  predicate IdsUnique(s: seq<Product>) {
    forall i, j :: 0 <= i < j < |s| ==> s[i].id != s[j].id
  }

  /** The catalogue's ids are 1 to 6 in order, hence unique. */
  lemma CatalogueIdsUnique()
    ensures IdsUnique(Catalogue)
  {
    assert forall i :: 0 <= i < |Catalogue| ==> Catalogue[i].id == i + 1;
  }

  /**
   * The filter followed by the sort over any product list: every listed
   * product is in the list and matches all three conditions, every matching
   * product is listed, and the result is ordered as the sort selector says:
   * price non-decreasing, rating non-increasing, or (ids being unique) id
   * strictly decreasing.
   */
  function QueryProducts(ps: seq<Product>, query: string, kind: TypeFilter, category: string, order: SortOrder)
    : (r: seq<Product>)
    ensures forall p :: p in r ==> p in ps && Matches(p, query, kind, category)
    ensures forall p :: p in ps && Matches(p, query, kind, category) ==> p in r
    ensures multiset(r) == multiset(FilterProducts(ps, query, kind, category))
    ensures order == ByPrice ==> forall i, j :: 0 <= i < j < |r| ==> r[i].price <= r[j].price
    ensures order == ByRating ==> forall i, j :: 0 <= i < j < |r| ==> r[i].rating >= r[j].rating
    ensures order == Newest && IdsUnique(ps) ==> forall i, j :: 0 <= i < j < |r| ==> r[i].id > r[j].id
  {
    var matching := FilterProducts(ps, query, kind, category);
    var r := SortProducts(matching, order);
    SubsequenceMembers(matching, ps);
    SameMembers(matching, r);
    SortedFields(r, order);
    NewestIsStrict(ps, matching, r, order);
    r
  }

  /** A permutation has the same members. */
  lemma SameMembers(a: seq<Product>, b: seq<Product>)
    requires multiset(a) == multiset(b)
    ensures forall x :: x in a <==> x in b
  {
    forall x ensures x in a <==> x in b {
      assert x in a <==> x in multiset(a);
      assert x in b <==> x in multiset(b);
    }
  }

  /** What sorting by each key means for the product's fields. */
  lemma SortedFields(r: seq<Product>, order: SortOrder)
    requires Sorted(r, order)
    ensures order == ByPrice ==> forall i, j :: 0 <= i < j < |r| ==> r[i].price <= r[j].price
    ensures order == ByRating ==> forall i, j :: 0 <= i < j < |r| ==> r[i].rating >= r[j].rating
    ensures order == Newest ==> forall i, j :: 0 <= i < j < |r| ==> r[i].id >= r[j].id
  {
    forall i, j | 0 <= i < j < |r| ensures SortKey(r[i], order) <= SortKey(r[j], order) { }
  }

  /** Sorting by recency products taken from a list with unique ids never puts two of them at one id. */
  lemma NewestIsStrict(ps: seq<Product>, matching: seq<Product>, r: seq<Product>, order: SortOrder)
    requires IsSubsequence(matching, ps)
    requires multiset(r) == multiset(matching)
    requires Sorted(r, order)
    ensures order == Newest && IdsUnique(ps) ==> forall i, j :: 0 <= i < j < |r| ==> r[i].id > r[j].id
  {
    if order != Newest || !IdsUnique(ps) {
      return;
    }
    assert NoDuplicates(ps);
    SubsequenceNoDuplicates(matching, ps);
    SubsequenceMembers(matching, ps);
    PermutationNoDuplicates(matching, r);
    forall i, j | 0 <= i < j < |r| ensures r[i].id > r[j].id {
      assert SortKey(r[i], Newest) <= SortKey(r[j], Newest);
      assert r[i] in multiset(matching) && r[j] in multiset(matching);
      assert r[i] in ps && r[j] in ps;
      assert r[i] != r[j];
    }
  }

  /** `filteredProducts`: the query over the catalogue, whose ids are unique. */
  function FilteredProducts(query: string, kind: TypeFilter, category: string, order: SortOrder): (r: seq<Product>)
    ensures forall p :: p in r ==> p in Catalogue && Matches(p, query, kind, category)
    ensures forall p :: p in Catalogue && Matches(p, query, kind, category) ==> p in r
    ensures multiset(r) == multiset(FilterProducts(Catalogue, query, kind, category))
    ensures order == ByPrice ==> forall i, j :: 0 <= i < j < |r| ==> r[i].price <= r[j].price
    ensures order == ByRating ==> forall i, j :: 0 <= i < j < |r| ==> r[i].rating >= r[j].rating
    ensures order == Newest ==> forall i, j :: 0 <= i < j < |r| ==> r[i].id > r[j].id
  {
    CatalogueIdsUnique();
    QueryProducts(Catalogue, query, kind, category, order)
  }

  /** An empty query with no type or category restriction keeps every product, in order. */
  lemma {:induction false} EmptyQueryKeepsAll(ps: seq<Product>)
    ensures FilterProducts(ps, "", AllTypes, "All") == ps
  {
    if ps != [] {
      IncludesEmpty(ToLower(ps[0].name));
      assert Matches(ps[0], "", AllTypes, "All");
      EmptyQueryKeepsAll(ps[1..]);
      assert ps == [ps[0]] + ps[1..];
    }
  }

  /** The search ignores the case of the query's ASCII letters. */
  lemma SearchIgnoresQueryCase(p: Product, query: string)
    ensures MatchesSearch(p, query) <==> MatchesSearch(p, ToLower(query))
  {
    ToLowerIdempotent(query);
  }

  /** The seeds product has no rental price, so the rent filter never lists it. */
  lemma RentNeverListsSeeds(query: string, category: string, order: SortOrder)
    ensures Catalogue[1].name == "Premium Seeds Collection"
    ensures Catalogue[1] !in FilteredProducts(query, Rent, category, order)
  {
    var seeds := Catalogue[1];
    assert seeds.rentalPrice == 0;
    assert !MatchesType(seeds, Rent);
  }

  /**
   * "Organic" is not among the selectable categories, so the organic bundle is
   * listed under no category but "All".
   */
  lemma OrganicOnlyUnderAll(query: string, kind: TypeFilter, category: string, order: SortOrder)
    requires category in Categories && category != "All"
    ensures Catalogue[5].category == "Organic"
    ensures Catalogue[5] !in FilteredProducts(query, kind, category, order)
  {
    assert "Organic" !in Categories;
  }

  /** Under "All", with an empty query and no type restriction, the organic bundle is listed. */
  lemma OrganicListedUnderAll(order: SortOrder)
    ensures Catalogue[5] in FilteredProducts("", AllTypes, "All", order)
  {
    var organic := Catalogue[5];
    IncludesEmpty(ToLower(organic.name));
    assert Matches(organic, "", AllTypes, "All");
  }
}
