/**
 * `GET /api/product/search`: the stock records, each joined with its item,
 * optionally narrowed to merchants of one category, narrowed to items whose
 * name contains a term (ignoring case), and optionally sorted by price.
 */
module Search {
  import opened Store
  import opened Seqs

  /** One search hit: a stock record with the item it belongs to. */
  datatype Product = Product(id: Id, stock: Stock, item: Item)

  function LowerChar(c: char): char
  {
    if 'A' <= c <= 'Z' then (c as int + 32) as char else c
  }

  /** `s.toLowerCase()` on ASCII letters. */
  function Lower(s: string): (r: string)
    ensures |r| == |s|
    ensures forall i :: 0 <= i < |s| ==> r[i] == LowerChar(s[i])
    ensures forall i :: 0 <= i < |r| ==> !('A' <= r[i] <= 'Z')
  {
    if s == [] then [] else [LowerChar(s[0])] + Lower(s[1..])
  }

  /** `needle` occurs in `haystack` starting at index `i`. */
  predicate OccursAt(haystack: string, needle: string, i: int)
  {
    0 <= i <= |haystack| - |needle| && haystack[i..i + |needle|] == needle
  }

  /** `haystack.includes(needle)` */
  function Includes(haystack: string, needle: string): (b: bool)
    ensures b <==> exists i :: OccursAt(haystack, needle, i)
    decreases |haystack|
  {
    if needle <= haystack then
      assert OccursAt(haystack, needle, 0);
      true
    else if |haystack| <= |needle| then
      assert forall i :: OccursAt(haystack, needle, i) ==> i == 0;
      false
    else
      var tail := haystack[1..];
      var b := Includes(tail, needle);
      assert b ==> exists i :: OccursAt(haystack, needle, i) by {
        if b {
          var j :| OccursAt(tail, needle, j);
          assert haystack[j + 1..j + 1 + |needle|] == tail[j..j + |needle|];
          assert OccursAt(haystack, needle, j + 1);
        }
      }
      assert (exists i :: OccursAt(haystack, needle, i)) ==> b by {
        if i :| OccursAt(haystack, needle, i) {
          if i != 0 {
            assert tail[i - 1..i - 1 + |needle|] == haystack[i..i + |needle|];
            assert OccursAt(tail, needle, i - 1);
          }
        }
      }
      b
  }

  /** The merchants the category filter keeps. */
  function CategoryMerchants(merchants: map<Id, Merchant>, category: string): set<Id>
  {
    set m | m in merchants && merchants[m].category == category
  }

  predicate InCategory(merchants: map<Id, Merchant>, category: string, p: Product)
  {
    category == "" || p.stock.merchantId in CategoryMerchants(merchants, category)
  }

  predicate NameMatches(name: string, p: Product)
  {
    name == "" || Includes(Lower(p.item.name), Lower(name))
  }

  function ByPrice(p: Product): int { p.item.basePrice }

  function ByPriceDescending(p: Product): int { -p.item.basePrice }

  /**
   * The products that pass the category filter (when a category is given)
   * and then the name filter (when a name is given), in list order: exactly
   * those that match, each as often as in the list.
   */
  function Matching(merchants: map<Id, Merchant>, products: seq<Product>,
                    name: string, category: string): (r: seq<Product>)
    ensures forall p ::
      multiset(r)[p] == (if InCategory(merchants, category, p) && NameMatches(name, p) then multiset(products)[p] else 0)
  {
    var keepC, keepN := CategoryFilter(merchants, category), NameFilter(name);
    var inCategory := if category != "" then Filter(products, keepC) else products;
    FilterCounts(products, keepC);
    FilterCounts(inCategory, keepN);
    if name != "" then Filter(inCategory, keepN) else inCategory
  }

  function CategoryFilter(merchants: map<Id, Merchant>, category: string): Product -> bool
  {
    p => InCategory(merchants, category, p)
  }

  function NameFilter(name: string): Product -> bool
  {
    p => NameMatches(name, p)
  }

  /**
   * The filters keep the list order: matching a concatenation matches each
   * part, and a single product is kept exactly when it matches.
   */
  lemma {:induction false} MatchingKeepsOrder(merchants: map<Id, Merchant>, a: seq<Product>, b: seq<Product>,
                                              name: string, category: string)
    ensures Matching(merchants, a + b, name, category)
            == Matching(merchants, a, name, category) + Matching(merchants, b, name, category)
  {
    var keepC, keepN := CategoryFilter(merchants, category), NameFilter(name);
    if category != "" {
      FilterAppend(a, b, keepC);
      if name != "" {
        FilterAppend(Filter(a, keepC), Filter(b, keepC), keepN);
      }
    } else if name != "" {
      FilterAppend(a, b, keepN);
    }
  }

  lemma MatchingSingle(merchants: map<Id, Merchant>, p: Product, name: string, category: string)
    ensures Matching(merchants, [p], name, category)
            == if InCategory(merchants, category, p) && NameMatches(name, p) then [p] else []
  {
    var keepC, keepN := CategoryFilter(merchants, category), NameFilter(name);
    FilterSingle(p, keepC);
    FilterSingle(p, keepN);
    assert Filter([], keepN) == [];
  }

  /**
   * The search route.  An empty `name` or `category` means the filter is not
   * asked for; `termurah` sorts cheapest first, `termahal` dearest first, and
   * any other `sortBy` keeps the filtered order.
   */
  function SearchProducts(merchants: map<Id, Merchant>, products: seq<Product>,
                          name: string, category: string, sortBy: string): (r: seq<Product>)
    ensures category != "" && CategoryMerchants(merchants, category) == {} ==> r == []
    ensures multiset(r) == multiset(Matching(merchants, products, name, category))
    ensures sortBy == "termurah" ==>
      forall i, j :: 0 <= i < j < |r| ==> r[i].item.basePrice <= r[j].item.basePrice
    ensures sortBy == "termahal" ==>
      forall i, j :: 0 <= i < j < |r| ==> r[i].item.basePrice >= r[j].item.basePrice
    ensures sortBy != "termurah" && sortBy != "termahal" ==> r == Matching(merchants, products, name, category)
  {
    var found := Matching(merchants, products, name, category);
    if category != "" && CategoryMerchants(merchants, category) == {} then
      NoMerchantNoMatch(merchants, products, name, category);
      []
    else if sortBy == "termurah" then
      var r := SortBy(found, ByPrice);
      Cheapest(r);
      r
    else if sortBy == "termahal" then
      var r := SortBy(found, ByPriceDescending);
      Dearest(r);
      r
    else found
  }

  /** A category no merchant has matches nothing. */
  lemma {:induction false} NoMerchantNoMatch(merchants: map<Id, Merchant>, products: seq<Product>,
                                             name: string, category: string)
    requires category != "" && CategoryMerchants(merchants, category) == {}
    ensures Matching(merchants, products, name, category) == []
  {
    var found := Matching(merchants, products, name, category);
    assert multiset(found) == multiset{} by {
      forall p ensures multiset(found)[p] == 0 {
        assert !InCategory(merchants, category, p);
      }
    }
    assert |found| == |multiset(found)| == 0;
  }

  lemma {:induction false} Cheapest(r: seq<Product>)
    requires SortedBy(r, ByPrice)
    ensures forall i, j :: 0 <= i < j < |r| ==> r[i].item.basePrice <= r[j].item.basePrice
  {
    forall i, j | 0 <= i < j < |r| ensures r[i].item.basePrice <= r[j].item.basePrice {
      assert ByPrice(r[i]) <= ByPrice(r[j]);
    }
  }

  lemma {:induction false} Dearest(r: seq<Product>)
    requires SortedBy(r, ByPriceDescending)
    ensures forall i, j :: 0 <= i < j < |r| ==> r[i].item.basePrice >= r[j].item.basePrice
  {
    forall i, j | 0 <= i < j < |r| ensures r[i].item.basePrice >= r[j].item.basePrice {
      assert ByPriceDescending(r[i]) <= ByPriceDescending(r[j]);
    }
  }
}
