/** The inventory page (src/pages/Inventory.tsx): the brand list, the tab and brand
    filters, sorting, the tester tab's count and when the convert-to-tester button
    is enabled. */
module Inventory {
  import opened Collections
  import opened Sorting
  import opened Types
  import Ledger

  function Brand(p: Product): string { p.brand }
  function BrandKey(b: string): SortKey { Text(b) }

  /** Every product's brand, in product order. */
  function Brands(ps: seq<Product>): (r: seq<string>)
    ensures |r| == |ps| && forall i :: 0 <= i < |ps| ==> r[i] == ps[i].brand
  {
    seq(|ps|, i requires 0 <= i < |ps| => ps[i].brand)
  }

  /** Without repetitions, a sorted list of texts strictly increases. */
  lemma {:induction false} DistinctOfSorted(s: seq<string>)
    requires Sorted(s, BrandKey, Ascending)
    ensures forall i, j :: 0 <= i < j < |Distinct(s)| ==> TextLess(Distinct(s)[i], Distinct(s)[j])
  {
    if s != [] {
      var init, last := s[..|s| - 1], s[|s| - 1];
      assert forall i :: 0 <= i < |init| ==> init[i] == s[i];
      DistinctOfSorted(init);
      var r := Distinct(init);
      if last !in r {
        assert Distinct(s) == r + [last];
        forall i | 0 <= i < |r|
          ensures TextLess(r[i], last)
        {
          var m :| 0 <= m < |init| && init[m] == r[i];
          assert !Before(BrandKey(last), BrandKey(init[m]), Ascending);
          TextLessTotal(r[i], last);
        }
      }
    }
  }

  /** `brands`: each brand once, in increasing order. */
  function BrandOptions(ps: seq<Product>): (r: seq<string>)
    ensures forall i :: 0 <= i < |ps| ==> ps[i].brand in r
    ensures forall i :: 0 <= i < |r| ==> exists k :: 0 <= k < |ps| && ps[k].brand == r[i]
    ensures forall i, j :: 0 <= i < j < |r| ==> TextLess(r[i], r[j])
  {
    var r := Distinct(SortBy(Brands(ps), BrandKey, Ascending));
    BrandsCovered(ps);
    BrandsKnown(ps, r);
    DistinctOfSorted(SortBy(Brands(ps), BrandKey, Ascending));
    r
  }

  /** Every product's brand is among the options. */
  lemma BrandsCovered(ps: seq<Product>)
    ensures forall i :: 0 <= i < |ps| ==> ps[i].brand in Distinct(SortBy(Brands(ps), BrandKey, Ascending))
  {
    var sorted := SortBy(Brands(ps), BrandKey, Ascending);
    forall i | 0 <= i < |ps|
      ensures ps[i].brand in Distinct(sorted)
    {
      assert Brands(ps)[i] in multiset(sorted);
      var m :| 0 <= m < |sorted| && sorted[m] == ps[i].brand;
    }
  }

  /** Every option is some product's brand. */
  lemma BrandsKnown(ps: seq<Product>, r: seq<string>)
    requires r == Distinct(SortBy(Brands(ps), BrandKey, Ascending))
    ensures forall i :: 0 <= i < |r| ==> exists k :: 0 <= k < |ps| && ps[k].brand == r[i]
  {
    var sorted := SortBy(Brands(ps), BrandKey, Ascending);
    forall i | 0 <= i < |r|
      ensures exists k :: 0 <= k < |ps| && ps[k].brand == r[i]
    {
      var m :| 0 <= m < |sorted| && sorted[m] == r[i];
      assert sorted[m] in multiset(Brands(ps));
      var k :| 0 <= k < |ps| && Brands(ps)[k] == sorted[m];
    }
  }

  /** The two tabs of the page. */
  datatype Tab = AllProducts | Testers

  function HasTester(p: Product): bool { p.testerStock > 0 }

  /** A product is listed: on the testers tab only with a tester out, and under a
      brand filter only with exactly that brand (an empty filter keeps all). */
  function Listed(tab: Tab, brandFilter: string): Product -> bool
  {
    (p: Product) => (tab == Testers ==> HasTester(p)) && (brandFilter != "" ==> p.brand == brandFilter)
  }

  /** `filteredProducts`, as the page computes it: the tab filter, then the brand
      filter; the result is the products `Listed` keeps, in their order. */
  function FilteredProducts(ps: seq<Product>, tab: Tab, brandFilter: string): (r: seq<Product>)
    ensures r == Filter(ps, Listed(tab, brandFilter))
  {
    var afterTab := if tab == Testers then Filter(ps, HasTester) else ps;
    var afterBrand := if brandFilter != "" then Filter(afterTab, (p: Product) => p.brand == brandFilter) else afterTab;
    FilterTwice(ps, tab, brandFilter);
    afterBrand
  }

  /** The tab filter followed by the brand filter keeps what `Listed` keeps. */
  lemma FilterTwice(ps: seq<Product>, tab: Tab, brandFilter: string)
    ensures var afterTab := if tab == Testers then Filter(ps, HasTester) else ps;
            (if brandFilter != "" then Filter(afterTab, (p: Product) => p.brand == brandFilter) else afterTab) ==
            Filter(ps, Listed(tab, brandFilter))
  {
    if tab == Testers && brandFilter != "" {
      FilterFilter(ps, HasTester, (p: Product) => p.brand == brandFilter, Listed(tab, brandFilter));
    } else if tab == Testers {
      FilterSame(ps, HasTester, Listed(tab, brandFilter));
    } else if brandFilter != "" {
      FilterSame(ps, (p: Product) => p.brand == brandFilter, Listed(tab, brandFilter));
    } else {
      FilterKeepsAll(ps, Listed(tab, brandFilter));
    }
  }

  /** Filters that agree on every element give the same result. */
  lemma {:induction false} FilterSame(s: seq<Product>, p: Product -> bool, q: Product -> bool)
    requires forall i :: 0 <= i < |s| ==> p(s[i]) == q(s[i])
    ensures Filter(s, p) == Filter(s, q)
  {
    if s != [] {
      assert forall i :: 0 <= i < |s| - 1 ==> s[..|s| - 1][i] == s[i];
      FilterSame(s[..|s| - 1], p, q);
    }
  }

  /** The label of the testers tab counts the products with a tester out, which
      is how many rows that tab lists without a brand filter. */
  function TesterTabCount(ps: seq<Product>): (n: nat)
    ensures n == |FilteredProducts(ps, Testers, "")|
  {
    FilterSame(ps, HasTester, Listed(Testers, ""));
    Count(ps, HasTester)
  }

  /** The sortable columns, `keyof Product` and the computed `stockValue`. */
  datatype ProductKey = BySku | ByName | ByBrand | ByGender | ByStock | ByTesterStock | ByCostPrice | BySalePrice | ByStockValue

  /** The value a row shows in a column; the stock value is stock at cost price. */
  function ProductColumn(k: ProductKey, p: Product): SortKey
  {
    match k
    case BySku => Text(p.id)
    case ByName => Text(p.name)
    case ByBrand => Text(p.brand)
    case ByGender => Text(GenderLabel(p.gender))
    case ByStock => Num(p.stock)
    case ByTesterStock => Num(p.testerStock)
    case ByCostPrice => Num(p.costPrice)
    case BySalePrice => Num(p.salePrice)
    case ByStockValue => Num(p.stock * p.costPrice)
  }

  /** The page opens sorted by SKU, ascending. */
  const InitialSort: SortConfigChoice<ProductKey> := Configured(SortConfig(BySku, Ascending))

  /** `sortedProducts`: the listed products reordered by the chosen column. */
  function SortedProducts(ps: seq<Product>, config: SortConfigChoice<ProductKey>): (r: seq<Product>)
    ensures multiset(r) == multiset(ps)
    ensures config.Configured? ==> Sorted(r, p => ProductColumn(config.config.key, p), config.config.direction)
  {
    ApplySort(ps, ProductColumn, config)
  }

  /** Sorted by stock value ascending, no row is worth more than a later one. */
  lemma StockValueOrder(ps: seq<Product>)
    ensures var r := SortedProducts(ps, Configured(SortConfig(ByStockValue, Ascending)));
            forall i, j :: 0 <= i < j < |r| ==> r[i].stock * r[i].costPrice <= r[j].stock * r[j].costPrice
  {
    var r := SortedProducts(ps, Configured(SortConfig(ByStockValue, Ascending)));
    forall i, j | 0 <= i < j < |r|
      ensures r[i].stock * r[i].costPrice <= r[j].stock * r[j].costPrice
    {
      assert !Before(ProductColumn(ByStockValue, r[j]), ProductColumn(ByStockValue, r[i]), Ascending);
    }
  }

  /** The convert-to-tester button is disabled when there is nothing to convert or a
      tester is already out. */
  function ConvertDisabled(p: Product): bool
  {
    p.stock < 1 || p.testerStock > 0
  }

  /** With unique SKUs the button is disabled exactly when the ledger would refuse
      the conversion. */
  lemma ConvertButtonMatchesLedger(ps: seq<Product>, k: nat)
    requires UniqueSkus(ps) && k < |ps|
    ensures ConvertDisabled(ps[k]) <==> Ledger.ConversionRefusal(ps, ps[k].id).Some?
  {
    FindProductUnique(ps, k);
  }
}
