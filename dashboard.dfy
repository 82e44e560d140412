/** The dashboard aggregates (src/pages/Dashboard.tsx; pages/Dashboard.tsx holds the
    same computation): stock value, revenue, profit, the low-stock list, the
    ten best-selling product names and the sales per day. */
module Dashboard {
  import opened Collections
  import opened Sorting
  import opened Types
  import opened Ledger
  import Reports

  /** `totalStockValue`: the stock of every product at its cost price. */
  function TotalStockValue(ps: seq<Product>): int
  {
    Sum(ps, Reports.StockValue)
  }

  /** With no negative stock and no negative cost price, the stock value shown on
      the dashboard is never negative. */
  lemma TotalStockValueNonNegative(ps: seq<Product>)
    requires StocksNonNegative(ps)
    requires forall i :: 0 <= i < |ps| ==> ps[i].costPrice >= 0
    ensures TotalStockValue(ps) >= 0
  {
    Reports.StockValueNonNegative(ps);
  }

  /** `totalRevenue`: the totals of every sale. */
  function TotalRevenue(ss: seq<Sale>): (r: int)
    ensures r == Sum(ss, SaleTotal)
  {
    if ss == [] then 0 else TotalRevenue(ss[..|ss| - 1]) + ss[|ss| - 1].total
  }

  /** The margin one sale contributes to `totalProfit`: nothing when its product no
      longer exists. */
  function SaleProfit(ps: seq<Product>, s: Sale): int
  {
    match FindProduct(ps, s.productId)
    case Some(p) => (s.unitPrice - p.costPrice) * s.quantity
    case None => 0
  }

  /** `totalProfit`: the margin of every sale whose product still exists. */
  function TotalProfit(ps: seq<Product>, ss: seq<Sale>): int
  {
    Sum(ss, s => SaleProfit(ps, s))
  }

  /** The sales whose product still exists. */
  function SaleResolves(ps: seq<Product>): Sale -> bool
  {
    (s: Sale) => FindProduct(ps, s.productId).Some?
  }

  /** With consistent totals, `totalProfit` is the profit report's per-sale profit
      summed over the sales whose product exists: the sales of deleted products
      are skipped, not counted at their full total. */
  lemma {:induction false} TotalProfitIsReportProfit(ps: seq<Product>, ss: seq<Sale>)
    requires TotalsConsistent(ss)
    ensures TotalProfit(ps, ss) ==
            Sum(Filter(ss, SaleResolves(ps)), SaleTotal) - Sum(Filter(ss, SaleResolves(ps)), s => Reports.CostOfSale(ps, s))
  {
    var f := Filter(ss, SaleResolves(ps));
    var profit := (s: Sale) => SaleTotal(s) - Reports.CostOfSale(ps, s);
    forall i | 0 <= i < |ss|
      ensures SaleProfit(ps, ss[i]) == if SaleResolves(ps)(ss[i]) then profit(ss[i]) else 0
    {
      if FindProduct(ps, ss[i].productId).Some? {
        var p := FindProduct(ps, ss[i].productId).value;
        assert (ss[i].unitPrice - p.costPrice) * ss[i].quantity == ss[i].unitPrice * ss[i].quantity - p.costPrice * ss[i].quantity;
      }
    }
    SumFilter(ss, SaleResolves(ps), profit, s => SaleProfit(ps, s));
    SumAdd(f, profit, s => Reports.CostOfSale(ps, s), SaleTotal);
  }

  /** `lowStockItems`: exactly the products with some stock left, but at most 3. */
  function LowStockItems(ps: seq<Product>): (r: seq<Product>)
    ensures |r| <= |ps|
    ensures forall i :: 0 <= i < |r| ==> r[i] in ps && 0 < r[i].stock <= 3
    ensures forall i :: 0 <= i < |ps| && 0 < ps[i].stock <= 3 ==> ps[i] in r
  {
    Filter(ps, (p: Product) => 0 < p.stock <= 3)
  }

  /** One chart bar: a group key and the totals of its sales (`Ventas`). */
  datatype Group<K> = Group(key: K, total: int)

  function GroupTotal<K>(g: Group<K>): int { g.total }

  /** The sales whose group key is `k`. */
  function KeyIs<K(==)>(key: Sale -> K, k: K): Sale -> bool
  {
    (s: Sale) => key(s) == k
  }

  predicate HasGroup<K(==)>(groups: seq<Group<K>>, k: K)
  {
    exists j :: 0 <= j < |groups| && groups[j].key == k
  }

  /** Some sale has group key `k`. */
  predicate HasSale<K(==)>(ss: seq<Sale>, key: Sale -> K, k: K)
  {
    Filter(ss, KeyIs(key, k)) != []
  }

  /** `acc[k]`: the position of the group with key `k`, if there is one. */
  function GroupIndex<K(==)>(groups: seq<Group<K>>, k: K): (r: Option<nat>)
    ensures r.Some? ==> r.value < |groups| && groups[r.value].key == k
    ensures r.None? ==> forall j :: 0 <= j < |groups| ==> groups[j].key != k
  {
    if groups == [] then None
    else if groups[|groups| - 1].key == k then Some(|groups| - 1)
    else GroupIndex(groups[..|groups| - 1], k)
  }

  /** Appending one sale adds its total to its own group only. */
  lemma GroupStep<K>(prefix: seq<Sale>, s: Sale, key: Sale -> K, k: K)
    ensures Sum(Filter(prefix + [s], KeyIs(key, k)), SaleTotal) ==
            Sum(Filter(prefix, KeyIs(key, k)), SaleTotal) + (if key(s) == k then s.total else 0)
  {
    var p := KeyIs(key, k);
    var f := Filter(prefix, p);
    FilterAppendOne(prefix, s, p);
    if key(s) == k {
      assert Filter(prefix + [s], p) == f + [s];
      SumAppendOne(f, s, SaleTotal);
    } else {
      assert Filter(prefix + [s], p) == f;
    }
  }

  /** One step of the `reduce`: create the entry `acc[k]` when missing, then add
      `amount` to it. */
  function Accumulate<K(==)>(groups: seq<Group<K>>, k: K, amount: int): (r: seq<Group<K>>)
    ensures |groups| <= |r| <= |groups| + 1
    ensures forall j :: 0 <= j < |groups| ==> r[j].key == groups[j].key
    ensures forall j :: |groups| <= j < |r| ==> r[j].key == k
    ensures HasGroup(r, k)
  {
    match GroupIndex(groups, k)
    case Some(j) => groups[j := Group(k, groups[j].total + amount)]
    case None =>
      var r := groups + [Group(k, amount)];
      assert r[|groups|].key == k;
      r
  }

  /** `groups` is the `reduce` result over `ss`: distinct keys, a group for every
      sale and a sale for every group, each group carrying its sales' totals, and
      all of them together carrying every total once. */
  ghost predicate GroupsOf<K>(groups: seq<Group<K>>, ss: seq<Sale>, key: Sale -> K)
  {
    DistinctKeys(groups) && EverySaleGrouped(groups, ss, key) && EveryGroupSold(groups, ss, key) &&
    GroupTotalsMatch(groups, ss, key) && Sum(groups, GroupTotal) == Sum(ss, SaleTotal)
  }

  ghost predicate DistinctKeys<K>(groups: seq<Group<K>>)
  {
    forall i, j :: 0 <= i < j < |groups| ==> groups[i].key != groups[j].key
  }

  ghost predicate EverySaleGrouped<K>(groups: seq<Group<K>>, ss: seq<Sale>, key: Sale -> K)
  {
    forall i :: 0 <= i < |ss| ==> HasGroup(groups, key(ss[i]))
  }

  ghost predicate EveryGroupSold<K>(groups: seq<Group<K>>, ss: seq<Sale>, key: Sale -> K)
  {
    forall j :: 0 <= j < |groups| ==> HasSale(ss, key, groups[j].key)
  }

  ghost predicate GroupTotalsMatch<K>(groups: seq<Group<K>>, ss: seq<Sale>, key: Sale -> K)
  {
    forall j :: 0 <= j < |groups| ==> groups[j].total == Sum(Filter(ss, KeyIs(key, groups[j].key)), SaleTotal)
  }

  lemma AccumulateDistinct<K>(groups: seq<Group<K>>, k: K, amount: int)
    requires DistinctKeys(groups)
    ensures DistinctKeys(Accumulate(groups, k, amount))
  {
  }

  lemma AccumulateCovers<K>(groups: seq<Group<K>>, prefix: seq<Sale>, s: Sale, key: Sale -> K)
    requires EverySaleGrouped(groups, prefix, key) && EveryGroupSold(groups, prefix, key)
    ensures EverySaleGrouped(Accumulate(groups, key(s), s.total), prefix + [s], key)
    ensures EveryGroupSold(Accumulate(groups, key(s), s.total), prefix + [s], key)
  {
    var r := Accumulate(groups, key(s), s.total);
    var ext := prefix + [s];
    forall i | 0 <= i < |ext|
      ensures HasGroup(r, key(ext[i]))
    {
      if i < |prefix| {
        assert ext[i] == prefix[i];
        var j :| 0 <= j < |groups| && groups[j].key == key(prefix[i]);
        assert r[j].key == groups[j].key;
      }
    }
    forall j | 0 <= j < |r|
      ensures HasSale(ext, key, r[j].key)
    {
      FilterAppendOne(prefix, s, KeyIs(key, r[j].key));
    }
  }

  /** The entry at `j` after the step carries the totals of its key over the sales
      seen so far, provided it did before (or is new, with no earlier sale of its
      key). */
  lemma AccumulateTotalAt<K>(groups: seq<Group<K>>, prefix: seq<Sale>, s: Sale, key: Sale -> K, j: nat)
    requires forall a, b :: 0 <= a < b < |groups| ==> groups[a].key != groups[b].key
    requires j < |Accumulate(groups, key(s), s.total)|
    requires j < |groups| ==> groups[j].total == Sum(Filter(prefix, KeyIs(key, groups[j].key)), SaleTotal)
    requires j == |groups| ==> Filter(prefix, KeyIs(key, key(s))) == []
    ensures var r := Accumulate(groups, key(s), s.total);
            r[j].total == Sum(Filter(prefix + [s], KeyIs(key, r[j].key)), SaleTotal)
  {
    var r := Accumulate(groups, key(s), s.total);
    AccumulateEntry(groups, key(s), s.total, j);
    GroupStep(prefix, s, key, r[j].key);
  }

  /** The entry at `j` after one step: the old entry, or the new one, with
      `amount` added exactly when its key is `k`. */
  lemma AccumulateEntry<K>(groups: seq<Group<K>>, k: K, amount: int, j: nat)
    requires forall a, b :: 0 <= a < b < |groups| ==> groups[a].key != groups[b].key
    requires j < |Accumulate(groups, k, amount)|
    ensures var r := Accumulate(groups, k, amount);
            r[j].key == (if j < |groups| then groups[j].key else k) &&
            r[j].total == (if j < |groups| then groups[j].total else 0) + (if r[j].key == k then amount else 0)
  {
    match GroupIndex(groups, k)
    case Some(at) =>
      if j < |groups| && j != at {
        assert groups[j].key != k;
      }
    case None =>
  }

  /** A key with no group yet has no sale among those seen so far. */
  lemma NewKeyHasNoSales<K>(groups: seq<Group<K>>, prefix: seq<Sale>, key: Sale -> K, k: K)
    requires forall i :: 0 <= i < |prefix| ==> HasGroup(groups, key(prefix[i]))
    requires forall j :: 0 <= j < |groups| ==> groups[j].key != k
    ensures Filter(prefix, KeyIs(key, k)) == []
  {
    forall a | 0 <= a < |prefix|
      ensures !KeyIs(key, k)(prefix[a])
    {
      assert HasGroup(groups, key(prefix[a]));
      var g :| 0 <= g < |groups| && groups[g].key == key(prefix[a]);
    }
    FilterNone(prefix, KeyIs(key, k));
  }

  lemma AccumulateTotals<K>(groups: seq<Group<K>>, prefix: seq<Sale>, s: Sale, key: Sale -> K)
    requires DistinctKeys(groups) && EverySaleGrouped(groups, prefix, key) && GroupTotalsMatch(groups, prefix, key)
    ensures GroupTotalsMatch(Accumulate(groups, key(s), s.total), prefix + [s], key)
  {
    var k := key(s);
    var r := Accumulate(groups, k, s.total);
    if GroupIndex(groups, k).None? {
      NewKeyHasNoSales(groups, prefix, key, k);
    }
    forall j | 0 <= j < |r|
      ensures r[j].total == Sum(Filter(prefix + [s], KeyIs(key, r[j].key)), SaleTotal)
    {
      AccumulateTotalAt(groups, prefix, s, key, j);
    }
  }

  lemma AccumulateSum<K>(groups: seq<Group<K>>, k: K, amount: int)
    ensures Sum(Accumulate(groups, k, amount), GroupTotal) == Sum(groups, GroupTotal) + amount
  {
    match GroupIndex(groups, k)
    case Some(j) =>
      SumUpdate(groups, j, Group(k, groups[j].total + amount), GroupTotal);
    case None =>
      SumAppendOne(groups, Group(k, amount), GroupTotal);
  }

  /** Each step of the `reduce` keeps `GroupsOf` for the sales seen so far. */
  lemma AccumulateKeepsGroups<K>(groups: seq<Group<K>>, ss: seq<Sale>, i: nat, key: Sale -> K)
    requires i < |ss| && GroupsOf(groups, ss[..i], key)
    ensures GroupsOf(Accumulate(groups, key(ss[i]), ss[i].total), ss[..i + 1], key)
  {
    SliceSnoc(ss, i);
    AccumulateKeepsGroupsOne(groups, ss[..i], ss[i], key);
  }

  lemma SliceSnoc<T>(s: seq<T>, i: nat)
    requires i < |s|
    ensures s[..i + 1] == s[..i] + [s[i]]
  {
  }

  lemma AccumulateKeepsGroupsOne<K>(groups: seq<Group<K>>, prefix: seq<Sale>, s: Sale, key: Sale -> K)
    requires GroupsOf(groups, prefix, key)
    ensures GroupsOf(Accumulate(groups, key(s), s.total), prefix + [s], key)
  {
    AccumulateDistinct(groups, key(s), s.total);
    AccumulateCovers(groups, prefix, s, key);
    AccumulateTotals(groups, prefix, s, key);
    AccumulateSumStep(groups, prefix, s, key);
  }

  /** A step keeps the groups' sum equal to the sales' sum. */
  lemma AccumulateSumStep<K>(groups: seq<Group<K>>, prefix: seq<Sale>, s: Sale, key: Sale -> K)
    requires Sum(groups, GroupTotal) == Sum(prefix, SaleTotal)
    ensures Sum(Accumulate(groups, key(s), s.total), GroupTotal) == Sum(prefix + [s], SaleTotal)
  {
    AccumulateSum(groups, key(s), s.total);
    SumAppendOne(prefix, s, SaleTotal);
  }

  /** The `reduce` into a dictionary: one group per key in order of first appearance,
      each carrying the sum of its sales' totals; together the groups carry every
      sale's total once. */
  method GroupTotals<K(==)>(ss: seq<Sale>, key: Sale -> K) returns (groups: seq<Group<K>>)
    ensures GroupsOf(groups, ss, key)
  {
    groups := [];
    var i := 0;
    while i < |ss|
      invariant 0 <= i <= |ss|
      invariant GroupsOf(groups, ss[..i], key)
    {
      AccumulateKeepsGroups(groups, ss, i, key);
      groups := Accumulate(groups, key(ss[i]), ss[i].total);
      i := i + 1;
    }
    assert ss[..|ss|] == ss;
  }

  /** Reordering the groups keeps them the groups of the same sales. */
  lemma PermutedGroups<K>(groups: seq<Group<K>>, sorted: seq<Group<K>>, ss: seq<Sale>, key: Sale -> K)
    requires multiset(groups) == multiset(sorted)
    requires GroupsOf(groups, ss, key)
    ensures GroupsOf(sorted, ss, key)
  {
    PermutationKeepsDistinct(groups, sorted, (g: Group<K>) => g.key);
    SumPermutation(sorted, groups, GroupTotal);
    forall i | 0 <= i < |ss|
      ensures HasGroup(sorted, key(ss[i]))
    {
      var a :| 0 <= a < |groups| && groups[a].key == key(ss[i]);
      assert groups[a] in multiset(sorted);
      var b :| 0 <= b < |sorted| && sorted[b] == groups[a];
    }
    forall j | 0 <= j < |sorted|
      ensures HasSale(ss, key, sorted[j].key)
      ensures sorted[j].total == Sum(Filter(ss, KeyIs(key, sorted[j].key)), SaleTotal)
    {
      assert sorted[j] in multiset(groups);
      var a :| 0 <= a < |groups| && groups[a] == sorted[j];
    }
  }

  /** The bar label of a sale: its product's name, or 'Unknown'. */
  function SaleProductName(ps: seq<Product>): Sale -> string
  {
    (s: Sale) => ProductNameOr(ps, s.productId, "Unknown")
  }

  function GroupAmount<K>(g: Group<K>): SortKey { Num(g.total) }

  function SaleDay(s: Sale): Date { s.date }

  function GroupDay(g: Group<Date>): SortKey { Num(g.key) }

  /** `salesByProduct`: one bar per product name, together carrying the revenue. */
  method SalesByProduct(ps: seq<Product>, ss: seq<Sale>) returns (groups: seq<Group<string>>)
    ensures GroupsOf(groups, ss, SaleProductName(ps))
    ensures Sum(groups, GroupTotal) == TotalRevenue(ss)
  {
    groups := GroupTotals(ss, SaleProductName(ps));
  }

  /** The first ten of the groups sorted by amount, largest first. */
  function TopTen<K>(sorted: seq<Group<K>>): (top: seq<Group<K>>)
    ensures |top| <= 10 && |top| <= |sorted| && top == sorted[..|top|]
    ensures |sorted| >= 10 ==> |top| == 10
    ensures |sorted| < 10 ==> top == sorted
  {
    if |sorted| <= 10 then sorted else sorted[..10]
  }

  /** The first ten of sorted groups are sorted groups of some of the same sales. */
  lemma TopTenKeepsGroups<K>(sorted: seq<Group<K>>, ss: seq<Sale>, key: Sale -> K)
    requires GroupsOf(sorted, ss, key)
    requires Sorted(sorted, GroupAmount, Descending)
    ensures Sorted(TopTen(sorted), GroupAmount, Descending)
    ensures DistinctKeys(TopTen(sorted)) && EveryGroupSold(TopTen(sorted), ss, key)
    ensures GroupTotalsMatch(TopTen(sorted), ss, key)
  {
    var top := TopTen(sorted);
    assert forall j :: 0 <= j < |top| ==> top[j] == sorted[j];
  }

  /** Any key left out of the first ten has an amount no larger than the tenth. */
  lemma TopTenLeavesOutSmaller<K>(sorted: seq<Group<K>>, k: K)
    requires Sorted(sorted, GroupAmount, Descending)
    requires HasGroup(sorted, k) && !HasGroup(TopTen(sorted), k)
    ensures |TopTen(sorted)| == 10
    ensures forall p :: 0 <= p < |sorted| && sorted[p].key == k ==> sorted[p].total <= TopTen(sorted)[9].total
  {
    var top := TopTen(sorted);
    forall p | 0 <= p < |sorted| && sorted[p].key == k
      ensures |top| == 10 && sorted[p].total <= top[9].total
    {
      assert !Before(GroupAmount(sorted[p]), GroupAmount(sorted[9]), Descending);
    }
  }

  /** Every sale whose key has no group in `top` comes after a full ten groups and
      its key's sales total no more than the tenth group. */
  ghost predicate LeftOutNoLarger<K>(top: seq<Group<K>>, ss: seq<Sale>, key: Sale -> K)
  {
    forall i :: 0 <= i < |ss| && !HasGroup(top, key(ss[i])) ==>
      |top| == 10 && Sum(Filter(ss, KeyIs(key, key(ss[i]))), SaleTotal) <= top[9].total
  }

  /** Any sale whose key is left out of the first ten totals no more than the tenth. */
  lemma TopTenExclusion<K>(sorted: seq<Group<K>>, ss: seq<Sale>, key: Sale -> K)
    requires Sorted(sorted, GroupAmount, Descending)
    requires EverySaleGrouped(sorted, ss, key) && GroupTotalsMatch(sorted, ss, key)
    ensures LeftOutNoLarger(TopTen(sorted), ss, key)
  {
    forall i | 0 <= i < |ss| && !HasGroup(TopTen(sorted), key(ss[i]))
      ensures |TopTen(sorted)| == 10 && Sum(Filter(ss, KeyIs(key, key(ss[i]))), SaleTotal) <= TopTen(sorted)[9].total
    {
      TopTenLeavesOutSmaller(sorted, key(ss[i]));
      var p :| 0 <= p < |sorted| && sorted[p].key == key(ss[i]);
    }
  }

  /** `topProductsData`: the per-name totals, largest first, cut to ten; a name left
      out sold no more than the tenth. */
  method TopProducts(ps: seq<Product>, ss: seq<Sale>) returns (top: seq<Group<string>>)
    ensures |top| <= 10
    ensures Sorted(top, GroupAmount, Descending)
    ensures DistinctKeys(top)
    ensures EveryGroupSold(top, ss, SaleProductName(ps)) && GroupTotalsMatch(top, ss, SaleProductName(ps))
    ensures LeftOutNoLarger(top, ss, SaleProductName(ps))
  {
    var groups := SalesByProduct(ps, ss);
    var sorted := SortBy(groups, GroupAmount, Descending);
    PermutedGroups(groups, sorted, ss, SaleProductName(ps));
    TopTenKeepsGroups(sorted, ss, SaleProductName(ps));
    TopTenExclusion(sorted, ss, SaleProductName(ps));
    top := TopTen(sorted);
  }

  /** Sorted by day with one group per day, the days strictly increase. */
  lemma DaysIncrease(days: seq<Group<Date>>)
    requires Sorted(days, GroupDay, Ascending)
    requires forall i, j :: 0 <= i < j < |days| ==> days[i].key != days[j].key
    ensures forall i, j :: 0 <= i < j < |days| ==> days[i].key < days[j].key
  {
    forall i, j | 0 <= i < j < |days|
      ensures days[i].key < days[j].key
    {
      assert !Before(GroupDay(days[j]), GroupDay(days[i]), Ascending);
    }
  }

  /** `salesOverTime`: one point per day carrying that day's totals, oldest first,
      together carrying the revenue. */
  method SalesOverTime(ss: seq<Sale>) returns (days: seq<Group<Date>>)
    ensures GroupsOf(days, ss, SaleDay)
    ensures forall i, j :: 0 <= i < j < |days| ==> days[i].key < days[j].key
    ensures Sum(days, GroupTotal) == TotalRevenue(ss)
  {
    var groups := GroupTotals(ss, SaleDay);
    days := SortBy(groups, GroupDay, Ascending);
    PermutedGroups(groups, days, ss, SaleDay);
    DaysIncrease(days);
  }
}
