/** The table sort shared by the Inventory, Purchases, Sales and Customers pages,
    the date sorts of the detail, dashboard and cash-flow views, and the
    column-header toggle that chooses the sort.

    Every page sorts a fresh copy with `Array.prototype.sort` and a comparator of
    the shape `a < b ? -1 : a > b ? 1 : 0` (flipped for descending).  That sort
    is stable, so the model is a stable insertion sort. */
module Sorting {
  import opened Collections

  /** JavaScript's `<` on two strings: lexicographic order of their characters,
      compared as Unicode scalar values. */
  predicate TextLess(a: string, b: string)
  {
    if |a| == 0 then |b| > 0
    else if |b| == 0 then false
    else if a[0] < b[0] then true
    else a[0] == b[0] && TextLess(a[1..], b[1..])
  }

  lemma {:induction false} TextLessIrreflexive(a: string)
    ensures !TextLess(a, a)
  {
    if |a| > 0 {
      TextLessIrreflexive(a[1..]);
    }
  }

  lemma {:induction false} TextLessTransitive(a: string, b: string, c: string)
    requires TextLess(a, b) && TextLess(b, c)
    ensures TextLess(a, c)
  {
    if |a| > 0 && a[0] == b[0] && b[0] == c[0] {
      TextLessTransitive(a[1..], b[1..], c[1..]);
    }
  }

  lemma {:induction false} TextLessTotal(a: string, b: string)
    ensures a == b || TextLess(a, b) || TextLess(b, a)
  {
    if |a| > 0 && |b| > 0 && a[0] == b[0] {
      TextLessTotal(a[1..], b[1..]);
      if a[1..] == b[1..] {
        assert a == [a[0]] + a[1..] && b == [b[0]] + b[1..];
      }
    }
  }

  /** The value a row shows in the sorted column: a number or a text. */
  datatype SortKey = Num(n: int) | Text(s: string)

  /** `<` on column values; one column never mixes numbers and texts, so the
      order between the two kinds is arbitrary but fixed. */
  predicate KeyLess(a: SortKey, b: SortKey)
  {
    match (a, b)
    case (Num(x), Num(y)) => x < y
    case (Text(x), Text(y)) => TextLess(x, y)
    case (Num(_), Text(_)) => true
    case (Text(_), Num(_)) => false
  }

  lemma KeyLessStrictTotal(a: SortKey, b: SortKey, c: SortKey)
    ensures !KeyLess(a, a)
    ensures a == b || KeyLess(a, b) || KeyLess(b, a)
    ensures KeyLess(a, b) && KeyLess(b, c) ==> KeyLess(a, c)
  {
    if a.Text? {
      TextLessIrreflexive(a.s);
      if b.Text? {
        TextLessTotal(a.s, b.s);
        if c.Text? && KeyLess(a, b) && KeyLess(b, c) {
          TextLessTransitive(a.s, b.s, c.s);
        }
      }
    }
  }

  datatype Direction = Ascending | Descending

  /** The page's `sortConfig`: the column and the direction. */
  datatype SortConfig<K> = SortConfig(key: K, direction: Direction)

  /** The pages' comparator: negative when `a` goes first, positive when `b` does. */
  function Compare(a: SortKey, b: SortKey, d: Direction): int
  {
    if KeyLess(a, b) then (if d == Ascending then -1 else 1)
    else if KeyLess(b, a) then (if d == Ascending then 1 else -1)
    else 0
  }

  /** `a` must be placed before `b`. */
  predicate Before(a: SortKey, b: SortKey, d: Direction)
  {
    Compare(a, b, d) < 0
  }

  lemma NotBeforeTransitive(a: SortKey, b: SortKey, c: SortKey, d: Direction)
    requires !Before(b, a, d) && !Before(c, b, d)
    ensures !Before(c, a, d)
  {
    KeyLessStrictTotal(a, b, c);
    KeyLessStrictTotal(c, b, a);
    KeyLessStrictTotal(b, c, a);
    KeyLessStrictTotal(a, c, b);
  }

  lemma BeforeAsymmetric(a: SortKey, b: SortKey, d: Direction)
    requires Before(a, b, d)
    ensures !Before(b, a, d)
  {
    KeyLessStrictTotal(a, b, a);
  }

  /** No row is placed after a row it must precede. */
  ghost predicate Sorted<T>(s: seq<T>, key: T -> SortKey, d: Direction)
  {
    forall i, j :: 0 <= i < j < |s| ==> !Before(key(s[j]), key(s[i]), d)
  }

  /** Puts `x` in front of the first row that does not go strictly before it. */
  function Insert<T>(x: T, r: seq<T>, key: T -> SortKey, d: Direction): (out: seq<T>)
    requires Sorted(r, key, d)
    ensures multiset(out) == multiset(r) + multiset{x}
    ensures |out| == |r| + 1
    ensures Sorted(out, key, d)
  {
    if r == [] then [x]
    else if Before(key(r[0]), key(x), d) then
      var tail := Insert(x, r[1..], key, d);
      assert r == [r[0]] + r[1..];
      HeadBeforeInserted(x, r, tail, key, d);
      ConsSorted(r[0], tail, key, d);
      [r[0]] + tail
    else
      forall k | 0 <= k < |r| ensures !Before(key(r[k]), key(x), d) {
        if k > 0 {
          NotBeforeTransitive(key(x), key(r[0]), key(r[k]), d);
        }
      }
      ConsSorted(x, r, key, d);
      [x] + r
  }

  /** A row that no later row must precede, put in front of sorted rows, keeps
      them sorted. */
  lemma ConsSorted<T>(h: T, t: seq<T>, key: T -> SortKey, d: Direction)
    requires Sorted(t, key, d)
    requires forall k :: 0 <= k < |t| ==> !Before(key(t[k]), key(h), d)
    ensures Sorted([h] + t, key, d)
  {
    var s := [h] + t;
    forall i, j | 0 <= i < j < |s|
      ensures !Before(key(s[j]), key(s[i]), d)
    {
      assert s[j] == t[j - 1];
      if i > 0 {
        assert s[i] == t[i - 1];
      }
    }
  }

  /** When `x` goes after the first row, no row of the insertion into the rest must
      precede that first row. */
  lemma HeadBeforeInserted<T>(x: T, r: seq<T>, tail: seq<T>, key: T -> SortKey, d: Direction)
    requires r != [] && Sorted(r, key, d) && Before(key(r[0]), key(x), d)
    requires multiset(tail) == multiset(r[1..]) + multiset{x}
    ensures forall k :: 0 <= k < |tail| ==> !Before(key(tail[k]), key(r[0]), d)
  {
    forall k | 0 <= k < |tail| ensures !Before(key(tail[k]), key(r[0]), d) {
      assert tail[k] in multiset(tail);
      if tail[k] == x {
        BeforeAsymmetric(key(r[0]), key(x), d);
      } else {
        assert tail[k] in multiset(r[1..]);
        var m :| 0 <= m < |r[1..]| && r[1..][m] == tail[k];
        assert r[m + 1] == tail[k];
      }
    }
  }

  /** `[...items].sort(comparator)`: a stable sort of the rows by their key. */
  function SortBy<T>(s: seq<T>, key: T -> SortKey, d: Direction): (r: seq<T>)
    ensures multiset(r) == multiset(s)
    ensures |r| == |s|
    ensures Sorted(r, key, d)
  {
    if s == [] then []
    else
      assert s == [s[0]] + s[1..];
      Insert(s[0], SortBy(s[1..], key, d), key, d)
  }

  /** The rows whose sort key is `k`. */
  function WithKey<T>(key: T -> SortKey, k: SortKey): T -> bool
  {
    (x: T) => key(x) == k
  }

  /** Inserting `x` puts it in front of every row that shares its key. */
  lemma {:induction false} InsertKeepsTies<T>(x: T, r: seq<T>, key: T -> SortKey, d: Direction, k: SortKey)
    requires Sorted(r, key, d)
    ensures Filter(Insert(x, r, key, d), WithKey(key, k)) == Filter([x], WithKey(key, k)) + Filter(r, WithKey(key, k))
  {
    if r != [] && Before(key(r[0]), key(x), d) {
      InsertKeepsTies(x, r[1..], key, d, k);
      InsertPastHead(x, r, key, d, k);
    } else {
      assert Insert(x, r, key, d) == [x] + r;
      FilterAppend([x], r, WithKey(key, k));
    }
  }

  /** The step of `InsertKeepsTies` where `x` goes past the first row. */
  lemma InsertPastHead<T>(x: T, r: seq<T>, key: T -> SortKey, d: Direction, k: SortKey)
    requires r != [] && Sorted(r, key, d) && Before(key(r[0]), key(x), d)
    requires Filter(Insert(x, r[1..], key, d), WithKey(key, k)) == Filter([x], WithKey(key, k)) + Filter(r[1..], WithKey(key, k))
    ensures Filter(Insert(x, r, key, d), WithKey(key, k)) == Filter([x], WithKey(key, k)) + Filter(r, WithKey(key, k))
  {
    var p := WithKey(key, k);
    InsertUnfoldsPastHead(x, r, key, d);
    FilterAppend([r[0]], Insert(x, r[1..], key, d), p);
    FilterConsHead(r, p);
    PassedRowIsNoTie(x, r[0], key, d, k);
    SwapPastEmpty(Filter([r[0]], p), Filter([x], p), Filter(r[1..], p));
  }

  /** Inserting past the first row keeps that row in front. */
  lemma InsertUnfoldsPastHead<T>(x: T, r: seq<T>, key: T -> SortKey, d: Direction)
    requires r != [] && Sorted(r, key, d) && Before(key(r[0]), key(x), d)
    ensures Insert(x, r, key, d) == [r[0]] + Insert(x, r[1..], key, d)
  {
  }

  /** Filtering a non-empty sequence filters its head, then its rest. */
  lemma FilterConsHead<T>(r: seq<T>, p: T -> bool)
    requires r != []
    ensures Filter(r, p) == Filter([r[0]], p) + Filter(r[1..], p)
  {
    assert r == [r[0]] + r[1..];
    FilterAppend([r[0]], r[1..], p);
  }

  /** An empty block can move past a neighbouring block. */
  lemma SwapPastEmpty<T>(a: seq<T>, b: seq<T>, c: seq<T>)
    requires a == [] || b == []
    ensures a + (b + c) == b + (a + c)
  {
  }

  /** A row that goes strictly before `x` never shares `x`'s key, so at most one of
      the two single-row filters is non-empty. */
  lemma PassedRowIsNoTie<T>(x: T, y: T, key: T -> SortKey, d: Direction, k: SortKey)
    requires Before(key(y), key(x), d)
    ensures Filter([y], WithKey(key, k)) == [] || Filter([x], WithKey(key, k)) == []
  {
    FilterSingleton(x, WithKey(key, k));
    FilterSingleton(y, WithKey(key, k));
    KeyLessStrictTotal(key(x), key(x), key(x));
  }

  /** The sort is stable: the rows sharing any one key keep their input order. */
  lemma {:induction false} SortByKeepsTies<T>(s: seq<T>, key: T -> SortKey, d: Direction, k: SortKey)
    ensures Filter(SortBy(s, key, d), WithKey(key, k)) == Filter(s, WithKey(key, k))
  {
    if s != [] {
      SortByKeepsTies(s[1..], key, d, k);
      InsertKeepsTies(s[0], SortBy(s[1..], key, d), key, d, k);
      assert s == [s[0]] + s[1..];
      FilterAppend([s[0]], s[1..], WithKey(key, k));
    }
  }

  /** The page state `sortConfig`, which may be `null`. */
  datatype SortConfigChoice<K> = NoConfig | Configured(config: SortConfig<K>)

  /** `sortedItems`: a copy sorted by the configured column, or left as it is
      while no configuration is set. `column(k, t)` is the value row `t` shows in
      column `k`. */
  function ApplySort<K, T>(s: seq<T>, column: (K, T) -> SortKey, config: SortConfigChoice<K>): (r: seq<T>)
    ensures multiset(r) == multiset(s)
    ensures config.NoConfig? ==> r == s
    ensures config.Configured? ==> Sorted(r, t => column(config.config.key, t), config.config.direction)
  {
    match config
    case NoConfig => s
    case Configured(c) => SortBy(s, t => column(c.key, t), c.direction)
  }

  /** `requestSort(key)`: clicking a column sorts it descending only when that same
      column is currently sorted ascending; every other click sorts ascending. */
  function RequestSort<K(==)>(current: SortConfigChoice<K>, key: K): (r: SortConfig<K>)
    ensures r.key == key
    ensures r.direction == Descending <==> current == Configured(SortConfig(key, Ascending))
  {
    if current.Configured? && current.config.key == key && current.config.direction == Ascending
    then SortConfig(key, Descending)
    else SortConfig(key, Ascending)
  }

  /** Two clicks on the same column always flip the direction. */
  lemma RequestSortFlips<K>(current: SortConfigChoice<K>, key: K)
    ensures var once := RequestSort(current, key);
            var twice := RequestSort(Configured(once), key);
            twice.key == key && twice.direction != once.direction
  {
  }
}
