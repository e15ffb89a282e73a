/** The ledger view of components/LeftPanel.tsx: the figures it derives from
    the loaded transactions (income and expense totals, the records of the
    selected day, the report's date range, its date-descending record list
    and its per-category aggregation) and the entry form that adds or edits
    a record through the store.

    Dates are instants in milliseconds: `parseDate` stands for date-fns
    `parseISO` (`None` for an invalid date) and `now` for `new Date()`. */
module LeftPanel {
  import opened LedgerTypes
  import Seqs
  import DbService

  // ---------------------------------------------------------------
  // Totals
  // ---------------------------------------------------------------

  /** What a record adds to a total of type `ty`. */
  function Amount(t: Transaction, ty: TxType): real {
    if t.txType == ty then t.amount else 0.0
  }

  /** `transactions.reduce((sum, t) => (t.type === ty ? sum + t.amount : sum), 0)`:
      `totalIncome` and `totalExpense`. */
  function TypeTotal(txs: seq<Transaction>, ty: TxType): real
    decreases |txs|
  {
    if txs == [] then 0.0 else TypeTotal(txs[..|txs| - 1], ty) + Amount(txs[|txs| - 1], ty)
  }

  /** The plain sum of the amounts. */
  function AmountSum(txs: seq<Transaction>): real
    decreases |txs|
  {
    if txs == [] then 0.0 else AmountSum(txs[..|txs| - 1]) + txs[|txs| - 1].amount
  }

  function OfType(ty: TxType): Transaction -> bool {
    (t: Transaction) => t.txType == ty
  }

  lemma {:induction false} AmountSumAppend(a: seq<Transaction>, b: seq<Transaction>)
    ensures AmountSum(a + b) == AmountSum(a) + AmountSum(b)
    decreases |b|
  {
    if b == [] {
      assert a + b == a;
    } else {
      assert (a + b)[..|a + b| - 1] == a + b[..|b| - 1];
      AmountSumAppend(a, b[..|b| - 1]);
    }
  }

  /** A type's total is the sum of the amounts of that type's records. */
  lemma {:induction false} TypeTotalIsFilteredSum(txs: seq<Transaction>, ty: TxType)
    ensures TypeTotal(txs, ty) == AmountSum(Seqs.Filter(txs, OfType(ty)))
    decreases |txs|
  {
    if txs != [] {
      var init, last := txs[..|txs| - 1], txs[|txs| - 1];
      assert txs == init + [last];
      TypeTotalIsFilteredSum(init, ty);
      Seqs.FilterAppend(init, [last], OfType(ty));
      FilteredSingle(last, ty);
      AmountSumAppend(Seqs.Filter(init, OfType(ty)), Seqs.Filter([last], OfType(ty)));
    }
  }

  lemma FilteredSingle(t: Transaction, ty: TxType)
    ensures AmountSum(Seqs.Filter([t], OfType(ty))) == Amount(t, ty)
  {
    assert [t][1..] == [];
    var kept := Seqs.Filter([t], OfType(ty));
    assert kept == if t.txType == ty then [t] else [];
    if kept != [] {
      assert kept[..0] == [];
    }
  }

  /** The report's balance:
      `filteredTransactions.reduce((acc, t) => t.type === "income" ? acc + t.amount : acc - t.amount, 0)`. */
  function ReportBalance(txs: seq<Transaction>): real
    decreases |txs|
  {
    if txs == [] then 0.0
    else
      var t := txs[|txs| - 1];
      ReportBalance(txs[..|txs| - 1]) + (if t.txType == Income then t.amount else -t.amount)
  }

  /** The report's balance equals its income total minus its expense
      total, the same figure the header shows for all records. */
  lemma {:induction false} ReportBalanceIsDifference(txs: seq<Transaction>)
    ensures ReportBalance(txs) == TypeTotal(txs, Income) - TypeTotal(txs, Expense)
    decreases |txs|
  {
    if txs != [] {
      ReportBalanceIsDifference(txs[..|txs| - 1]);
    }
  }

  // ---------------------------------------------------------------
  // The selected day
  // ---------------------------------------------------------------

  function OnDate(d: string): Transaction -> bool {
    (t: Transaction) => t.date == d
  }

  /** `dailyTransactions`: the records dated `selectedDate`, in stored
      order. */
  function DailyTransactions(txs: seq<Transaction>, selectedDate: string): (r: seq<Transaction>)
    ensures forall t :: t in r <==> t in txs && t.date == selectedDate
    ensures Seqs.IsSubsequence(r, txs)
  {
    Seqs.FilterIsSubsequence(txs, OnDate(selectedDate));
    Seqs.Filter(txs, OnDate(selectedDate))
  }

  /** Every record of the selected day appears as often as it is stored,
      and no other record appears. */
  lemma DailyTransactionsCounts(txs: seq<Transaction>, selectedDate: string, x: Transaction)
    ensures multiset(DailyTransactions(txs, selectedDate))[x] ==
            if x.date == selectedDate then multiset(txs)[x] else 0
  {
    Seqs.FilterMultiset(txs, OnDate(selectedDate), x);
  }

  // ---------------------------------------------------------------
  // The report's date range
  // ---------------------------------------------------------------

  const DayMs: int := 86400000

  /** date-fns `endOfDay`: the last millisecond of the instant's day. */
  function EndOfDay(ms: int): (r: int)
    ensures ms <= r < ms + 86400000
    ensures (r + 1) % 86400000 == 0
  {
    ms - ms % 86400000 + 86400000 - 1
  }

  /** A custom bound: the entered date, or the current instant when the
      entry is not a valid date. */
  function BoundOrNow(entry: string, parseDate: string -> Option<int>, now: int): int {
    parseDate(entry).GetOr(now)
  }

  /** The custom range: the earlier bound starts it and the end of the
      later bound's day ends it, whichever order they were entered in. */
  function CustomRange(customStart: string, customEnd: string,
                       parseDate: string -> Option<int>, now: int): (r: (int, int))
    ensures r.0 <= r.1
    ensures var d1, d2 := BoundOrNow(customStart, parseDate, now), BoundOrNow(customEnd, parseDate, now);
            r.0 <= d1 && r.0 <= d2 && (r.0 == d1 || r.0 == d2) &&
            d1 <= r.1 && d2 <= r.1 && (r.1 == EndOfDay(d1) || r.1 == EndOfDay(d2))
  {
    var d1 := BoundOrNow(customStart, parseDate, now);
    var d2 := BoundOrNow(customEnd, parseDate, now);
    if d1 > d2 then (d2, EndOfDay(d1)) else (d1, EndOfDay(d2))
  }

  /** Entering the two bounds in either order gives the same range. */
  lemma CustomRangeSymmetric(a: string, b: string, parseDate: string -> Option<int>, now: int)
    ensures CustomRange(a, b, parseDate, now) == CustomRange(b, a, parseDate, now)
  {
  }

  /** `isWithinInterval(parseISO(t.date), { start, end })`; an invalid
      date is in no interval. */
  function InRange(start: int, end: int, parseDate: string -> Option<int>): Transaction -> bool {
    (t: Transaction) => parseDate(t.date).Some? && start <= parseDate(t.date).value <= end
  }

  /** The sort key `new Date(t.date).getTime()`. */
  function DateKey(parseDate: string -> Option<int>): Transaction -> int {
    (t: Transaction) => parseDate(t.date).GetOr(0)
  }

  predicate SortedDesc(s: seq<Transaction>, key: Transaction -> int) {
    forall i, j :: 0 <= i < j < |s| ==> key(s[i]) >= key(s[j])
  }

  /** Places `x` before the first element whose key is not greater, so
      that `x` stays ahead of equal keys that followed it. */
  function Insert(x: Transaction, s: seq<Transaction>, key: Transaction -> int): (r: seq<Transaction>)
    ensures multiset(r) == multiset(s) + multiset{x}
    decreases |s|
  {
    if s == [] || key(s[0]) <= key(x) then [x] + s
    else
      assert s == [s[0]] + s[1..];
      [s[0]] + Insert(x, s[1..], key)
  }

  lemma SortedTail(s: seq<Transaction>, key: Transaction -> int)
    requires |s| > 0 && SortedDesc(s, key)
    ensures SortedDesc(s[1..], key) && forall y :: y in s[1..] ==> key(s[0]) >= key(y)
  {
    forall i, j | 0 <= i < j < |s[1..]| ensures key(s[1..][i]) >= key(s[1..][j]) {
      assert s[1..][i] == s[i + 1] && s[1..][j] == s[j + 1];
    }
    forall y | y in s[1..] ensures key(s[0]) >= key(y) {
      var j :| 0 <= j < |s[1..]| && s[1..][j] == y;
      assert s[j + 1] == y;
    }
  }

  lemma ConsSorted(x: Transaction, s: seq<Transaction>, key: Transaction -> int)
    requires SortedDesc(s, key) && forall y :: y in s ==> key(x) >= key(y)
    ensures SortedDesc([x] + s, key)
  {
    var r := [x] + s;
    forall i, j | 0 <= i < j < |r| ensures key(r[i]) >= key(r[j]) {
      assert r[j] == s[j - 1];
      if i > 0 {
        assert r[i] == s[i - 1];
      }
    }
  }

  lemma InsertFrontBound(x: Transaction, s: seq<Transaction>, key: Transaction -> int)
    requires SortedDesc(s, key) && (s == [] || key(s[0]) <= key(x))
    ensures forall y :: y in s ==> key(x) >= key(y)
  {
    if s != [] {
      SortedTail(s, key);
    }
  }

  lemma InsertMembers(x: Transaction, s: seq<Transaction>, key: Transaction -> int)
    ensures forall y :: y in Insert(x, s, key) ==> y == x || y in s
  {
    forall y | y in Insert(x, s, key) ensures y == x || y in s {
      assert y in multiset(Insert(x, s, key));
    }
  }

  /** Inserting into a list sorted latest first keeps it sorted. */
  lemma {:induction false} InsertSorted(x: Transaction, s: seq<Transaction>, key: Transaction -> int)
    requires SortedDesc(s, key)
    ensures SortedDesc(Insert(x, s, key), key)
    decreases |s|
  {
    if s == [] || key(s[0]) <= key(x) {
      InsertFrontBound(x, s, key);
      ConsSorted(x, s, key);
    } else {
      SortedTail(s, key);
      InsertSorted(x, s[1..], key);
      InsertMembers(x, s[1..], key);
      ConsSorted(s[0], Insert(x, s[1..], key), key);
    }
  }

  /** `.sort((a, b) => key(b) - key(a))`: the records ordered by key,
      latest first. */
  function SortByDateDesc(s: seq<Transaction>, key: Transaction -> int): (r: seq<Transaction>)
    ensures SortedDesc(r, key)
    ensures multiset(r) == multiset(s)
    decreases |s|
  {
    if s == [] then []
    else
      assert s == [s[0]] + s[1..];
      InsertSorted(s[0], SortByDateDesc(s[1..], key), key);
      Insert(s[0], SortByDateDesc(s[1..], key), key)
  }

  /** `filteredTransactions`: the records inside the range, latest first.
      Exactly the records in range appear, each as often as it is stored. */
  function ReportTransactions(txs: seq<Transaction>, start: int, end: int,
                              parseDate: string -> Option<int>): (r: seq<Transaction>)
    ensures SortedDesc(r, DateKey(parseDate))
    ensures multiset(r) == multiset(Seqs.Filter(txs, InRange(start, end, parseDate)))
  {
    SortByDateDesc(Seqs.Filter(txs, InRange(start, end, parseDate)), DateKey(parseDate))
  }

  /** Exactly the stored records whose date falls in the range are listed. */
  lemma ReportMembership(txs: seq<Transaction>, start: int, end: int,
                         parseDate: string -> Option<int>, t: Transaction)
    ensures t in ReportTransactions(txs, start, end, parseDate) <==>
            (t in txs && parseDate(t.date).Some? && start <= parseDate(t.date).value <= end)
  {
    var f := Seqs.Filter(txs, InRange(start, end, parseDate));
    var r := ReportTransactions(txs, start, end, parseDate);
    assert t in r <==> t in multiset(r);
    assert t in f <==> t in multiset(f);
  }

  // ---------------------------------------------------------------
  // The per-category aggregation
  // ---------------------------------------------------------------

  datatype Totals = Totals(income: real, expense: real)

  /** One entry of `chartData`. */
  datatype ChartEntry = ChartEntry(name: string, income: real, expense: real)

  function Pick(v: Totals, ty: TxType): real {
    if ty == Income then v.income else v.expense
  }

  /** The total of type `ty` of the records of one category. */
  function CategoryTotal(txs: seq<Transaction>, category: string, ty: TxType): real
    decreases |txs|
  {
    if txs == [] then 0.0
    else
      var t := txs[|txs| - 1];
      CategoryTotal(txs[..|txs| - 1], category, ty) + (if t.category == category then Amount(t, ty) else 0.0)
  }

  /** The sum of the aggregated totals of type `ty` over `keys`. */
  function KeySum(keys: seq<string>, agg: map<string, Totals>, ty: TxType): real
    decreases |keys|
  {
    if keys == [] then 0.0
    else
      var k := keys[|keys| - 1];
      KeySum(keys[..|keys| - 1], agg, ty) + (if k in agg then Pick(agg[k], ty) else 0.0)
  }

  /** The sum of the chart's entries of type `ty`. */
  function EntrySum(chart: seq<ChartEntry>, ty: TxType): real
    decreases |chart|
  {
    if chart == [] then 0.0
    else
      var e := chart[|chart| - 1];
      EntrySum(chart[..|chart| - 1], ty) + (if ty == Income then e.income else e.expense)
  }

  predicate Distinct(keys: seq<string>) {
    forall a, b :: 0 <= a < b < |keys| ==> keys[a] != keys[b]
  }

  function Categories(txs: seq<Transaction>): set<string> {
    set t | t in txs :: t.category
  }

  /** What the aggregation loop keeps after the records of `prefix`: one
      key per category in order of first appearance, each with its
      category's totals, so the keys' totals add up to the prefix's. */
  predicate AggInv(prefix: seq<Transaction>, agg: map<string, Totals>, keys: seq<string>) {
    Distinct(keys) &&
    agg.Keys == (set k | k in keys) &&
    (set k | k in keys) == Categories(prefix) &&
    (forall k :: k in agg ==> agg[k] == Totals(CategoryTotal(prefix, k, Income), CategoryTotal(prefix, k, Expense))) &&
    KeySum(keys, agg, Income) == TypeTotal(prefix, Income) &&
    KeySum(keys, agg, Expense) == TypeTotal(prefix, Expense)
  }

  lemma {:induction false} KeySumIgnores(keys: seq<string>, agg: map<string, Totals>, k: string, v: Totals, ty: TxType)
    requires k !in keys
    ensures KeySum(keys, agg[k := v], ty) == KeySum(keys, agg, ty)
    decreases |keys|
  {
    if keys != [] {
      KeySumIgnores(keys[..|keys| - 1], agg, k, v, ty);
    }
  }

  lemma {:induction false} KeySumUpdate(keys: seq<string>, agg: map<string, Totals>, k: string, v: Totals, ty: TxType)
    requires Distinct(keys) && k in keys && k in agg
    ensures KeySum(keys, agg[k := v], ty) == KeySum(keys, agg, ty) - Pick(agg[k], ty) + Pick(v, ty)
    decreases |keys|
  {
    var init, last := keys[..|keys| - 1], keys[|keys| - 1];
    assert keys == init + [last];
    if last == k {
      assert k !in init;
      KeySumIgnores(init, agg, k, v, ty);
    } else {
      assert k in init;
      KeySumUpdate(init, agg, k, v, ty);
    }
  }

  lemma {:induction false} CategoryTotalAbsent(txs: seq<Transaction>, k: string, ty: TxType)
    requires k !in Categories(txs)
    ensures CategoryTotal(txs, k, ty) == 0.0
    decreases |txs|
  {
    if txs != [] {
      var init := txs[..|txs| - 1];
      assert txs[|txs| - 1] in txs;
      assert k !in Categories(init) by {
        forall t | t in init ensures t.category != k {
          assert t in txs;
        }
      }
      CategoryTotalAbsent(init, k, ty);
    }
  }

  /** A record whose category the `agg` literal does not inherit. For an
      inherited name `!agg[key]` is false, so no own entry is opened and
      the amount goes to the inherited value, which `Object.keys` never
      lists. */
  predicate OwnCategory(t: Transaction) {
    t.category !in InheritedNames
  }

  /** The records the aggregation keeps an own entry for. */
  function OwnRecords(txs: seq<Transaction>): seq<Transaction> {
    Seqs.Filter(txs, OwnCategory)
  }

  lemma OwnRecordsAppend(txs: seq<Transaction>, t: Transaction)
    ensures OwnRecords(txs + [t]) == OwnRecords(txs) + (if OwnCategory(t) then [t] else [])
  {
    Seqs.FilterAppend(txs, [t], OwnCategory);
    assert [t][1..] == [];
  }

  /** The categories of the own records are the categories that are not
      inherited names. */
  lemma {:induction false} OwnCategories(txs: seq<Transaction>)
    ensures Categories(OwnRecords(txs)) == Categories(txs) - InheritedNames
  {
    forall c | c in Categories(txs) - InheritedNames ensures c in Categories(OwnRecords(txs)) {
      var u :| u in txs && u.category == c;
      assert u in OwnRecords(txs);
    }
  }

  /** Dropping the records of inherited categories leaves every other
      category's totals as they are. */
  lemma {:induction false} OwnCategoryTotal(txs: seq<Transaction>, k: string, ty: TxType)
    requires k !in InheritedNames
    ensures CategoryTotal(OwnRecords(txs), k, ty) == CategoryTotal(txs, k, ty)
    decreases |txs|
  {
    if txs != [] {
      var init, last := txs[..|txs| - 1], txs[|txs| - 1];
      OwnCategoryTotal(init, k, ty);
      OwnRecordsLast(txs);
      if OwnCategory(last) {
        CategoryTotalSnoc(OwnRecords(init), last, k, ty);
      }
    }
  }

  lemma OwnRecordsLast(txs: seq<Transaction>)
    requires txs != []
    ensures var init, last := txs[..|txs| - 1], txs[|txs| - 1];
            OwnRecords(txs) == if OwnCategory(last) then OwnRecords(init) + [last] else OwnRecords(init)
  {
    var init, last := txs[..|txs| - 1], txs[|txs| - 1];
    assert txs == init + [last];
    OwnRecordsAppend(init, last);
    assert OwnRecords(init) + [] == OwnRecords(init);
  }

  lemma CategoryTotalSnoc(txs: seq<Transaction>, t: Transaction, k: string, ty: TxType)
    ensures CategoryTotal(txs + [t], k, ty) == CategoryTotal(txs, k, ty) + (if t.category == k then Amount(t, ty) else 0.0)
  {
    assert (txs + [t])[..|txs|] == txs;
  }

  /** The aggregation of one more record. */
  function AggStep(agg: map<string, Totals>, keys: seq<string>, t: Transaction): (map<string, Totals>, seq<string>) {
    var k := t.category;
    if k in InheritedNames then (agg, keys)
    else
    var base := if k in agg then agg[k] else Totals(0.0, 0.0);
    var v := if t.txType == Income then base.(income := base.income + t.amount)
             else base.(expense := base.expense + t.amount);
    (agg[k := v], if k in agg then keys else keys + [k])
  }

  lemma AggStepTotals(prefix: seq<Transaction>, agg: map<string, Totals>, keys: seq<string>, t: Transaction)
    requires AggInv(prefix, agg, keys) && OwnCategory(t)
    ensures var (agg2, keys2) := AggStep(agg, keys, t);
            forall k :: k in agg2 ==>
              agg2[k] == Totals(CategoryTotal(prefix + [t], k, Income), CategoryTotal(prefix + [t], k, Expense))
  {
    var next := prefix + [t];
    assert next[..|next| - 1] == prefix;
    var (agg2, keys2) := AggStep(agg, keys, t);
    if t.category !in agg {
      CategoryTotalAbsent(prefix, t.category, Income);
      CategoryTotalAbsent(prefix, t.category, Expense);
    }
  }

  lemma AggStepSums(prefix: seq<Transaction>, agg: map<string, Totals>, keys: seq<string>, t: Transaction, ty: TxType)
    requires AggInv(prefix, agg, keys) && OwnCategory(t)
    ensures var (agg2, keys2) := AggStep(agg, keys, t);
            KeySum(keys2, agg2, ty) == TypeTotal(prefix + [t], ty)
  {
    var next := prefix + [t];
    assert next[..|next| - 1] == prefix;
    var k := t.category;
    var (agg2, keys2) := AggStep(agg, keys, t);
    if k in agg {
      KeySumUpdate(keys, agg, k, agg2[k], ty);
    } else {
      var zeroed := agg[k := Totals(0.0, 0.0)];
      assert agg2 == zeroed[k := agg2[k]];
      KeySumIgnores(keys, agg, k, agg2[k], ty);
      assert (keys + [k])[..|keys|] == keys;
    }
  }

  lemma AggStepKeys(prefix: seq<Transaction>, agg: map<string, Totals>, keys: seq<string>, t: Transaction)
    requires AggInv(prefix, agg, keys) && OwnCategory(t)
    ensures var (agg2, keys2) := AggStep(agg, keys, t);
            Distinct(keys2) && agg2.Keys == (set k | k in keys2) &&
            (set k | k in keys2) == Categories(prefix + [t])
  {
    var k := t.category;
    var (agg2, keys2) := AggStep(agg, keys, t);
    assert Categories(prefix + [t]) == Categories(prefix) + {k} by {
      forall c | c in Categories(prefix + [t]) ensures c in Categories(prefix) + {k} {
        var u :| u in prefix + [t] && u.category == c;
        if u != t {
          assert u in prefix;
        }
      }
      forall c | c in Categories(prefix) ensures c in Categories(prefix + [t]) {
        var u :| u in prefix && u.category == c;
        assert u in prefix + [t];
      }
      assert t in prefix + [t];
    }
    if k !in agg {
      assert (set x | x in keys + [k]) == (set x | x in keys) + {k};
    }
  }

  /** One more record keeps the aggregation describing the own records
      seen so far; a record of an inherited category leaves it as it was. */
  lemma AggStepKeepsInv(prefix: seq<Transaction>, agg: map<string, Totals>, keys: seq<string>, t: Transaction)
    requires AggInv(OwnRecords(prefix), agg, keys)
    ensures var (agg2, keys2) := AggStep(agg, keys, t);
            AggInv(OwnRecords(prefix + [t]), agg2, keys2)
  {
    OwnRecordsAppend(prefix, t);
    if OwnCategory(t) {
      var own := OwnRecords(prefix);
      AggStepKeys(own, agg, keys, t);
      AggStepTotals(own, agg, keys, t);
      AggStepSums(own, agg, keys, t, Income);
      AggStepSums(own, agg, keys, t, Expense);
    } else {
      assert OwnRecords(prefix) + [] == OwnRecords(prefix);
    }
  }

  /** `Object.keys(agg).map((k) => ({ name: k, ...agg[k] }))` */
  function ChartOf(keys: seq<string>, agg: map<string, Totals>): (r: seq<ChartEntry>)
    requires forall k :: k in keys ==> k in agg
    ensures |r| == |keys|
    ensures forall m :: 0 <= m < |keys| ==> r[m] == ChartEntry(keys[m], agg[keys[m]].income, agg[keys[m]].expense)
    decreases |keys|
  {
    if keys == [] then []
    else
      var k := keys[|keys| - 1];
      ChartOf(keys[..|keys| - 1], agg) + [ChartEntry(k, agg[k].income, agg[k].expense)]
  }

  lemma {:induction false} ChartSums(keys: seq<string>, agg: map<string, Totals>, ty: TxType)
    requires forall k :: k in keys ==> k in agg
    ensures EntrySum(ChartOf(keys, agg), ty) == KeySum(keys, agg, ty)
    decreases |keys|
  {
    if keys != [] {
      var init := keys[..|keys| - 1];
      ChartSums(init, agg, ty);
      var r := ChartOf(keys, agg);
      assert r[..|r| - 1] == ChartOf(init, agg);
    }
  }

  lemma ChartNames(keys: seq<string>, agg: map<string, Totals>)
    requires Distinct(keys) && forall k :: k in keys ==> k in agg
    ensures var chart := ChartOf(keys, agg);
            (forall a, b :: 0 <= a < b < |chart| ==> chart[a].name != chart[b].name) &&
            (set e | e in chart :: e.name) == (set k | k in keys)
  {
    var chart := ChartOf(keys, agg);
    assert forall e :: e in chart ==> e.name in keys;
    forall k | k in keys ensures k in (set e | e in chart :: e.name) {
      var m :| 0 <= m < |keys| && keys[m] == k;
      assert chart[m].name == k;
    }
  }

  lemma ChartEntries(txs: seq<Transaction>, keys: seq<string>, agg: map<string, Totals>)
    requires forall k :: k in keys ==> k in agg
    requires forall k :: k in agg ==> agg[k] == Totals(CategoryTotal(txs, k, Income), CategoryTotal(txs, k, Expense))
    ensures forall e :: e in ChartOf(keys, agg) ==>
              e.income == CategoryTotal(txs, e.name, Income) &&
              e.expense == CategoryTotal(txs, e.name, Expense)
  {
    var chart := ChartOf(keys, agg);
    forall e | e in chart
      ensures e.income == CategoryTotal(txs, e.name, Income) && e.expense == CategoryTotal(txs, e.name, Expense)
    {
      var m :| 0 <= m < |chart| && chart[m] == e;
      assert keys[m] in agg;
    }
  }

  /** What the finished aggregation means for the chart built from it. */
  lemma ChartMeaning(txs: seq<Transaction>, agg: map<string, Totals>, keys: seq<string>)
    requires AggInv(txs, agg, keys)
    ensures forall k :: k in keys ==> k in agg
    ensures var chart := ChartOf(keys, agg);
            (forall a, b :: 0 <= a < b < |chart| ==> chart[a].name != chart[b].name) &&
            (set e | e in chart :: e.name) == Categories(txs) &&
            (forall e :: e in chart ==>
               e.income == CategoryTotal(txs, e.name, Income) &&
               e.expense == CategoryTotal(txs, e.name, Expense)) &&
            EntrySum(chart, Income) == TypeTotal(txs, Income) &&
            EntrySum(chart, Expense) == TypeTotal(txs, Expense)
  {
    assert forall k :: k in keys ==> k in agg;
    ChartSums(keys, agg, Income);
    ChartSums(keys, agg, Expense);
    ChartNames(keys, agg);
    ChartEntries(txs, keys, agg);
  }

  /** The loop body of step 3: open the record's category with zero
      totals if it is new, then add the amount to the total of its type.
      An inherited category name finds its inherited value truthy: no entry
      is opened and the amount is lost to the aggregation. */
  method AddRecord(agg: map<string, Totals>, keys: seq<string>, t: Transaction)
    returns (agg2: map<string, Totals>, keys2: seq<string>)
    ensures (agg2, keys2) == AggStep(agg, keys, t)
  {
    agg2, keys2 := agg, keys;
    var key := t.category;
    if key in InheritedNames {
      return;
    }
    if key !in agg2 {
      agg2 := agg2[key := Totals(0.0, 0.0)];
      keys2 := keys2 + [key];
    }
    var withKey := agg2;
    if t.txType == Income {
      agg2 := agg2[key := agg2[key].(income := agg2[key].income + t.amount)];
    } else {
      agg2 := agg2[key := agg2[key].(expense := agg2[key].expense + t.amount)];
    }
    assert agg2 == agg[key := agg2[key]] by {
      assert withKey == agg || withKey == agg[key := Totals(0.0, 0.0)];
    }
  }

  /** Step 3 of the report: the per-category income and expense totals of
      `filtered`, one entry per category in order of first appearance,
      except that categories named after inherited properties get no
      entry. The entries' totals add up to the income and expense of the
      remaining records, so to the filtered totals when no category is
      such a name. */
  method Aggregate(filtered: seq<Transaction>) returns (chartData: seq<ChartEntry>)
    ensures forall a, b :: 0 <= a < b < |chartData| ==> chartData[a].name != chartData[b].name
    ensures (set e | e in chartData :: e.name) == Categories(filtered) - InheritedNames
    ensures forall e :: e in chartData ==>
              e.income == CategoryTotal(filtered, e.name, Income) &&
              e.expense == CategoryTotal(filtered, e.name, Expense)
    ensures EntrySum(chartData, Income) == TypeTotal(OwnRecords(filtered), Income)
    ensures EntrySum(chartData, Expense) == TypeTotal(OwnRecords(filtered), Expense)
    ensures (forall t :: t in filtered ==> OwnCategory(t)) ==>
              EntrySum(chartData, Income) == TypeTotal(filtered, Income) &&
              EntrySum(chartData, Expense) == TypeTotal(filtered, Expense)
  {
    var agg: map<string, Totals> := map[];
    var keys: seq<string> := [];
    assert OwnRecords(filtered[..0]) == [];
    for i := 0 to |filtered|
      invariant AggInv(OwnRecords(filtered[..i]), agg, keys)
    {
      var t := filtered[i];
      AggStepKeepsInv(filtered[..i], agg, keys, t);
      agg, keys := AddRecord(agg, keys, t);
      Seqs.PrefixStep(filtered, i);
    }
    assert filtered[..|filtered|] == filtered;
    var own := OwnRecords(filtered);
    ChartMeaning(own, agg, keys);
    chartData := ChartOf(keys, agg);
    OwnCategories(filtered);
    forall e | e in chartData
      ensures e.income == CategoryTotal(filtered, e.name, Income)
      ensures e.expense == CategoryTotal(filtered, e.name, Expense)
    {
      OwnCategoryTotal(filtered, e.name, Income);
      OwnCategoryTotal(filtered, e.name, Expense);
    }
    if forall t :: t in filtered ==> OwnCategory(t) {
      Seqs.FilterKeepsAll(filtered, OwnCategory);
    }
  }

  // ---------------------------------------------------------------
  // The entry form
  // ---------------------------------------------------------------

  datatype ViewMode = EntryView | ReportView

  /** The form fields; `amount` is the text typed into the amount box. */
  datatype FormData = FormData(txType: TxType, category: string, amount: string, description: string)

  /** The form after a submit (and initially). */
  const EmptyForm: FormData := FormData(Expense, "Food", "", "")

  /** The fields `handleSubmit` passes to `db.update`. */
  function SubmitPatch(f: FormData, selectedDate: string, parseAmount: string -> real): Patch {
    Patch(Some(selectedDate), Some(f.txType), Some(f.category), Some(parseAmount(f.amount)), Some(f.description))
  }

  /** The fields `handleSubmit` passes to `db.add`. */
  function SubmitFields(f: FormData, selectedDate: string, parseAmount: string -> real): NewFields {
    NewFields(selectedDate, f.txType, f.category, parseAmount(f.amount), f.description)
  }

  /** The form `handleEdit` fills from a record. */
  function EditForm(t: Transaction, showAmount: real -> string): FormData {
    FormData(t.txType, t.category, showAmount(t.amount), t.description)
  }

  /** Opening a record for editing and saving it unchanged writes back the
      same record, provided the amount survives its round trip through the
      text box. */
  lemma EditThenSaveIsIdentity(t: Transaction, showAmount: real -> string, parseAmount: string -> real)
    requires parseAmount(showAmount(t.amount)) == t.amount
    ensures Merge(t, SubmitPatch(EditForm(t, showAmount), t.date, parseAmount)) == t
  {
  }

  /** The form reset and the expense switch agree on the category: both
      pick the first expense category. */
  lemma ResetPicksFirstExpenseCategory()
    ensures EmptyForm.category == CategoriesOf(Expense)[0] && EmptyForm.txType == Expense
  {
  }

  /** Whether `isEditing` is truthy: an edit is pending for a non-empty
      id. */
  predicate Editing(isEditing: Option<string>) {
    isEditing.Some? && isEditing.value != ""
  }

  class EntryForm {
    var isEditing: Option<string>
    var formData: FormData
    var selectedDate: string
    var viewMode: ViewMode
    const store: DbService.LedgerStore

    constructor (store: DbService.LedgerStore, today: string)
      ensures isEditing == None && formData == EmptyForm
      ensures selectedDate == today && viewMode == EntryView && this.store == store
    {
      isEditing := None;
      formData := EmptyForm;
      selectedDate := today;
      viewMode := EntryView;
      this.store := store;
    }

    /** `handleSubmit`. An empty amount does nothing. Otherwise the form
        updates the record being edited, or adds a new one dated on the
        selected day; when the store call succeeds the edit ends and the
        form is reset. A failing store call leaves the form as it was. */
    method HandleSubmit(env: DbService.Env, newId: string, now: int, fault: Option<string>,
                        parseAmount: string -> real)
      modifies this, store, store.bus
      ensures selectedDate == old(selectedDate) && viewMode == old(viewMode)
      ensures old(formData.amount) == "" ==>
                store.State() == old(store.State()) && store.bus.log == old(store.bus.log) &&
                isEditing == old(isEditing) && formData == old(formData)
      ensures old(formData.amount) != "" && Editing(old(isEditing)) ==>
                var step := DbService.UpdateSpec(old(store.State()), env, old(isEditing).value,
                                                 SubmitPatch(old(formData), old(selectedDate), parseAmount), fault);
                store.State() == step.state && store.bus.log == old(store.bus.log) + step.emitted &&
                (if step.result.Ok? then isEditing == None && formData == EmptyForm
                 else isEditing == old(isEditing) && formData == old(formData))
      ensures old(formData.amount) != "" && !Editing(old(isEditing)) ==>
                var step := DbService.AddSpec(old(store.State()), env,
                                              SubmitFields(old(formData), old(selectedDate), parseAmount), newId, now, fault);
                store.State() == step.state && store.bus.log == old(store.bus.log) + step.emitted &&
                isEditing == old(isEditing) &&
                (if step.result.Ok? then formData == EmptyForm else formData == old(formData))
    {
      if formData.amount == "" {
        return;
      }
      if Editing(isEditing) {
        var r := store.Update(env, isEditing.value, SubmitPatch(formData, selectedDate, parseAmount), fault);
        if r.Err? {
          return;
        }
        isEditing := None;
      } else {
        var r := store.Add(env, SubmitFields(formData, selectedDate, parseAmount), newId, now, fault);
        if r.Err? {
          return;
        }
      }
      formData := EmptyForm;
    }

    /** `handleEdit`: load a record into the form, select its day and show
        the entry view. */
    method HandleEdit(t: Transaction, showAmount: real -> string)
      modifies this
      ensures isEditing == Some(t.id) && selectedDate == t.date
      ensures formData == EditForm(t, showAmount) && viewMode == EntryView
    {
      isEditing := Some(t.id);
      selectedDate := t.date;
      formData := EditForm(t, showAmount);
      viewMode := EntryView;
    }

    /** The expense and income buttons: switch the type and select that
        type's first category, keeping the amount and description. */
    method SelectType(ty: TxType)
      modifies this
      ensures formData == old(formData).(txType := ty, category := CategoriesOf(ty)[0])
      ensures formData.category in CategoriesOf(ty)
      ensures isEditing == old(isEditing) && selectedDate == old(selectedDate) && viewMode == old(viewMode)
    {
      formData := formData.(txType := ty, category := CategoriesOf(ty)[0]);
    }
  }
}
