/** The demo-data generator of services/demoDataService.ts.

    It walks day by day, in steps of 24 hours, from three months before
    today up to today, and for each day pushes a block of records: on the
    1st and the 15th a salary (and on the 1st the rent), on other days
    nothing with some chance, then possibly one extra income and one to
    three expenses. `Math.random` is the oracle `rng`: the i-th call
    returns `rng(i)`. The calendar is abstract: a day is the millisecond
    timestamp the walk reaches on that day (the current time of day,
    kept from `new Date()`), and `dayOfMonth` and `dateOf` give its day
    of the month and its `yyyy-MM-dd` string. */
module DemoData {
  import opened LedgerTypes
  import opened Text
  import opened Seqs

  const DayMs: int := 86400000  // 24 * 60 * 60 * 1000

  /** The values `Math.random` returns lie in [0, 1). */
  ghost predicate IsRandom(rng: nat -> real) {
    forall i: nat :: 0.0 <= rng(i) < 1.0
  }

  /** `randomBetween(min, max)` for the random value `r`. */
  function RandomBetween(r: real, min: int, max: int): (n: int)
    requires 0.0 <= r < 1.0
    ensures min <= max ==> min <= n <= max
  {
    ScaledFloor(r, max - min + 1) + min
  }

  /** `Math.floor(r * k)` for a random `r`. */
  function ScaledFloor(r: real, k: int): (n: int)
    requires 0.0 <= r < 1.0
    ensures k > 0 ==> 0 <= n < k
  {
    assert k > 0 ==> 0.0 <= r * k as real < k as real by {
      if k > 0 {
        assert r * k as real < 1.0 * k as real;
      }
    }
    (r * k as real).Floor
  }

  /** `randomFromArray(arr)` for the random value `r`. */
  function RandomFromArray<T>(r: real, arr: seq<T>): (x: T)
    requires 0.0 <= r < 1.0 && |arr| > 0
    ensures x in arr
  {
    var i := RandomBetween(r, 0, |arr| - 1);
    arr[i]
  }

  /** `EXPENSE_DESCRIPTIONS[category]` */
  function ExpenseDescriptions(category: string): Option<seq<string>> {
    if category == "Food" then
      Some(["Lunch at restaurant", "Grocery shopping", "Coffee shop", "Dinner takeout", "Breakfast", "Snacks"])
    else if category == "Transport" then
      Some(["Uber ride", "Gas station", "Bus ticket", "Metro card", "Parking fee", "Taxi"])
    else if category == "Utilities" then
      Some(["Electric bill", "Water bill", "Internet bill", "Phone bill", "Gas bill"])
    else if category == "Rent" then Some(["Monthly rent", "Rent payment"])
    else if category == "Entertainment" then
      Some(["Movie tickets", "Netflix subscription", "Concert", "Video game", "Spotify", "Books"])
    else if category == "Health" then
      Some(["Pharmacy", "Doctor visit", "Gym membership", "Vitamins", "Dental checkup"])
    else if category == "Other" then
      Some(["Shopping", "Gift", "Household items", "Repair", "Miscellaneous"])
    else None
  }

  /** `INCOME_DESCRIPTIONS[category]` */
  function IncomeDescriptions(category: string): Option<seq<string>> {
    if category == "Salary" then Some(["Monthly salary", "Salary deposit", "Paycheck"])
    else if category == "Investment" then Some(["Stock dividend", "Interest income", "Investment return"])
    else if category == "Bonus" then Some(["Year-end bonus", "Performance bonus", "Holiday bonus"])
    else if category == "Other" then Some(["Freelance work", "Refund", "Gift received", "Side income"])
    else None
  }

  /** `EXPENSE_AMOUNTS[category]` */
  function ExpenseAmounts(category: string): Option<(int, int)> {
    if category == "Food" then Some((8, 80))
    else if category == "Transport" then Some((5, 50))
    else if category == "Utilities" then Some((30, 200))
    else if category == "Rent" then Some((800, 2000))
    else if category == "Entertainment" then Some((10, 100))
    else if category == "Health" then Some((20, 300))
    else if category == "Other" then Some((10, 150))
    else None
  }

  /** `INCOME_AMOUNTS[category]` */
  function IncomeAmounts(category: string): Option<(int, int)> {
    if category == "Salary" then Some((3000, 8000))
    else if category == "Investment" then Some((50, 500))
    else if category == "Bonus" then Some((500, 3000))
    else if category == "Other" then Some((100, 1000))
    else None
  }

  /** The amount range a random expense of this category is drawn from. */
  function ExpenseRange(category: string): (r: (int, int))
    ensures 0 < r.0 <= r.1
  {
    ExpenseAmounts(category).GetOr((10, 100))
  }

  /** The amount range an extra income of this category is drawn from. */
  function IncomeRange(category: string): (r: (int, int))
    ensures 0 < r.0 <= r.1
  {
    IncomeAmounts(category).GetOr((50, 500))
  }

  function ExpensePool(category: string): (r: seq<string>)
    ensures |r| > 0
  {
    ExpenseDescriptions(category).GetOr(["Expense"])
  }

  function IncomePool(category: string): (r: seq<string>)
    ensures |r| > 0
  {
    IncomeDescriptions(category).GetOr(["Income"])
  }

  predicate InRange(x: real, range: (int, int)) {
    range.0 as real <= x <= range.1 as real
  }

  // ---------------------------------------------------------------------
  // The structure of one day's block of records
  // ---------------------------------------------------------------------

  predicate StampedOn(block: seq<Transaction>, day: int, date: string) {
    forall k :: 0 <= k < |block| ==> block[k].createdAt == day && block[k].date == date
  }

  predicate SalaryOk(x: Transaction, dom: int) {
    x.txType == Income && x.category == "Salary" &&
    InRange(x.amount, if dom == 1 then (3000, 8000) else (1500, 4000)) &&
    x.description in IncomePool("Salary")
  }

  predicate RentOk(x: Transaction) {
    x.txType == Expense && x.category == "Rent" && InRange(x.amount, (800, 2000)) &&
    x.description in ExpensePool("Rent")
  }

  predicate ExtraIncomeOk(x: Transaction) {
    x.txType == Income && x.category in IncomeCategories && x.category != "Salary" &&
    InRange(x.amount, IncomeRange(x.category)) && x.description in IncomePool(x.category)
  }

  predicate RandomExpenseOk(x: Transaction) {
    x.txType == Expense && x.category in ExpenseCategories && x.category != "Rent" &&
    InRange(x.amount, ExpenseRange(x.category)) && x.description in ExpensePool(x.category)
  }

  predicate AllRandomExpenses(block: seq<Transaction>) {
    forall k :: 0 <= k < |block| ==> RandomExpenseOk(block[k])
  }

  predicate ExpensesOk(block: seq<Transaction>) {
    1 <= |block| <= 3 && AllRandomExpenses(block)
  }

  /** After the fixed records: possibly one extra income, then 1-3 expenses. */
  predicate TailOk(block: seq<Transaction>) {
    ExpensesOk(block) || (|block| >= 1 && ExtraIncomeOk(block[0]) && ExpensesOk(block[1..]))
  }

  /** What one day of the walk contributes, with `dom` its day of the
      month: salary and rent first on the 1st, salary first on the 15th,
      nothing at all (a skipped day) or the tail on other days. */
  predicate DayOk(block: seq<Transaction>, day: int, dom: int, date: string) {
    StampedOn(block, day, date) &&
    if dom == 1 then |block| >= 2 && SalaryOk(block[0], 1) && RentOk(block[1]) && TailOk(block[2..])
    else if dom == 15 then |block| >= 1 && SalaryOk(block[0], 15) && TailOk(block[1..])
    else block == [] || TailOk(block)
  }

  function DayAt(start: int, j: nat): int {
    start + j * DayMs
  }

  /** How many days the walk from `start` to `today` visits. */
  function DayCount(start: int, today: int): nat {
    if start > today then 0 else (today - start) / DayMs + 1
  }

  function Flatten(blocks: seq<seq<Transaction>>): seq<Transaction>
    decreases |blocks|
  {
    if blocks == [] then [] else Flatten(blocks[..|blocks| - 1]) + blocks[|blocks| - 1]
  }

  // ---------------------------------------------------------------------
  // The generator
  // ---------------------------------------------------------------------

  /** The salary record of the 1st or the 15th, its amount drawn with
      `r1` (half the range on the 15th) and its description with `r2`. */
  method SalaryRecord(id: nat, day: int, dateStr: string, dom: int, r1: real, r2: real) returns (x: Transaction)
    requires 0.0 <= r1 < 1.0 && 0.0 <= r2 < 1.0
    ensures SalaryOk(x, dom) && x.id == NatToString(id) && x.createdAt == day && x.date == dateStr
  {
    var (min, max) := IncomeAmounts("Salary").value;
    // min / 2 and max / 2 are exact for the salary range
    var amount := if dom == 1 then RandomBetween(r1, min, max) else RandomBetween(r1, min / 2, max / 2);
    x := Transaction(NatToString(id), dateStr, Income, "Salary", amount as real,
                     RandomFromArray(r2, IncomeDescriptions("Salary").value), day);
  }

  /** The rent record of the 1st. */
  method RentRecord(id: nat, day: int, dateStr: string, r1: real, r2: real) returns (x: Transaction)
    requires 0.0 <= r1 < 1.0 && 0.0 <= r2 < 1.0
    ensures RentOk(x) && x.id == NatToString(id) && x.createdAt == day && x.date == dateStr
  {
    var (min, max) := ExpenseAmounts("Rent").value;
    x := Transaction(NatToString(id), dateStr, Expense, "Rent", RandomBetween(r1, min, max) as real,
                     RandomFromArray(r2, ExpenseDescriptions("Rent").value), day);
  }

  /** An extra income: category with `r1` among the non-salary income
      categories, amount with `r2`, description with `r3`. */
  method ExtraIncomeRecord(id: nat, day: int, dateStr: string, r1: real, r2: real, r3: real) returns (x: Transaction)
    requires 0.0 <= r1 < 1.0 && 0.0 <= r2 < 1.0 && 0.0 <= r3 < 1.0
    ensures ExtraIncomeOk(x) && x.id == NatToString(id) && x.createdAt == day && x.date == dateStr
  {
    var incomeCategories := Filter(IncomeCategories, (cat: string) => cat != "Salary");
    assert "Investment" in incomeCategories;
    var category := RandomFromArray(r1, incomeCategories);
    var (min, max) := IncomeRange(category);
    x := Transaction(NatToString(id), dateStr, Income, category, RandomBetween(r2, min, max) as real,
                     RandomFromArray(r3, IncomePool(category)), day);
  }

  /** A random expense: category with `r1` among the non-rent expense
      categories, amount with `r2`, description with `r3`. */
  method ExpenseRecord(id: nat, day: int, dateStr: string, r1: real, r2: real, r3: real) returns (x: Transaction)
    requires 0.0 <= r1 < 1.0 && 0.0 <= r2 < 1.0 && 0.0 <= r3 < 1.0
    ensures RandomExpenseOk(x) && x.id == NatToString(id) && x.createdAt == day && x.date == dateStr
  {
    var availableCategories := Filter(ExpenseCategories, (cat: string) => cat != "Rent");
    assert "Food" in availableCategories;
    var category := RandomFromArray(r1, availableCategories);
    var (min, max) := ExpenseRange(category);
    x := Transaction(NatToString(id), dateStr, Expense, category, RandomBetween(r2, min, max) as real,
                     RandomFromArray(r3, ExpensePool(category)), day);
  }

  /** One day of the walk: the records pushed for day `day`, with ids from
      `nextId` on, drawing random values from `rng(cursor)` on. */
  method GenerateDay(day: int, dom: int, dateStr: string, rng: nat -> real,
                     cursor: nat, nextId: nat)
    returns (block: seq<Transaction>, next: nat)
    requires IsRandom(rng)
    ensures DayOk(block, day, dom, dateStr)
    ensures IdsFrom(block, nextId)
    ensures next >= cursor
  {
    var c := cursor;
    var isImportantDay := dom == 1 || dom == 15;
    var skipDay := false;
    if !isImportantDay {
      skipDay := rng(c) < 0.35;
      c := c + 1;
    }
    if skipDay {
      return [], c;
    }
    var head: seq<Transaction> := [];
    if isImportantDay {
      head, c := GenerateHead(day, dom, dateStr, rng, c, nextId);
    }
    var tail, last := GenerateTail(day, dateStr, rng, c, nextId + |head|);
    AssembleDay(head, tail, day, dom, dateStr, nextId);
    block, next := head + tail, last;
  }

  /** The fixed records of the 1st (salary, then rent) and the 15th
      (salary). */
  method GenerateHead(day: int, dom: int, dateStr: string, rng: nat -> real, cursor: nat, nextId: nat)
    returns (head: seq<Transaction>, next: nat)
    requires IsRandom(rng) && (dom == 1 || dom == 15)
    ensures HeadOk(head, dom) && StampedOn(head, day, dateStr) && IdsFrom(head, nextId)
    ensures next >= cursor
  {
    var salary := SalaryRecord(nextId, day, dateStr, dom, rng(cursor), rng(cursor + 1));
    next := cursor + 2;
    if dom == 1 {
      var rent := RentRecord(nextId + 1, day, dateStr, rng(next), rng(next + 1));
      head := [salary, rent];
      next := next + 2;
    } else {
      head := [salary];
    }
  }

  /** The random part of a day that is not skipped: possibly one extra
      income, then one to three expenses. */
  method GenerateTail(day: int, dateStr: string, rng: nat -> real, cursor: nat, nextId: nat)
    returns (tail: seq<Transaction>, next: nat)
    requires IsRandom(rng)
    ensures TailOk(tail) && StampedOn(tail, day, dateStr)
    ensures IdsFrom(tail, nextId)
    ensures next >= cursor
  {
    var c := cursor;
    var income: seq<Transaction> := [];
    var extra := rng(c) < 0.08;
    if extra {
      var x := ExtraIncomeRecord(nextId, day, dateStr, rng(c + 1), rng(c + 2), rng(c + 3));
      income := [x];
      c := c + 4;
    } else {
      c := c + 1;
    }
    var expenses, last := GenerateExpenses(day, dateStr, rng, c, nextId + |income|);
    AssembleTail(income, expenses, day, dateStr, nextId);
    tail := income + expenses;
    next := last;
  }

  lemma AssembleTail(income: seq<Transaction>, expenses: seq<Transaction>, day: int, date: string, nextId: nat)
    requires income == [] || (|income| == 1 && ExtraIncomeOk(income[0]))
    requires ExpensesOk(expenses)
    requires StampedOn(income, day, date) && StampedOn(expenses, day, date)
    requires IdsFrom(income, nextId) && IdsFrom(expenses, nextId + |income|)
    ensures TailOk(income + expenses) && StampedOn(income + expenses, day, date)
    ensures IdsFrom(income + expenses, nextId)
  {
    StampedAppend(income, expenses, day, date);
    IdsAppend(income, expenses, nextId);
    if income != [] {
      assert (income + expenses)[1..] == expenses;
    } else {
      assert income + expenses == expenses;
    }
  }

  /** The ids of `block` are consecutive from `n`. */
  predicate IdsFrom(block: seq<Transaction>, n: nat) {
    forall k :: 0 <= k < |block| ==> block[k].id == NatToString(n + k)
  }

  lemma IdsAppend(a: seq<Transaction>, b: seq<Transaction>, n: nat)
    requires IdsFrom(a, n) && IdsFrom(b, n + |a|)
    ensures IdsFrom(a + b, n)
  {
    forall k | 0 <= k < |a + b| ensures (a + b)[k].id == NatToString(n + k) {
      if k >= |a| {
        assert (a + b)[k] == b[k - |a|];
      }
    }
  }

  lemma StampedAppend(a: seq<Transaction>, b: seq<Transaction>, day: int, date: string)
    requires StampedOn(a, day, date) && StampedOn(b, day, date)
    ensures StampedOn(a + b, day, date)
  {
    forall k | 0 <= k < |a + b| ensures (a + b)[k].createdAt == day && (a + b)[k].date == date {
      if k >= |a| {
        assert (a + b)[k] == b[k - |a|];
      }
    }
  }

  /** `randomBetween(1, 3)` expenses, none of them rent. */
  method GenerateExpenses(day: int, dateStr: string, rng: nat -> real, cursor: nat, nextId: nat)
    returns (expenses: seq<Transaction>, next: nat)
    requires IsRandom(rng)
    ensures ExpensesOk(expenses) && StampedOn(expenses, day, dateStr)
    ensures IdsFrom(expenses, nextId)
    ensures next >= cursor
  {
    var c := cursor;
    var numExpenses := RandomBetween(rng(c), 1, 3);
    c := c + 1;
    expenses := [];
    for i := 0 to numExpenses
      invariant |expenses| == i
      invariant c >= cursor
      invariant StampedOn(expenses, day, dateStr) && AllRandomExpenses(expenses)
      invariant forall k :: 0 <= k < i ==> expenses[k].id == NatToString(nextId + k)
    {
      var x := ExpenseRecord(nextId + i, day, dateStr, rng(c), rng(c + 1), rng(c + 2));
      assert forall k :: 0 <= k < i ==> (expenses + [x])[k] == expenses[k];
      expenses := expenses + [x];
      c := c + 3;
    }
    next := c;
  }

  /** The fixed records that open a day of the month `dom`. */
  predicate HeadOk(head: seq<Transaction>, dom: int) {
    (dom == 1 ==> |head| == 2 && SalaryOk(head[0], 1) && RentOk(head[1])) &&
    (dom == 15 ==> |head| == 1 && SalaryOk(head[0], 15)) &&
    (dom != 1 && dom != 15 ==> head == [])
  }

  lemma AssembleDay(head: seq<Transaction>, tail: seq<Transaction>, day: int, dom: int, date: string, nextId: nat)
    requires StampedOn(head, day, date) && StampedOn(tail, day, date) && TailOk(tail)
    requires HeadOk(head, dom)
    requires IdsFrom(head, nextId) && IdsFrom(tail, nextId + |head|)
    ensures DayOk(head + tail, day, dom, date)
    ensures IdsFrom(head + tail, nextId)
  {
    StampedAppend(head, tail, day, date);
    IdsAppend(head, tail, nextId);
    assert (head + tail)[|head|..] == tail;
    if dom == 1 {
      assert (head + tail)[0] == head[0] && (head + tail)[1] == head[1];
    } else if dom == 15 {
      assert (head + tail)[0] == head[0];
    } else {
      assert head + tail == tail;
    }
  }

  /** `generateDemoTransactions()`: walk from `start` (three months ago) to
      `today` in steps of one day; `days` is the sequence of per-day blocks
      the result is made of. */
  method GenerateDemoTransactions(start: int, today: int, dayOfMonth: int -> int,
                                  dateOf: int -> string, rng: nat -> real)
    returns (transactions: seq<Transaction>, ghost days: seq<seq<Transaction>>)
    requires IsRandom(rng)
    ensures transactions == Flatten(days)
    ensures |days| == DayCount(start, today)
    ensures forall j :: 0 <= j < |days| ==>
              DayOk(days[j], DayAt(start, j), dayOfMonth(DayAt(start, j)), dateOf(DayAt(start, j)))
    ensures forall k :: 0 <= k < |transactions| ==> transactions[k].id == NatToString(k + 1)
  {
    transactions := [];
    days := [];
    var id := 1;
    var cursor := 0;
    var currentDate := start;
    while currentDate <= today
      invariant currentDate == DayAt(start, |days|)
      invariant |days| > 0 ==> currentDate - DayMs <= today
      invariant transactions == Flatten(days)
      invariant id == |transactions| + 1
      invariant forall j :: 0 <= j < |days| ==>
                  DayOk(days[j], DayAt(start, j), dayOfMonth(DayAt(start, j)), dateOf(DayAt(start, j)))
      invariant IdsFrom(transactions, 1)
      decreases today - currentDate
    {
      var dateStr := dateOf(currentDate);
      var dom := dayOfMonth(currentDate);
      var block, next := GenerateDay(currentDate, dom, dateStr, rng, cursor, id);
      cursor := next;
      ghost var prior := days;
      IdsAppend(transactions, block, 1);
      transactions := transactions + block;
      days := days + [block];
      assert days[..|days| - 1] == prior;
      id := id + |block|;
      currentDate := currentDate + DayMs;
    }
    if |days| > 0 {
      assert start + (|days| - 1) * DayMs <= today < start + |days| * DayMs;
      DivBetween(today - start, |days| - 1);
    }
  }

  lemma DivBetween(x: int, n: nat)
    requires n * DayMs <= x < (n + 1) * DayMs
    ensures x / DayMs == n
  {
  }

  // ---------------------------------------------------------------------
  // Properties of the generated data
  // ---------------------------------------------------------------------

  function Count(block: seq<Transaction>, p: Transaction -> bool): nat
    decreases |block|
  {
    if block == [] then 0 else (if p(block[0]) then 1 else 0) + Count(block[1..], p)
  }

  function IsSalary(): Transaction -> bool {
    (x: Transaction) => x.txType == Income && x.category == "Salary"
  }

  function IsRent(): Transaction -> bool {
    (x: Transaction) => x.txType == Expense && x.category == "Rent"
  }

  function IsRandomExpense(): Transaction -> bool {
    (x: Transaction) => x.txType == Expense && x.category != "Rent"
  }

  lemma {:induction false} CountNone(block: seq<Transaction>, p: Transaction -> bool)
    requires forall k :: 0 <= k < |block| ==> !p(block[k])
    ensures Count(block, p) == 0
    decreases |block|
  {
    if block != [] {
      CountNone(block[1..], p);
    }
  }

  lemma {:induction false} CountAll(block: seq<Transaction>, p: Transaction -> bool)
    requires forall k :: 0 <= k < |block| ==> p(block[k])
    ensures Count(block, p) == |block|
    decreases |block|
  {
    if block != [] {
      CountAll(block[1..], p);
    }
  }

  lemma TailCounts(tail: seq<Transaction>)
    requires TailOk(tail)
    ensures Count(tail, IsSalary()) == 0 && Count(tail, IsRent()) == 0
    ensures 1 <= Count(tail, IsRandomExpense()) <= 3
  {
    if ExpensesOk(tail) {
      CountNone(tail, IsSalary());
      CountNone(tail, IsRent());
      CountAll(tail, IsRandomExpense());
    } else {
      CountNone(tail, IsSalary());
      CountNone(tail, IsRent());
      CountAll(tail[1..], IsRandomExpense());
    }
  }

  /** The 1st and the 15th are never skipped and carry exactly one salary;
      the 1st carries exactly one rent and no other day any; every day that
      is not skipped has one to three random (non-rent) expenses. */
  lemma DayStructure(block: seq<Transaction>, day: int, dom: int, date: string)
    requires DayOk(block, day, dom, date)
    ensures dom == 1 || dom == 15 ==> block != [] && Count(block, IsSalary()) == 1
    ensures dom != 1 && dom != 15 ==> Count(block, IsSalary()) == 0
    ensures Count(block, IsRent()) == if dom == 1 then 1 else 0
    ensures block != [] ==> 1 <= Count(block, IsRandomExpense()) <= 3
  {
    if dom == 1 {
      TailCounts(block[2..]);
      assert block[1..][1..] == block[2..];
    } else if dom == 15 {
      TailCounts(block[1..]);
    } else if block != [] {
      TailCounts(block);
    } else {
      CountNone(block, IsSalary());
      CountNone(block, IsRent());
    }
  }

  /** The salary on the 1st lies in [3000, 8000], on the 15th in
      [1500, 4000]; random expenses are never rent, extra income is never
      salary, and each amount lies in its category's range. */
  lemma AmountRanges(block: seq<Transaction>, day: int, dom: int, date: string, k: nat)
    requires DayOk(block, day, dom, date) && k < |block|
    ensures block[k].category == "Salary" && block[k].txType == Income ==>
              (dom == 1 ==> 3000.0 <= block[k].amount <= 8000.0) &&
              (dom != 1 ==> dom == 15 && 1500.0 <= block[k].amount <= 4000.0 && k == 0)
    ensures block[k].txType == Expense && block[k].category != "Rent" ==>
              InRange(block[k].amount, ExpenseRange(block[k].category))
    ensures block[k].txType == Income && block[k].category != "Salary" ==>
              InRange(block[k].amount, IncomeRange(block[k].category))
  {
    var fixed := if dom == 1 then 2 else if dom == 15 then 1 else 0;
    if k >= fixed {
      var tail := block[fixed..];
      assert TailOk(tail);
      assert block[k] == tail[k - fixed];
      TailAmounts(tail, k - fixed);
    }
  }

  /** The random records of a day: no salary and no rent, amounts in
      their category's range. */
  lemma TailAmounts(tail: seq<Transaction>, k: nat)
    requires TailOk(tail) && k < |tail|
    ensures tail[k].category != "Salary" && tail[k].category != "Rent"
    ensures tail[k].txType == Expense ==> InRange(tail[k].amount, ExpenseRange(tail[k].category))
    ensures tail[k].txType == Income ==> InRange(tail[k].amount, IncomeRange(tail[k].category))
  {
    if !ExpensesOk(tail) && k > 0 {
      assert tail[1..][k - 1] == tail[k];
    }
  }

  /** Record ids are "1", "2", ... in push order, hence pairwise distinct. */
  lemma IdsUnique(transactions: seq<Transaction>, i: nat, j: nat)
    requires forall k :: 0 <= k < |transactions| ==> transactions[k].id == NatToString(k + 1)
    requires i < |transactions| && j < |transactions| && i != j
    ensures transactions[i].id != transactions[j].id
  {
    NatToStringInjective(i + 1, j + 1);
  }

  /** Every record lies in [start, end) and carries the date of its
      timestamp, and timestamps never decrease along the sequence. */
  predicate InDayOrder(txs: seq<Transaction>, start: int, end: int, dateOf: int -> string) {
    (forall k :: 0 <= k < |txs| ==>
       start <= txs[k].createdAt < end && txs[k].date == dateOf(txs[k].createdAt)) &&
    (forall i, k :: 0 <= i <= k < |txs| ==> txs[i].createdAt <= txs[k].createdAt)
  }

  /** Records appear day by day: timestamps never decrease, and each record
      carries its day's timestamp and date string. */
  lemma {:induction false} FlattenInDayOrder(blocks: seq<seq<Transaction>>, start: int,
                                             dayOfMonth: int -> int, dateOf: int -> string)
    requires forall j :: 0 <= j < |blocks| ==>
               DayOk(blocks[j], DayAt(start, j), dayOfMonth(DayAt(start, j)), dateOf(DayAt(start, j)))
    ensures InDayOrder(Flatten(blocks), start, DayAt(start, |blocks|), dateOf)
    decreases |blocks|
  {
    if blocks != [] {
      var init := blocks[..|blocks| - 1];
      assert forall j :: 0 <= j < |init| ==> init[j] == blocks[j];
      FlattenInDayOrder(init, start, dayOfMonth, dateOf);
      var d := DayAt(start, |blocks| - 1);
      assert DayOk(blocks[|blocks| - 1], d, dayOfMonth(d), dateOf(d));
      AppendDayInOrder(Flatten(init), blocks[|blocks| - 1], start, |blocks| - 1, dateOf);
    }
  }

  /** Appending the records of the next day keeps the order. */
  lemma AppendDayInOrder(pre: seq<Transaction>, last: seq<Transaction>, start: int, n: nat,
                         dateOf: int -> string)
    requires InDayOrder(pre, start, DayAt(start, n), dateOf)
    requires StampedOn(last, DayAt(start, n), dateOf(DayAt(start, n)))
    ensures InDayOrder(pre + last, start, DayAt(start, n + 1), dateOf)
  {
    var d := DayAt(start, n);
    var txs := pre + last;
    forall k | 0 <= k < |txs|
      ensures start <= txs[k].createdAt < DayAt(start, n + 1)
      ensures txs[k].date == dateOf(txs[k].createdAt)
      ensures k >= |pre| ==> txs[k].createdAt == d
      ensures k < |pre| ==> txs[k].createdAt < d
    {
      if k >= |pre| {
        assert txs[k] == last[k - |pre|];
      } else {
        assert txs[k] == pre[k];
      }
    }
    forall i, k | 0 <= i <= k < |txs|
      ensures txs[i].createdAt <= txs[k].createdAt
    {
      if k < |pre| {
        assert txs[i] == pre[i] && txs[k] == pre[k];
      }
    }
  }
}
