/** The read side the report pages share: the years a company has data
    for, the rows of one dataset, the monthly revenue/expense summary, the
    largest accounts of a category and the year-to-date series. Every
    helper reads the store through the same filters the import writes
    through, and walks each collection in key order. */
module Helpers {
  import opened Options
  import opened Store

  // ---------------------------------------------------------------------
  // Sums

  /** `sum(xs)`; amounts are exact reals, so the order of addition does not
      matter. */
  function Sum(xs: seq<real>): real {
    if |xs| == 0 then 0.0 else Sum(xs[..|xs| - 1]) + xs[|xs| - 1]
  }

  function Zeros(n: nat): (z: seq<real>)
    ensures |z| == n && forall i :: 0 <= i < n ==> z[i] == 0.0
  {
    seq(n, _ => 0.0)
  }

  lemma {:induction false} SumZeros(n: nat)
    ensures Sum(Zeros(n)) == 0.0
  {
    if n > 0 {
      assert Zeros(n)[..n - 1] == Zeros(n - 1);
      SumZeros(n - 1);
    }
  }

  // ---------------------------------------------------------------------
  // Years of a company

  /** The years of the datasets of `datasets`. */
  function DatasetYears(datasets: map<Key, Dataset>): set<int> {
    set k | k in datasets :: datasets[k].year
  }

  predicate Ascending(s: seq<int>) {
    forall i, j :: 0 <= i < j < |s| ==> s[i] < s[j]
  }

  /** The years of the datasets below key `n` that pass the company filter. */
  function YearsBelow(records: map<Key, Dataset>, companyId: Option<Key>, n: nat): set<int> {
    set k | k in records && k < n && (companyId.Some? ==> records[k].companyId == companyId.value) :: records[k].year
  }

  /** The least element of a non-empty finite set. */
  ghost function Least(s: set<int>): (m: int)
    requires s != {}
    ensures m in s && forall y :: y in s ==> m <= y
    decreases |s|
  {
    assert exists x :: x in s by {
      if forall x :: x !in s {
        assert false;
      }
    }
    var x :| x in s;
    if s == {x} then x
    else
      var m := Least(s - {x});
      assert forall y :: y in s ==> y == x || y in s - {x};
      if x < m then x else m
  }

  /** `sorted(list(years))`: the elements of a finite set in increasing order. */
  method SortedYears(s: set<int>) returns (r: seq<int>)
    ensures Ascending(r)
    ensures forall y :: y in r <==> y in s
  {
    r := [];
    var rest := s;
    while rest != {}
      invariant Ascending(r)
      invariant forall y :: y in s <==> y in r || y in rest
      invariant forall i, y :: 0 <= i < |r| && y in rest ==> r[i] < y
      decreases |rest|
    {
      ghost var least := Least(rest);
      var m :| m in rest && forall y :: y in rest ==> m <= y;
      r := r + [m];
      rest := rest - {m};
    }
  }

  /** `get_years_for_company`: the distinct years of the company's datasets,
      ascending; with no company filter, the years of every dataset. */
  method YearsForCompany(db: FirebaseDB, companyId: Option<Key>) returns (years: seq<int>)
    requires db.Valid()
    ensures Ascending(years)
    ensures forall y :: y in years <==> y in DatasetYears(db.GetDatasets(companyId))
  {
    var found: set<int> := {};
    var k := 0;
    while k < db.datasets.next
      invariant k <= db.datasets.next
      invariant found == YearsBelow(db.datasets.records, companyId, k)
    {
      if k in db.datasets.records && (companyId.Some? ==> db.datasets.records[k].companyId == companyId.value) {
        found := found + {db.datasets.records[k].year};
      }
      k := k + 1;
    }
    assert found == DatasetYears(db.GetDatasets(companyId));
    years := SortedYears(found);
  }

  // ---------------------------------------------------------------------
  // The dataset of a year

  function InCompanyYear(companyId: Option<Key>, year: int): Dataset -> bool {
    (d: Dataset) => (companyId.Some? ==> d.companyId == companyId.value) && d.year == year
  }

  /** The loop every helper starts with: the first dataset of the company,
      in key order, whose year matches. */
  method TargetDataset(db: FirebaseDB, companyId: Option<Key>, year: int) returns (r: Option<Key>)
    requires db.Valid()
    ensures r == db.datasets.FirstWhere(InCompanyYear(companyId, year), db.datasets.next)
    ensures r.Some? ==> r.value in db.GetDatasets(companyId) && db.datasets.records[r.value].year == year
    ensures r.None? <==> forall k :: k in db.GetDatasets(companyId) ==> db.datasets.records[k].year != year
  {
    r := db.datasets.FindFirst(InCompanyYear(companyId, year));
    if r.None? {
      forall k | k in db.GetDatasets(companyId)
        ensures db.datasets.records[k].year != year
      {
        assert !InCompanyYear(companyId, year)(db.datasets.records[k]);
      }
    }
  }

  /** `accounts.get(account_id, {}).get('category_id')`. */
  function CategoryOfAccount(accounts: map<Key, Account>, accountId: Key): Option<Key> {
    if accountId in accounts then accounts[accountId].categoryId else None
  }

  // ---------------------------------------------------------------------
  // Rows of a dataset

  datatype Row = Row(accountName: string, category: string, month: int, amount: real)

  const UnknownAccount := "Okänt konto"
  const UnknownCategory := "Okänd kategori"

  /** The row built for one value: a missing account or category is named
      by the fallback text. */
  function RowOf(v: Value, accounts: map<Key, Account>, categories: map<Key, Category>): Row {
    var c := CategoryOfAccount(accounts, v.accountId);
    Row(if v.accountId in accounts then accounts[v.accountId].name else UnknownAccount,
        if c.Some? && c.value in categories then categories[c.value].name else UnknownCategory,
        v.month, v.amount)
  }

  /** The rows for the values below key `n` of the requested value type. */
  function FinancialRows(values: map<Key, Value>, n: nat, valueType: string,
                         accounts: map<Key, Account>, categories: map<Key, Category>): seq<Row>
  {
    if n == 0 then []
    else FinancialRows(values, n - 1, valueType, accounts, categories)
         + (if n - 1 in values && values[n - 1].valueType == valueType
            then [RowOf(values[n - 1], accounts, categories)] else [])
  }

  /** Every row comes from a value of the requested type, with its month
      and amount; there are no rows exactly when there is no such value. */
  lemma {:induction false} FinancialRowsFromValues(values: map<Key, Value>, n: nat, valueType: string,
                                                   accounts: map<Key, Account>, categories: map<Key, Category>)
    ensures var rows := FinancialRows(values, n, valueType, accounts, categories);
            forall i :: 0 <= i < |rows| ==>
              exists k :: k < n && k in values && values[k].valueType == valueType
                          && rows[i].month == values[k].month && rows[i].amount == values[k].amount
    ensures FinancialRows(values, n, valueType, accounts, categories) == [] <==>
              forall k :: k < n && k in values ==> values[k].valueType != valueType
  {
    if n > 0 {
      FinancialRowsFromValues(values, n - 1, valueType, accounts, categories);
      var rows := FinancialRows(values, n, valueType, accounts, categories);
      var before := FinancialRows(values, n - 1, valueType, accounts, categories);
      forall i | 0 <= i < |rows|
        ensures exists k :: k < n && k in values && values[k].valueType == valueType
                            && rows[i].month == values[k].month && rows[i].amount == values[k].amount
      {
        if i < |before| {
          assert rows[i] == before[i];
        } else {
          assert rows[i] == RowOf(values[n - 1], accounts, categories);
        }
      }
    }
  }

  /** `get_financial_data`, up to the final ordering of the rows: the rows of
      the first dataset of the year, one per value of `valueType`; none
      when the company has no dataset for the year. */
  method FinancialData(db: FirebaseDB, companyId: Option<Key>, year: int, valueType: string) returns (rows: seq<Row>)
    requires db.Valid()
    ensures var target := db.datasets.FirstWhere(InCompanyYear(companyId, year), db.datasets.next);
            && (target.None? ==> rows == [])
            && (target.Some? ==>
                  rows == FinancialRows(db.GetValues(Some(target.value), None), db.values.next, valueType,
                                        db.accounts.records, db.categories.records))
  {
    var target := TargetDataset(db, companyId, year);
    if target.None? {
      return [];
    }
    ghost var values := db.GetValues(Some(target.value), None);
    rows := [];
    var k := 0;
    while k < db.values.next
      invariant k <= db.values.next
      invariant rows == FinancialRows(values, k, valueType, db.accounts.records, db.categories.records)
    {
      if k in db.values.records && db.values.records[k].datasetId == target.value && db.values.records[k].valueType == valueType {
        rows := rows + [RowOf(db.values.records[k], db.accounts.records, db.categories.records)];
      }
      k := k + 1;
    }
  }

  // ---------------------------------------------------------------------
  // Monthly summary

  datatype Side = Revenue | Expense

  /** What the monthly summary reads once the dataset is chosen: the
      dataset's values, the accounts, and the keys of the categories named
      "Intäkter" and "Kostnader" (absent when there is no such category). */
  datatype Books = Books(values: map<Key, Value>, accounts: map<Key, Account>,
                         revenueId: Option<Key>, expenseId: Option<Key>)

  /** The bucket the value under key `k` is added to, if any. Only actual
      values count, the revenue test comes first, and the category of a
      missing account, or of an account without one, is `None`, which
      equals a missing category key. */
  function SideAt(b: Books, k: Key): Option<Side> {
    if k !in b.values || b.values[k].valueType != Actual then None
    else
      var c := CategoryOfAccount(b.accounts, b.values[k].accountId);
      if c == b.revenueId then Some(Revenue)
      else if c == b.expenseId then Some(Expense)
      else None
  }

  /** The amount in bucket `side` for `month` after the keys below `n`. */
  function BucketSum(b: Books, n: nat, side: Side, month: int): real {
    if n == 0 then 0.0
    else BucketSum(b, n - 1, side, month)
         + (if SideAt(b, n - 1) == Some(side) && b.values[n - 1].month == month then b.values[n - 1].amount else 0.0)
  }

  /** The amount of every value below key `n` that lands in `side`. */
  function SideTotal(b: Books, n: nat, side: Side): real {
    if n == 0 then 0.0
    else SideTotal(b, n - 1, side) + (if SideAt(b, n - 1) == Some(side) then b.values[n - 1].amount else 0.0)
  }

  /** A value below key `n` lands in a bucket under a month outside 1..12:
      the month dict has no such key, the lookup raises and no summary is
      produced. */
  predicate Faulty(b: Books, n: nat) {
    n > 0 && (Faulty(b, n - 1) || (SideAt(b, n - 1).Some? && !(1 <= b.values[n - 1].month <= 12)))
  }

  /** `[monthly[i] for i in range(1, 13)]` for one side. */
  function Buckets(b: Books, n: nat, side: Side): (r: seq<real>)
    ensures |r| == 12
  {
    seq(12, i => BucketSum(b, n, side, i + 1))
  }

  datatype Summary = Summary(revenues: seq<real>, expenses: seq<real>, results: seq<real>,
                             totalRevenue: real, totalExpense: real, totalResult: real)

  /** `[rev - exp for rev, exp in zip(revenues, expenses)]`. */
  function Results(revenues: seq<real>, expenses: seq<real>): (r: seq<real>) {
    var n := if |revenues| <= |expenses| then |revenues| else |expenses|;
    seq(n, i requires 0 <= i < n => revenues[i] - expenses[i])
  }

  function SummaryOf(revenues: seq<real>, expenses: seq<real>): Summary {
    var results := Results(revenues, expenses);
    Summary(revenues, expenses, results, Sum(revenues), Sum(expenses), Sum(results))
  }

  /** What the summary is when the company has no dataset for the year. */
  const EmptySummary := Summary(Zeros(12), Zeros(12), Zeros(12), 0.0, 0.0, 0.0)

  lemma {:induction false} SumResults(revenues: seq<real>, expenses: seq<real>)
    requires |revenues| == |expenses|
    ensures Sum(Results(revenues, expenses)) == Sum(revenues) - Sum(expenses)
  {
    if |revenues| > 0 {
      var n := |revenues| - 1;
      assert Results(revenues, expenses)[..n] == Results(revenues[..n], expenses[..n]);
      SumResults(revenues[..n], expenses[..n]);
    }
  }

  /** Each month's result is its revenue less its expense, and the total
      result is the total revenue less the total expense. */
  lemma SummaryBalances(revenues: seq<real>, expenses: seq<real>)
    requires |revenues| == |expenses|
    ensures var s := SummaryOf(revenues, expenses);
            && |s.results| == |revenues|
            && (forall i :: 0 <= i < |s.results| ==> s.results[i] == s.revenues[i] - s.expenses[i])
            && s.totalResult == s.totalRevenue - s.totalExpense
  {
    SumResults(revenues, expenses);
  }

  /** The summary for a missing dataset is the summary of empty buckets. */
  lemma EmptySummaryIsZeroBuckets()
    ensures EmptySummary == SummaryOf(Zeros(12), Zeros(12))
  {
    assert Results(Zeros(12), Zeros(12)) == Zeros(12);
    SumZeros(12);
  }

  lemma {:induction false} SumBump(xs: seq<real>, i: nat, d: real)
    requires i < |xs|
    ensures Sum(xs[i := xs[i] + d]) == Sum(xs) + d
  {
    var n := |xs| - 1;
    if i < n {
      assert xs[i := xs[i] + d][..n] == xs[..n][i := xs[i] + d];
      SumBump(xs[..n], i, d);
    } else {
      assert xs[i := xs[i] + d][..n] == xs[..n];
    }
  }

  /** Nothing is lost or counted twice: the twelve buckets of a side add up
      to the amount of every value that lands in that side. */
  lemma {:induction false} BucketsCoverSide(b: Books, n: nat, side: Side)
    requires !Faulty(b, n)
    ensures Sum(Buckets(b, n, side)) == SideTotal(b, n, side)
  {
    if n == 0 {
      assert Buckets(b, 0, side) == Zeros(12);
      SumZeros(12);
    } else {
      BucketsCoverSide(b, n - 1, side);
      if SideAt(b, n - 1) == Some(side) {
        var v := b.values[n - 1];
        assert Buckets(b, n, side) == Buckets(b, n - 1, side)[v.month - 1 := Buckets(b, n - 1, side)[v.month - 1] + v.amount];
        SumBump(Buckets(b, n - 1, side), v.month - 1, v.amount);
      } else {
        assert Buckets(b, n, side) == Buckets(b, n - 1, side);
      }
    }
  }

  /** The books the summary of dataset `datasetId` reads. */
  ghost function BooksOf(db: FirebaseDB, datasetId: Key): Books
    reads db.values, db.accounts, db.categories
  {
    Books(db.GetValues(Some(datasetId), None), db.accounts.records,
          db.categories.LastWhere(CategoryNamed(RevenueName), db.categories.next),
          db.categories.LastWhere(CategoryNamed(ExpenseName), db.categories.next))
  }

  /** One pass of the value loop: adds the value under key `k` to its
      bucket, or reports the month lookup that raises. */
  method AddToBucket(db: FirebaseDB, datasetId: Key, ghost b: Books, revenueId: Option<Key>, expenseId: Option<Key>,
                     k: Key, revenues: seq<real>, expenses: seq<real>)
    returns (ok: bool, revenues': seq<real>, expenses': seq<real>)
    requires b == BooksOf(db, datasetId) && revenueId == b.revenueId && expenseId == b.expenseId
    requires revenues == Buckets(b, k, Revenue) && expenses == Buckets(b, k, Expense)
    ensures ok <==> !(SideAt(b, k).Some? && !(1 <= b.values[k].month <= 12))
    ensures ok ==> revenues' == Buckets(b, k + 1, Revenue) && expenses' == Buckets(b, k + 1, Expense)
  {
    revenues', expenses', ok := revenues, expenses, true;
    if k in db.values.records && db.values.records[k].datasetId == datasetId && db.values.records[k].valueType == Actual {
      var v := db.values.records[k];
      assert k in b.values && b.values[k] == v;
      var c := CategoryOfAccount(db.accounts.records, v.accountId);
      if c == revenueId || c == expenseId {
        if !(1 <= v.month <= 12) {
          return false, revenues, expenses;
        }
        if c == revenueId {
          revenues' := revenues[v.month - 1 := revenues[v.month - 1] + v.amount];
        } else {
          expenses' := expenses[v.month - 1 := expenses[v.month - 1] + v.amount];
        }
      }
    } else {
      assert SideAt(b, k).None?;
    }
  }

  /** `calculate_monthly_summary`: per-month revenue and expense buckets of
      the actual values of the first dataset of the year, the per-month
      results and the three totals; `None` when a counted value has a month
      outside 1..12, where the source raises. */
  method MonthlySummary(db: FirebaseDB, companyId: Option<Key>, year: int) returns (r: Option<Summary>)
    requires db.Valid()
    ensures var target := db.datasets.FirstWhere(InCompanyYear(companyId, year), db.datasets.next);
            && (target.None? ==> r == Some(EmptySummary))
            && (target.Some? ==>
                  var b := BooksOf(db, target.value);
                  && (r.None? <==> Faulty(b, db.values.next))
                  && (r.Some? ==> r.value == SummaryOf(Buckets(b, db.values.next, Revenue), Buckets(b, db.values.next, Expense))))
  {
    var target := TargetDataset(db, companyId, year);
    if target.None? {
      return Some(EmptySummary);
    }
    var revenueId, expenseId := CategoryIds(db.categories);
    ghost var b := BooksOf(db, target.value);
    var buckets := FillBuckets(db, target.value, b, revenueId, expenseId);
    if buckets.None? {
      return None;
    }
    r := Some(SummaryOf(buckets.value.0, buckets.value.1));
  }

  /** The value loop of `calculate_monthly_summary`: both sides' buckets,
      or `None` at the first counted value whose month lookup raises. */
  method FillBuckets(db: FirebaseDB, datasetId: Key, ghost b: Books, revenueId: Option<Key>, expenseId: Option<Key>)
    returns (r: Option<(seq<real>, seq<real>)>)
    requires b == BooksOf(db, datasetId) && revenueId == b.revenueId && expenseId == b.expenseId
    ensures r.None? <==> Faulty(b, db.values.next)
    ensures r.Some? ==> r.value == (Buckets(b, db.values.next, Revenue), Buckets(b, db.values.next, Expense))
  {
    var revenues, expenses := Zeros(12), Zeros(12);
    assert revenues == Buckets(b, 0, Revenue) && expenses == Buckets(b, 0, Expense);
    var k := 0;
    while k < db.values.next
      invariant k <= db.values.next
      invariant !Faulty(b, k)
      invariant revenues == Buckets(b, k, Revenue) && expenses == Buckets(b, k, Expense)
    {
      var ok;
      ok, revenues, expenses := AddToBucket(db, datasetId, b, revenueId, expenseId, k, revenues, expenses);
      if !ok {
        assert Faulty(b, k + 1);
        FaultyStays(b, k + 1, db.values.next);
        return None;
      }
      k := k + 1;
    }
    r := Some((revenues, expenses));
  }

  lemma {:induction false} FaultyStays(b: Books, n: nat, m: nat)
    requires Faulty(b, n) && n <= m
    ensures Faulty(b, m)
    decreases m - n
  {
    if n < m {
      FaultyStays(b, n + 1, m);
    }
  }

  // ---------------------------------------------------------------------
  // Year to date

  /** The running sums of the year-to-date chart, over the pairs of
      `zip(revenues, expenses)`: each point is the sum of the months up to
      it, and the last result point is the total result. */
  method YtdSeries(revenues: seq<real>, expenses: seq<real>)
    returns (ytdRevenues: seq<real>, ytdExpenses: seq<real>, ytdResults: seq<real>)
    ensures |ytdRevenues| == |ytdExpenses| == |ytdResults| == |Results(revenues, expenses)|
    ensures forall i :: 0 <= i < |ytdResults| ==>
              && ytdRevenues[i] == Sum(revenues[..i + 1])
              && ytdExpenses[i] == Sum(expenses[..i + 1])
              && ytdResults[i] == ytdRevenues[i] - ytdExpenses[i]
    ensures |revenues| == |expenses| && |revenues| > 0 ==>
              ytdResults[|ytdResults| - 1] == Sum(revenues) - Sum(expenses)
  {
    var runningRevenue, runningExpense := 0.0, 0.0;
    ytdRevenues, ytdExpenses, ytdResults := [], [], [];
    var i := 0;
    while i < |revenues| && i < |expenses|
      invariant i <= |revenues| && i <= |expenses|
      invariant |ytdRevenues| == |ytdExpenses| == |ytdResults| == i
      invariant runningRevenue == Sum(revenues[..i]) && runningExpense == Sum(expenses[..i])
      invariant forall j :: 0 <= j < i ==>
                  && ytdRevenues[j] == Sum(revenues[..j + 1])
                  && ytdExpenses[j] == Sum(expenses[..j + 1])
                  && ytdResults[j] == ytdRevenues[j] - ytdExpenses[j]
    {
      assert revenues[..i + 1][..i] == revenues[..i] && expenses[..i + 1][..i] == expenses[..i];
      runningRevenue := runningRevenue + revenues[i];
      runningExpense := runningExpense + expenses[i];
      ytdRevenues := ytdRevenues + [runningRevenue];
      ytdExpenses := ytdExpenses + [runningExpense];
      ytdResults := ytdResults + [runningRevenue - runningExpense];
      i := i + 1;
    }
    assert revenues[..|revenues|] == revenues && expenses[..|expenses|] == expenses;
  }

  // ---------------------------------------------------------------------
  // Largest accounts of a category

  /** What the top-accounts helper reads once the dataset and the category
      are chosen. */
  datatype Pool = Pool(values: map<Key, Value>, accounts: map<Key, Account>, categoryId: Key)

  /** The value under key `k` is an actual value of an account of the
      category; a value of a missing account never is. */
  predicate Qualifies(p: Pool, k: Key) {
    && k in p.values && p.values[k].valueType == Actual
    && CategoryOfAccount(p.accounts, p.values[k].accountId) == Some(p.categoryId)
  }

  function NameAt(p: Pool, k: Key): string
    requires Qualifies(p, k)
  {
    p.accounts[p.values[k].accountId].name
  }

  /** One row of the result: an account name and its total. */
  datatype Total = Total(accountName: string, totalAmount: real)

  /** `account_totals[name] += amount` on an insertion-ordered dict whose
      missing entries start at 0. */
  function AddTo(totals: seq<Total>, name: string, amount: real): seq<Total> {
    if |totals| == 0 then [Total(name, amount)]
    else if totals[0].accountName == name then [Total(name, totals[0].totalAmount + amount)] + totals[1..]
    else [totals[0]] + AddTo(totals[1..], name, amount)
  }

  /** `account_totals.get(name)`. */
  function Lookup(totals: seq<Total>, name: string): Option<real> {
    if |totals| == 0 then None
    else if totals[0].accountName == name then Some(totals[0].totalAmount)
    else Lookup(totals[1..], name)
  }

  function NameSet(totals: seq<Total>): set<string> {
    set e | e in totals :: e.accountName
  }

  predicate DistinctNames(totals: seq<Total>) {
    forall i, j :: 0 <= i < j < |totals| ==> totals[i].accountName != totals[j].accountName
  }

  /** The dict after the keys below `n`. */
  function Totals(p: Pool, n: nat): seq<Total> {
    if n == 0 then []
    else if Qualifies(p, n - 1) then AddTo(Totals(p, n - 1), NameAt(p, n - 1), p.values[n - 1].amount)
    else Totals(p, n - 1)
  }

  /** The sum of the amounts of the qualifying values below `n` whose
      account is named `name`. */
  function NameSum(p: Pool, n: nat, name: string): real {
    if n == 0 then 0.0
    else NameSum(p, n - 1, name) + (if Qualifies(p, n - 1) && NameAt(p, n - 1) == name then p.values[n - 1].amount else 0.0)
  }

  /** Some qualifying value below `n` belongs to an account named `name`. */
  predicate Contributes(p: Pool, n: nat, name: string) {
    n > 0 && (Contributes(p, n - 1, name) || (Qualifies(p, n - 1) && NameAt(p, n - 1) == name))
  }

  lemma {:induction false} AddToLookup(totals: seq<Total>, name: string, amount: real, x: string)
    ensures Lookup(AddTo(totals, name, amount), x) ==
              if x == name then Some(Lookup(totals, x).GetOr(0.0) + amount) else Lookup(totals, x)
  {
    if |totals| > 0 && totals[0].accountName != name {
      AddToLookup(totals[1..], name, amount, x);
    }
  }

  lemma {:induction false} AddToNames(totals: seq<Total>, name: string, amount: real)
    ensures forall e :: e in AddTo(totals, name, amount) ==> e.accountName == name || e.accountName in NameSet(totals)
    ensures DistinctNames(totals) ==> DistinctNames(AddTo(totals, name, amount))
  {
    if |totals| > 0 {
      var r := AddTo(totals, name, amount);
      assert forall e :: e in totals[1..] ==> e in totals;
      if totals[0].accountName != name {
        AddToNames(totals[1..], name, amount);
        if DistinctNames(totals) {
          assert forall k :: 0 <= k < |totals| - 1 ==> totals[1..][k].accountName != totals[0].accountName;
          assert forall e :: e in totals[1..] ==> e.accountName != totals[0].accountName;
        }
      } else {
        assert forall i :: 0 <= i < |r| ==> r[i].accountName == totals[i].accountName;
      }
    }
  }

  lemma {:induction false} LookupMember(totals: seq<Total>, i: nat)
    requires DistinctNames(totals) && i < |totals|
    ensures Lookup(totals, totals[i].accountName) == Some(totals[i].totalAmount)
  {
    if i > 0 {
      LookupMember(totals[1..], i - 1);
    }
  }

  lemma {:induction false} NoContribution(p: Pool, n: nat, name: string)
    requires !Contributes(p, n, name)
    ensures NameSum(p, n, name) == 0.0
  {
    if n > 0 {
      NoContribution(p, n - 1, name);
    }
  }

  /** The dict holds one entry per account name that received a value, and
      that entry is the sum of the name's amounts. */
  lemma {:induction false} TotalsAreSums(p: Pool, n: nat)
    ensures DistinctNames(Totals(p, n))
    ensures forall x :: Lookup(Totals(p, n), x) == if Contributes(p, n, x) then Some(NameSum(p, n, x)) else None
  {
    if n > 0 {
      TotalsAreSums(p, n - 1);
      if Qualifies(p, n - 1) {
        var t := Totals(p, n - 1);
        AddToNames(t, NameAt(p, n - 1), p.values[n - 1].amount);
        forall x
          ensures Lookup(Totals(p, n), x) == if Contributes(p, n, x) then Some(NameSum(p, n, x)) else None
        {
          AddToLookup(t, NameAt(p, n - 1), p.values[n - 1].amount, x);
          if !Contributes(p, n - 1, x) {
            NoContribution(p, n - 1, x);
          }
        }
      }
    }
  }

  function Magnitude(x: real): real {
    if x < 0.0 then -x else x
  }

  predicate ByMagnitude(totals: seq<Total>) {
    forall i, j :: 0 <= i < j < |totals| ==> Magnitude(totals[i].totalAmount) >= Magnitude(totals[j].totalAmount)
  }

  function InsertByMagnitude(totals: seq<Total>, e: Total): (r: seq<Total>)
    ensures |r| == |totals| + 1
    ensures multiset(r) == multiset(totals) + multiset{e}
    ensures forall y :: y in r ==> y in totals || y == e
  {
    if |totals| == 0 then [e]
    else if Magnitude(e.totalAmount) >= Magnitude(totals[0].totalAmount) then [e] + totals
    else
      assert totals == [totals[0]] + totals[1..];
      [totals[0]] + InsertByMagnitude(totals[1..], e)
  }

  lemma {:induction false} InsertKeepsOrder(totals: seq<Total>, e: Total)
    requires ByMagnitude(totals)
    ensures ByMagnitude(InsertByMagnitude(totals, e))
  {
    if |totals| > 0 && Magnitude(e.totalAmount) < Magnitude(totals[0].totalAmount) {
      var rest := InsertByMagnitude(totals[1..], e);
      InsertKeepsOrder(totals[1..], e);
      var r := InsertByMagnitude(totals, e);
      assert r == [totals[0]] + rest;
      forall j | 0 < j < |r|
        ensures Magnitude(r[0].totalAmount) >= Magnitude(r[j].totalAmount)
      {
        assert r[j] == rest[j - 1] && rest[j - 1] in rest;
      }
    }
  }

  /** `df['total_amount'].abs().sort_values(ascending=False)` applied to the
      rows: ordered by non-increasing magnitude. The sort is not stable, so
      the order among rows of equal magnitude is not fixed. */
  function SortedByMagnitude(totals: seq<Total>): (r: seq<Total>)
    ensures |r| == |totals| && ByMagnitude(r) && multiset(r) == multiset(totals)
  {
    if |totals| == 0 then []
    else
      assert totals == totals[..|totals| - 1] + [totals[|totals| - 1]];
      InsertKeepsOrder(SortedByMagnitude(totals[..|totals| - 1]), totals[|totals| - 1]);
      InsertByMagnitude(SortedByMagnitude(totals[..|totals| - 1]), totals[|totals| - 1])
  }

  /** The length of `df.head(limit)`: the first `limit` rows, or for a
      negative limit all but the last `-limit`. */
  function HeadLength(n: nat, limit: int): (h: nat)
    ensures h <= n
  {
    if limit >= 0 then (if limit <= n then limit else n)
    else if n + limit >= 0 then n + limit else 0
  }

  /** `rows` is a head of `totals` ordered by magnitude: as many rows as
      the head keeps, each from `totals`, and none left out larger than
      one kept. */
  ghost predicate TopOf(rows: seq<Total>, totals: seq<Total>, limit: int) {
    && |rows| == HeadLength(|totals|, limit)
    && ByMagnitude(rows)
    && multiset(rows) <= multiset(totals)
    && forall e: Total, i :: e in multiset(totals) - multiset(rows) && 0 <= i < |rows| ==>
         Magnitude(e.totalAmount) <= Magnitude(rows[i].totalAmount)
  }

  /** What the head of an ordered sequence leaves out is no larger than
      what it keeps. */
  lemma HeadIsLargest(sorted: seq<Total>, h: nat)
    requires ByMagnitude(sorted) && h <= |sorted|
    ensures multiset(sorted[..h]) <= multiset(sorted)
    ensures forall e: Total, i :: e in multiset(sorted) - multiset(sorted[..h]) && 0 <= i < h ==>
              Magnitude(e.totalAmount) <= Magnitude(sorted[i].totalAmount)
  {
    var rest := sorted[h..];
    assert sorted == sorted[..h] + rest;
    assert multiset(sorted) - multiset(sorted[..h]) == multiset(rest);
    forall e: Total, i | e in multiset(rest) && 0 <= i < h
      ensures Magnitude(e.totalAmount) <= Magnitude(sorted[i].totalAmount)
    {
      var j :| 0 <= j < |rest| && rest[j] == e;
      assert sorted[h + j] == e;
    }
  }

  /** The head of the sorted rows is a top selection. */
  lemma TopOfSorted(totals: seq<Total>, limit: int)
    ensures TopOf(SortedByMagnitude(totals)[..HeadLength(|totals|, limit)], totals, limit)
  {
    HeadIsTop(SortedByMagnitude(totals), totals, limit);
  }

  lemma HeadIsTop(sorted: seq<Total>, totals: seq<Total>, limit: int)
    requires ByMagnitude(sorted) && |sorted| == |totals| && multiset(sorted) == multiset(totals)
    ensures TopOf(sorted[..HeadLength(|totals|, limit)], totals, limit)
  {
    HeadIsLargest(sorted, HeadLength(|totals|, limit));
  }

  /** `get_top_accounts`: the totals per account name of the actual values
      of the first dataset of the year whose account is in the first
      category named `category`, the `limit` largest by magnitude; empty
      when the dataset or the category is missing. */
  method TopAccounts(db: FirebaseDB, companyId: Option<Key>, year: int, category: string, limit: int)
    returns (rows: seq<Total>)
    requires db.Valid()
    ensures var target := db.datasets.FirstWhere(InCompanyYear(companyId, year), db.datasets.next);
            var categoryId := db.categories.FirstWhere(CategoryNamed(category), db.categories.next);
            && (target.None? || categoryId.None? ==> rows == [])
            && (target.Some? && categoryId.Some? ==>
                  var p := Pool(db.GetValues(Some(target.value), None), db.accounts.records, categoryId.value);
                  && TopOf(rows, Totals(p, db.values.next), limit)
                  && forall i :: 0 <= i < |rows| ==>
                       Contributes(p, db.values.next, rows[i].accountName)
                       && rows[i].totalAmount == NameSum(p, db.values.next, rows[i].accountName))
  {
    var target := TargetDataset(db, companyId, year);
    if target.None? {
      return [];
    }
    var categoryId := db.categories.FindFirst(CategoryNamed(category));
    if categoryId.None? {
      return [];
    }
    ghost var p := Pool(db.GetValues(Some(target.value), None), db.accounts.records, categoryId.value);
    var totals := AccountTotals(db, target.value, categoryId.value, p);
    rows := SortedByMagnitude(totals)[..HeadLength(|totals|, limit)];
    TopOfSorted(totals, limit);
    TotalsAreSums(p, db.values.next);
    forall i | 0 <= i < |rows|
      ensures Contributes(p, db.values.next, rows[i].accountName)
              && rows[i].totalAmount == NameSum(p, db.values.next, rows[i].accountName)
    {
      assert rows[i] in multiset(rows);
      var j :| 0 <= j < |totals| && totals[j] == rows[i];
      LookupMember(totals, j);
    }
  }

  /** The loop that fills `account_totals`. */
  method AccountTotals(db: FirebaseDB, datasetId: Key, categoryId: Key, ghost p: Pool) returns (totals: seq<Total>)
    requires p == Pool(db.GetValues(Some(datasetId), None), db.accounts.records, categoryId)
    ensures totals == Totals(p, db.values.next)
  {
    totals := [];
    var k := 0;
    while k < db.values.next
      invariant k <= db.values.next
      invariant totals == Totals(p, k)
    {
      if k in db.values.records && db.values.records[k].datasetId == datasetId && db.values.records[k].valueType == Actual {
        var v := db.values.records[k];
        assert k in p.values && p.values[k] == v;
        if CategoryOfAccount(db.accounts.records, v.accountId) == Some(categoryId) {
          totals := AddTo(totals, db.accounts.records[v.accountId].name, v.amount);
        }
      } else {
        assert !Qualifies(p, k);
      }
      k := k + 1;
    }
  }
}
