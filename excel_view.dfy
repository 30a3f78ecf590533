/** The budget page: the table of actual values per account and month, the
    budget grid's change detection, the collection of every budget field
    with its fallbacks, the choice of the latest budget of a year and the
    save of edited cells through the budget-value upsert. */
module ExcelView {
  import opened Options
  import opened Text
  import opened Cells
  import opened Store
  import opened Helpers

  /** `drop_duplicates()`: the first occurrence of each element, in order. */
  function Distinct<T(==,!new)>(s: seq<T>): (r: seq<T>)
    ensures forall x :: x in r <==> x in s
    ensures forall i, j :: 0 <= i < j < |r| ==> r[i] != r[j]
  {
    if |s| == 0 then []
    else
      var init := s[..|s| - 1];
      assert s == init + [s[|s| - 1]];
      var d := Distinct(init);
      if s[|s| - 1] in d then d else d + [s[|s| - 1]]
  }

  // ---------------------------------------------------------------------
  // Table of actual values

  /** One row of the frame of actual values the page loads: a value of the
      chosen dataset with its account and category. */
  datatype ActualRow = ActualRow(accountName: string, category: string, month: int, amount: real,
                                 accountId: Key, categoryId: Option<Key>)

  /** The columns the table's `drop_duplicates` looks at. */
  datatype AccountInfo = AccountInfo(accountName: string, category: string, accountId: Key, categoryId: Option<Key>)

  function Infos(actual: seq<ActualRow>): (r: seq<AccountInfo>)
    ensures |r| == |actual|
  {
    seq(|actual|, i requires 0 <= i < |actual| =>
          AccountInfo(actual[i].accountName, actual[i].category, actual[i].accountId, actual[i].categoryId))
  }

  /** The sum of the amounts of the rows with this account name and month;
      0 when there are none. */
  function NameMonthSum(actual: seq<ActualRow>, name: string, month: int): real {
    if |actual| == 0 then 0.0
    else
      var last := actual[|actual| - 1];
      NameMonthSum(actual[..|actual| - 1], name, month)
      + (if last.accountName == name && last.month == month then last.amount else 0.0)
  }

  /** With no row of that name and month the sum is 0, the value the table
      shows for an empty mask. */
  lemma {:induction false} NameMonthSumAbsent(actual: seq<ActualRow>, name: string, month: int)
    requires forall i :: 0 <= i < |actual| ==> !(actual[i].accountName == name && actual[i].month == month)
    ensures NameMonthSum(actual, name, month) == 0.0
  {
    if |actual| > 0 {
      NameMonthSumAbsent(actual[..|actual| - 1], name, month);
    }
  }

  datatype TableRow = TableRow(info: AccountInfo, months: seq<real>)

  /** `actual_df[(name matches) & (month matches)]['amount'].sum()`: one pass
      over the rows adding the amounts the two masks keep. */
  method MonthTotal(actual: seq<ActualRow>, name: string, month: int) returns (total: real)
    ensures total == NameMonthSum(actual, name, month)
  {
    total := 0.0;
    for k := 0 to |actual|
      invariant total == NameMonthSum(actual[..k], name, month)
    {
      assert actual[..k + 1][..k] == actual[..k];
      if actual[k].accountName == name && actual[k].month == month {
        total := total + actual[k].amount;
      }
    }
    assert actual[..|actual|] == actual;
  }

  /** `create_excel_table_with_categories`: one row per distinct (name,
      category, account, category key), in order of first appearance,
      whose month cells sum the actual amounts of every account with that
      name in that month. */
  method CreateExcelTable(actual: seq<ActualRow>) returns (table: seq<TableRow>)
    ensures |table| == |Distinct(Infos(actual))|
    ensures forall i :: 0 <= i < |table| ==>
              && table[i].info == Distinct(Infos(actual))[i]
              && |table[i].months| == 12
              && forall m :: 1 <= m <= 12 ==> table[i].months[m - 1] == NameMonthSum(actual, table[i].info.accountName, m)
  {
    table := [];
    if |actual| == 0 {
      return;
    }
    var unique := Distinct(Infos(actual));
    for i := 0 to |unique|
      invariant |table| == i
      invariant forall j :: 0 <= j < i ==>
                  && table[j].info == unique[j]
                  && |table[j].months| == 12
                  && forall m :: 1 <= m <= 12 ==> table[j].months[m - 1] == NameMonthSum(actual, unique[j].accountName, m)
    {
      var name := unique[i].accountName;
      var months := [];
      for m := 1 to 13
        invariant |months| == m - 1
        invariant forall k :: 1 <= k < m ==> months[k - 1] == NameMonthSum(actual, name, k)
      {
        var total := MonthTotal(actual, name, m);
        months := months + [total];
      }
      table := table + [TableRow(unique[i], months)];
    }
  }

  /** Every account of the actual values has exactly one row: with
      `CreateExcelTable`, whose rows are the distinct infos, this says the
      table lists each account once and no actual values give no rows. */
  lemma TableCoversAccounts(actual: seq<ActualRow>)
    ensures forall i :: 0 <= i < |actual| ==> Infos(actual)[i] in Distinct(Infos(actual))
    ensures forall i, j :: 0 <= i < j < |Distinct(Infos(actual))| ==> Distinct(Infos(actual))[i] != Distinct(Infos(actual))[j]
    ensures |actual| == 0 ==> Distinct(Infos(actual)) == []
  {
  }

  // ---------------------------------------------------------------------
  // Choosing and reading the budget of a year

  /** `budget_data.get('updated_at', budget_data.get('created_at'))`: a
      field that was never written is absent from the stored record. */
  function Stamp(b: Budget): Option<string> {
    if b.updatedAt.Some? then b.updatedAt else b.createdAt
  }

  /** The scan for the latest budget: the budget chosen so far with its
      stamp, or the `TypeError` raised by comparing a missing stamp with a
      present one. */
  datatype Scan = Scan(target: Option<Key>, latest: Option<string>) | Failed

  /** The scan's step for the budget `b` under key `k`. */
  function ScanStep(s: Scan, k: Key, b: Budget, year: int): Scan {
    if s.Failed? || b.year != year then s
    else if s.latest.None? then Scan(Some(k), Stamp(b))
    else if Stamp(b).None? then Failed
    else if StrLess(s.latest.value, Stamp(b).value) then Scan(Some(k), Stamp(b))
    else s
  }

  /** The scan over the budgets with keys below `n`, in key order. */
  function LatestScan(budgets: map<Key, Budget>, n: nat, year: int): Scan {
    if n == 0 then Scan(None, None)
    else
      var s := LatestScan(budgets, n - 1, year);
      if n - 1 in budgets then ScanStep(s, n - 1, budgets[n - 1], year) else s
  }

  /** Once the comparison has raised, the scan stays failed. */
  lemma {:induction false} ScanStaysFailed(budgets: map<Key, Budget>, k: nat, n: nat, year: int)
    requires k <= n && LatestScan(budgets, k, year).Failed?
    ensures LatestScan(budgets, n, year).Failed?
    decreases n
  {
    if k < n {
      ScanStaysFailed(budgets, k, n - 1, year);
    }
  }

  /** `budgets[k]` exists and is a budget of `year`. */
  predicate OfYear(budgets: map<Key, Budget>, k: Key, year: int) {
    k in budgets && budgets[k].year == year
  }

  /** `s` holds the budget of the year with the greatest stamp among the
      keys below `n`, the one with the smallest key among equal stamps. */
  ghost predicate Greatest(budgets: map<Key, Budget>, n: nat, year: int, s: Scan) {
    && s.Scan?
    && (s.target.None? ==> s.latest.None?)
    && (s.target.Some? ==>
          var k := s.target.value;
          && k < n && OfYear(budgets, k, year) && s.latest == Stamp(budgets[k]) && s.latest.Some?
          && (forall j: Key :: j < k && OfYear(budgets, j, year) ==>
                Stamp(budgets[j]).Some? && StrLess(Stamp(budgets[j]).value, s.latest.value))
          && (forall j: Key :: k < j < n && OfYear(budgets, j, year) ==>
                Stamp(budgets[j]).Some? && !StrLess(s.latest.value, Stamp(budgets[j]).value)))
  }

  /** When every budget of the year carries a stamp, the scan does not
      raise, finds a budget exactly when one of the year exists, and finds
      the latest one, the first of those with equal stamps. */
  lemma {:induction false} LatestIsGreatest(budgets: map<Key, Budget>, n: nat, year: int)
    requires forall k: Key :: k < n && OfYear(budgets, k, year) ==> Stamp(budgets[k]).Some?
    ensures LatestScan(budgets, n, year).Scan?
    ensures LatestScan(budgets, n, year).target.Some? <==> exists k: Key :: k < n && OfYear(budgets, k, year)
    ensures Greatest(budgets, n, year, LatestScan(budgets, n, year))
  {
    if n > 0 {
      LatestIsGreatest(budgets, n - 1, year);
      var s := LatestScan(budgets, n - 1, year);
      var k := n - 1;
      if OfYear(budgets, k, year) && s.target.Some? {
        var t := s.target.value;
        var latest := s.latest.value;
        var cur := Stamp(budgets[k]).value;
        if StrLess(latest, cur) {
          forall j: Key | j < k && OfYear(budgets, j, year)
            ensures StrLess(Stamp(budgets[j]).value, cur)
          {
            var sj := Stamp(budgets[j]).value;
            if j < t {
              StrLessTransitive(sj, latest, cur);
            } else if t < j {
              StrLessTotal(sj, latest);
              if sj != latest {
                StrLessTransitive(sj, latest, cur);
              }
            }
          }
        }
      }
    }
  }

  /** The loop of `get_budget_data` that picks the budget: `None` when the
      company has no budget of the year, or when the comparison raised and
      the page shows an empty frame. */
  method LatestBudget(db: FirebaseDB, companyId: Key, year: int) returns (target: Option<Key>)
    requires db.Valid()
    ensures var s := LatestScan(db.GetBudgets(Some(companyId)), db.budgets.next, year);
            target == if s.Failed? then None else s.target
  {
    var budgets := db.GetBudgets(Some(companyId));
    var latest: Option<string> := None;
    target := None;
    var k := 0;
    while k < db.budgets.next
      invariant k <= db.budgets.next
      invariant LatestScan(budgets, k, year) == Scan(target, latest)
    {
      if k in budgets && budgets[k].year == year {
        var updatedAt := Stamp(budgets[k]);
        if latest.None? {
          latest, target := updatedAt, Some(k);
        } else if updatedAt.None? {
          ScanStaysFailed(budgets, k + 1, db.budgets.next, year);
          return None;
        } else if StrLess(latest.value, updatedAt.value) {
          latest, target := updatedAt, Some(k);
        }
      }
      k := k + 1;
    }
  }

  /** The rows built from the stored values of `budgetId` with keys below
      `n`, in key order. */
  function ValueRows(values: map<Key, BudgetValue>, budgetId: Key, n: nat): seq<BudgetRow> {
    if n == 0 then []
    else
      var k := n - 1;
      ValueRows(values, budgetId, k)
        + if k in values && values[k].budgetId == budgetId
          then [BudgetRow(values[k].accountId, values[k].month, values[k].amount)]
          else []
  }

  /** A row is built exactly from a stored value of the budget. */
  lemma {:induction false} ValueRowsAreValues(values: map<Key, BudgetValue>, budgetId: Key, n: nat, r: BudgetRow)
    ensures r in ValueRows(values, budgetId, n) <==>
              exists k: Key :: && k < n && k in values && values[k].budgetId == budgetId
                               && r == BudgetRow(values[k].accountId, values[k].month, values[k].amount)
  {
    if n > 0 {
      ValueRowsAreValues(values, budgetId, n - 1, r);
    }
  }

  /** `get_budget_data`: the rows of the values of the latest budget of
      the year, or none. */
  method BudgetData(db: FirebaseDB, companyId: Key, year: int) returns (rows: seq<BudgetRow>)
    requires db.Valid()
    ensures var s := LatestScan(db.GetBudgets(Some(companyId)), db.budgets.next, year);
            rows == if s.Scan? && s.target.Some? then ValueRows(db.budgetValues.records, s.target.value, db.budgetValues.next) else []
  {
    var target := LatestBudget(db, companyId, year);
    rows := [];
    if target.None? {
      return;
    }
    var values := db.GetBudgetValues(target);
    var k := 0;
    while k < db.budgetValues.next
      invariant k <= db.budgetValues.next
      invariant rows == ValueRows(db.budgetValues.records, target.value, k)
    {
      if k in values {
        rows := rows + [BudgetRow(values[k].accountId, values[k].month, values[k].amount)];
      }
      k := k + 1;
    }
  }

  // ---------------------------------------------------------------------
  // Collecting the budget fields

  /** One row of the budget frame: an account, a month and its amount. */
  datatype BudgetRow = BudgetRow(accountId: Key, month: int, amount: real)

  /** `existing`: the amount per (account, month); a later row for the
      same cell overwrites an earlier one. */
  function ExistingOf(budget: seq<BudgetRow>): map<(Key, int), real> {
    if |budget| == 0 then map[]
    else
      var last := budget[|budget| - 1];
      ExistingOf(budget[..|budget| - 1])[(last.accountId, last.month) := last.amount]
  }

  /** A cell has an existing amount exactly when some row names it, and the
      amount is that of the last such row. */
  lemma {:induction false} ExistingIsLastRow(budget: seq<BudgetRow>, c: (Key, int))
    ensures c in ExistingOf(budget) <==> exists i :: 0 <= i < |budget| && (budget[i].accountId, budget[i].month) == c
    ensures c in ExistingOf(budget) ==>
              exists i :: && 0 <= i < |budget| && (budget[i].accountId, budget[i].month) == c
                          && ExistingOf(budget)[c] == budget[i].amount
                          && forall j :: i < j < |budget| ==> (budget[j].accountId, budget[j].month) != c
  {
    if |budget| > 0 {
      var n := |budget| - 1;
      var init := budget[..n];
      ExistingIsLastRow(init, c);
      if (budget[n].accountId, budget[n].month) == c {
        assert ExistingOf(budget)[c] == budget[n].amount;
      } else {
        assert ExistingOf(budget) == ExistingOf(init)[(budget[n].accountId, budget[n].month) := budget[n].amount];
        if c in ExistingOf(init) {
          var i :| && 0 <= i < n && (init[i].accountId, init[i].month) == c
                   && ExistingOf(init)[c] == init[i].amount
                   && forall j :: i < j < n ==> (init[j].accountId, init[j].month) != c;
          assert init[i] == budget[i];
          assert forall j :: i < j < |budget| ==> (budget[j].accountId, budget[j].month) != c by {
            forall j | i < j < |budget|
              ensures (budget[j].accountId, budget[j].month) != c
            {
              if j < n { assert init[j] == budget[j]; }
            }
          }
        } else {
          forall i | 0 <= i < |budget|
            ensures (budget[i].accountId, budget[i].month) != c
          {
            if i < n { assert init[i] == budget[i]; }
          }
        }
      }
    }
  }

  /** The loop over the budget frame that fills `existing`. */
  method ExistingBudget(budget: seq<BudgetRow>) returns (existing: map<(Key, int), real>)
    ensures existing == ExistingOf(budget)
  {
    existing := map[];
    for i := 0 to |budget|
      invariant existing == ExistingOf(budget[..i])
    {
      assert budget[..i + 1][..i] == budget[..i];
      existing := existing[(budget[i].accountId, budget[i].month) := budget[i].amount];
    }
    assert budget[..|budget|] == budget;
  }

  /** `f"{category}_budget_{account_id}_{m}"`, the key of a budget field. */
  function FieldKey(category: string, accountId: Key, month: int): string {
    category + "_budget_" + NatText(accountId) + "_" + IntText(month)
  }

  /** The saved value of one field: the field's value when the page holds
      one (0.0 when `float` rejects it), else the existing amount, else 0.0.
      A field value of `None` stands for one `float` rejects. */
  function FieldValue(category: string, accountId: Key, month: int,
                      existing: map<(Key, int), real>, fields: map<string, Option<real>>): real
  {
    var key := FieldKey(category, accountId, month);
    if key in fields then fields[key].GetOr(0.0)
    else if (accountId, month) in existing then existing[(accountId, month)]
    else 0.0
  }

  /** The inner loop of `collect_budget_updates`: a value for every month. */
  method MonthMapFor(category: string, accountId: Key, existing: map<(Key, int), real>, fields: map<string, Option<real>>)
    returns (monthMap: map<int, real>)
    ensures forall m :: m in monthMap <==> 1 <= m <= 12
    ensures forall m :: m in monthMap ==> monthMap[m] == FieldValue(category, accountId, m, existing, fields)
  {
    monthMap := map[];
    for m := 1 to 13
      invariant forall k :: k in monthMap <==> 1 <= k < m
      invariant forall k :: k in monthMap ==> monthMap[k] == FieldValue(category, accountId, k, existing, fields)
    {
      var key := FieldKey(category, accountId, m);
      if key in fields {
        monthMap := monthMap[m := if fields[key].Some? then fields[key].value else 0.0];
      } else if (accountId, m) in existing {
        monthMap := monthMap[m := existing[(accountId, m)]];
      } else {
        monthMap := monthMap[m := 0.0];
      }
    }
  }

  /** The columns the collection's `drop_duplicates` looks at. */
  datatype BudgetAccount = BudgetAccount(accountName: string, category: string, accountId: Key)

  function BudgetAccounts(actual: seq<ActualRow>): (r: seq<BudgetAccount>)
    ensures |r| == |actual|
  {
    seq(|actual|, i requires 0 <= i < |actual| =>
          BudgetAccount(actual[i].accountName, actual[i].category, actual[i].accountId))
  }

  /** The category of the last of `accounts` with this account key: two
      rows of one account under different names or categories both write
      `updates[account_id]`, and the later one stays. */
  function LastCategory(accounts: seq<BudgetAccount>, accountId: Key): Option<string> {
    if |accounts| == 0 then None
    else if accounts[|accounts| - 1].accountId == accountId then Some(accounts[|accounts| - 1].category)
    else LastCategory(accounts[..|accounts| - 1], accountId)
  }

  lemma {:induction false} LastCategoryFound(accounts: seq<BudgetAccount>, accountId: Key)
    ensures LastCategory(accounts, accountId).Some? <==> exists i :: 0 <= i < |accounts| && accounts[i].accountId == accountId
  {
    if |accounts| > 0 {
      var init := accounts[..|accounts| - 1];
      LastCategoryFound(init, accountId);
      assert forall i :: 0 <= i < |init| ==> init[i] == accounts[i];
    }
  }

  /** `updates` holds for account `a` what the collection loop over
      `accounts` leaves: an entry exactly when some row has that account,
      covering all twelve months, each the field value for the category of
      the last such row. */
  ghost predicate Collected(updates: map<Key, map<int, real>>, a: Key, accounts: seq<BudgetAccount>,
                            existing: map<(Key, int), real>, fields: map<string, Option<real>>)
  {
    && (a in updates <==> LastCategory(accounts, a).Some?)
    && (a in updates ==>
          && (forall m :: m in updates[a] <==> 1 <= m <= 12)
          && forall m :: m in updates[a] ==>
               updates[a][m] == FieldValue(LastCategory(accounts, a).value, a, m, existing, fields))
  }

  /** `collect_budget_updates`: for every account of the actual values, a
      map of all twelve months, each the field value, else the existing
      budget amount, else 0.0. */
  method CollectBudgetUpdates(actual: seq<ActualRow>, budget: seq<BudgetRow>, fields: map<string, Option<real>>)
    returns (updates: map<Key, map<int, real>>)
    ensures forall a :: a in updates <==> exists i :: 0 <= i < |actual| && actual[i].accountId == a
    ensures forall a :: Collected(updates, a, Distinct(BudgetAccounts(actual)), ExistingOf(budget), fields)
  {
    var existing := ExistingBudget(budget);
    var unique := Distinct(BudgetAccounts(actual));
    updates := map[];
    for i := 0 to |unique|
      invariant forall a :: Collected(updates, a, unique[..i], existing, fields)
    {
      var monthMap := MonthMapFor(unique[i].category, unique[i].accountId, existing, fields);
      ghost var before := updates;
      updates := updates[unique[i].accountId := monthMap];
      CollectedStep(before, updates, unique, unique[..i + 1], i, monthMap, existing, fields);
    }
    assert unique[..|unique|] == unique;
    CollectedKeys(updates, actual, existing, fields);
  }

  /** One step of the collection loop keeps `Collected` for every account. */
  lemma CollectedStep(updates: map<Key, map<int, real>>, after: map<Key, map<int, real>>,
                      unique: seq<BudgetAccount>, seen: seq<BudgetAccount>, i: int, monthMap: map<int, real>,
                      existing: map<(Key, int), real>, fields: map<string, Option<real>>)
    requires 0 <= i < |unique|
    requires forall a :: Collected(updates, a, unique[..i], existing, fields)
    requires forall m :: m in monthMap <==> 1 <= m <= 12
    requires forall m :: m in monthMap ==> monthMap[m] == FieldValue(unique[i].category, unique[i].accountId, m, existing, fields)
    requires after == updates[unique[i].accountId := monthMap]
    requires seen == unique[..i + 1]
    ensures forall a :: Collected(after, a, seen, existing, fields)
  {
    forall a
      ensures Collected(after, a, seen, existing, fields)
    {
      assert seen[..i] == unique[..i];
      assert Collected(updates, a, unique[..i], existing, fields);
    }
  }

  /** After the loop, the accounts with an entry are exactly those of the
      actual values. */
  lemma CollectedKeys(updates: map<Key, map<int, real>>, actual: seq<ActualRow>,
                      existing: map<(Key, int), real>, fields: map<string, Option<real>>)
    requires forall a :: Collected(updates, a, Distinct(BudgetAccounts(actual)), existing, fields)
    ensures forall a :: a in updates <==> exists i :: 0 <= i < |actual| && actual[i].accountId == a
  {
    var unique := Distinct(BudgetAccounts(actual));
    forall a
      ensures a in updates <==> exists i :: 0 <= i < |actual| && actual[i].accountId == a
    {
      assert Collected(updates, a, unique, existing, fields);
      LastCategoryFound(unique, a);
      if a in updates {
        var j :| 0 <= j < |unique| && unique[j].accountId == a;
        assert unique[j] in BudgetAccounts(actual);
      }
      if i :| 0 <= i < |actual| && actual[i].accountId == a {
        assert BudgetAccounts(actual)[i] in unique;
      }
    }
  }

  // ---------------------------------------------------------------------
  // Change detection in the budget grid

  /** `pd.to_numeric(cell, errors='coerce').fillna(0.0)`. */
  function Numeric(c: Cell): real {
    match c
    case Empty => 0.0
    case Int(i) => i as real
    case Num(x) => x
    case Str(s) => ParseDecimal(s).GetOr(0.0)
  }

  /** A grid of the budget editor: the twelve month cells of each account,
      keyed by account. */
  type Grid = map<Key, seq<Cell>>

  predicate WellShaped(grid: Grid) {
    forall a :: a in grid ==> |grid[a]| == 12
  }

  /** A month cell after the outer merge: an account missing from one side
      reads as 0.0 there. */
  function CellOf(grid: Grid, accountId: Key, month: int): real
    requires WellShaped(grid)
  {
    if accountId in grid && 1 <= month <= 12 then Numeric(grid[accountId][month - 1]) else 0.0
  }

  const Tolerance: real := 0.000000001

  predicate Changed(original: Grid, edited: Grid, accountId: Key, month: int)
    requires WellShaped(original) && WellShaped(edited)
  {
    Magnitude(CellOf(edited, accountId, month) - CellOf(original, accountId, month)) > Tolerance
  }

  /** `updates` holds the changes of account `a` and nothing else for it:
      an entry exactly when some month changed, with exactly the changed
      months, each set to its edited value. */
  ghost predicate RowDiff(original: Grid, edited: Grid, a: Key, updates: map<Key, map<int, real>>)
    requires WellShaped(original) && WellShaped(edited)
  {
    && (a in updates <==> exists m :: 1 <= m <= 12 && Changed(original, edited, a, m))
    && (a in updates ==>
          && (forall m :: m in updates[a] <==> 1 <= m <= 12 && Changed(original, edited, a, m))
          && forall m :: m in updates[a] ==> updates[a][m] == CellOf(edited, a, m))
  }

  /** The month loop for one merged row: every changed month is set to the
      edited value with `updates.setdefault(account_id, {})[month] = e`. */
  method DiffRow(original: Grid, edited: Grid, accountId: Key, updates: map<Key, map<int, real>>)
    returns (updates': map<Key, map<int, real>>)
    requires WellShaped(original) && WellShaped(edited) && accountId !in updates
    ensures forall a :: a != accountId ==> (a in updates' <==> a in updates)
    ensures forall a :: a != accountId && a in updates ==> updates'[a] == updates[a]
    ensures RowDiff(original, edited, accountId, updates')
  {
    updates' := updates;
    for m := 1 to 13
      invariant forall a :: a != accountId ==> (a in updates' <==> a in updates)
      invariant forall a :: a != accountId && a in updates ==> updates'[a] == updates[a]
      invariant accountId in updates' <==> exists k :: 1 <= k < m && Changed(original, edited, accountId, k)
      invariant accountId in updates' ==>
                  && (forall k :: k in updates'[accountId] <==> 1 <= k < m && Changed(original, edited, accountId, k))
                  && forall k :: k in updates'[accountId] ==> updates'[accountId][k] == CellOf(edited, accountId, k)
    {
      var b := if accountId in original then Numeric(original[accountId][m - 1]) else 0.0;
      var e := if accountId in edited then Numeric(edited[accountId][m - 1]) else 0.0;
      assert e == CellOf(edited, accountId, m) && b == CellOf(original, accountId, m);
      if Magnitude(e - b) > Tolerance {
        var row := if accountId in updates' then updates'[accountId] else map[];
        updates' := updates'[accountId := row[m := e]];
        assert Changed(original, edited, accountId, m);
      } else {
        assert !Changed(original, edited, accountId, m);
      }
    }
  }

  /** Changing another account's entry leaves this account's diff as it was. */
  lemma RowDiffFrame(original: Grid, edited: Grid, a: Key, updates: map<Key, map<int, real>>, updates': map<Key, map<int, real>>)
    requires WellShaped(original) && WellShaped(edited) && RowDiff(original, edited, a, updates)
    requires a in updates' <==> a in updates
    requires a in updates ==> updates'[a] == updates[a]
    ensures RowDiff(original, edited, a, updates')
  {
  }

  /** `diff_budget_updates`: exactly the cells whose edited value differs
      from the original by more than 1e-9, each with its edited value. */
  method DiffBudgetUpdates(original: Grid, edited: Grid) returns (updates: map<Key, map<int, real>>)
    requires WellShaped(original) && WellShaped(edited)
    ensures forall a :: a in updates ==> (a in original || a in edited) && updates[a] != map[]
    ensures forall a, m :: a in updates && m in updates[a] ==>
              && 1 <= m <= 12
              && Changed(original, edited, a, m)
              && updates[a][m] == CellOf(edited, a, m)
    ensures forall a, m :: 1 <= m <= 12 && Changed(original, edited, a, m) ==> a in updates && m in updates[a]
    ensures original == edited ==> updates == map[]
  {
    updates := map[];
    var rest := original.Keys + edited.Keys;
    ghost var done: set<Key> := {};
    while rest != {}
      invariant forall a :: a in original || a in edited <==> a in rest || a in done
      invariant rest !! done
      invariant forall a :: a in updates ==> a in done
      invariant forall a :: a in done ==> RowDiff(original, edited, a, updates)
      decreases |rest|
    {
      assert exists a :: a in rest by {
        if forall a :: a !in rest {
          assert false;
        }
      }
      var a :| a in rest;
      ghost var before := updates;
      updates := DiffRow(original, edited, a, updates);
      forall a' | a' in done
        ensures RowDiff(original, edited, a', updates)
      {
        RowDiffFrame(original, edited, a', before, updates);
      }
      rest := rest - {a};
      done := done + {a};
    }
    forall a | a in updates
      ensures (a in original || a in edited) && updates[a] != map[]
    {
      assert RowDiff(original, edited, a, updates);
      var m :| 1 <= m <= 12 && Changed(original, edited, a, m);
      assert m in updates[a];
    }
    forall a, m | 1 <= m <= 12 && Changed(original, edited, a, m)
      ensures a in updates && m in updates[a]
    {
      assert a in original || a in edited;
      assert RowDiff(original, edited, a, updates);
    }
    if original == edited {
      assert forall a, m :: !Changed(original, edited, a, m);
      assert forall a :: a !in updates;
    }
  }

  // ---------------------------------------------------------------------
  // Saving the budget

  /** `budget_data.get('year') == year` within the company's budgets. */
  function BudgetOfYear(companyId: Key, year: int): Budget -> bool {
    (b: Budget) => b.companyId == companyId && b.year == year
  }

  /** The (account, month) cells of `updates` whose account is in
      `accounts`. */
  function CellsOf(updates: map<Key, map<int, real>>, accounts: set<Key>): set<(Key, int)> {
    set a, m | a in accounts && a in updates && m in updates[a] :: (a, m)
  }

  /** The cells of account `a` for `months`. */
  function RowCells(a: Key, months: set<int>): set<(Key, int)> {
    set m | m in months :: (a, m)
  }

  /** An account has as many cells as it has months. */
  lemma {:induction false} RowCellsSize(a: Key, months: set<int>)
    ensures |RowCells(a, months)| == |months|
    decreases |months|
  {
    if months != {} {
      assert exists m :: m in months by {
        if forall m :: m !in months {
          assert false;
        }
      }
      var m :| m in months;
      RowCellsSize(a, months - {m});
      assert RowCells(a, months) == RowCells(a, months - {m}) + {(a, m)};
    }
  }

  /** Adding an account adds its cells, and as many as it has months. */
  lemma CellsOfAdd(updates: map<Key, map<int, real>>, accounts: set<Key>, a: Key)
    requires a in updates && a !in accounts
    ensures |CellsOf(updates, accounts + {a})| == |CellsOf(updates, accounts)| + |updates[a]|
  {
    RowCellsSize(a, updates[a].Keys);
    assert CellsOf(updates, accounts + {a}) == CellsOf(updates, accounts) + RowCells(a, updates[a].Keys);
    assert CellsOf(updates, accounts) !! RowCells(a, updates[a].Keys);
  }

  /** Every month of `done` of account `a` reads back its amount of
      `months` in budget `budgetId`. */
  ghost predicate MonthsRead(records: map<Key, BudgetValue>, n: nat, budgetId: Key, a: Key,
                             months: map<int, real>, done: set<int>)
  {
    forall m :: m in done && m in months ==> BudgetAmount(records, n, budgetId, a, m) == Some(months[m])
  }

  /** Every cell but the months of `done` of account `a` in budget
      `budgetId` reads as in `before`. */
  ghost predicate OthersAsBefore(records: map<Key, BudgetValue>, n: nat, before: map<Key, BudgetValue>, n0: nat,
                                 budgetId: Key, a: Key, done: set<int>)
  {
    forall b: Key, a': Key, m: int :: !(b == budgetId && a' == a && m in done) ==>
      BudgetAmount(records, n, b, a', m) == BudgetAmount(before, n0, b, a', m)
  }

  /** One upsert of the inner save loop adds its month to those that read
      back, and leaves every other cell as it was. */
  lemma MonthStep(records: map<Key, BudgetValue>, n: nat, key: Key, n': nat,
                  before: map<Key, BudgetValue>, n0: nat, budgetId: Key, a: Key,
                  months: map<int, real>, done: set<int>, m: int)
    requires forall k :: k in records ==> k < n
    requires m in months
    requires var found := FirstKey(records, SameBudgetCell(budgetId, a, m), n);
             && (found.Some? ==> key == found.value && n' == n)
             && (found.None? ==> key == n && n' == n + 1)
    requires MonthsRead(records, n, budgetId, a, months, done)
    requires OthersAsBefore(records, n, before, n0, budgetId, a, done)
    ensures MonthsRead(records[key := BudgetValue(budgetId, a, m, months[m])], n', budgetId, a, months, done + {m})
    ensures OthersAsBefore(records[key := BudgetValue(budgetId, a, m, months[m])], n', before, n0, budgetId, a, done + {m})
  {
    UpsertReadsBack(records, n, key, n', budgetId, a, m, months[m]);
  }

  /** The inner loop of `save_budget`: every month of account `a` through
      the upsert. Afterwards each reads back its amount, every other cell
      reads as before, and the count is the number of months. */
  method SaveMonths(db: FirebaseDB, budgetId: Key, a: Key, months: map<int, real>) returns (saved: nat)
    requires db.Valid()
    modifies db.budgetValues
    ensures db.Valid()
    ensures saved == |months|
    ensures forall m :: m in months ==>
              BudgetAmount(db.budgetValues.records, db.budgetValues.next, budgetId, a, m) == Some(months[m])
    ensures forall b: Key, a': Key, m: int :: !(b == budgetId && a' == a && m in months) ==>
              BudgetAmount(db.budgetValues.records, db.budgetValues.next, b, a', m)
                == BudgetAmount(old(db.budgetValues.records), old(db.budgetValues.next), b, a', m)
  {
    ghost var before := db.budgetValues.records;
    ghost var n0 := db.budgetValues.next;
    ghost var done: set<int> := {};
    saved := 0;
    var rest := months.Keys;
    while rest != {}
      invariant db.Valid()
      invariant forall m :: m in done <==> m in months && m !in rest
      invariant rest <= months.Keys
      invariant saved == |done|
      invariant MonthsRead(db.budgetValues.records, db.budgetValues.next, budgetId, a, months, done)
      invariant OthersAsBefore(db.budgetValues.records, db.budgetValues.next, before, n0, budgetId, a, done)
      decreases |rest|
    {
      assert exists m :: m in rest by {
        if forall m :: m !in rest {
          assert false;
        }
      }
      var m :| m in rest;
      ghost var records := db.budgetValues.records;
      ghost var n := db.budgetValues.next;
      var key := db.UpdateBudgetValue(budgetId, a, m, months[m]);
      MonthStep(records, n, key, db.budgetValues.next, before, n0, budgetId, a, months, done, m);
      done := done + {m};
      saved := saved + 1;
      rest := rest - {m};
    }
    assert forall m :: m in done <==> m in months.Keys;
    assert done == months.Keys;
  }

  /** Every cell of the accounts of `done` reads back its amount of
      `updates` in budget `budgetId`. */
  ghost predicate AccountsRead(records: map<Key, BudgetValue>, n: nat, budgetId: Key,
                               updates: map<Key, map<int, real>>, done: set<Key>)
  {
    forall a, m :: a in done && a in updates && m in updates[a] ==>
      BudgetAmount(records, n, budgetId, a, m) == Some(updates[a][m])
  }

  /** Every cell but those of the accounts of `done` in budget `budgetId`
      reads as in `before`. */
  ghost predicate AccountsAsBefore(records: map<Key, BudgetValue>, n: nat, before: map<Key, BudgetValue>, n0: nat,
                                   budgetId: Key, updates: map<Key, map<int, real>>, done: set<Key>)
  {
    forall b: Key, a: Key, m: int :: !(b == budgetId && a in done && a in updates && m in updates[a]) ==>
      BudgetAmount(records, n, b, a, m) == BudgetAmount(before, n0, b, a, m)
  }

  /** Saving the months of account `a` adds it to the accounts that read
      back, and leaves every other cell as it was. */
  lemma AccountStep(records: map<Key, BudgetValue>, n: nat, records': map<Key, BudgetValue>, n': nat,
                    before: map<Key, BudgetValue>, n0: nat, budgetId: Key,
                    updates: map<Key, map<int, real>>, done: set<Key>, a: Key)
    requires a in updates
    requires AccountsRead(records, n, budgetId, updates, done)
    requires AccountsAsBefore(records, n, before, n0, budgetId, updates, done)
    requires forall m :: m in updates[a] ==> BudgetAmount(records', n', budgetId, a, m) == Some(updates[a][m])
    requires forall b: Key, a': Key, m: int :: !(b == budgetId && a' == a && m in updates[a]) ==>
               BudgetAmount(records', n', b, a', m) == BudgetAmount(records, n, b, a', m)
    ensures AccountsRead(records', n', budgetId, updates, done + {a})
    ensures AccountsAsBefore(records', n', before, n0, budgetId, updates, done + {a})
  {
  }

  /** The outer loop of `save_budget`: every account of `updates` through
      `SaveMonths`. */
  method SaveCells(db: FirebaseDB, budgetId: Key, updates: map<Key, map<int, real>>) returns (savedCount: nat)
    requires db.Valid()
    modifies db.budgetValues
    ensures db.Valid()
    ensures savedCount == |CellsOf(updates, updates.Keys)|
    ensures AccountsRead(db.budgetValues.records, db.budgetValues.next, budgetId, updates, updates.Keys)
    ensures AccountsAsBefore(db.budgetValues.records, db.budgetValues.next,
                             old(db.budgetValues.records), old(db.budgetValues.next), budgetId, updates, updates.Keys)
  {
    ghost var before := db.budgetValues.records;
    ghost var n0 := db.budgetValues.next;
    ghost var done: set<Key> := {};
    savedCount := 0;
    var rest := updates.Keys;
    while rest != {}
      invariant db.Valid()
      invariant forall a :: a in done <==> a in updates && a !in rest
      invariant rest <= updates.Keys
      invariant savedCount == |CellsOf(updates, done)|
      invariant AccountsRead(db.budgetValues.records, db.budgetValues.next, budgetId, updates, done)
      invariant AccountsAsBefore(db.budgetValues.records, db.budgetValues.next, before, n0, budgetId, updates, done)
      decreases |rest|
    {
      assert exists a :: a in rest by {
        if forall a :: a !in rest {
          assert false;
        }
      }
      var a :| a in rest;
      ghost var records := db.budgetValues.records;
      ghost var n := db.budgetValues.next;
      var saved := SaveMonths(db, budgetId, a, updates[a]);
      AccountStep(records, n, db.budgetValues.records, db.budgetValues.next, before, n0, budgetId, updates, done, a);
      CellsOfAdd(updates, done, a);
      done := done + {a};
      savedCount := savedCount + saved;
      rest := rest - {a};
    }
    assert forall a :: a in done <==> a in updates.Keys;
    assert done == updates.Keys;
  }

  /** `save_budget`: the first budget of the year of the company, or a
      new one named after the year, receives every cell of `updates`
      through the upsert. Afterwards every updated cell reads back its
      amount, every other cell reads as before, and the count is the
      number of cells. */
  method SaveBudget(db: FirebaseDB, companyId: Key, year: int, updates: map<Key, map<int, real>>, now: string)
    returns (budgetId: Key, savedCount: nat)
    requires db.Valid()
    modifies db.budgets, db.budgetValues
    ensures db.Valid()
    ensures var found := old(db.budgets.FirstWhere(BudgetOfYear(companyId, year), db.budgets.next));
            && (found.Some? ==> budgetId == found.value && db.budgets.records == old(db.budgets.records))
            && (found.None? ==>
                  && budgetId == old(db.budgets.next)
                  && db.budgets.records == old(db.budgets.records)[budgetId := Budget(companyId, year, "Budget " + IntText(year), Some(now), Some(now))])
    ensures savedCount == |CellsOf(updates, updates.Keys)|
    ensures forall a, m :: a in updates && m in updates[a] ==>
              BudgetAmount(db.budgetValues.records, db.budgetValues.next, budgetId, a, m) == Some(updates[a][m])
    ensures forall b: Key, a: Key, m: int :: !(b == budgetId && a in updates && m in updates[a]) ==>
              BudgetAmount(db.budgetValues.records, db.budgetValues.next, b, a, m)
                == BudgetAmount(old(db.budgetValues.records), old(db.budgetValues.next), b, a, m)
  {
    var found := db.budgets.FindFirst(BudgetOfYear(companyId, year));
    if found.Some? {
      budgetId := found.value;
    } else {
      budgetId := db.CreateBudget(companyId, year, "Budget " + IntText(year), now);
    }
    savedCount := SaveCells(db, budgetId, updates);
  }
}
