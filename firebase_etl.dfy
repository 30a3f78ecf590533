/** The Excel-to-Firebase import: which facts a sheet yields, and how
    `process_sheet` and `run_etl` write them to the database. */
module FirebaseEtl {
  import opened Options
  import opened Text
  import opened Cells
  import opened Months
  import opened Store
  import opened FirebaseParse

  // ---------------------------------------------------------------------
  // What a sheet yields

  /** One stored amount: the account name, its category, the month and the amount. */
  datatype Fact = Fact(name: string, kind: Kind, month: int, amount: real)

  /** The amount every cell of a row contributes, column by column. */
  function RowAmounts(row: Row): (amounts: seq<Option<real>>)
    ensures |amounts| == |row|
  {
    if row == [] then [] else RowAmounts(row[..|row| - 1]) + [CellAmount(row[|row| - 1])]
  }

  /** Entry `i` of the amounts is read off cell `i` alone. */
  lemma {:induction false} RowAmountsAt(row: Row, i: nat)
    requires i < |row|
    ensures RowAmounts(row)[i] == CellAmount(row[i])
  {
    if i < |row| - 1 {
      RowAmountsAt(row[..|row| - 1], i);
    }
  }

  /** (column, month number) for each month column: the table lookup
      `self.months[month_name]`, done once per column. A token always has a
      month (see `MonthNumbersAt`); 0 only fills the type. */
  function MonthNumbers(months: seq<(nat, string)>): (cols: seq<(nat, int)>)
    ensures |cols| == |months|
    ensures forall i :: 0 <= i < |cols| ==> cols[i].0 == months[i].0
    decreases |months|
  {
    if months == [] then []
    else MonthNumbers(months[..|months| - 1]) + [(months[|months| - 1].0, MonthOf(months[|months| - 1].1).GetOr(0))]
  }

  /** Each column carries the month its token names in the table. */
  lemma {:induction false} MonthNumbersAt(months: seq<(nat, string)>, i: nat)
    requires i < |months|
    ensures MonthNumbers(months)[i] == (months[i].0, MonthOf(months[i].1).GetOr(0))
    decreases |months|
  {
    if i < |months| - 1 {
      MonthNumbersAt(months[..|months| - 1], i);
    }
  }

  /** The columns of month tokens carry month numbers from 1 to 12. */
  lemma MonthNumbersInRange(months: seq<(nat, string)>)
    requires MonthTokens(months)
    ensures MonthColumns(MonthNumbers(months))
  {
    forall i | 0 <= i < |months|
      ensures 1 <= MonthNumbers(months)[i].1 <= 12
    {
      MonthNumbersAt(months, i);
      assert months[i] in months;
    }
  }

  /** Every month number is from 1 to 12. */
  predicate MonthColumns(cols: seq<(nat, int)>) {
    forall i :: 0 <= i < |cols| ==> 1 <= cols[i].1 <= 12
  }

  /** (month, amount) for the first `n` month columns whose cell carries an
      amount; columns past the end of the row are skipped. */
  function CellFacts(amounts: seq<Option<real>>, cols: seq<(nat, int)>, n: nat): (r: seq<(int, real)>)
    requires n <= |cols|
    ensures |r| <= n
  {
    if n == 0 then []
    else
      var (col, month) := cols[n - 1];
      var amount := if col < |amounts| then amounts[col] else None;
      CellFacts(amounts, cols, n - 1) + (if amount.Some? then [(month, amount.value)] else [])
  }

  /** The facts of one account row with name `name` and category `kind`. */
  function Label(name: string, kind: Kind, cells: seq<(int, real)>): (r: seq<Fact>)
    ensures |r| == |cells|
    decreases |cells|
  {
    if cells == [] then []
    else Label(name, kind, cells[..|cells| - 1]) + [Fact(name, kind, cells[|cells| - 1].0, cells[|cells| - 1].1)]
  }

  /** The cleaned account names of the first column, row by row. */
  function RowNames(grid: Grid): (names: seq<string>)
    ensures |names| == |grid|
  {
    if grid == [] then [] else RowNames(grid[..|grid| - 1]) + [CleanAccountName(FirstCell(grid[|grid| - 1]))]
  }

  /** Entry `i` of the names is read off row `i` alone. */
  lemma {:induction false} RowNamesAt(grid: Grid, i: nat)
    requires i < |grid|
    ensures RowNames(grid)[i] == CleanAccountName(FirstCell(grid[i]))
  {
    if i < |grid| - 1 {
      RowNamesAt(grid[..|grid| - 1], i);
    }
  }

  /** The facts row `idx`, named `name`, yields: none for a refused name,
      otherwise one per month cell with an amount, all under the row's
      account. */
  function RowFacts(name: string, idx: nat, row: Row, cols: seq<(nat, int)>, sections: Sections): (r: seq<Fact>)
  {
    if RowAccepted(name) then Label(name, CategorizeAccount(name, idx, sections), CellFacts(RowAmounts(row), cols, |cols|))
    else []
  }

  /** The facts of rows `start` up to `n`, in row order. */
  function FactsUpTo(grid: Grid, names: seq<string>, start: nat, n: nat, cols: seq<(nat, int)>, sections: Sections): (r: seq<Fact>)
    requires start <= n <= |grid| == |names|
    decreases n - start
  {
    if n == start then []
    else FactsUpTo(grid, names, start, n - 1, cols, sections) + RowFacts(names[n - 1], n - 1, grid[n - 1], cols, sections)
  }

  /** What `process_sheet` settles before it writes anything: the company,
      the year, the first data row, the month columns with their month
      numbers, and the blocks. */
  datatype Plan = Plan(company: string, year: int, start: nat, cols: seq<(nat, int)>, sections: Sections)

  /** The checks of `process_sheet` in order: the title must give a company
      and a non-zero year, a month-header row must exist, and at least one
      block must be found. */
  function PlanSheet(title: string, grid: Grid): (r: Option<Plan>)
    ensures r.Some? ==> r.value.start <= |grid| && MonthColumns(r.value.cols) && |r.value.cols| >= 3
    ensures r.Some? ==> r.value.company != [] && r.value.year != 0 && r.value.sections.Any()
  {
    match ParseSheetName(title)
    case None => None
    case Some((company, year)) =>
      if company == [] || year == 0 then None
      else match HeaderRow(GridMonths(grid), |grid|)
        case None => None
        case Some(h) =>
          GridMonthsAt(grid, h);
          RowMonthsFacts(grid[h]);
          MonthNumbersInRange(RowMonths(grid[h]));
          var sections := SectionsOf(RowMarkers(grid));
          if sections.Any() then Some(Plan(company, year, h + 1, MonthNumbers(RowMonths(grid[h])), sections)) else None
  }

  /** All facts of an accepted sheet: those of every row after the header. */
  function SheetFacts(grid: Grid, plan: Plan): seq<Fact>
    requires plan.start <= |grid|
  {
    FactsUpTo(grid, RowNames(grid), plan.start, |grid|, plan.cols, plan.sections)
  }

  /** A fact names an accepted account and a month from 1 to 12. */
  predicate WellFormed(f: Fact) {
    RowAccepted(f.name) && 1 <= f.month <= 12
  }

  /** Every fact names an accepted account and a month from 1 to 12. */
  lemma {:induction false} FactsWellFormed(grid: Grid, names: seq<string>, start: nat, n: nat, cols: seq<(nat, int)>, sections: Sections)
    requires start <= n <= |grid| == |names| && MonthColumns(cols)
    ensures forall f :: f in FactsUpTo(grid, names, start, n, cols, sections) ==> WellFormed(f)
    decreases n - start
  {
    if n > start {
      var earlier := FactsUpTo(grid, names, start, n - 1, cols, sections);
      var row := RowFacts(names[n - 1], n - 1, grid[n - 1], cols, sections);
      assert FactsUpTo(grid, names, start, n, cols, sections) == earlier + row;
      FactsWellFormed(grid, names, start, n - 1, cols, sections);
      RowFactsWellFormed(names[n - 1], n - 1, grid[n - 1], cols, sections);
      forall f: Fact | f in earlier + row
        ensures WellFormed(f)
      {
        if f !in earlier {
          assert f in row;
        }
      }
    }
  }

  /** The facts of one row name an accepted account and a month from 1 to 12. */
  lemma RowFactsWellFormed(name: string, idx: nat, row: Row, cols: seq<(nat, int)>, sections: Sections)
    requires MonthColumns(cols)
    ensures forall f :: f in RowFacts(name, idx, row, cols, sections) ==> WellFormed(f)
  {
    if RowAccepted(name) {
      CellFactsMonths(RowAmounts(row), cols, |cols|);
      LabelFacts(name, CategorizeAccount(name, idx, sections), CellFacts(RowAmounts(row), cols, |cols|));
    }
  }

  /** Cell facts carry month numbers from 1 to 12. */
  lemma {:induction false} CellFactsMonths(amounts: seq<Option<real>>, cols: seq<(nat, int)>, n: nat)
    requires n <= |cols| && MonthColumns(cols)
    ensures forall c :: c in CellFacts(amounts, cols, n) ==> 1 <= c.0 <= 12
  {
    if n > 0 {
      CellFactsMonths(amounts, cols, n - 1);
      CellFactsNext(amounts, cols, n - 1);
    }
  }

  /** The amount in column `col` of a row; nothing past the row's end. */
  method ReadAmount(row: Row, col: nat) returns (amount: Option<real>)
    ensures amount == if col < |RowAmounts(row)| then RowAmounts(row)[col] else None
  {
    amount := None;
    if col < |row| {
      amount := CellAmount(row[col]);
      RowAmountsAt(row, col);
    }
  }

  /** One more month column: its fact, if any, comes last. */
  lemma CellFactsNext(amounts: seq<Option<real>>, cols: seq<(nat, int)>, i: nat)
    requires i < |cols|
    ensures var amount := if cols[i].0 < |amounts| then amounts[cols[i].0] else None;
            CellFacts(amounts, cols, i + 1) == CellFacts(amounts, cols, i) + (if amount.Some? then [(cols[i].1, amount.value)] else [])
  {
  }

  /** Labelling keeps the months and amounts and puts the name and kind on each. */
  lemma {:induction false} LabelFacts(name: string, kind: Kind, cells: seq<(int, real)>)
    ensures forall i :: 0 <= i < |cells| ==> Label(name, kind, cells)[i] == Fact(name, kind, cells[i].0, cells[i].1)
    ensures forall f :: f in Label(name, kind, cells) ==> f.name == name && f.kind == kind && (f.month, f.amount) in cells
    decreases |cells|
  {
    if cells != [] {
      LabelFacts(name, kind, cells[..|cells| - 1]);
    }
  }

  /** A title whose four digits are "0000" is refused: year 0 is falsy. */
  lemma ZeroYearRefused(company: string, grid: Grid)
    requires company != [] && !IsSpace(company[0]) && !IsSpace(company[|company| - 1]) && '\n' !in company
    ensures PlanSheet(company + " " + "0000", grid).None?
  {
    ParseSheetNameRoundTrip(company, "0000");
    assert DigitsValue("0000") == 0 by {
      assert "0000"[..3] == "000" && "000"[..2] == "00" && "00"[..1] == "0" && "0"[..0] == "";
    }
  }

  // ---------------------------------------------------------------------
  // Writing a sheet

  /** The values one account row stores: one per cell fact, all of type
      "faktiskt", under the dataset and the account. */
  function CellValues(datasetId: Key, accountId: Key, cells: seq<(int, real)>): (vs: seq<Value>)
    ensures |vs| == |cells|
    ensures forall i :: 0 <= i < |cells| ==> vs[i] == Value(datasetId, accountId, cells[i].0, Actual, cells[i].1)
  {
    seq(|cells|, i requires 0 <= i < |cells| => Value(datasetId, accountId, cells[i].0, Actual, cells[i].1))
  }

  /** The month loop of `process_sheet` for one account: a value for every
      month column inside the row whose cell carries an amount. */
  method StoreCells(db: FirebaseDB, datasetId: Key, accountId: Key, row: Row, cols: seq<(nat, int)>)
    returns (ghost cells: seq<(int, real)>)
    requires db.Valid()
    modifies db.values
    ensures db.Valid()
    ensures cells == CellFacts(RowAmounts(row), cols, |cols|)
    ensures db.values.next == old(db.values.next) + |cells|
    ensures Appended(old(db.values.records), old(db.values.next), db.values.records, CellValues(datasetId, accountId, cells))
  {
    ghost var amounts := RowAmounts(row);
    ghost var before, start := db.values.records, db.values.next;
    assert forall k :: k in before ==> k < start;
    cells := [];
    var i := 0;
    while i < |cols|
      invariant i <= |cols| && db.Valid()
      invariant cells == CellFacts(amounts, cols, i)
      invariant db.values.next == start + |cells|
      invariant Appended(before, start, db.values.records, CellValues(datasetId, accountId, cells))
    {
      var (col, month) := cols[i];
      var amount := ReadAmount(row, col);
      CellFactsNext(amounts, cols, i);
      if amount.Some? {
        ghost var values := db.values.records;
        var _ := db.CreateValue(datasetId, accountId, month, Actual, amount.value);
        StoredNext(before, start, values, datasetId, accountId, cells, (month, amount.value));
        cells := cells + [(month, amount.value)];
      }
      i := i + 1;
    }
  }

  /** Pushing the value of one more cell fact extends the stored values. */
  lemma StoredNext(before: map<Key, Value>, start: Key, values: map<Key, Value>, datasetId: Key, accountId: Key, cells: seq<(int, real)>, c: (int, real))
    requires forall k :: k in before ==> k < start
    requires Appended(before, start, values, CellValues(datasetId, accountId, cells))
    ensures Appended(before, start, values[start + |cells| := Value(datasetId, accountId, c.0, Actual, c.1)], CellValues(datasetId, accountId, cells + [c]))
  {
    var v := Value(datasetId, accountId, c.0, Actual, c.1);
    AppendedPush(before, start, values, CellValues(datasetId, accountId, cells), v);
    assert CellValues(datasetId, accountId, cells + [c]) == CellValues(datasetId, accountId, cells) + [v];
  }

  // ---------------------------------------------------------------------
  // One account row

  /** `revenue_category_id if category_name == "Intäkter" else expense_category_id`. */
  function CategoryIdOf(kind: Kind, revenueId: Option<Key>, expenseId: Option<Key>): Option<Key> {
    if kind == Revenue then revenueId else expenseId
  }

  /** An account `process_sheet` reuses for a row: same name and, when a
      category id is known, that category (`get_accounts(None)` lists all). */
  predicate Fits(a: Account, name: string, categoryId: Option<Key>) {
    a.name == name && (categoryId.Some? ==> a.categoryId == categoryId)
  }

  function AccountFits(name: string, categoryId: Option<Key>): Account -> bool {
    (a: Account) => Fits(a, name, categoryId)
  }

  /** The account lookup of `process_sheet`: the first fitting account in
      key order, or a new one with no description. */
  method FindOrCreateAccount(db: FirebaseDB, name: string, categoryId: Option<Key>) returns (accountId: Key)
    requires db.Valid()
    modifies db.accounts
    ensures db.Valid()
    ensures var found := old(db.accounts.FirstWhere(AccountFits(name, categoryId), db.accounts.next));
            && (found.Some? ==> accountId == found.value && db.accounts.records == old(db.accounts.records)
                                && db.accounts.next == old(db.accounts.next))
            && (found.None? ==> accountId == old(db.accounts.next) && db.accounts.next == old(db.accounts.next) + 1
                                && db.accounts.records == old(db.accounts.records)[accountId := Account(name, categoryId, None)])
    ensures accountId in db.accounts.records && Fits(db.accounts.records[accountId], name, categoryId)
    ensures Kept(old(db.accounts.records), db.accounts.records)
  {
    var found := db.accounts.FindFirst(AccountFits(name, categoryId));
    if found.Some? {
      accountId := found.value;
    } else {
      accountId := db.CreateAccount(name, categoryId, None);
    }
  }

  /** The body of the row loop of `process_sheet` for an accepted account
      name with category id `categoryId`: reuse the first fitting account or
      create one, record the raw label and a mapping with confidence 1.0,
      then store the month values. */
  method ProcessRow(db: FirebaseDB, name: string, categoryId: Option<Key>, row: Row, cols: seq<(nat, int)>, datasetId: Key)
    returns (accountId: Key, labelId: Key, ghost cells: seq<(int, real)>)
    requires db.Valid()
    modifies db.accounts, db.rawLabels, db.mappings, db.values
    ensures db.Valid()
    ensures var found := old(db.accounts.FirstWhere(AccountFits(name, categoryId), db.accounts.next));
            && (found.Some? ==> accountId == found.value && db.accounts.records == old(db.accounts.records)
                                && db.accounts.next == old(db.accounts.next))
            && (found.None? ==> accountId == old(db.accounts.next) && db.accounts.next == old(db.accounts.next) + 1
                                && db.accounts.records == old(db.accounts.records)[accountId := Account(name, categoryId, None)])
    ensures cells == CellFacts(RowAmounts(row), cols, |cols|)
    ensures RowWritten(old(TablesOf(db)), TablesOf(db), name, categoryId, cells, datasetId, accountId, labelId)
  {
    accountId := FindOrCreateAccount(db, name, categoryId);
    labelId := MapLabel(db, name, accountId);
    cells := StoreCells(db, datasetId, accountId, row, cols);
  }

  /** The raw label of an account row and its mapping to the account with
      confidence 1.0. */
  method MapLabel(db: FirebaseDB, name: string, accountId: Key) returns (labelId: Key)
    requires db.Valid()
    modifies db.rawLabels, db.mappings
    ensures db.Valid()
    ensures Kept(old(db.rawLabels.records), db.rawLabels.records)
    ensures labelId in db.rawLabels.records && db.rawLabels.records[labelId].text == name
    ensures db.mappings.next == old(db.mappings.next) + 1
    ensures db.mappings.records == old(db.mappings.records)[old(db.mappings.next) := Mapping(labelId, accountId, 1.0)]
  {
    labelId := db.CreateRawLabel(name);
    var _ := db.CreateAccountMapping(labelId, accountId, 1.0);
  }

  // ---------------------------------------------------------------------
  // The row loop

  /** The paths the row loop writes, read at one moment. */
  datatype Tables = Tables(values: map<Key, Value>, valuesNext: Key, accounts: map<Key, Account>,
                           labels: map<Key, RawLabel>, mappings: map<Key, Mapping>, mappingsNext: Key)

  ghost function TablesOf(db: FirebaseDB): Tables
    reads db.values, db.accounts, db.rawLabels, db.mappings
  {
    Tables(db.values.records, db.values.next, db.accounts.records, db.rawLabels.records, db.mappings.records, db.mappings.next)
  }

  /** Value `v` stores fact `f` in the dataset: same month and amount, type
      "faktiskt", under an account with the fact's name and category. */
  ghost predicate Records(v: Value, datasetId: Key, f: Fact, accounts: map<Key, Account>, revenueId: Option<Key>, expenseId: Option<Key>) {
    && v.datasetId == datasetId && v.month == f.month && v.valueType == Actual && v.amount == f.amount
    && v.accountId in accounts && Fits(accounts[v.accountId], f.name, CategoryIdOf(f.kind, revenueId, expenseId))
  }

  /** The value under key `k` records fact `f`. */
  ghost predicate RecordedAt(values: map<Key, Value>, k: int, datasetId: Key, f: Fact,
                             accounts: map<Key, Account>, revenueId: Option<Key>, expenseId: Option<Key>) {
    k in values && Records(values[k], datasetId, f, accounts, revenueId, expenseId)
  }

  /** The values from key `start` on store `facts`, one each, in order. */
  ghost predicate StoredFacts(values: map<Key, Value>, start: Key, datasetId: Key, facts: seq<Fact>,
                              accounts: map<Key, Account>, revenueId: Option<Key>, expenseId: Option<Key>) {
    forall i :: 0 <= i < |facts| ==> RecordedAt(values, start + i, datasetId, facts[i], accounts, revenueId, expenseId)
  }

  /** The mappings from key `start` on have confidence 1.0 and tie a raw
      label to an account of the same name. */
  ghost predicate MappingsSound(mappings: map<Key, Mapping>, start: Key, labels: map<Key, RawLabel>, accounts: map<Key, Account>) {
    forall k :: k in mappings && start <= k ==>
      && mappings[k].confidence == 1.0
      && mappings[k].rawLabelId in labels && mappings[k].accountId in accounts
      && labels[mappings[k].rawLabelId].text == accounts[mappings[k].accountId].name
  }

  /** How many of the rows from `start` up to `n` name an account. */
  function AcceptedRows(names: seq<string>, start: nat, n: nat): (c: nat)
    requires start <= n <= |names|
    ensures c <= n - start
    decreases n - start
  {
    if n == start then 0
    else AcceptedRows(names, start, n - 1) + (if RowAccepted(names[n - 1]) then 1 else 0)
  }

  /** The keys of the starting tables are all below their next keys. */
  ghost predicate KeysBelowNext(t: Tables) {
    (forall k :: k in t.values ==> k < t.valuesNext) && (forall k :: k in t.mappings ==> k < t.mappingsNext)
  }

  /** Since `t0`, the values of `facts` were pushed in order, storing them. */
  ghost predicate ValuesWritten(facts: seq<Fact>, datasetId: Key, revenueId: Option<Key>, expenseId: Option<Key>, t0: Tables, t: Tables) {
    && t.valuesNext == t0.valuesNext + |facts| && Grown(t0.values, t0.valuesNext, t.values, |facts|)
    && StoredFacts(t.values, t0.valuesNext, datasetId, facts, t.accounts, revenueId, expenseId)
  }

  /** Since `t0`, `count` sound mappings were pushed. */
  ghost predicate MappingsWritten(count: nat, t0: Tables, t: Tables) {
    && t.mappingsNext == t0.mappingsNext + count && Grown(t0.mappings, t0.mappingsNext, t.mappings, count)
    && MappingsSound(t.mappings, t0.mappingsNext, t.labels, t.accounts)
  }

  /** Since tables `t0`, the values of `facts` and `count` mappings were
      pushed, and no account or raw label was lost or changed. */
  ghost predicate Written(facts: seq<Fact>, count: nat, datasetId: Key, revenueId: Option<Key>, expenseId: Option<Key>, t0: Tables, t: Tables) {
    && KeysBelowNext(t0)
    && ValuesWritten(facts, datasetId, revenueId, expenseId, t0, t)
    && Kept(t0.accounts, t.accounts) && Kept(t0.labels, t.labels)
    && MappingsWritten(count, t0, t)
  }

  /** Stored facts stay stored when values are appended and accounts kept,
      and the values of one more account row store that row's facts. */
  lemma StoredRow(values: map<Key, Value>, values': map<Key, Value>, start: Key, datasetId: Key, facts: seq<Fact>,
                  accounts: map<Key, Account>, accounts': map<Key, Account>, revenueId: Option<Key>, expenseId: Option<Key>,
                  accountId: Key, name: string, kind: Kind, cells: seq<(int, real)>)
    requires StoredFacts(values, start, datasetId, facts, accounts, revenueId, expenseId)
    requires Kept(accounts, accounts')
    requires accountId in accounts' && Fits(accounts'[accountId], name, CategoryIdOf(kind, revenueId, expenseId))
    requires Appended(values, start + |facts|, values', CellValues(datasetId, accountId, cells))
    ensures StoredFacts(values', start, datasetId, facts + Label(name, kind, cells), accounts', revenueId, expenseId)
  {
    var all := facts + Label(name, kind, cells);
    LabelFacts(name, kind, cells);
    forall i | 0 <= i < |all|
      ensures RecordedAt(values', start + i, datasetId, all[i], accounts', revenueId, expenseId)
    {
      if i < |facts| {
        assert all[i] == facts[i];
        assert RecordedAt(values, start + i, datasetId, facts[i], accounts, revenueId, expenseId);
        assert start + i in values' && values'[start + i] == values[start + i];
        RecordsKept(values[start + i], datasetId, facts[i], accounts, accounts', revenueId, expenseId);
      } else {
        var j := i - |facts|;
        assert start + i == start + |facts| + j;
        assert all[i] == Label(name, kind, cells)[j] == Fact(name, kind, cells[j].0, cells[j].1);
        var v := CellValues(datasetId, accountId, cells)[j];
        assert v == Value(datasetId, accountId, cells[j].0, Actual, cells[j].1);
        assert start + i in values' && values'[start + i] == v;
        assert Records(v, datasetId, all[i], accounts', revenueId, expenseId);
      }
    }
  }

  /** A value that records a fact still does once accounts are only added. */
  lemma RecordsKept(v: Value, datasetId: Key, f: Fact, accounts: map<Key, Account>, accounts': map<Key, Account>,
                    revenueId: Option<Key>, expenseId: Option<Key>)
    requires Records(v, datasetId, f, accounts, revenueId, expenseId) && Kept(accounts, accounts')
    ensures Records(v, datasetId, f, accounts', revenueId, expenseId)
  {
  }

  /** A new mapping from a label to an account of the same name keeps the
      mappings sound when labels and accounts are only added. */
  lemma MappingsStep(mappings: map<Key, Mapping>, start: Key, next: Key, labels: map<Key, RawLabel>, labels': map<Key, RawLabel>,
                     accounts: map<Key, Account>, accounts': map<Key, Account>, labelId: Key, accountId: Key)
    requires MappingsSound(mappings, start, labels, accounts)
    requires Kept(labels, labels') && Kept(accounts, accounts')
    requires labelId in labels' && accountId in accounts' && labels'[labelId].text == accounts'[accountId].name
    ensures MappingsSound(mappings[next := Mapping(labelId, accountId, 1.0)], start, labels', accounts')
  {
  }

  /** What `ProcessRow` writes for a row named `name` with cell facts
      `cells`, between tables `t` and `t'`. */
  ghost predicate RowWritten(t: Tables, t': Tables, name: string, categoryId: Option<Key>, cells: seq<(int, real)>,
                             datasetId: Key, accountId: Key, labelId: Key) {
    && Kept(t.accounts, t'.accounts) && accountId in t'.accounts && Fits(t'.accounts[accountId], name, categoryId)
    && Kept(t.labels, t'.labels) && labelId in t'.labels && t'.labels[labelId].text == name
    && t'.mappingsNext == t.mappingsNext + 1 && t'.mappings == t.mappings[t.mappingsNext := Mapping(labelId, accountId, 1.0)]
    && t'.valuesNext == t.valuesNext + |cells| && Appended(t.values, t.valuesNext, t'.values, CellValues(datasetId, accountId, cells))
  }

  /** One more row of facts: those the row yields come last. */
  lemma FactsUpToNext(grid: Grid, names: seq<string>, start: nat, idx: nat, cols: seq<(nat, int)>, sections: Sections)
    requires start <= idx < |grid| == |names|
    ensures FactsUpTo(grid, names, start, idx + 1, cols, sections)
         == FactsUpTo(grid, names, start, idx, cols, sections) + RowFacts(names[idx], idx, grid[idx], cols, sections)
    ensures AcceptedRows(names, start, idx + 1) == AcceptedRows(names, start, idx) + (if RowAccepted(names[idx]) then 1 else 0)
  {
  }

  /** The values of one more account row extend the written values. */
  lemma ValuesStep(facts: seq<Fact>, datasetId: Key, revenueId: Option<Key>, expenseId: Option<Key>, t0: Tables, t: Tables, t': Tables,
                   name: string, kind: Kind, cells: seq<(int, real)>, accountId: Key, labelId: Key)
    requires KeysBelowNext(t0) && ValuesWritten(facts, datasetId, revenueId, expenseId, t0, t)
    requires RowWritten(t, t', name, CategoryIdOf(kind, revenueId, expenseId), cells, datasetId, accountId, labelId)
    ensures ValuesWritten(facts + Label(name, kind, cells), datasetId, revenueId, expenseId, t0, t')
  {
    StoredRow(t.values, t'.values, t0.valuesNext, datasetId, facts, t.accounts, t'.accounts, revenueId, expenseId,
              accountId, name, kind, cells);
    GrownTwice(t0.values, t0.valuesNext, t.values, |facts|, t'.values, |cells|);
  }

  /** The mapping of one more account row extends the written mappings. */
  lemma MappingsNext(count: nat, t0: Tables, t: Tables, t': Tables, name: string, categoryId: Option<Key>, cells: seq<(int, real)>,
                     datasetId: Key, accountId: Key, labelId: Key)
    requires KeysBelowNext(t0) && MappingsWritten(count, t0, t)
    requires RowWritten(t, t', name, categoryId, cells, datasetId, accountId, labelId)
    ensures MappingsWritten(count + 1, t0, t')
  {
    GrownPush(t0.mappings, t0.mappingsNext, t.mappings, count, Mapping(labelId, accountId, 1.0));
    MappingsStep(t.mappings, t0.mappingsNext, t.mappingsNext, t.labels, t'.labels, t.accounts, t'.accounts, labelId, accountId);
  }

  /** One more account row extends what was written by its facts and
      its mapping. */
  lemma WrittenStep(facts: seq<Fact>, count: nat, datasetId: Key, revenueId: Option<Key>, expenseId: Option<Key>,
                    t0: Tables, t: Tables, t': Tables, name: string, kind: Kind, cells: seq<(int, real)>, accountId: Key, labelId: Key)
    requires Written(facts, count, datasetId, revenueId, expenseId, t0, t)
    requires RowWritten(t, t', name, CategoryIdOf(kind, revenueId, expenseId), cells, datasetId, accountId, labelId)
    ensures Written(facts + Label(name, kind, cells), count + 1, datasetId, revenueId, expenseId, t0, t')
  {
    ValuesStep(facts, datasetId, revenueId, expenseId, t0, t, t', name, kind, cells, accountId, labelId);
    MappingsNext(count, t0, t, t', name, CategoryIdOf(kind, revenueId, expenseId), cells, datasetId, accountId, labelId);
  }

  /** One pass of the row loop over a row whose cleaned name is `name`: a
      refused name writes nothing; an account row goes through `ProcessRow`
      and extends what was written by the row's facts and one mapping. */
  method ProcessNamedRow(db: FirebaseDB, name: string, idx: nat, row: Row, plan: Plan, datasetId: Key,
                      revenueId: Option<Key>, expenseId: Option<Key>, ghost t0: Tables, ghost facts: seq<Fact>, ghost count: nat)
    requires db.Valid()
    requires Written(facts, count, datasetId, revenueId, expenseId, t0, TablesOf(db))
    modifies db.accounts, db.rawLabels, db.mappings, db.values
    ensures db.Valid()
    ensures Written(facts + RowFacts(name, idx, row, plan.cols, plan.sections), count + (if RowAccepted(name) then 1 else 0),
                    datasetId, revenueId, expenseId, t0, TablesOf(db))
  {
    ghost var t := TablesOf(db);
    if RowAccepted(name) {
      var kind := CategorizeAccount(name, idx, plan.sections);
      var accountId, labelId, cells := ProcessRow(db, name, CategoryIdOf(kind, revenueId, expenseId), row, plan.cols, datasetId);
      WrittenStep(facts, count, datasetId, revenueId, expenseId, t0, t, TablesOf(db), name, kind, cells, accountId, labelId);
    } else {
      assert facts + [] == facts;
    }
  }

  /** The cleaned name in the first column of row `idx`. */
  method ReadName(grid: Grid, idx: nat) returns (name: string)
    requires idx < |grid|
    ensures name == RowNames(grid)[idx]
  {
    name := CleanAccountName(FirstCell(grid[idx]));
    RowNamesAt(grid, idx);
  }

  /** Before the first row nothing is written. */
  lemma WrittenNothing(datasetId: Key, revenueId: Option<Key>, expenseId: Option<Key>, t0: Tables)
    requires KeysBelowNext(t0)
    ensures Written([], 0, datasetId, revenueId, expenseId, t0, t0)
  {
  }

  /** One pass of the row loop over row `idx`, giving the index of the next
      row: the facts written so far grow by that row's facts, and the
      mappings by one for an account row. */
  method ProcessRowAt(db: FirebaseDB, grid: Grid, idx: nat, plan: Plan, datasetId: Key,
                      revenueId: Option<Key>, expenseId: Option<Key>, ghost t0: Tables, ghost facts: seq<Fact>, ghost count: nat)
    returns (next: nat, ghost facts': seq<Fact>, ghost count': nat)
    requires db.Valid() && plan.start <= idx < |grid|
    requires facts == FactsUpTo(grid, RowNames(grid), plan.start, idx, plan.cols, plan.sections)
    requires count == AcceptedRows(RowNames(grid), plan.start, idx)
    requires Written(facts, count, datasetId, revenueId, expenseId, t0, TablesOf(db))
    modifies db.accounts, db.rawLabels, db.mappings, db.values
    ensures db.Valid()
    ensures next == idx + 1
    ensures facts' == FactsUpTo(grid, RowNames(grid), plan.start, next, plan.cols, plan.sections)
    ensures count' == AcceptedRows(RowNames(grid), plan.start, next)
    ensures Written(facts', count', datasetId, revenueId, expenseId, t0, TablesOf(db))
  {
    ghost var names := RowNames(grid);
    var name := ReadName(grid, idx);
    FactsUpToNext(grid, names, plan.start, idx, plan.cols, plan.sections);
    ProcessNamedRow(db, name, idx, grid[idx], plan, datasetId, revenueId, expenseId, t0, facts, count);
    facts' := facts + RowFacts(name, idx, grid[idx], plan.cols, plan.sections);
    count' := count + (if RowAccepted(name) then 1 else 0);
    next := idx + 1;
  }

  /** The row loop of `process_sheet`: every row from the first data row on,
      in order. Afterwards the values pushed since the start store exactly
      the facts of the sheet, in order, and one sound mapping was pushed per
      account row. */
  method ProcessRows(db: FirebaseDB, grid: Grid, plan: Plan, datasetId: Key, revenueId: Option<Key>, expenseId: Option<Key>)
    requires db.Valid() && plan.start <= |grid|
    modifies db.accounts, db.rawLabels, db.mappings, db.values
    ensures db.Valid()
    ensures Written(SheetFacts(grid, plan), AcceptedRows(RowNames(grid), plan.start, |grid|),
                    datasetId, revenueId, expenseId, old(TablesOf(db)), TablesOf(db))
  {
    ghost var t0 := TablesOf(db);
    ghost var facts: seq<Fact> := [];
    ghost var count := 0;
    WrittenNothing(datasetId, revenueId, expenseId, t0);
    var idx := plan.start;
    while idx < |grid|
      invariant plan.start <= idx <= |grid| && db.Valid()
      invariant facts == FactsUpTo(grid, RowNames(grid), plan.start, idx, plan.cols, plan.sections)
      invariant count == AcceptedRows(RowNames(grid), plan.start, idx)
      invariant Written(facts, count, datasetId, revenueId, expenseId, t0, TablesOf(db))
    {
      idx, facts, count := ProcessRowAt(db, grid, idx, plan, datasetId, revenueId, expenseId, t0, facts, count);
    }
  }

  // ---------------------------------------------------------------------
  // A sheet and the whole workbook

  /** The location of every company the import creates. */
  const DefaultLocation := "Stockholm"

  /** The company lookup of `process_sheet`: the first company, in key
      order, with the sheet's company name, or a new one in Stockholm. */
  method FindOrCreateCompany(db: FirebaseDB, name: string) returns (companyId: Key)
    requires db.Valid()
    modifies db.companies
    ensures db.Valid()
    ensures var found := old(db.companies.FirstWhere(CompanyNamed(name), db.companies.next));
            && (found.Some? ==> companyId == found.value && db.companies.records == old(db.companies.records)
                                && db.companies.next == old(db.companies.next))
            && (found.None? ==> companyId == old(db.companies.next) && db.companies.next == old(db.companies.next) + 1
                                && db.companies.records == old(db.companies.records)[companyId := Company(name, Some(DefaultLocation))])
    ensures companyId in db.companies.records && db.companies.records[companyId].name == name
  {
    var found := db.companies.FindFirst(CompanyNamed(name));
    if found.Some? {
      companyId := found.value;
    } else {
      companyId := db.CreateCompany(name, Some(DefaultLocation));
    }
  }

  /** The writing half of `process_sheet` for a sheet that passed its checks:
      the company, a new dataset "<company> <year>" under it, the category
      ids, then the row loop. */
  method WriteSheet(db: FirebaseDB, grid: Grid, plan: Plan)
    returns (companyId: Key, datasetId: Key, revenueId: Option<Key>, expenseId: Option<Key>)
    requires db.Valid() && plan.start <= |grid|
    modifies db.companies, db.datasets, db.accounts, db.rawLabels, db.mappings, db.values
    ensures db.Valid()
    ensures companyId in db.companies.records && db.companies.records[companyId].name == plan.company
    ensures datasetId == old(db.datasets.next) && db.datasets.next == old(db.datasets.next) + 1
    ensures db.datasets.records == old(db.datasets.records)[datasetId := Dataset(companyId, plan.year, plan.company + " " + IntText(plan.year))]
    ensures revenueId == db.categories.LastWhere(CategoryNamed(RevenueName), db.categories.next)
    ensures expenseId == db.categories.LastWhere(CategoryNamed(ExpenseName), db.categories.next)
    ensures Written(SheetFacts(grid, plan), AcceptedRows(RowNames(grid), plan.start, |grid|), datasetId,
                    revenueId, expenseId, old(TablesOf(db)), TablesOf(db))
  {
    companyId := FindOrCreateCompany(db, plan.company);
    datasetId := db.CreateDataset(companyId, plan.year, plan.company + " " + IntText(plan.year));
    revenueId, expenseId := CategoryIds(db.categories);
    ProcessRows(db, grid, plan, datasetId, revenueId, expenseId);
  }

  /** The checks of `process_sheet`, in order, settling the plan of a
      sheet: each failing check stops with nothing. */
  method CheckSheet(title: string, grid: Grid) returns (plan: Option<Plan>)
    ensures plan == PlanSheet(title, grid)
  {
    var parsed := ParseSheetName(title);
    if parsed.None? {
      return None;
    }
    var (company, year) := parsed.value;
    if company == [] || year == 0 {
      return None;
    }
    var start, months := FindDataStart(grid);
    if start.None? {
      return None;
    }
    var sections := FindSections(grid);
    if !sections.Any() {
      return None;
    }
    return Some(Plan(company, year, start.value, MonthNumbers(months), sections));
  }

  /** `process_sheet`: a sheet that fails a check gives false and writes
      nothing; one that passes is written by `WriteSheet` and gives true. */
  method ProcessSheet(db: FirebaseDB, title: string, grid: Grid) returns (ok: bool)
    requires db.Valid()
    modifies db.companies, db.datasets, db.accounts, db.rawLabels, db.mappings, db.values
    ensures db.Valid()
    ensures ok <==> PlanSheet(title, grid).Some?
    ensures !ok ==> unchanged(db.companies, db.datasets, db.accounts, db.rawLabels, db.mappings, db.values)
    ensures ok ==> var plan := PlanSheet(title, grid).value;
                   var datasetId := old(db.datasets.next);
                   && db.datasets.next == datasetId + 1 && datasetId in db.datasets.records
                   && db.datasets.records[datasetId].year == plan.year
                   && db.datasets.records[datasetId].companyId in db.companies.records
                   && db.companies.records[db.datasets.records[datasetId].companyId].name == plan.company
                   && Written(SheetFacts(grid, plan), AcceptedRows(RowNames(grid), plan.start, |grid|), datasetId,
                              db.categories.LastWhere(CategoryNamed(RevenueName), db.categories.next),
                              db.categories.LastWhere(CategoryNamed(ExpenseName), db.categories.next),
                              old(TablesOf(db)), TablesOf(db))
  {
    var plan := CheckSheet(title, grid);
    if plan.None? {
      return false;
    }
    var _, _, _, _ := WriteSheet(db, grid, plan.value);
    ok := true;
  }

  /** A sheet `process_sheet` accepts: its name parses and it has a
      month header and at least one section. */
  predicate SheetAccepted(sheet: (string, Grid)) {
    PlanSheet(sheet.0, sheet.1).Some?
  }

  /** Every element counts exactly when every element satisfies `p`. */
  lemma {:induction false} CountWhereAll<T>(xs: seq<T>, p: T -> bool)
    ensures CountWhere(xs, p) == |xs| <==> forall i :: 0 <= i < |xs| ==> p(xs[i])
  {
    if xs != [] {
      var init := xs[..|xs| - 1];
      CountWhereAll(init, p);
      if CountWhere(xs, p) == |xs| {
        forall i | 0 <= i < |xs|
          ensures p(xs[i])
        {
          if i < |init| {
            assert xs[i] == init[i];
          }
        }
      } else if forall i :: 0 <= i < |xs| ==> p(xs[i]) {
        forall i | 0 <= i < |init|
          ensures p(init[i])
        {
          assert init[i] == xs[i];
        }
        assert false;
      }
    }
  }

  /** `run_etl`: `fileExists` stands for the workbook being present and
      `sheets` for what `read_excel_sheets` returned (empty when the
      workbook could not be read). The run succeeds when every sheet is
      processed, and each accepted sheet adds one dataset. */
  method RunEtl(db: FirebaseDB, fileExists: bool, sheets: seq<(string, Grid)>) returns (ok: bool)
    requires db.Valid()
    modifies db.categories, db.companies, db.datasets, db.accounts, db.rawLabels, db.mappings, db.values
    ensures db.Valid()
    ensures ok <==> fileExists && sheets != [] && forall i :: 0 <= i < |sheets| ==> SheetAccepted(sheets[i])
    ensures !fileExists ==> unchanged(db.categories, db.companies, db.datasets, db.accounts, db.rawLabels, db.mappings, db.values)
    ensures fileExists ==> HasCategory(db.categories.records, RevenueName) && HasCategory(db.categories.records, ExpenseName)
    ensures db.datasets.next == old(db.datasets.next) + (if fileExists then CountWhere(sheets, SheetAccepted) else 0)
  {
    if !fileExists {
      return false;
    }
    db.InitDatabase();
    if sheets == [] {
      return false;
    }
    var successes := 0;
    var i := 0;
    while i < |sheets|
      invariant 0 <= i <= |sheets| && db.Valid()
      invariant successes == CountWhere(sheets[..i], SheetAccepted)
      invariant db.datasets.next == old(db.datasets.next) + successes
      invariant HasCategory(db.categories.records, RevenueName) && HasCategory(db.categories.records, ExpenseName)
    {
      i, successes := ProcessNextSheet(db, sheets, i, successes);
    }
    assert sheets[..i] == sheets;
    CountWhereAll(sheets, SheetAccepted);
    ok := successes == |sheets|;
  }

  /** One pass of the loop in `run_etl`: sheet `i` is counted when
      `process_sheet` accepts it, and then it has added one dataset. */
  method ProcessNextSheet(db: FirebaseDB, sheets: seq<(string, Grid)>, i: nat, successes: nat)
    returns (next: nat, successes': nat)
    requires db.Valid() && i < |sheets|
    requires successes == CountWhere(sheets[..i], SheetAccepted)
    modifies db.companies, db.datasets, db.accounts, db.rawLabels, db.mappings, db.values
    ensures db.Valid()
    ensures next == i + 1
    ensures successes' == CountWhere(sheets[..next], SheetAccepted)
    ensures db.datasets.next == old(db.datasets.next) + successes' - successes
  {
    var ok := ProcessSheet(db, sheets[i].0, sheets[i].1);
    CountWhereNext(sheets, SheetAccepted, i);
    successes' := if ok then successes + 1 else successes;
    next := i + 1;
  }
}
