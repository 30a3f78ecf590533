/** The Excel-to-SQLite import: the session over the tables it writes,
    `get_or_create_company`, `get_or_create_account`,
    `process_excel_sheet` and `run_etl`. Row ids are handed out in
    increasing order and `.first()` returns the row with the lowest id. */
module SqliteEtl {
  import opened Options
  import opened Text
  import opened Cells
  import opened Months
  import opened Store
  import opened SqliteParse

  /** The tables of the SQLite database the import writes. */
  class SqliteDB {
    const companies: Collection<Company>
    const datasets: Collection<Dataset>
    const rawLabels: Collection<RawLabel>
    const categories: Collection<Category>
    const accounts: Collection<Account>
    const mappings: Collection<Mapping>
    const values: Collection<Value>

    /** Every table's ids lie below its next id, and every mapping refers to
        a raw label id already handed out. */
    ghost predicate Valid()
      reads companies, datasets, rawLabels, categories, accounts, mappings, values
    {
      && companies.Valid() && datasets.Valid() && rawLabels.Valid() && categories.Valid()
      && accounts.Valid() && mappings.Valid() && values.Valid()
      && LabelsIssued(mappings.records, rawLabels.next)
    }

    /** A database with empty tables. */
    constructor ()
      ensures Valid()
      ensures companies.records == map[] && datasets.records == map[] && rawLabels.records == map[]
      ensures categories.records == map[] && accounts.records == map[] && mappings.records == map[]
      ensures values.records == map[]
    {
      var companies' := new Collection<Company>();
      var datasets' := new Collection<Dataset>();
      var rawLabels' := new Collection<RawLabel>();
      var categories' := new Collection<Category>();
      var accounts' := new Collection<Account>();
      var mappings' := new Collection<Mapping>();
      var values' := new Collection<Value>();
      companies, datasets, rawLabels, categories := companies', datasets', rawLabels', categories';
      accounts, mappings, values := accounts', mappings', values';
    }

    /** `init_database`: the revenue and the expense category are added
        unless a category with their name exists. */
    method InitDatabase()
      requires Valid()
      modifies categories
      ensures Valid()
      ensures HasCategory(categories.records, RevenueName) && HasCategory(categories.records, ExpenseName)
      ensures categories.records == Seeded(old(categories.records), old(categories.next),
                                           old(HasCategory(categories.records, RevenueName)),
                                           old(HasCategory(categories.records, ExpenseName)))
    {
      SeedCategories(categories);
    }
  }

  /** Every mapping names a raw label id below `labelsNext`. */
  ghost predicate LabelsIssued(mappings: map<Key, Mapping>, labelsNext: Key) {
    forall k :: k in mappings ==> mappings[k].rawLabelId < labelsNext
  }

  /** A mapping to an issued raw label keeps every raw label issued. */
  lemma LabelsIssuedPush(mappings: map<Key, Mapping>, labelsNext: Key, k: Key, m: Mapping)
    requires LabelsIssued(mappings, labelsNext) && m.rawLabelId < labelsNext
    ensures LabelsIssued(mappings[k := m], labelsNext)
  {
  }

  // ---------------------------------------------------------------------
  // Resolving a label to an account

  function MappingOf(rawLabelId: Key): Mapping -> bool {
    (m: Mapping) => m.rawLabelId == rawLabelId
  }

  /** The raw-label and mapping tables, with their next ids, at one moment. */
  datatype Tables = Tables(labels: map<Key, RawLabel>, labelsNext: Key, mappings: map<Key, Mapping>, mappingsNext: Key,
                           values: map<Key, Value>, valuesNext: Key)

  ghost function TablesOf(db: SqliteDB): Tables
    reads db.rawLabels, db.mappings, db.values
  {
    Tables(db.rawLabels.records, db.rawLabels.next, db.mappings.records, db.mappings.next, db.values.records, db.values.next)
  }

  /** The account `get_or_create_account` returns for `text` without
      creating anything: that of the first mapping of the first raw label
      with the text. */
  function Resolve(t: Tables, text: string): Option<Key> {
    match FirstKey(t.labels, LabelIs(text), t.labelsNext)
    case None => None
    case Some(rawId) =>
      match FirstKey(t.mappings, MappingOf(rawId), t.mappingsNext)
      case None => None
      case Some(m) => Some(t.mappings[m].accountId)
  }

  /** From `t` to `t'` raw labels and mappings were only added. */
  ghost predicate Grows(t: Tables, t': Tables) {
    Extends(t.labels, t.labelsNext, t'.labels, t'.labelsNext) && Extends(t.mappings, t.mappingsNext, t'.mappings, t'.mappingsNext)
  }

  lemma GrowsTransitive(t: Tables, t': Tables, t'': Tables)
    requires Grows(t, t') && Grows(t', t'')
    ensures Grows(t, t'')
  {
  }

  /** A label that resolves keeps its account while labels and mappings are
      only added. */
  lemma ResolveStable(t: Tables, t': Tables, text: string)
    requires Grows(t, t') && Resolve(t, text).Some?
    ensures Resolve(t', text) == Resolve(t, text)
  {
    FirstKeyExtends(t.labels, t.labelsNext, t'.labels, t'.labelsNext, LabelIs(text));
    var rawId := FirstKey(t.labels, LabelIs(text), t.labelsNext).value;
    FirstKeyExtends(t.mappings, t.mappingsNext, t'.mappings, t'.mappingsNext, MappingOf(rawId));
  }

  /** The description of an account the import creates. */
  function ImportNote(text: string): string {
    "Importerat från Excel: " + text
  }

  /** The confidence of a mapping the import creates. */
  const AutoConfidence: real := 0.8

  /** An account created for `text`: named `text`, with the import note,
      in a category named after the classification of `text`. */
  ghost predicate CreatedFor(a: Account, text: string, categories: map<Key, Category>) {
    && a.name == text && a.description == Some(ImportNote(text))
    && a.categoryId.Some? && a.categoryId.value in categories && categories[a.categoryId.value].name == CategoryOf(text)
  }

  /** `get_or_create_account`: a label that already resolves gives its
      account and changes nothing; otherwise its raw label is created if
      missing, the category named by `CategoryOf` is created if missing, and
      a new account and a mapping with confidence 0.8 are added. Either way
      the label resolves to the returned account afterwards, so a second
      call returns the same account and adds nothing. */
  method GetOrCreateAccount(db: SqliteDB, text: string) returns (accountId: Key)
    requires db.Valid()
    modifies db.rawLabels, db.mappings, db.categories, db.accounts
    ensures db.Valid()
    ensures Grows(old(TablesOf(db)), TablesOf(db))
    ensures Resolve(TablesOf(db), text) == Some(accountId)
    ensures Kept(old(db.categories.records), db.categories.records)
    ensures old(Resolve(TablesOf(db), text)).Some? ==>
              && accountId == old(Resolve(TablesOf(db), text)).value
              && unchanged(db.rawLabels, db.mappings, db.categories, db.accounts)
    ensures old(Resolve(TablesOf(db), text)).None? ==>
              && accountId == old(db.accounts.next) && db.accounts.next == old(db.accounts.next) + 1
              && accountId in db.accounts.records
              && db.accounts.records == old(db.accounts.records)[accountId := db.accounts.records[accountId]]
              && CreatedFor(db.accounts.records[accountId], text, db.categories.records)
              && db.mappings.next == old(db.mappings.next) + 1 && old(db.mappings.next) in db.mappings.records
              && db.mappings.records == old(db.mappings.records)[old(db.mappings.next) := db.mappings.records[old(db.mappings.next)]]
              && db.mappings.records[old(db.mappings.next)].accountId == accountId
              && db.mappings.records[old(db.mappings.next)].confidence == AutoConfidence
  {
    ghost var t := TablesOf(db);
    var rawId := FindOrPush(db.rawLabels, LabelIs(text), RawLabel(text));
    var found := db.mappings.FindFirst(MappingOf(rawId));
    if found.Some? {
      accountId := db.mappings.records[found.value].accountId;
      return;
    }
    accountId := AddAccount(db, text, rawId);
  }

  /** The creating half of `get_or_create_account`, for raw label `rawId`
      that has no mapping yet: the category, the account and the mapping. */
  method AddAccount(db: SqliteDB, text: string, rawId: Key) returns (accountId: Key)
    requires db.Valid() && rawId < db.rawLabels.next
    requires FirstKey(db.mappings.records, MappingOf(rawId), db.mappings.next).None?
    modifies db.mappings, db.categories, db.accounts
    ensures db.Valid()
    ensures Kept(old(db.categories.records), db.categories.records)
    ensures accountId == old(db.accounts.next) && db.accounts.next == old(db.accounts.next) + 1
    ensures accountId in db.accounts.records
    ensures db.accounts.records == old(db.accounts.records)[accountId := db.accounts.records[accountId]]
    ensures CreatedFor(db.accounts.records[accountId], text, db.categories.records)
    ensures db.mappings.next == old(db.mappings.next) + 1
    ensures db.mappings.records == old(db.mappings.records)[old(db.mappings.next) := Mapping(rawId, accountId, AutoConfidence)]
    ensures Extends(old(db.mappings.records), old(db.mappings.next), db.mappings.records, db.mappings.next)
    ensures FirstKey(db.mappings.records, MappingOf(rawId), db.mappings.next) == Some(old(db.mappings.next))
  {
    var categoryId := CategoryFor(db, text);
    accountId := db.accounts.Push(Account(text, Some(categoryId), Some(ImportNote(text))));
    ghost var mappings := db.mappings.records;
    var mappingId := db.mappings.Push(Mapping(rawId, accountId, AutoConfidence));
    FirstKeyPush(mappings, MappingOf(rawId), mappingId, Mapping(rawId, accountId, AutoConfidence));
    ExtendsPush(mappings, mappingId, Mapping(rawId, accountId, AutoConfidence));
    LabelsIssuedPush(mappings, db.rawLabels.next, mappingId, Mapping(rawId, accountId, AutoConfidence));
  }

  /** The category lookup of `get_or_create_account`: the first category
      named by `CategoryOf`, created without a description when missing. */
  method CategoryFor(db: SqliteDB, text: string) returns (categoryId: Key)
    requires db.Valid()
    modifies db.categories
    ensures db.Valid()
    ensures Kept(old(db.categories.records), db.categories.records)
    ensures categoryId in db.categories.records && db.categories.records[categoryId].name == CategoryOf(text)
  {
    var name := CategoryOf(text);
    categoryId := FindOrPush(db.categories, CategoryNamed(name), Category(name, None));
  }

  /** `get_or_create_company`: the first company with the name, or a new
      one without a location. */
  method GetOrCreateCompany(db: SqliteDB, name: string) returns (companyId: Key)
    requires db.Valid()
    modifies db.companies
    ensures db.Valid()
    ensures Some(companyId) == FirstKey(db.companies.records, CompanyNamed(name), db.companies.next)
    ensures var found := old(FirstKey(db.companies.records, CompanyNamed(name), db.companies.next));
            && (found.Some? ==> companyId == found.value && unchanged(db.companies))
            && (found.None? ==> companyId == old(db.companies.next) && db.companies.next == old(db.companies.next) + 1
                                && db.companies.records == old(db.companies.records)[companyId := Company(name, None)])
  {
    companyId := FindOrPush(db.companies, CompanyNamed(name), Company(name, None));
  }

  // ---------------------------------------------------------------------
  // What a sheet yields

  /** One stored amount: the row label, the month and the amount. */
  datatype Fact = Fact(text: string, month: int, amount: real)

  /** The amount every cell of a row contributes, column by column. */
  function RowAmounts(row: Row): (amounts: seq<Option<real>>)
    ensures |amounts| == |row|
  {
    if row == [] then [] else RowAmounts(row[..|row| - 1]) + [SqlCellAmount(row[|row| - 1])]
  }

  lemma {:induction false} RowAmountsAt(row: Row, i: nat)
    requires i < |row|
    ensures RowAmounts(row)[i] == SqlCellAmount(row[i])
  {
    if i < |row| - 1 {
      RowAmountsAt(row[..|row| - 1], i);
    }
  }

  /** (month, amount) for the first `n` entries of the month mapping whose
      cell carries an amount; a column the row does not reach gives none. */
  function MonthCells(amounts: seq<Option<real>>, cols: seq<(int, int)>, n: nat): (r: seq<(int, real)>)
    requires n <= |cols|
    ensures |r| <= n
  {
    if n == 0 then []
    else
      var (col, month) := cols[n - 1];
      var amount := if 0 <= col < |amounts| then amounts[col] else None;
      MonthCells(amounts, cols, n - 1) + (if amount.Some? then [(month, amount.value)] else [])
  }

  /** Labelled cells: a fact per (month, amount), under `text`. */
  function Tag(text: string, cells: seq<(int, real)>): (facts: seq<Fact>)
    ensures |facts| == |cells|
    ensures forall i :: 0 <= i < |cells| ==> facts[i] == Fact(text, cells[i].0, cells[i].1)
  {
    seq(|cells|, i requires 0 <= i < |cells| => Fact(text, cells[i].0, cells[i].1))
  }

  /** The stripped first-column text of every row. */
  function RowLabels(grid: Grid): (labels: seq<string>)
    ensures |labels| == |grid|
  {
    if grid == [] then [] else RowLabels(grid[..|grid| - 1]) + [RowLabel(grid[|grid| - 1])]
  }

  lemma {:induction false} RowLabelsAt(grid: Grid, i: nat)
    requires i < |grid|
    ensures RowLabels(grid)[i] == RowLabel(grid[i])
  {
    if i < |grid| - 1 {
      RowLabelsAt(grid[..|grid| - 1], i);
    }
  }

  /** The facts of a row labelled `text`: none for a skipped label,
      otherwise one per mapped month cell with a non-zero amount. */
  function RowFacts(text: string, row: Row, cols: seq<(int, int)>): seq<Fact> {
    if LabelSkipped(text) then [] else Tag(text, MonthCells(RowAmounts(row), cols, |cols|))
  }

  /** The facts of rows `start` up to `n`, in row order. */
  function FactsUpTo(grid: Grid, labels: seq<string>, start: nat, n: nat, cols: seq<(int, int)>): seq<Fact>
    requires start <= n <= |grid| == |labels|
    decreases n - start
  {
    if n == start then []
    else FactsUpTo(grid, labels, start, n - 1, cols) + RowFacts(labels[n - 1], grid[n - 1], cols)
  }

  /** What `process_excel_sheet` settles before it writes: the company, the
      year, the first data row and the month mapping. */
  datatype Plan = Plan(company: string, year: int, start: nat, cols: seq<(int, int)>)

  /** The checks of `process_excel_sheet` in order: the title must give a
      company and a non-zero year, and some row must mention "jan" and
      "feb". The month mapping may be empty. */
  function PlanSheet(title: string, grid: Grid): (r: Option<Plan>)
    ensures r.Some? ==> r.value.start <= |grid| && r.value.company != [] && r.value.year != 0
  {
    match ParseTitle(title)
    case None => None
    case Some((company, year)) =>
      if company == [] || year == 0 then None
      else match HeaderFrom(grid, 0)
        case None => None
        case Some(h) => Some(Plan(company, year, h + 1, HeaderMonths(HeaderTexts(grid[h]), Table, |grid[h]|)))
  }

  /** All facts of an accepted sheet: those of every row after the header. */
  function SheetFacts(grid: Grid, plan: Plan): seq<Fact>
    requires plan.start <= |grid|
  {
    FactsUpTo(grid, RowLabels(grid), plan.start, |grid|, plan.cols)
  }

  // ---------------------------------------------------------------------
  // Properties of the facts

  /** Month cells carry the months of the mapping they come from. */
  lemma {:induction false} MonthCellsMonths(amounts: seq<Option<real>>, cols: seq<(int, int)>, n: nat)
    requires n <= |cols|
    ensures forall c :: c in MonthCells(amounts, cols, n) ==> exists i :: 0 <= i < n && cols[i].1 == c.0
  {
    if n > 0 {
      MonthCellsMonths(amounts, cols, n - 1);
      var earlier := MonthCells(amounts, cols, n - 1);
      forall c | c in MonthCells(amounts, cols, n)
        ensures exists i :: 0 <= i < n && cols[i].1 == c.0
      {
        if c !in earlier {
          assert cols[n - 1].1 == c.0;
        }
      }
    }
  }

  /** Month cells never carry a zero amount. */
  lemma {:induction false} MonthCellsNonZero(amounts: seq<Option<real>>, cols: seq<(int, int)>, n: nat)
    requires n <= |cols|
    requires forall i :: 0 <= i < |amounts| && amounts[i].Some? ==> amounts[i].value != 0.0
    ensures forall c :: c in MonthCells(amounts, cols, n) ==> c.1 != 0.0
  {
    if n > 0 {
      MonthCellsNonZero(amounts, cols, n - 1);
    }
  }

  /** A fact the import stores: an account label that is not skipped, a
      month from 1 to 12 and a non-zero amount. */
  predicate WellFormed(f: Fact) {
    !LabelSkipped(f.text) && 1 <= f.month <= 12 && f.amount != 0.0
  }

  /** Every month of the mapping a header gives through a table of months
      from 1 to 12 is from 1 to 12. */
  lemma {:induction false} HeaderMonthsInRange(texts: seq<string>, table: seq<(string, int)>, n: nat)
    requires n <= |texts|
    requires forall j :: 0 <= j < |table| ==> 1 <= table[j].1 <= 12
    ensures forall i :: 0 <= i < |HeaderMonths(texts, table, n)| ==> 1 <= HeaderMonths(texts, table, n)[i].1 <= 12
  {
    if n > 1 {
      HeaderMonthsInRange(texts, table, n - 1);
      MonthInFromRange(texts[n - 1], table);
      var prev := HeaderMonths(texts, table, n - 1);
      var m := MonthInFrom(texts[n - 1], table, 0);
      var last: seq<(int, int)> := if m.Some? then [(n - 1, m.value)] else [];
      assert HeaderMonths(texts, table, n) == prev + last;
      forall i | 0 <= i < |prev + last|
        ensures 1 <= (prev + last)[i].1 <= 12
      {
        if i < |prev| {
          assert (prev + last)[i] == prev[i];
        }
      }
    }
  }

  /** The facts of one row are well formed when the mapping's months are. */
  lemma RowFactsWellFormed(text: string, row: Row, cols: seq<(int, int)>)
    requires forall i :: 0 <= i < |cols| ==> 1 <= cols[i].1 <= 12
    ensures forall f :: f in RowFacts(text, row, cols) ==> WellFormed(f)
  {
    if !LabelSkipped(text) {
      var amounts := RowAmounts(row);
      forall i | 0 <= i < |amounts| && amounts[i].Some?
        ensures amounts[i].value != 0.0
      {
        RowAmountsAt(row, i);
      }
      MonthCellsMonths(amounts, cols, |cols|);
      MonthCellsNonZero(amounts, cols, |cols|);
    }
  }

  /** Every fact of rows `start` up to `n` is well formed. */
  lemma {:induction false} FactsWellFormed(grid: Grid, labels: seq<string>, start: nat, n: nat, cols: seq<(int, int)>)
    requires start <= n <= |grid| == |labels|
    requires forall i :: 0 <= i < |cols| ==> 1 <= cols[i].1 <= 12
    ensures forall f :: f in FactsUpTo(grid, labels, start, n, cols) ==> WellFormed(f)
    decreases n - start
  {
    if n > start {
      FactsWellFormed(grid, labels, start, n - 1, cols);
      RowFactsWellFormed(labels[n - 1], grid[n - 1], cols);
    }
  }

  /** Every fact of an accepted sheet has an account label, a month from 1
      to 12 and a non-zero amount. */
  lemma SheetFactsWellFormed(title: string, grid: Grid)
    requires PlanSheet(title, grid).Some?
    ensures forall f :: f in SheetFacts(grid, PlanSheet(title, grid).value) ==> WellFormed(f)
  {
    var plan := PlanSheet(title, grid).value;
    var h := HeaderFrom(grid, 0).value;
    TableMonthsInRange();
    HeaderMonthsInRange(HeaderTexts(grid[h]), Table, |grid[h]|);
    FactsWellFormed(grid, RowLabels(grid), plan.start, |grid|, plan.cols);
  }

  // ---------------------------------------------------------------------
  // Writing the values of one row

  /** The values one account row stores: one per month cell, of type
      "faktiskt", under the dataset and the account. */
  function CellValues(datasetId: Key, accountId: Key, cells: seq<(int, real)>): (vs: seq<Value>)
    ensures |vs| == |cells|
    ensures forall i :: 0 <= i < |cells| ==> vs[i] == Value(datasetId, accountId, cells[i].0, Actual, cells[i].1)
  {
    seq(|cells|, i requires 0 <= i < |cells| => Value(datasetId, accountId, cells[i].0, Actual, cells[i].1))
  }

  /** The amount in column `col` of a row; nothing past the row's end. */
  method ReadAmount(row: Row, col: int) returns (amount: Option<real>)
    ensures amount == if 0 <= col < |RowAmounts(row)| then RowAmounts(row)[col] else None
  {
    amount := None;
    if 0 <= col < |row| {
      amount := SqlCellAmount(row[col]);
      RowAmountsAt(row, col);
    }
  }

  /** The month loop of `process_excel_sheet` for one account: a value for
      every mapped column whose cell converts to a non-zero amount. */
  method StoreMonthValues(db: SqliteDB, datasetId: Key, accountId: Key, row: Row, cols: seq<(int, int)>)
    returns (ghost cells: seq<(int, real)>)
    requires db.Valid()
    modifies db.values
    ensures db.Valid()
    ensures cells == MonthCells(RowAmounts(row), cols, |cols|)
    ensures db.values.next == old(db.values.next) + |cells|
    ensures Appended(old(db.values.records), old(db.values.next), db.values.records, CellValues(datasetId, accountId, cells))
  {
    ghost var amounts := RowAmounts(row);
    ghost var before, start := db.values.records, db.values.next;
    assert forall k :: k in before ==> k < start;
    cells := [];
    var i := 0;
    while i < |cols|
      invariant i <= |cols| && db.Valid()
      invariant cells == MonthCells(amounts, cols, i)
      invariant db.values.next == start + |cells|
      invariant Appended(before, start, db.values.records, CellValues(datasetId, accountId, cells))
    {
      var (col, month) := cols[i];
      var amount := ReadAmount(row, col);
      if amount.Some? {
        ghost var values := db.values.records;
        var v := Value(datasetId, accountId, month, Actual, amount.value);
        var _ := db.values.Push(v);
        AppendedPush(before, start, values, CellValues(datasetId, accountId, cells), v);
        assert CellValues(datasetId, accountId, cells + [(month, amount.value)]) == CellValues(datasetId, accountId, cells) + [v];
        cells := cells + [(month, amount.value)];
      }
      i := i + 1;
    }
  }

  // ---------------------------------------------------------------------
  // The row loop

  /** Value `v` stores fact `f` in the dataset: same month and amount, type
      "faktiskt", under the account the fact's label resolves to in `t`. */
  predicate Stores(v: Value, datasetId: Key, f: Fact, t: Tables) {
    && v.datasetId == datasetId && v.month == f.month && v.valueType == Actual && v.amount == f.amount
    && Resolve(t, f.text) == Some(v.accountId)
  }

  /** The value under key `k` stores fact `f`. */
  ghost predicate StoredAt(t: Tables, k: Key, datasetId: Key, f: Fact) {
    k in t.values && Stores(t.values[k], datasetId, f, t)
  }

  /** The values from key `start` on store `facts`, one each, in order. */
  ghost predicate StoredFacts(facts: seq<Fact>, datasetId: Key, start: Key, t: Tables) {
    forall i :: 0 <= i < |facts| ==> StoredAt(t, start + i, datasetId, facts[i])
  }

  /** Since tables `t0`, the values of `facts` were added in order, each
      storing its fact, and raw labels and mappings were only added. */
  ghost predicate Written(facts: seq<Fact>, datasetId: Key, t0: Tables, t: Tables) {
    && (forall k :: k in t0.values ==> k < t0.valuesNext)
    && t.valuesNext == t0.valuesNext + |facts| && Grown(t0.values, t0.valuesNext, t.values, |facts|)
    && StoredFacts(facts, datasetId, t0.valuesNext, t)
    && Grows(t0, t)
  }

  /** Before the first row nothing is written. */
  lemma WrittenNothing(datasetId: Key, t0: Tables)
    requires forall k :: k in t0.values ==> k < t0.valuesNext
    requires Grows(t0, t0)
    ensures Written([], datasetId, t0, t0)
  {
  }

  /** Stored facts stay stored while values, raw labels and mappings are
      only added. */
  lemma StoredFactsKept(facts: seq<Fact>, datasetId: Key, start: Key, t: Tables, t': Tables)
    requires StoredFacts(facts, datasetId, start, t)
    requires Grows(t, t') && Kept(t.values, t'.values)
    ensures StoredFacts(facts, datasetId, start, t')
  {
    forall i | 0 <= i < |facts|
      ensures StoredAt(t', start + i, datasetId, facts[i])
    {
      assert StoredAt(t, start + i, datasetId, facts[i]);
      ResolveStable(t, t', facts[i].text);
    }
  }

  /** The values of one account row store the row's facts. */
  lemma StoredFactsRow(datasetId: Key, before: map<Key, Value>, start: Key, t: Tables, text: string, accountId: Key, cells: seq<(int, real)>)
    requires Resolve(t, text) == Some(accountId)
    requires Appended(before, start, t.values, CellValues(datasetId, accountId, cells))
    ensures StoredFacts(Tag(text, cells), datasetId, start, t)
  {
    var facts := Tag(text, cells);
    forall j | 0 <= j < |facts|
      ensures StoredAt(t, start + j, datasetId, facts[j])
    {
      assert facts[j] == Fact(text, cells[j].0, cells[j].1);
      assert start + j in t.values && t.values[start + j] == CellValues(datasetId, accountId, cells)[j];
    }
  }

  /** Facts stored one after the other are stored together. */
  lemma StoredFactsJoin(facts: seq<Fact>, more: seq<Fact>, datasetId: Key, start: Key, t: Tables)
    requires StoredFacts(facts, datasetId, start, t) && StoredFacts(more, datasetId, start + |facts|, t)
    ensures StoredFacts(facts + more, datasetId, start, t)
  {
    forall i | 0 <= i < |facts + more|
      ensures StoredAt(t, start + i, datasetId, (facts + more)[i])
    {
      if i < |facts| {
        assert (facts + more)[i] == facts[i];
        assert StoredAt(t, start + i, datasetId, facts[i]);
      } else {
        var j := i - |facts|;
        assert (facts + more)[i] == more[j];
        assert StoredAt(t, start + |facts| + j, datasetId, more[j]);
      }
    }
  }

  /** The account of one more row and that row's values extend what was
      written by the row's facts. */
  lemma WrittenStep(facts: seq<Fact>, datasetId: Key, t0: Tables, t: Tables, t1: Tables, t2: Tables,
                    text: string, accountId: Key, cells: seq<(int, real)>)
    requires Written(facts, datasetId, t0, t)
    requires Grows(t, t1) && t1.values == t.values && t1.valuesNext == t.valuesNext
    requires Resolve(t1, text) == Some(accountId)
    requires t2.labels == t1.labels && t2.labelsNext == t1.labelsNext && t2.mappings == t1.mappings && t2.mappingsNext == t1.mappingsNext
    requires t2.valuesNext == t1.valuesNext + |cells| && Appended(t1.values, t1.valuesNext, t2.values, CellValues(datasetId, accountId, cells))
    ensures Written(facts + Tag(text, cells), datasetId, t0, t2)
  {
    var start := t0.valuesNext;
    var rowStart := t1.valuesNext;
    assert rowStart == start + |facts|;
    GrowsTransitive(t, t1, t2);
    GrowsTransitive(t0, t, t2);
    GrownTwice(t0.values, start, t1.values, |facts|, t2.values, |cells|);
    GrownKept(t1.values, rowStart, t2.values, |cells|);
    StoredFactsKept(facts, datasetId, start, t, t2);
    StoredFactsRow(datasetId, t1.values, rowStart, t2, text, accountId, cells);
    StoredFactsJoin(facts, Tag(text, cells), datasetId, start, t2);
  }

  /** One pass of the row loop over a row labelled `text`: a skipped label
      writes nothing; otherwise the row's account is fetched or created and
      its month values stored. */
  method ProcessLabelledRow(db: SqliteDB, text: string, row: Row, cols: seq<(int, int)>, datasetId: Key,
                            ghost t0: Tables, ghost facts: seq<Fact>)
    requires db.Valid()
    requires Written(facts, datasetId, t0, TablesOf(db))
    modifies db.rawLabels, db.mappings, db.categories, db.accounts, db.values
    ensures db.Valid()
    ensures Written(facts + RowFacts(text, row, cols), datasetId, t0, TablesOf(db))
    ensures Kept(old(db.categories.records), db.categories.records)
  {
    if LabelSkipped(text) {
      assert facts + [] == facts;
      return;
    }
    ghost var t := TablesOf(db);
    var accountId := GetOrCreateAccount(db, text);
    ghost var t1 := TablesOf(db);
    assert Grows(t, t1) && t1.values == t.values && t1.valuesNext == t.valuesNext;
    assert Resolve(t1, text) == Some(accountId);
    var cells := StoreMonthValues(db, datasetId, accountId, row, cols);
    ghost var t2 := TablesOf(db);
    assert t2.labels == t1.labels && t2.labelsNext == t1.labelsNext && t2.mappings == t1.mappings && t2.mappingsNext == t1.mappingsNext;
    WrittenStep(facts, datasetId, t0, t, t1, t2, text, accountId, cells);
    assert RowFacts(text, row, cols) == Tag(text, cells);
  }

  /** The label in the first column of row `idx`. */
  method ReadLabel(grid: Grid, idx: nat) returns (text: string)
    requires idx < |grid|
    ensures text == RowLabels(grid)[idx]
  {
    text := RowLabel(grid[idx]);
    RowLabelsAt(grid, idx);
  }

  /** One pass of the row loop over row `idx`, giving the index of the next row. */
  method ProcessRowAt(db: SqliteDB, grid: Grid, idx: nat, plan: Plan, datasetId: Key, ghost t0: Tables, ghost facts: seq<Fact>)
    returns (next: nat, ghost facts': seq<Fact>)
    requires db.Valid() && plan.start <= idx < |grid|
    requires facts == FactsUpTo(grid, RowLabels(grid), plan.start, idx, plan.cols)
    requires Written(facts, datasetId, t0, TablesOf(db))
    modifies db.rawLabels, db.mappings, db.categories, db.accounts, db.values
    ensures db.Valid()
    ensures next == idx + 1
    ensures facts' == FactsUpTo(grid, RowLabels(grid), plan.start, next, plan.cols)
    ensures Written(facts', datasetId, t0, TablesOf(db))
    ensures Kept(old(db.categories.records), db.categories.records)
  {
    var text := ReadLabel(grid, idx);
    ProcessLabelledRow(db, text, grid[idx], plan.cols, datasetId, t0, facts);
    facts' := facts + RowFacts(text, grid[idx], plan.cols);
    next := idx + 1;
  }

  /** The row loop of `process_excel_sheet`: every row after the header, in
      order. Afterwards the values added since the start store exactly the
      facts of the sheet, in order. */
  method ProcessRows(db: SqliteDB, grid: Grid, plan: Plan, datasetId: Key)
    requires db.Valid() && plan.start <= |grid|
    modifies db.rawLabels, db.mappings, db.categories, db.accounts, db.values
    ensures db.Valid()
    ensures Written(SheetFacts(grid, plan), datasetId, old(TablesOf(db)), TablesOf(db))
    ensures Kept(old(db.categories.records), db.categories.records)
  {
    ghost var t0 := TablesOf(db);
    ghost var facts: seq<Fact> := [];
    WrittenNothing(datasetId, t0);
    var idx := plan.start;
    while idx < |grid|
      invariant plan.start <= idx <= |grid| && db.Valid()
      invariant facts == FactsUpTo(grid, RowLabels(grid), plan.start, idx, plan.cols)
      invariant Written(facts, datasetId, t0, TablesOf(db))
      invariant Kept(old(db.categories.records), db.categories.records)
    {
      idx, facts := ProcessRowAt(db, grid, idx, plan, datasetId, t0, facts);
    }
  }

  // ---------------------------------------------------------------------
  // A sheet and the whole workbook

  /** The checks of `process_excel_sheet`, in order, settling the plan of a
      sheet: each failing check stops with nothing. */
  method CheckSheet(title: string, grid: Grid) returns (plan: Option<Plan>)
    ensures plan == PlanSheet(title, grid)
  {
    var parsed := ParseTitle(title);
    if parsed.None? {
      return None;
    }
    var (company, year) := parsed.value;
    if company == [] || year == 0 {
      return None;
    }
    var h := FindHeader(grid);
    if h.None? {
      return None;
    }
    var cols := MonthMapping(grid[h.value], Table);
    return Some(Plan(company, year, h.value + 1, cols));
  }

  /** The writing half of `process_excel_sheet`: the company, a new dataset
      named after the sheet, then the row loop. */
  method WriteSheet(db: SqliteDB, title: string, grid: Grid, plan: Plan) returns (companyId: Key, datasetId: Key)
    requires db.Valid() && plan.start <= |grid|
    modifies db.companies, db.datasets, db.rawLabels, db.mappings, db.categories, db.accounts, db.values
    ensures db.Valid()
    ensures companyId in db.companies.records && db.companies.records[companyId].name == plan.company
    ensures datasetId == old(db.datasets.next) && db.datasets.next == old(db.datasets.next) + 1
    ensures db.datasets.records == old(db.datasets.records)[datasetId := Dataset(companyId, plan.year, title)]
    ensures Written(SheetFacts(grid, plan), datasetId, old(TablesOf(db)), TablesOf(db))
    ensures Kept(old(db.categories.records), db.categories.records)
  {
    companyId := GetOrCreateCompany(db, plan.company);
    datasetId := db.datasets.Push(Dataset(companyId, plan.year, title));
    ProcessRows(db, grid, plan, datasetId);
  }

  /** `process_excel_sheet`: a sheet that fails a check gives false and
      writes nothing; one that passes gets a dataset whose values store
      exactly the sheet's facts, and gives true. */
  method ProcessExcelSheet(db: SqliteDB, title: string, grid: Grid) returns (ok: bool)
    requires db.Valid()
    modifies db.companies, db.datasets, db.rawLabels, db.mappings, db.categories, db.accounts, db.values
    ensures db.Valid()
    ensures ok <==> PlanSheet(title, grid).Some?
    ensures !ok ==> unchanged(db.companies, db.datasets, db.rawLabels, db.mappings, db.categories, db.accounts, db.values)
    ensures ok ==> var plan := PlanSheet(title, grid).value;
                   var datasetId := old(db.datasets.next);
                   && db.datasets.next == datasetId + 1 && datasetId in db.datasets.records
                   && db.datasets.records[datasetId].year == plan.year && db.datasets.records[datasetId].name == title
                   && db.datasets.records[datasetId].companyId in db.companies.records
                   && db.companies.records[db.datasets.records[datasetId].companyId].name == plan.company
                   && Written(SheetFacts(grid, plan), datasetId, old(TablesOf(db)), TablesOf(db))
    ensures Kept(old(db.categories.records), db.categories.records)
  {
    var plan := CheckSheet(title, grid);
    if plan.None? {
      return false;
    }
    var _, _ := WriteSheet(db, title, grid, plan.value);
    ok := true;
  }

  /** `df.empty`: a frame without rows or without columns. */
  predicate Blank(grid: Grid) {
    forall i :: 0 <= i < |grid| ==> grid[i] == []
  }

  /** A sheet `run_etl` counts as imported: not blank, and accepted by
      `process_excel_sheet`. */
  predicate SheetImported(sheet: (string, Grid)) {
    !Blank(sheet.1) && PlanSheet(sheet.0, sheet.1).Some?
  }

  /** Some element counts exactly when some element satisfies `p`. */
  lemma {:induction false} CountWherePositive<T>(xs: seq<T>, p: T -> bool)
    ensures CountWhere(xs, p) > 0 <==> exists i :: 0 <= i < |xs| && p(xs[i])
  {
    if xs != [] {
      var init := xs[..|xs| - 1];
      CountWherePositive(init, p);
      if CountWhere(init, p) > 0 {
        var i :| 0 <= i < |init| && p(init[i]);
        assert xs[i] == init[i];
      }
      if exists i :: 0 <= i < |xs| && p(xs[i]) {
        var i :| 0 <= i < |xs| && p(xs[i]);
        if i < |init| {
          assert init[i] == xs[i];
        }
      }
    }
  }

  /** `run_etl`: `fileExists` stands for the workbook being present and
      `sheets` for its sheets as read (none when it cannot be read). Blank
      sheets are passed over; the run succeeds when at least one sheet is
      imported, and each imported sheet adds one dataset. */
  method RunEtl(db: SqliteDB, fileExists: bool, sheets: seq<(string, Grid)>) returns (ok: bool)
    requires db.Valid()
    modifies db.companies, db.datasets, db.rawLabels, db.mappings, db.categories, db.accounts, db.values
    ensures db.Valid()
    ensures ok <==> fileExists && exists i :: 0 <= i < |sheets| && SheetImported(sheets[i])
    ensures !fileExists ==> unchanged(db.companies, db.datasets, db.rawLabels, db.mappings, db.categories, db.accounts, db.values)
    ensures fileExists ==> HasCategory(db.categories.records, RevenueName) && HasCategory(db.categories.records, ExpenseName)
    ensures db.datasets.next == old(db.datasets.next) + (if fileExists then CountWhere(sheets, SheetImported) else 0)
  {
    if !fileExists {
      return false;
    }
    db.InitDatabase();
    var successes := 0;
    var i := 0;
    while i < |sheets|
      invariant 0 <= i <= |sheets| && db.Valid()
      invariant successes == CountWhere(sheets[..i], SheetImported)
      invariant db.datasets.next == old(db.datasets.next) + successes
      invariant HasCategory(db.categories.records, RevenueName) && HasCategory(db.categories.records, ExpenseName)
    {
      i, successes := ProcessNextSheet(db, sheets, i, successes);
    }
    assert sheets[..i] == sheets;
    CountWherePositive(sheets, SheetImported);
    ok := successes > 0;
  }

  /** A category kept from `before` keeps `before`'s named categories. */
  lemma HasCategoryKept(before: map<Key, Category>, after: map<Key, Category>, name: string)
    requires Kept(before, after) && HasCategory(before, name)
    ensures HasCategory(after, name)
  {
    var k :| k in before && before[k].name == name;
    assert k in after && after[k].name == name;
  }

  /** One pass of the loop in `run_etl`: a blank sheet is passed over, any
      other goes through `process_excel_sheet`, and sheet `i` is counted
      when it is imported. */
  method ProcessNextSheet(db: SqliteDB, sheets: seq<(string, Grid)>, i: nat, successes: nat)
    returns (next: nat, successes': nat)
    requires db.Valid() && i < |sheets|
    requires successes == CountWhere(sheets[..i], SheetImported)
    requires HasCategory(db.categories.records, RevenueName) && HasCategory(db.categories.records, ExpenseName)
    modifies db.companies, db.datasets, db.rawLabels, db.mappings, db.categories, db.accounts, db.values
    ensures db.Valid()
    ensures next == i + 1
    ensures successes' == CountWhere(sheets[..next], SheetImported)
    ensures db.datasets.next == old(db.datasets.next) + successes' - successes
    ensures HasCategory(db.categories.records, RevenueName) && HasCategory(db.categories.records, ExpenseName)
  {
    CountWhereNext(sheets, SheetImported, i);
    next := i + 1;
    var (title, grid) := sheets[i];
    if Blank(grid) {
      successes' := successes;
      return;
    }
    ghost var categories := db.categories.records;
    var ok := ProcessExcelSheet(db, title, grid);
    HasCategoryKept(categories, db.categories.records, RevenueName);
    HasCategoryKept(categories, db.categories.records, ExpenseName);
    successes' := if ok then successes + 1 else successes;
  }
}
