/** The remote document tree the Firebase import writes to and the pages
    read from. Every top-level path ("companies", "values", ...) is a
    keyed collection; `push` stores a record under a fresh key that sorts
    after all earlier keys, and reading a path returns its children in key
    order. */
module Store {
  import opened Options

  /** A push key. Keys are handed out in increasing order, so key order is
      insertion order. */
  type Key = nat

  datatype Company = Company(name: string, location: Option<string>)
  datatype Dataset = Dataset(companyId: Key, year: int, name: string)
  datatype RawLabel = RawLabel(text: string)
  datatype Category = Category(name: string, description: Option<string>)
  datatype Account = Account(name: string, categoryId: Option<Key>, description: Option<string>)
  datatype Mapping = Mapping(rawLabelId: Key, accountId: Key, confidence: real)
  datatype Value = Value(datasetId: Key, accountId: Key, month: int, valueType: string, amount: real)
  /** Budgets carry ISO timestamps as text; either may be absent in stored data. */
  datatype Budget = Budget(companyId: Key, year: int, name: string, createdAt: Option<string>, updatedAt: Option<string>)
  datatype BudgetValue = BudgetValue(budgetId: Key, accountId: Key, month: int, amount: real)
  datatype SeasonalityIndex = SeasonalityIndex(companyId: Key, accountId: Key)
  datatype SeasonalityValue = SeasonalityValue(indexId: Key, year: int, month: int, indexValue: real)

  /** One path of the tree: its children by key, and the next push key. */
  class Collection<R> {
    var records: map<Key, R>
    var next: Key

    ghost predicate Valid()
      reads this
    {
      forall k :: k in records ==> k < next
    }

    constructor ()
      ensures Valid() && records == map[] && next == 0
    {
      records := map[];
      next := 0;
    }

    /** Every record of `before` is still present, unchanged. */
    ghost predicate Keeps(before: map<Key, R>)
      reads this
    {
      forall k :: k in before ==> k in records && records[k] == before[k]
    }

    /** `ref.push(data)`: stores `r` under a fresh key after every existing one. */
    method Push(r: R) returns (k: Key)
      requires Valid()
      modifies this
      ensures Valid()
      ensures k == old(next) && k !in old(records) && next == old(next) + 1
      ensures records == old(records)[k := r]
      ensures |records| == |old(records)| + 1
    {
      k := next;
      records := records[k := r];
      next := next + 1;
    }

    /** `ref.child(k).update(data)` where `data` rewrites every field. */
    method Put(k: Key, r: R)
      requires Valid() && k in records
      modifies this
      ensures Valid() && next == old(next)
      ensures records == old(records)[k := r]
      ensures |records| == |old(records)|
    {
      records := records[k := r];
    }

    /** The first key below `n`, in key order, whose record satisfies `p`. */
    function FirstWhere(p: R -> bool, n: nat): (r: Option<Key>)
      reads this
      ensures r.Some? ==> r.value < n && r.value in records && p(records[r.value])
      ensures r.Some? ==> forall j: Key :: j < r.value && j in records ==> !p(records[j])
      ensures r.None? ==> forall j: Key :: j < n && j in records ==> !p(records[j])
    {
      FirstKey(records, p, n)
    }

    /** A scan over the children in key order that stops at the first match. */
    method FindFirst(p: R -> bool) returns (r: Option<Key>)
      requires Valid()
      ensures r == FirstWhere(p, next)
      ensures r.Some? <==> exists k :: k in records && p(records[k])
    {
      var k := 0;
      while k < next
        invariant k <= next
        invariant forall j: Key :: j < k && j in records ==> !p(records[j])
      {
        if k in records && p(records[k]) {
          return Some(k);
        }
        k := k + 1;
      }
      return None;
    }

    /** The last key below `n`, in key order, whose record satisfies `p`. */
    function LastWhere(p: R -> bool, n: nat): (r: Option<Key>)
      reads this
      ensures r.Some? ==> r.value < n && r.value in records && p(records[r.value])
      ensures r.Some? ==> forall j: Key :: r.value < j < n && j in records ==> !p(records[j])
      ensures r.None? ==> forall j: Key :: j < n && j in records ==> !p(records[j])
    {
      if n == 0 then None
      else if n - 1 in records && p(records[n - 1]) then Some(n - 1)
      else LastWhere(p, n - 1)
    }

    /** `{k: v for k, v in path.items() if p(v)}`. */
    function Where(p: R -> bool): (m: map<Key, R>)
      reads this
      ensures forall k :: k in m <==> k in records && p(records[k])
      ensures forall k :: k in m ==> m[k] == records[k]
    {
      map k | k in records && p(records[k]) :: records[k]
    }
  }

  /** The first key below `n` of `records`, in key order, whose record
      satisfies `p`. */
  function FirstKey<R>(records: map<Key, R>, p: R -> bool, n: nat): (r: Option<Key>)
    ensures r.Some? ==> r.value < n && r.value in records && p(records[r.value])
    ensures r.Some? ==> forall j: Key :: j < r.value && j in records ==> !p(records[j])
    ensures r.None? ==> forall j: Key :: j < n && j in records ==> !p(records[j])
  {
    if n == 0 then None
    else match FirstKey(records, p, n - 1)
      case Some(k) => Some(k)
      case None => if n - 1 in records && p(records[n - 1]) then Some(n - 1) else None
  }

  /** `after` agrees with `before` on every key below `n`, and `n <= n'`:
      what pushing records at keys from `n` on leaves behind. */
  ghost predicate Extends<R>(before: map<Key, R>, n: nat, after: map<Key, R>, n': nat) {
    && n <= n'
    && (forall k: Key :: k < n ==> (k in after <==> k in before))
    && (forall k :: k in before && k < n ==> after[k] == before[k])
  }

  /** Pushing at the next key extends a table. */
  lemma ExtendsPush<R>(records: map<Key, R>, n: nat, r: R)
    requires forall k :: k in records ==> k < n
    ensures Extends(records, n, records[n := r], n + 1)
  {
  }

  /** Records pushed later do not change which record comes first. */
  lemma FirstKeyExtends<R>(before: map<Key, R>, n: nat, after: map<Key, R>, n': nat, p: R -> bool)
    requires Extends(before, n, after, n') && FirstKey(before, p, n).Some?
    ensures FirstKey(after, p, n') == FirstKey(before, p, n)
  {
    var k := FirstKey(before, p, n).value;
    assert k in after && p(after[k]);
  }

  /** A record pushed at key `n` when no key below `n` matches is the first
      match. */
  lemma FirstKeyPush<R>(records: map<Key, R>, p: R -> bool, n: nat, r: R)
    requires FirstKey(records, p, n).None? && p(r)
    ensures FirstKey(records[n := r], p, n + 1) == Some(n)
  {
    assert FirstKey(records[n := r], p, n).None?;
  }

  /** A matching key below `n` with no match before it is the first match. */
  lemma {:induction false} FirstKeyIs<R>(records: map<Key, R>, p: R -> bool, n: nat, k: Key)
    requires k < n && k in records && p(records[k])
    requires forall j: Key :: j < k && j in records ==> !p(records[j])
    ensures FirstKey(records, p, n) == Some(k)
  {
    if k < n - 1 {
      FirstKeyIs(records, p, n - 1, k);
    }
  }

  /** Two tables that agree on which keys below `n` match have the same
      first match. */
  lemma {:induction false} FirstKeySame<R>(r1: map<Key, R>, r2: map<Key, R>, p: R -> bool, n: nat)
    requires forall j: Key :: j < n ==> ((j in r1 && p(r1[j])) <==> (j in r2 && p(r2[j])))
    ensures FirstKey(r1, p, n) == FirstKey(r2, p, n)
  {
    if n > 0 {
      FirstKeySame(r1, r2, p, n - 1);
    }
  }

  /** The amount a reader scanning in key order finds for a budget cell:
      that of the first stored value for it, if any. */
  function BudgetAmount(records: map<Key, BudgetValue>, n: nat, budgetId: Key, accountId: Key, month: int): Option<real> {
    match FirstKey(records, SameBudgetCell(budgetId, accountId, month), n)
      case Some(k) => Some(records[k].amount)
      case None => None
  }

  /** The upsert of `update_budget_value` on a table whose keys are below
      `n`, writing under `key` and leaving `n'` as the next key: the cell
      written reads back the new amount, and every other cell reads as
      before. */
  lemma UpsertReadsBack(records: map<Key, BudgetValue>, n: nat, key: Key, n': nat,
                        budgetId: Key, accountId: Key, month: int, amount: real)
    requires forall k :: k in records ==> k < n
    requires var found := FirstKey(records, SameBudgetCell(budgetId, accountId, month), n);
             && (found.Some? ==> key == found.value && n' == n)
             && (found.None? ==> key == n && n' == n + 1)
    ensures BudgetAmount(records[key := BudgetValue(budgetId, accountId, month, amount)], n', budgetId, accountId, month) == Some(amount)
    ensures forall b: Key, a: Key, m: int :: (b, a, m) != (budgetId, accountId, month) ==>
              BudgetAmount(records[key := BudgetValue(budgetId, accountId, month, amount)], n', b, a, m) == BudgetAmount(records, n, b, a, m)
  {
    var p := SameBudgetCell(budgetId, accountId, month);
    var v := BudgetValue(budgetId, accountId, month, amount);
    var after := records[key := v];
    var found := FirstKey(records, p, n);
    if found.Some? {
      FirstKeyIs(after, p, n', key);
    } else {
      FirstKeyPush(records, p, n, v);
    }
    forall b: Key, a: Key, m: int | (b, a, m) != (budgetId, accountId, month)
      ensures BudgetAmount(after, n', b, a, m) == BudgetAmount(records, n, b, a, m)
    {
      UpsertOtherCell(records, n, key, n', v, b, a, m);
    }
  }

  /** Writing `v` under `key`, where the old record there (if any) is for
      the same cell as `v`, leaves every other cell reading as before. */
  lemma UpsertOtherCell(records: map<Key, BudgetValue>, n: nat, key: Key, n': nat, v: BudgetValue,
                        b: Key, a: Key, m: int)
    requires forall k :: k in records ==> k < n
    requires key in records ==> SameBudgetCell(v.budgetId, v.accountId, v.month)(records[key])
    requires n' == n || n' == n + 1
    requires (b, a, m) != (v.budgetId, v.accountId, v.month)
    ensures BudgetAmount(records[key := v], n', b, a, m) == BudgetAmount(records, n, b, a, m)
  {
    var q := SameBudgetCell(b, a, m);
    FirstKeySame(records[key := v], records, q, n');
    if n' == n + 1 {
      assert FirstKey(records, q, n + 1) == FirstKey(records, q, n);
    }
  }

  /** Every record of `before` is in `after`, unchanged. */
  ghost predicate Kept<R>(before: map<Key, R>, after: map<Key, R>) {
    forall k :: k in before ==> k in after && after[k] == before[k]
  }

  /** `after` holds the records of `before` unchanged and, besides them,
      exactly the keys from `start` to `start + n`. */
  ghost predicate Grown<R>(before: map<Key, R>, start: Key, after: map<Key, R>, n: nat) {
    && (forall k :: k in after <==> k in before || start <= k < start + n)
    && (forall k :: k in before ==> after[k] == before[k])
  }

  /** `after` is `before` with `added` pushed in order from key `start` on. */
  ghost predicate Appended<R>(before: map<Key, R>, start: Key, after: map<Key, R>, added: seq<R>) {
    && Grown(before, start, after, |added|)
    && (forall i :: 0 <= i < |added| ==> after[start + i] == added[i])
  }

  /** Growing twice in a row is growing once by both amounts. */
  lemma GrownTwice<R>(a: map<Key, R>, start: Key, b: map<Key, R>, n: nat, c: map<Key, R>, m: nat)
    requires forall k :: k in a ==> k < start
    requires Grown(a, start, b, n) && Grown(b, start + n, c, m)
    ensures Grown(a, start, c, n + m)
  {
  }

  /** What grew keeps every record it had. */
  lemma GrownKept<R>(before: map<Key, R>, start: Key, after: map<Key, R>, n: nat)
    requires Grown(before, start, after, n)
    ensures Kept(before, after)
  {
  }

  /** Pushing one record at the next key grows by one more. */
  lemma GrownPush<R>(before: map<Key, R>, start: Key, after: map<Key, R>, n: nat, r: R)
    requires forall k :: k in before ==> k < start
    requires Grown(before, start, after, n)
    ensures Grown(before, start, after[start + n := r], n + 1)
  {
  }

  /** Pushing one more record extends what was appended. */
  lemma AppendedPush<R>(before: map<Key, R>, start: Key, after: map<Key, R>, added: seq<R>, r: R)
    requires forall k :: k in before ==> k < start
    requires Appended(before, start, after, added)
    ensures Appended(before, start, after[start + |added| := r], added + [r])
  {
    var after' := after[start + |added| := r];
    var added' := added + [r];
    forall i | 0 <= i < |added'|
      ensures after'[start + i] == added'[i]
    {
      if i < |added| {
        assert added'[i] == added[i];
      }
    }
  }

  function CompanyNamed(name: string): Company -> bool {
    (c: Company) => c.name == name
  }

  function SameBudgetCell(budgetId: Key, accountId: Key, month: int): BudgetValue -> bool {
    (v: BudgetValue) => v.budgetId == budgetId && v.accountId == accountId && v.month == month
  }

  function SameSeasonCell(indexId: Key, year: int, month: int): SeasonalityValue -> bool {
    (v: SeasonalityValue) => v.indexId == indexId && v.year == year && v.month == month
  }

  function LabelIs(text: string): RawLabel -> bool {
    (r: RawLabel) => r.text == text
  }

  function CategoryNamed(name: string): Category -> bool {
    (c: Category) => c.name == name
  }

  const RevenueName := "Intäkter"
  const ExpenseName := "Kostnader"

  /** The two categories a fresh database is seeded with. */
  const RevenueSeed := Category(RevenueName, Some("Alla intäktsposter"))
  const ExpenseSeed := Category(ExpenseName, Some("Alla kostnadsposter"))

  /** The loop over the categories that keeps the key of the last category
      named "Intäkter" and of the last one named "Kostnader"; a later
      category with the same name overrides an earlier one. */
  method CategoryIds(categories: Collection<Category>) returns (revenueId: Option<Key>, expenseId: Option<Key>)
    requires categories.Valid()
    ensures revenueId == categories.LastWhere(CategoryNamed(RevenueName), categories.next)
    ensures expenseId == categories.LastWhere(CategoryNamed(ExpenseName), categories.next)
  {
    revenueId, expenseId := None, None;
    var k := 0;
    while k < categories.next
      invariant k <= categories.next
      invariant revenueId == categories.LastWhere(CategoryNamed(RevenueName), k)
      invariant expenseId == categories.LastWhere(CategoryNamed(ExpenseName), k)
    {
      if k in categories.records {
        if categories.records[k].name == RevenueName {
          revenueId := Some(k);
        } else if categories.records[k].name == ExpenseName {
          expenseId := Some(k);
        }
      }
      k := k + 1;
    }
  }

  /** The database handle: one collection per path of the tree. */
  class FirebaseDB {
    const companies: Collection<Company>
    const datasets: Collection<Dataset>
    const rawLabels: Collection<RawLabel>
    const categories: Collection<Category>
    const accounts: Collection<Account>
    const mappings: Collection<Mapping>
    const values: Collection<Value>
    const budgets: Collection<Budget>
    const budgetValues: Collection<BudgetValue>
    const seasonalityIndices: Collection<SeasonalityIndex>
    const seasonalityValues: Collection<SeasonalityValue>

    ghost predicate Valid()
      reads companies, datasets, rawLabels, categories, accounts, mappings, values,
            budgets, budgetValues, seasonalityIndices, seasonalityValues
    {
      && companies.Valid() && datasets.Valid() && rawLabels.Valid() && categories.Valid()
      && accounts.Valid() && mappings.Valid() && values.Valid() && budgets.Valid()
      && budgetValues.Valid() && seasonalityIndices.Valid() && seasonalityValues.Valid()
    }

    constructor ()
      ensures Valid()
      ensures companies.records == map[] && datasets.records == map[] && rawLabels.records == map[]
      ensures categories.records == map[] && accounts.records == map[] && mappings.records == map[]
      ensures values.records == map[] && budgets.records == map[] && budgetValues.records == map[]
      ensures seasonalityIndices.records == map[] && seasonalityValues.records == map[]
    {
      var c := new Collection<Company>();
      var d := new Collection<Dataset>();
      var r := new Collection<RawLabel>();
      var g := new Collection<Category>();
      var a := new Collection<Account>();
      var m := new Collection<Mapping>();
      var v := new Collection<Value>();
      var b := new Collection<Budget>();
      var bv := new Collection<BudgetValue>();
      var si := new Collection<SeasonalityIndex>();
      var sv := new Collection<SeasonalityValue>();
      companies, datasets, rawLabels, categories, accounts, mappings := c, d, r, g, a, m;
      values, budgets, budgetValues, seasonalityIndices, seasonalityValues := v, b, bv, si, sv;
    }

    method CreateCompany(name: string, location: Option<string>) returns (key: Key)
      requires Valid()
      modifies companies
      ensures Valid()
      ensures key == old(companies.next) && key !in old(companies.records) && companies.next == old(companies.next) + 1
      ensures companies.records == old(companies.records)[key := Company(name, location)]
      ensures |companies.records| == |old(companies.records)| + 1
    {
      key := companies.Push(Company(name, location));
    }

    function GetCompanies(): map<Key, Company>
      reads companies
    {
      companies.records
    }

    method CreateDataset(companyId: Key, year: int, name: string) returns (key: Key)
      requires Valid()
      modifies datasets
      ensures Valid()
      ensures key == old(datasets.next) && key !in old(datasets.records) && datasets.next == old(datasets.next) + 1
      ensures datasets.records == old(datasets.records)[key := Dataset(companyId, year, name)]
      ensures |datasets.records| == |old(datasets.records)| + 1
    {
      key := datasets.Push(Dataset(companyId, year, name));
    }

    /** `get_datasets(company_id)`: the datasets of one company, or all of them
        when no company is given. */
    function GetDatasets(companyId: Option<Key>): (r: map<Key, Dataset>)
      reads datasets
      ensures forall k :: k in r <==> k in datasets.records && (companyId.Some? ==> datasets.records[k].companyId == companyId.value)
      ensures forall k :: k in r ==> r[k] == datasets.records[k]
    {
      if companyId.Some? then datasets.Where((d: Dataset) => d.companyId == companyId.value) else datasets.records
    }

    /** `get_raw_label_by_name`: the first raw label, in key order, with this text. */
    method GetRawLabelByName(text: string) returns (r: Option<(Key, RawLabel)>)
      requires Valid()
      ensures r.Some? ==> r.value.0 in rawLabels.records && rawLabels.records[r.value.0] == r.value.1 && r.value.1.text == text
      ensures r.Some? ==> forall j: Key :: j < r.value.0 && j in rawLabels.records ==> rawLabels.records[j].text != text
      ensures r.None? ==> forall k :: k in rawLabels.records ==> rawLabels.records[k].text != text
    {
      var k := rawLabels.FindFirst(LabelIs(text));
      if k.Some? {
        r := Some((k.value, rawLabels.records[k.value]));
      } else {
        r := None;
      }
    }

    /** `create_raw_label`: reuses the first label with this text, otherwise pushes one. */
    method CreateRawLabel(text: string) returns (key: Key)
      requires Valid()
      modifies rawLabels
      ensures Valid()
      ensures key in rawLabels.records && rawLabels.records[key].text == text
      ensures (exists k :: k in old(rawLabels.records) && old(rawLabels.records)[k].text == text) ==>
                rawLabels.records == old(rawLabels.records) && rawLabels.next == old(rawLabels.next)
                && key == old(rawLabels.FirstWhere(LabelIs(text), rawLabels.next)).value
      ensures (forall k :: k in old(rawLabels.records) ==> old(rawLabels.records)[k].text != text) ==>
                key == old(rawLabels.next) && key !in old(rawLabels.records) && rawLabels.next == old(rawLabels.next) + 1
                && rawLabels.records == old(rawLabels.records)[key := RawLabel(text)]
    {
      var existing := rawLabels.FindFirst(LabelIs(text));
      if existing.Some? {
        return existing.value;
      }
      key := rawLabels.Push(RawLabel(text));
    }

    function GetRawLabels(): map<Key, RawLabel>
      reads rawLabels
    {
      rawLabels.records
    }

    method CreateAccountCategory(name: string, description: Option<string>) returns (key: Key)
      requires Valid()
      modifies categories
      ensures Valid()
      ensures key == old(categories.next) && key !in old(categories.records) && categories.next == old(categories.next) + 1
      ensures categories.records == old(categories.records)[key := Category(name, description)]
    {
      key := categories.Push(Category(name, description));
    }

    function GetAccountCategories(): map<Key, Category>
      reads categories
    {
      categories.records
    }

    method CreateAccount(name: string, categoryId: Option<Key>, description: Option<string>) returns (key: Key)
      requires Valid()
      modifies accounts
      ensures Valid()
      ensures key == old(accounts.next) && key !in old(accounts.records) && accounts.next == old(accounts.next) + 1
      ensures accounts.records == old(accounts.records)[key := Account(name, categoryId, description)]
      ensures |accounts.records| == |old(accounts.records)| + 1
    {
      key := accounts.Push(Account(name, categoryId, description));
    }

    /** `get_accounts(category_id)`: the accounts of one category, or all of
        them when no category is given. */
    function GetAccounts(categoryId: Option<Key>): (r: map<Key, Account>)
      reads accounts
      ensures forall k :: k in r <==> k in accounts.records && (categoryId.Some? ==> accounts.records[k].categoryId == categoryId)
      ensures forall k :: k in r ==> r[k] == accounts.records[k]
    {
      if categoryId.Some? then accounts.Where((a: Account) => a.categoryId == categoryId) else accounts.records
    }

    method CreateAccountMapping(rawLabelId: Key, accountId: Key, confidence: real) returns (key: Key)
      requires Valid()
      modifies mappings
      ensures Valid()
      ensures key == old(mappings.next) && key !in old(mappings.records) && mappings.next == old(mappings.next) + 1
      ensures mappings.records == old(mappings.records)[key := Mapping(rawLabelId, accountId, confidence)]
      ensures |mappings.records| == |old(mappings.records)| + 1
    {
      key := mappings.Push(Mapping(rawLabelId, accountId, confidence));
    }

    function GetAccountMappings(): map<Key, Mapping>
      reads mappings
    {
      mappings.records
    }

    method CreateValue(datasetId: Key, accountId: Key, month: int, valueType: string, amount: real) returns (key: Key)
      requires Valid()
      modifies values
      ensures Valid()
      ensures key == old(values.next) && values.next == old(values.next) + 1
      ensures values.records == old(values.records)[key := Value(datasetId, accountId, month, valueType, amount)]
      ensures |values.records| == |old(values.records)| + 1
    {
      key := values.Push(Value(datasetId, accountId, month, valueType, amount));
    }

    /** `get_values(dataset_id, account_id)`: both filters apply, each only
        when given. */
    function GetValues(datasetId: Option<Key>, accountId: Option<Key>): (r: map<Key, Value>)
      reads values
      ensures forall k :: k in r <==>
                k in values.records
                && (datasetId.Some? ==> values.records[k].datasetId == datasetId.value)
                && (accountId.Some? ==> values.records[k].accountId == accountId.value)
      ensures forall k :: k in r ==> r[k] == values.records[k]
    {
      var byDataset := if datasetId.Some? then values.Where((v: Value) => v.datasetId == datasetId.value) else values.records;
      if accountId.Some? then map k | k in byDataset && byDataset[k].accountId == accountId.value :: byDataset[k]
      else byDataset
    }

    /** `create_budget`: one budget pushed. The source reads the clock twice,
        once for `created_at` and once for `updated_at`; here one `now`
        stands for both readings, so the two stamps are equal. */
    method CreateBudget(companyId: Key, year: int, name: string, now: string) returns (key: Key)
      requires Valid()
      modifies budgets
      ensures Valid()
      ensures key == old(budgets.next) && key !in old(budgets.records) && budgets.next == old(budgets.next) + 1
      ensures budgets.records == old(budgets.records)[key := Budget(companyId, year, name, Some(now), Some(now))]
    {
      key := budgets.Push(Budget(companyId, year, name, Some(now), Some(now)));
    }

    /** `get_budgets(company_id)`. */
    function GetBudgets(companyId: Option<Key>): (r: map<Key, Budget>)
      reads budgets
      ensures forall k :: k in r <==> k in budgets.records && (companyId.Some? ==> budgets.records[k].companyId == companyId.value)
      ensures forall k :: k in r ==> r[k] == budgets.records[k]
    {
      if companyId.Some? then budgets.Where((b: Budget) => b.companyId == companyId.value) else budgets.records
    }

    /** `update_budget_value`: rewrites the first stored value for
        (budget, account, month), or pushes a new one. There is no delete
        branch: an amount of 0 is stored like any other. */
    method UpdateBudgetValue(budgetId: Key, accountId: Key, month: int, amount: real) returns (key: Key)
      requires Valid()
      modifies budgetValues
      ensures Valid()
      ensures budgetValues.records == old(budgetValues.records)[key := BudgetValue(budgetId, accountId, month, amount)]
      ensures old(budgetValues.FirstWhere(SameBudgetCell(budgetId, accountId, month), budgetValues.next)).Some? ==>
                key == old(budgetValues.FirstWhere(SameBudgetCell(budgetId, accountId, month), budgetValues.next)).value
                && key in old(budgetValues.records)
                && |budgetValues.records| == |old(budgetValues.records)| && budgetValues.next == old(budgetValues.next)
      ensures old(budgetValues.FirstWhere(SameBudgetCell(budgetId, accountId, month), budgetValues.next)).None? ==>
                key !in old(budgetValues.records) && key == old(budgetValues.next)
                && |budgetValues.records| == |old(budgetValues.records)| + 1 && budgetValues.next == old(budgetValues.next) + 1
    {
      var existing := budgetValues.FindFirst(SameBudgetCell(budgetId, accountId, month));
      if existing.Some? {
        budgetValues.Put(existing.value, BudgetValue(budgetId, accountId, month, amount));
        return existing.value;
      }
      key := budgetValues.Push(BudgetValue(budgetId, accountId, month, amount));
    }

    /** `get_budget_values(budget_id)`. */
    function GetBudgetValues(budgetId: Option<Key>): (r: map<Key, BudgetValue>)
      reads budgetValues
      ensures forall k :: k in r <==> k in budgetValues.records && (budgetId.Some? ==> budgetValues.records[k].budgetId == budgetId.value)
      ensures forall k :: k in r ==> r[k] == budgetValues.records[k]
    {
      if budgetId.Some? then budgetValues.Where((v: BudgetValue) => v.budgetId == budgetId.value) else budgetValues.records
    }

    method CreateSeasonalityIndex(companyId: Key, accountId: Key) returns (key: Key)
      requires Valid()
      modifies seasonalityIndices
      ensures Valid()
      ensures key !in old(seasonalityIndices.records)
      ensures seasonalityIndices.records == old(seasonalityIndices.records)[key := SeasonalityIndex(companyId, accountId)]
    {
      key := seasonalityIndices.Push(SeasonalityIndex(companyId, accountId));
    }

    /** `update_seasonality_value`: the same upsert, keyed on (index, year, month). */
    method UpdateSeasonalityValue(indexId: Key, year: int, month: int, indexValue: real) returns (key: Key)
      requires Valid()
      modifies seasonalityValues
      ensures Valid()
      ensures seasonalityValues.records == old(seasonalityValues.records)[key := SeasonalityValue(indexId, year, month, indexValue)]
      ensures old(seasonalityValues.FirstWhere(SameSeasonCell(indexId, year, month), seasonalityValues.next)).Some? ==>
                key == old(seasonalityValues.FirstWhere(SameSeasonCell(indexId, year, month), seasonalityValues.next)).value
                && key in old(seasonalityValues.records)
                && |seasonalityValues.records| == |old(seasonalityValues.records)|
      ensures old(seasonalityValues.FirstWhere(SameSeasonCell(indexId, year, month), seasonalityValues.next)).None? ==>
                key !in old(seasonalityValues.records)
                && |seasonalityValues.records| == |old(seasonalityValues.records)| + 1
    {
      var existing := seasonalityValues.FindFirst(SameSeasonCell(indexId, year, month));
      if existing.Some? {
        seasonalityValues.Put(existing.value, SeasonalityValue(indexId, year, month, indexValue));
        return existing.value;
      }
      key := seasonalityValues.Push(SeasonalityValue(indexId, year, month, indexValue));
    }

    /** `init_database`: makes sure both categories exist, creating only the
        missing ones (revenue first), so a second call creates nothing. */
    method InitDatabase()
      requires Valid()
      modifies categories
      ensures Valid()
      ensures HasCategory(categories.records, RevenueName) && HasCategory(categories.records, ExpenseName)
      ensures categories.records == Seeded(old(categories.records), old(categories.next),
                                           old(HasCategory(categories.records, RevenueName)),
                                           old(HasCategory(categories.records, ExpenseName)))
    {
      SeedCategories(categories);
    }
  }

  /** Some category in `records` is called `name`. */
  ghost predicate HasCategory(records: map<Key, Category>, name: string) {
    exists k :: k in records && records[k].name == name
  }

  /** The seeding both databases run at start-up: the revenue category,
      then the expense category, each created only when none of that name
      exists. */
  method SeedCategories(categories: Collection<Category>)
    requires categories.Valid()
    modifies categories
    ensures categories.Valid()
    ensures HasCategory(categories.records, RevenueName) && HasCategory(categories.records, ExpenseName)
    ensures categories.records == Seeded(old(categories.records), old(categories.next),
                                         old(HasCategory(categories.records, RevenueName)),
                                         old(HasCategory(categories.records, ExpenseName)))
  {
    ghost var before, n := categories.records, categories.next;
    ghost var hasRevenue, hasExpense := HasCategory(before, RevenueName), HasCategory(before, ExpenseName);
    var revenueKey := SeedCategory(categories, RevenueSeed);
    ghost var m := categories.records;
    assert m == if hasRevenue then before else before[n := RevenueSeed];
    assert categories.next == if hasRevenue then n else n + 1;
    if !hasRevenue {
      // the new key was free and the revenue seed is not named like the expense one
      assert n !in before;
      if hasExpense {
        ghost var k :| k in before && before[k].name == ExpenseName;
        assert k in m && m[k].name == ExpenseName;
      }
      if HasCategory(m, ExpenseName) {
        ghost var k :| k in m && m[k].name == ExpenseName;
        assert k in before && before[k] == m[k];
      }
    }
    assert HasCategory(m, ExpenseName) == hasExpense;
    var _ := SeedCategory(categories, ExpenseSeed);
    assert categories.records[revenueKey] == m[revenueKey];
    assert categories.records == if hasExpense then m else m[(if hasRevenue then n else n + 1) := ExpenseSeed];
  }

  /** One test of the seeding: the category `seed` is created unless a
      category with its name exists. */
  method SeedCategory(categories: Collection<Category>, seed: Category) returns (key: Key)
    requires categories.Valid()
    modifies categories
    ensures categories.Valid() && HasCategory(categories.records, seed.name)
    ensures key in categories.records && categories.records[key].name == seed.name
    ensures old(HasCategory(categories.records, seed.name)) ==>
              categories.records == old(categories.records) && categories.next == old(categories.next)
    ensures !old(HasCategory(categories.records, seed.name)) ==>
              categories.records == old(categories.records)[old(categories.next) := seed]
              && categories.next == old(categories.next) + 1
  {
    var found := categories.FindFirst(CategoryNamed(seed.name));
    if found.None? {
      key := categories.Push(seed);
      assert categories.records[key] == seed;
    } else {
      key := found.value;
    }
  }

  /** `session.exec(select(...).where(...)).first()` followed, when nothing
      matched, by adding `r`: the key of the first record satisfying `p`,
      which is `r` under a fresh key when there was none. */
  method FindOrPush<R>(c: Collection<R>, p: R -> bool, r: R) returns (key: Key)
    requires c.Valid() && p(r)
    modifies c
    ensures c.Valid() && Extends(old(c.records), old(c.next), c.records, c.next)
    ensures Some(key) == FirstKey(c.records, p, c.next)
    ensures var found := old(FirstKey(c.records, p, c.next));
            && (found.Some? ==> key == found.value && unchanged(c))
            && (found.None? ==> key == old(c.next) && c.records == old(c.records)[key := r] && c.next == old(c.next) + 1)
  {
    var found := c.FindFirst(p);
    if found.Some? {
      key := found.value;
    } else {
      ghost var before := c.records;
      key := c.Push(r);
      FirstKeyPush(before, p, key, r);
      ExtendsPush(before, key, r);
    }
  }

  /** The value type of imported figures. */
  const Actual := "faktiskt"

  /** The categories after `init_database` from `before`, whose next key is
      `n`: the revenue seed unless a revenue category exists, then the
      expense seed unless an expense category exists. */
  function Seeded(before: map<Key, Category>, n: Key, hasRevenue: bool, hasExpense: bool): (after: map<Key, Category>)
    ensures hasRevenue && hasExpense ==> after == before
    ensures |after| <= |before| + 2
  {
    var m := if hasRevenue then before else before[n := RevenueSeed];
    var next := if hasRevenue then n else n + 1;
    if hasExpense then m else m[next := ExpenseSeed]
  }

  // ---------------------------------------------------------------------
  // Counting the sheets an import run accepts

  /** The number of elements of `xs` that satisfy `p`. */
  function CountWhere<T>(xs: seq<T>, p: T -> bool): (n: nat)
    ensures n <= |xs|
  {
    if xs == [] then 0
    else CountWhere(xs[..|xs| - 1], p) + (if p(xs[|xs| - 1]) then 1 else 0)
  }

  /** Counting one element more. */
  lemma CountWhereNext<T>(xs: seq<T>, p: T -> bool, i: nat)
    requires i < |xs|
    ensures CountWhere(xs[..i + 1], p) == CountWhere(xs[..i], p) + (if p(xs[i]) then 1 else 0)
  {
    assert xs[..i + 1][..i] == xs[..i];
  }
}
