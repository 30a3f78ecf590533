/** How the Excel-to-Firebase import reads one sheet: the title gives the
    company and the year, a month-header row gives the month columns,
    marker rows delimit the revenue and expense blocks, and each row's first
    cell, once cleaned, names an account that is classified by block or by
    keyword. */
module FirebaseParse {
  import opened Options
  import opened Text
  import opened Cells
  import opened Months

  // ---------------------------------------------------------------------
  // Sheet titles

  /** `t` ends in a whitespace character followed by four ASCII digits, with
      at least one character before them. */
  predicate EndsWithSpacedYear(t: string) {
    |t| >= 6 && AllDigits(t[|t| - 4..]) && IsSpace(t[|t| - 5])
  }

  /** `t` is `company`, then whitespace only, then the four digits of `year`. */
  predicate SpacedYear(t: string, company: string, year: int) {
    |company| + 5 <= |t| && t[..|company|] == company && AllSpace(t[|company|..|t| - 4])
    && AllDigits(t[|t| - 4..]) && year == DigitsValue(t[|t| - 4..])
  }

  /** `parse_sheet_name`: the anchored, lazy pattern "(.+?)\s+(\d{4})$" on
      the stripped title. The lazy group ends where the whitespace run before
      the digits begins; it cannot hold a line break. */
  function ParseSheetName(title: string): (r: Option<(string, int)>)
  {
    var t := Strip(title);
    if EndsWithSpacedYear(t) then
      var i := SpaceRunStart(t, |t| - 4);
      var company := t[..i];
      if '\n' in company then None
      else Some((Strip(company), DigitsValue(t[|t| - 4..])))
    else None
  }

  /** A parsed title is a trimmed, non-empty company without line breaks,
      whitespace and the four digits of the year; a title that does not end
      in whitespace and four digits is refused. */
  lemma ParseSheetNameShape(title: string)
    ensures var r := ParseSheetName(title);
            && (r.Some? ==> r.value.0 != [] && '\n' !in r.value.0)
            && (r.Some? ==> !IsSpace(r.value.0[0]) && !IsSpace(r.value.0[|r.value.0| - 1]))
            && (r.Some? ==> SpacedYear(Strip(title), r.value.0, r.value.1))
            && (!EndsWithSpacedYear(Strip(title)) ==> r.None?)
  {
    var t := Strip(title);
    StripShape(title);
    if EndsWithSpacedYear(t) {
      var i := SpaceRunStart(t, |t| - 4);
      SpaceRunStartShape(t, |t| - 4);
      assert i > 0;
      var company := t[..i];
      assert !IsSpace(company[|company| - 1]);
      if '\n' !in company {
        StripOfStripped(company);
      }
    }
  }

  /** Writing a trimmed company and a four-digit year with one space between
      them, and parsing the title back, gives the company and the year. */
  lemma ParseSheetNameRoundTrip(company: string, digits: string)
    requires company != [] && !IsSpace(company[0]) && !IsSpace(company[|company| - 1]) && '\n' !in company
    requires |digits| == 4 && AllDigits(digits)
    ensures ParseSheetName(company + " " + digits) == Some((company, DigitsValue(digits)))
  {
    var t := company + " " + digits;
    StripOfStripped(t);
    assert t[|t| - 4..] == digits;
    assert t[..|company|] == company;
    assert t[|t| - 5] == ' ';
    var i := SpaceRunStart(t, |t| - 4);
    SpaceRunStartShape(t, |t| - 4);
    assert !IsSpace(t[|company| - 1]);
    assert i == |company|;
    StripOfStripped(company);
  }

  // ---------------------------------------------------------------------
  // The month-header row

  /** The month-table token a cell holds. Only text cells can hold one:
      `str` of a number starts with a digit or a minus sign, and every token
      starts with a capital letter (see `MonthTokenFaithful`). */
  function MonthToken(c: Cell): (r: Option<string>)
  {
    match c
    case Str(s) => if IsMonthKey(Strip(s)) then Some(Strip(s)) else None
    case _ => None
  }

  /** `pd.notna(cell) and str(cell).strip() in self.months`, with the
      stripped text as the token. */
  lemma MonthTokenFaithful(c: Cell)
    ensures MonthToken(c) == if c != Empty && IsMonthKey(Strip(CellText(c))) then Some(Strip(CellText(c))) else None
  {
    if c.Int? || c.Num? {
      NumTextStart(c);
      StripKeepsFirst(CellText(c));
      MonthKeyCapitalised(Strip(CellText(c)));
    }
  }

  /** `str` of a number, int or float, starts with a minus sign or a digit. */
  lemma NumTextStart(c: Cell)
    requires c.Int? || c.Num?
    ensures CellText(c)[0] == '-' || IsDigit(CellText(c)[0])
  {
    if c.Int? {
      var digits := NatText(if c.i < 0 then -c.i else c.i);
      assert IsDigit(digits[0]);
    } else {
      var a := if c.n < 0.0 then -c.n else c.n;
      var digits := NatText(a.Floor);
      assert IsDigit(digits[0]);
    }
  }

  /** The month token of every cell of a row, column by column. */
  function RowTokens(row: Row): (ts: seq<Option<string>>)
    ensures |ts| == |row|
  {
    if row == [] then [] else RowTokens(row[..|row| - 1]) + [MonthToken(row[|row| - 1])]
  }

  /** Entry `i` of the tokens is read off cell `i` alone. */
  lemma {:induction false} RowTokensAt(row: Row, i: nat)
    requires i < |row|
    ensures RowTokens(row)[i] == MonthToken(row[i])
  {
    if i < |row| - 1 {
      RowTokensAt(row[..|row| - 1], i);
    }
  }

  /** (column, token) for the columns among the first `n` that hold a
      token, in column order. */
  function Listed(ts: seq<Option<string>>, n: nat): (r: seq<(nat, string)>)
    requires n <= |ts|
    ensures |r| <= n
  {
    if n == 0 then []
    else
      var r := Listed(ts, n - 1);
      match ts[n - 1]
      case Some(token) => r + [(n - 1, token)]
      case None => r
  }

  /** Each listed entry is a column below `n` holding its token. */
  lemma {:induction false} ListedSound(ts: seq<Option<string>>, n: nat)
    requires n <= |ts|
    ensures forall e :: e in Listed(ts, n) ==> e.0 < n && ts[e.0] == Some(e.1)
  {
    if n > 0 {
      ListedSound(ts, n - 1);
    }
  }

  /** The listed columns increase. */
  lemma {:induction false} ListedOrdered(ts: seq<Option<string>>, n: nat)
    requires n <= |ts|
    ensures ColumnsIncrease(Listed(ts, n))
  {
    if n > 0 {
      ListedOrdered(ts, n - 1);
      ListedSound(ts, n - 1);
      var r := Listed(ts, n - 1);
      if ts[n - 1].Some? {
        ColumnsIncreaseAppend(r, (n - 1, ts[n - 1].value));
      }
    }
  }

  /** Every column below `n` holding a token is listed. */
  lemma {:induction false} ListedComplete(ts: seq<Option<string>>, n: nat)
    requires n <= |ts|
    ensures forall c :: 0 <= c < n && ts[c].Some? ==> (c, ts[c].value) in Listed(ts, n)
  {
    if n > 0 {
      ListedComplete(ts, n - 1);
    }
  }

  /** The columns of a (column, token) list strictly increase. */
  predicate ColumnsIncrease(cols: seq<(nat, string)>) {
    forall i, j :: 0 <= i < j < |cols| ==> cols[i].0 < cols[j].0
  }

  /** An entry right of every listed column keeps the columns increasing. */
  lemma ColumnsIncreaseAppend(cols: seq<(nat, string)>, e: (nat, string))
    requires ColumnsIncrease(cols) && forall x :: x in cols ==> x.0 < e.0
    ensures ColumnsIncrease(cols + [e])
  {
    var r := cols + [e];
    forall i, j | 0 <= i < j < |r|
      ensures r[i].0 < r[j].0
    {
      assert r[i] == cols[i];
      if j == |cols| {
        assert cols[i] in cols;
      }
    }
  }

  /** The month cells of a row: (column, token) in column order. */
  function RowMonths(row: Row): seq<(nat, string)> {
    Listed(RowTokens(row), |row|)
  }

  /** Exactly the month cells of the row are listed, each with its token,
      in increasing column order. */
  lemma RowMonthsFacts(row: Row)
    ensures forall e :: e in RowMonths(row) ==> e.0 < |row| && MonthToken(row[e.0]) == Some(e.1)
    ensures forall c :: 0 <= c < |row| && MonthToken(row[c]).Some? ==> (c, MonthToken(row[c]).value) in RowMonths(row)
    ensures ColumnsIncrease(RowMonths(row))
    ensures MonthTokens(RowMonths(row))
  {
    var ts := RowTokens(row);
    ListedSound(ts, |row|);
    ListedComplete(ts, |row|);
    ListedOrdered(ts, |row|);
    forall c | 0 <= c < |row|
      ensures ts[c] == MonthToken(row[c])
    {
      RowTokensAt(row, c);
    }
    forall e | e in RowMonths(row)
      ensures IsMonthKey(e.1)
    {
      assert MonthToken(row[e.0]) == Some(e.1);
    }
  }

  /** The month cells of every row, which the header search runs on. */
  function GridMonths(grid: Grid): (ms: seq<seq<(nat, string)>>)
    ensures |ms| == |grid|
  {
    if grid == [] then [] else GridMonths(grid[..|grid| - 1]) + [RowMonths(grid[|grid| - 1])]
  }

  /** Entry `i` of the grid's month cells is read off row `i` alone. */
  lemma {:induction false} GridMonthsAt(grid: Grid, i: nat)
    requires i < |grid|
    ensures GridMonths(grid)[i] == RowMonths(grid[i])
  {
    if i < |grid| - 1 {
      GridMonthsAt(grid[..|grid| - 1], i);
    }
  }

  /** The first of the first `n` rows with at least three month cells. */
  function HeaderRow(ms: seq<seq<(nat, string)>>, n: nat): (r: Option<nat>)
    requires n <= |ms|
    ensures r.Some? ==> r.value < n && |ms[r.value]| >= 3
    ensures r.Some? ==> forall j :: 0 <= j < r.value ==> |ms[j]| < 3
    ensures r.None? ==> forall j :: 0 <= j < n ==> |ms[j]| < 3
  {
    if n == 0 then None
    else if HeaderRow(ms, n - 1).Some? then HeaderRow(ms, n - 1)
    else if |ms[n - 1]| >= 3 then Some(n - 1)
    else None
  }

  /** Every token of a month-column list is a key of the month table. */
  predicate MonthTokens(months: seq<(nat, string)>) {
    forall e :: e in months ==> IsMonthKey(e.1)
  }

  /** A row that has at least three month cells, after rows that have
      fewer, is the header row. */
  lemma {:induction false} HeaderRowIs(ms: seq<seq<(nat, string)>>, n: nat, k: nat)
    requires k < n <= |ms|
    requires |ms[k]| >= 3 && HeaderRow(ms, k).None?
    ensures HeaderRow(ms, n) == Some(k)
  {
    if n > k + 1 {
      HeaderRowIs(ms, n - 1, k);
    }
  }

  /** The inner loop of `find_data_start`: the month cells of one row, in
      column order. */
  method ReadMonthCells(row: Row) returns (rowMonths: seq<(nat, string)>)
    ensures rowMonths == RowMonths(row)
    ensures MonthTokens(rowMonths)
    ensures ColumnsIncrease(rowMonths)
  {
    ghost var ts := RowTokens(row);
    rowMonths := [];
    var col := 0;
    while col < |row|
      invariant col <= |row|
      invariant rowMonths == Listed(ts, col)
    {
      var token := MonthToken(row[col]);
      RowTokensAt(row, col);
      if token.Some? {
        rowMonths := rowMonths + [(col, token.value)];
      }
      col := col + 1;
    }
    RowMonthsFacts(row);
  }

  /** `find_data_start`: the row after the first row with at least three
      month cells, and that row's month columns in increasing column order;
      nothing when no row qualifies. */
  method FindDataStart(grid: Grid) returns (start: Option<nat>, months: seq<(nat, string)>)
    ensures var h := HeaderRow(GridMonths(grid), |grid|);
            && (h.None? ==> start == None && months == [])
            && (h.Some? ==> start == Some(h.value + 1) && months == RowMonths(grid[h.value]))
    ensures start.Some? ==> |months| >= 3 && MonthTokens(months)
    ensures ColumnsIncrease(months)
  {
    ghost var ms := GridMonths(grid);
    start, months := None, [];
    var idx := 0;
    while idx < |grid|
      invariant idx <= |grid|
      invariant HeaderRow(ms, idx).None?
    {
      var rowMonths := ReadMonthCells(grid[idx]);
      GridMonthsAt(grid, idx);
      assert ms[idx] == rowMonths;
      if |rowMonths| >= 3 {
        HeaderRowIs(ms, |grid|, idx);
        start := Some(idx + 1);
        months := rowMonths;
        return;
      }
      assert HeaderRow(ms, idx + 1).None?;
      idx := idx + 1;
    }
  }

  // ---------------------------------------------------------------------
  // Account names

  /** `s` spells the lower-case word `w`, letter by letter in either case. */
  predicate CiWord(s: string, w: string) {
    |s| == |w| && forall i :: 0 <= i < |s| ==> s[i] == w[i] || s[i] == UpperChar(w[i])
  }

  /** Length of the leading "Tot\s+" or "Total\s+" the first substitution
      removes (any case, the whole whitespace run); 0 when there is none. */
  function PrefixCut(s: string): (k: nat)
    ensures k <= |s|
  {
    if |s| >= 4 && CiWord(s[..3], "tot") && IsSpace(s[3]) then SkipSpaces(s, 3)
    else if |s| >= 6 && CiWord(s[..5], "total") && IsSpace(s[5]) then SkipSpaces(s, 5)
    else 0
  }

  /** Where the second substitution cuts off a trailing "\s+Tot" or
      "\s+Total" (any case, the whole whitespace run); `|s|` when there is none. */
  function SuffixCut(s: string): (k: nat)
    ensures k <= |s|
  {
    if |s| >= 4 && CiWord(s[|s| - 3..], "tot") && IsSpace(s[|s| - 4]) then SpaceRunStart(s, |s| - 3)
    else if |s| >= 6 && CiWord(s[|s| - 5..], "total") && IsSpace(s[|s| - 6]) then SpaceRunStart(s, |s| - 5)
    else |s|
  }

  /** The two substitutions on an already stripped text. */
  function CleanText(s: string): (r: string)
    ensures |r| <= |s|
  {
    var p := s[PrefixCut(s)..];
    p[..SuffixCut(p)]
  }

  /** `clean_account_name`: a missing cell gives ""; otherwise the stripped
      text with one "Tot"/"Total" prefix and one such suffix removed. */
  function CleanAccountName(c: Cell): (r: string)
    ensures c == Empty ==> r == ""
  {
    if c == Empty then "" else CleanText(Strip(CellText(c)))
  }

  /** `r` occurs in `s` at index `i`. */
  predicate Infix(s: string, i: nat, r: string) {
    i + |r| <= |s| && s[i..i + |r|] == r
  }

  /** A text without surrounding whitespace. */
  predicate Trimmed(s: string) {
    s == [] || (!IsSpace(s[0]) && !IsSpace(s[|s| - 1]))
  }

  /** Cutting the prefix keeps a trimmed text trimmed. */
  lemma PrefixCutTrimmed(s: string)
    requires Trimmed(s)
    ensures Trimmed(s[PrefixCut(s)..])
  {
    var k := PrefixCut(s);
    if 0 < k < |s| {
      SkipSpacesShape(s, if |s| >= 4 && CiWord(s[..3], "tot") && IsSpace(s[3]) then 3 else 5);
    }
  }

  /** Cutting the suffix keeps a trimmed text trimmed. */
  lemma SuffixCutTrimmed(p: string)
    requires Trimmed(p)
    ensures Trimmed(p[..SuffixCut(p)])
  {
    var m := SuffixCut(p);
    if m < |p| {
      var j := if |p| >= 4 && CiWord(p[|p| - 3..], "tot") && IsSpace(p[|p| - 4]) then |p| - 3 else |p| - 5;
      SpaceRunStartShape(p, j);
    }
  }

  /** The cleaned name of a present cell is a piece of its stripped text,
      and carries no surrounding whitespace. */
  lemma CleanAccountNameShape(c: Cell)
    requires c != Empty
    ensures var s := Strip(CellText(c));
            var r := CleanAccountName(c);
            Trimmed(r) && exists i :: 0 <= i <= |s| - |r| && Infix(s, i, r)
  {
    CleanTextShape(CellText(c));
  }

  /** The text-level half of `CleanAccountNameShape`. */
  lemma CleanTextShape(t: string)
    ensures var s := Strip(t);
            var r := CleanText(s);
            Trimmed(r) && exists i :: 0 <= i <= |s| - |r| && Infix(s, i, r)
  {
    var s := Strip(t);
    StripTrimmed(t);
    PrefixCutTrimmed(s);
    var k := PrefixCut(s);
    var p := s[k..];
    SuffixCutTrimmed(p);
    CutIsInfix(s, k, SuffixCut(p));
  }

  lemma StripTrimmed(t: string)
    ensures Trimmed(Strip(t))
  {
    StripShape(t);
  }

  /** A piece cut from both ends of `s` occurs in `s` where the front cut ends. */
  lemma CutIsInfix(s: string, k: nat, m: nat)
    requires k <= |s| && m <= |s| - k
    ensures Infix(s, k, s[k..][..m])
  {
  }

  /** A text with no whitespace inside. */
  predicate Word(s: string) {
    forall i :: 0 <= i < |s| ==> !IsSpace(s[i])
  }

  /** A single word is kept as it is: "Total" alone stays "Total". */
  lemma CleanKeepsWord(s: string)
    requires s != [] && Word(s)
    ensures CleanAccountName(Str(s)) == s
  {
    StripOfStripped(s);
    assert PrefixCut(s) == 0 by {
      if |s| >= 4 { assert !IsSpace(s[3]); }
      if |s| >= 6 { assert !IsSpace(s[5]); }
    }
    WordSuffixCut(s);
  }

  /** A word has no trailing "Tot"/"Total" to cut. */
  lemma WordSuffixCut(w: string)
    requires Word(w)
    ensures SuffixCut(w) == |w|
  {
    if |w| >= 4 { assert !IsSpace(w[|w| - 4]); }
    if |w| >= 6 { assert !IsSpace(w[|w| - 6]); }
  }

  /** "Total " in front of a word is cut as a whole. */
  lemma TotalPrefixCut(w: string)
    requires w != [] && Word(w)
    ensures PrefixCut("Total " + w) == 6
  {
    var s := "Total " + w;
    assert s[..3] == "Tot" && s[3] == 'a';
    assert CiWord(s[..5], "total");
    assert SkipSpaces(s, 5) == 6 by {
      assert SkipSpaces(s, 6) == 6 by { assert s[6] == w[0]; }
    }
  }

  /** "Total <word>" loses its prefix. */
  lemma CleanDropsTotalPrefix(w: string)
    requires w != [] && Word(w)
    ensures CleanAccountName(Str("Total " + w)) == w
  {
    var s := "Total " + w;
    assert !IsSpace(s[|s| - 1]);
    StripOfStripped(s);
    TotalPrefixCut(w);
    assert s[6..] == w;
    WordSuffixCut(w);
  }

  // ---------------------------------------------------------------------
  // Revenue and expense blocks

  const RevenueMarker := "RÖRELSENS INTÄKTER"
  const RevenueTotalMarker := "SUMMA RÖRELSENS INTÄKTER"
  const ExpenseMarker := "RÖRELSENS KOSTNADER"
  const ExpenseTotalMarker := "SUMMA RÖRELSENS KOSTNADER"

  /** The upper-cased, stripped first cell of a row; "" when it is missing. */
  function Col0(row: Row): string {
    if FirstCell(row) == Empty then "" else Upper(Strip(CellText(FirstCell(row))))
  }

  /** Which of the four marker texts a first-column text contains. */
  datatype Markers = Markers(revenue: bool, revenueTotal: bool, expense: bool, expenseTotal: bool)

  function MarkersOf(col0: string): Markers {
    Markers(Contains(col0, RevenueMarker), Contains(col0, RevenueTotalMarker),
            Contains(col0, ExpenseMarker), Contains(col0, ExpenseTotalMarker))
  }

  /** The markers of every row, which the block search runs on. */
  function RowMarkers(grid: Grid): (ms: seq<Markers>)
    ensures |ms| == |grid|
  {
    if grid == [] then [] else RowMarkers(grid[..|grid| - 1]) + [MarkersOf(Col0(grid[|grid| - 1]))]
  }

  /** Entry `i` of the row markers is read off row `i` alone. */
  lemma {:induction false} RowMarkersAt(grid: Grid, i: nat)
    requires i < |grid|
    ensures RowMarkers(grid)[i] == MarkersOf(Col0(grid[i]))
  {
    if i < |grid| - 1 {
      RowMarkersAt(grid[..|grid| - 1], i);
    }
  }

  /** The first-column test of `find_sections` for row `idx`. */
  method ReadMarkers(grid: Grid, idx: nat) returns (m: Markers)
    requires idx < |grid|
    ensures m == RowMarkers(grid)[idx]
  {
    var col0 := Col0(grid[idx]);
    RowMarkersAt(grid, idx);
    m := Markers(Contains(col0, RevenueMarker), Contains(col0, RevenueTotalMarker),
                 Contains(col0, ExpenseMarker), Contains(col0, ExpenseTotalMarker));
  }

  /** The first of the first `n` rows carrying the revenue marker. */
  function RevenueStart(ms: seq<Markers>, n: nat): (r: Option<nat>)
    requires n <= |ms|
    ensures r.Some? ==> r.value < n && ms[r.value].revenue
    ensures r.Some? ==> forall j :: 0 <= j < r.value ==> !ms[j].revenue
    ensures r.None? ==> forall j :: 0 <= j < n ==> !ms[j].revenue
  {
    if n == 0 then None
    else if RevenueStart(ms, n - 1).Some? then RevenueStart(ms, n - 1)
    else if ms[n - 1].revenue then Some(n - 1)
    else None
  }

  /** The last of the first `n` rows that carries the revenue-total marker
      and comes after the revenue start. */
  function RevenueEnd(ms: seq<Markers>, n: nat): (r: Option<nat>)
    requires n <= |ms|
    ensures r.Some? ==> r.value < n && ms[r.value].revenueTotal && RevenueStart(ms, r.value).Some?
    ensures r.Some? ==> forall j :: r.value < j < n ==> !(ms[j].revenueTotal && RevenueStart(ms, j).Some?)
    ensures r.None? ==> forall j :: 0 <= j < n ==> !(ms[j].revenueTotal && RevenueStart(ms, j).Some?)
  {
    if n == 0 then None
    else if ms[n - 1].revenueTotal && RevenueStart(ms, n - 1).Some? then Some(n - 1)
    else RevenueEnd(ms, n - 1)
  }

  /** Row `r` is taken by one of the two revenue branches of the chain, so
      the expense branches do not see it. */
  predicate RevenueBranch(ms: seq<Markers>, r: nat)
    requires r < |ms|
  {
    (ms[r].revenue && RevenueStart(ms, r).None?)
    || (ms[r].revenueTotal && RevenueStart(ms, r).Some?)
  }

  /** The first of the first `n` rows carrying the expense marker that the
      revenue branches do not take. */
  function ExpenseStart(ms: seq<Markers>, n: nat): (r: Option<nat>)
    requires n <= |ms|
    ensures r.Some? ==> r.value < n && ms[r.value].expense && !RevenueBranch(ms, r.value)
    ensures r.Some? ==> forall j :: 0 <= j < r.value ==> !(ms[j].expense && !RevenueBranch(ms, j))
    ensures r.None? ==> forall j :: 0 <= j < n ==> !(ms[j].expense && !RevenueBranch(ms, j))
  {
    if n == 0 then None
    else if ExpenseStart(ms, n - 1).Some? then ExpenseStart(ms, n - 1)
    else if ms[n - 1].expense && !RevenueBranch(ms, n - 1) then Some(n - 1)
    else None
  }

  /** The last of the first `n` rows carrying the expense-total marker, after
      the expense start and not taken by the revenue branches. */
  function ExpenseEnd(ms: seq<Markers>, n: nat): (r: Option<nat>)
    requires n <= |ms|
    ensures r.Some? ==> r.value < n && ms[r.value].expenseTotal && ExpenseStart(ms, r.value).Some? && !RevenueBranch(ms, r.value)
    ensures r.Some? ==> forall j :: r.value < j < n ==> !(ms[j].expenseTotal && ExpenseStart(ms, j).Some? && !RevenueBranch(ms, j))
    ensures r.None? ==> forall j :: 0 <= j < n ==> !(ms[j].expenseTotal && ExpenseStart(ms, j).Some? && !RevenueBranch(ms, j))
  {
    if n == 0 then None
    else if ms[n - 1].expenseTotal && ExpenseStart(ms, n - 1).Some? && !RevenueBranch(ms, n - 1) then Some(n - 1)
    else ExpenseEnd(ms, n - 1)
  }

  /** The detected blocks as inclusive row ranges; the empty dictionary is
      the value with neither block. */
  datatype Sections = Sections(revenue: Option<(int, int)>, expense: Option<(int, int)>) {
    predicate Any() { revenue.Some? || expense.Some? }
  }

  /** The rows strictly between a start marker and an end marker. */
  function Between(start: Option<nat>, end: Option<nat>): (r: Option<(int, int)>)
    ensures r.Some? <==> start.Some? && end.Some?
    ensures r.Some? ==> r.value == (start.value + 1, end.value - 1)
  {
    if start.Some? && end.Some? then Some((start.value + 1, end.value - 1)) else None
  }

  function SectionsOf(ms: seq<Markers>): Sections {
    Sections(Between(RevenueStart(ms, |ms|), RevenueEnd(ms, |ms|)),
             Between(ExpenseStart(ms, |ms|), ExpenseEnd(ms, |ms|)))
  }

  /** `find_sections`: one pass over the rows through the four-way elif
      chain, then the ranges strictly inside each pair of markers. */
  method FindSections(grid: Grid) returns (sections: Sections)
    ensures sections == SectionsOf(RowMarkers(grid))
  {
    ghost var ms := RowMarkers(grid);
    var revenueStart: Option<nat> := None;
    var revenueEnd: Option<nat> := None;
    var expenseStart: Option<nat> := None;
    var expenseEnd: Option<nat> := None;
    var idx := 0;
    while idx < |grid|
      invariant idx <= |grid|
      invariant revenueStart == RevenueStart(ms, idx) && revenueEnd == RevenueEnd(ms, idx)
      invariant expenseStart == ExpenseStart(ms, idx) && expenseEnd == ExpenseEnd(ms, idx)
    {
      var m := ReadMarkers(grid, idx);
      SectionsStep(ms, idx);
      if m.revenue && revenueStart.None? {
        revenueStart := Some(idx);
      } else if m.revenueTotal && revenueStart.Some? {
        revenueEnd := Some(idx);
      } else if m.expense && expenseStart.None? {
        expenseStart := Some(idx);
      } else if m.expenseTotal && expenseStart.Some? {
        expenseEnd := Some(idx);
      }
      idx := idx + 1;
    }
    sections := Sections(Between(revenueStart, revenueEnd), Between(expenseStart, expenseEnd));
  }

  /** Reading one more row changes each of the four markers found so far
      only through its own branch of the chain. */
  lemma SectionsStep(ms: seq<Markers>, idx: nat)
    requires idx < |ms|
    ensures RevenueStart(ms, idx + 1) ==
              if ms[idx].revenue && RevenueStart(ms, idx).None? then Some(idx) else RevenueStart(ms, idx)
    ensures RevenueEnd(ms, idx + 1) ==
              if ms[idx].revenueTotal && RevenueStart(ms, idx).Some? then Some(idx) else RevenueEnd(ms, idx)
    ensures ExpenseStart(ms, idx + 1) ==
              if ms[idx].expense && !RevenueBranch(ms, idx) && ExpenseStart(ms, idx).None? then Some(idx) else ExpenseStart(ms, idx)
    ensures ExpenseEnd(ms, idx + 1) ==
              if ms[idx].expenseTotal && ExpenseStart(ms, idx).Some? && !RevenueBranch(ms, idx) then Some(idx) else ExpenseEnd(ms, idx)
  {
  }

  /** Once found, the revenue start row stays the same as more rows are read. */
  lemma {:induction false} RevenueStartStable(ms: seq<Markers>, m: nat, n: nat)
    requires m <= n <= |ms| && RevenueStart(ms, m).Some?
    ensures RevenueStart(ms, n) == RevenueStart(ms, m)
    decreases n - m
  {
    if m < n {
      RevenueStartStable(ms, m, n - 1);
    }
  }

  /** The revenue block exists exactly when some row carrying the revenue
      marker is followed, later, by a row carrying the revenue-total marker;
      the markers are found by substring. */
  lemma RevenueBlockExists(ms: seq<Markers>)
    ensures SectionsOf(ms).revenue.Some? <==>
              exists i, j :: 0 <= i < j < |ms| && ms[i].revenue && ms[j].revenueTotal
  {
    if exists i, j :: 0 <= i < j < |ms| && ms[i].revenue && ms[j].revenueTotal {
      var i, j :| 0 <= i < j < |ms| && ms[i].revenue && ms[j].revenueTotal;
      assert RevenueStart(ms, i + 1).Some?;
      RevenueStartStable(ms, i + 1, j);
      assert ms[j].revenueTotal && RevenueStart(ms, j).Some?;
    }
    if SectionsOf(ms).revenue.Some? {
      var e := RevenueEnd(ms, |ms|).value;
      var s := RevenueStart(ms, e).value;
      assert s < e && ms[s].revenue && ms[e].revenueTotal;
    }
  }

  /** A found revenue block starts right after the first revenue-marker row
      and ends right before the last total row, which comes after it. */
  lemma RevenueBlockBounds(ms: seq<Markers>)
    requires SectionsOf(ms).revenue.Some?
    ensures var (first, last) := SectionsOf(ms).revenue.value;
            0 < first <= last + 1 < |ms|
            && ms[first - 1].revenue && ms[last + 1].revenueTotal
            && (forall j :: 0 <= j < first - 1 ==> !ms[j].revenue)
            && (forall j :: last + 1 < j < |ms| ==> !ms[j].revenueTotal)
  {
    var e := RevenueEnd(ms, |ms|).value;
    RevenueStartStable(ms, e, |ms|);
    forall j | e < j < |ms|
      ensures !ms[j].revenueTotal
    {
      RevenueStartStable(ms, e, j);
    }
  }

  /** Row `r` reaches the third branch of the chain with the expense marker. */
  predicate ExpenseRow(ms: seq<Markers>, r: nat)
    requires r < |ms|
  {
    ms[r].expense && !RevenueBranch(ms, r)
  }

  /** Row `r` reaches the fourth branch of the chain with the expense-total marker. */
  predicate ExpenseTotalRow(ms: seq<Markers>, r: nat)
    requires r < |ms|
  {
    ms[r].expenseTotal && !RevenueBranch(ms, r)
  }

  /** Once found, the expense start row stays the same as more rows are read. */
  lemma {:induction false} ExpenseStartStable(ms: seq<Markers>, m: nat, n: nat)
    requires m <= n <= |ms| && ExpenseStart(ms, m).Some?
    ensures ExpenseStart(ms, n) == ExpenseStart(ms, m)
    decreases n - m
  {
    if m < n {
      ExpenseStartStable(ms, m, n - 1);
    }
  }

  /** The expense block exists exactly when some row carrying the expense
      marker is followed, later, by a row carrying the expense-total marker,
      neither of them taken by the revenue branches. */
  lemma ExpenseBlockExists(ms: seq<Markers>)
    ensures SectionsOf(ms).expense.Some? <==>
              exists i, j :: 0 <= i < j < |ms| && ExpenseRow(ms, i) && ExpenseTotalRow(ms, j)
  {
    if exists i, j :: 0 <= i < j < |ms| && ExpenseRow(ms, i) && ExpenseTotalRow(ms, j) {
      var i, j :| 0 <= i < j < |ms| && ExpenseRow(ms, i) && ExpenseTotalRow(ms, j);
      assert ExpenseStart(ms, i + 1).Some?;
      ExpenseStartStable(ms, i + 1, j);
      assert ms[j].expenseTotal && ExpenseStart(ms, j).Some? && !RevenueBranch(ms, j);
    }
    if SectionsOf(ms).expense.Some? {
      var e := ExpenseEnd(ms, |ms|).value;
      var s := ExpenseStart(ms, e).value;
      assert s < e && ExpenseRow(ms, s) && ExpenseTotalRow(ms, e);
    }
  }

  /** A found expense block starts right after the first expense-marker row
      and ends right before the last expense-total row, which comes after it. */
  lemma ExpenseBlockBounds(ms: seq<Markers>)
    requires SectionsOf(ms).expense.Some?
    ensures var (first, last) := SectionsOf(ms).expense.value;
            0 < first <= last + 1 < |ms|
            && ExpenseRow(ms, first - 1) && ExpenseTotalRow(ms, last + 1)
            && (forall j :: 0 <= j < first - 1 ==> !ExpenseRow(ms, j))
            && (forall j :: last + 1 < j < |ms| ==> !ExpenseTotalRow(ms, j))
  {
    var e := ExpenseEnd(ms, |ms|).value;
    ExpenseStartStable(ms, e, |ms|);
    forall j | e < j < |ms|
      ensures !ExpenseTotalRow(ms, j)
    {
      ExpenseStartStable(ms, e, j);
    }
  }

  // ---------------------------------------------------------------------
  // Classification

  /** The two categories an account can land in ("Intäkter" / "Kostnader"). */
  datatype Kind = Revenue | Expense

  const RevenueKeywords: seq<string> :=
    ["intäkt", "försäljning", "membership", "avgift", "hyra", "uthyrning",
     "revenue", "income", "sale", "fee", "rent", "rental"]

  /** Some revenue keyword occurs in the lower-cased name. */
  predicate HasRevenueKeyword(name: string) {
    MentionsAny(Lower(name), RevenueKeywords)
  }

  predicate InRange(range: Option<(int, int)>, idx: int) {
    range.Some? && range.value.0 <= idx <= range.value.1
  }

  /** `categorize_account`: the revenue block first, then the expense block,
      then a revenue keyword in the lower-cased name, else expense. */
  function CategorizeAccount(name: string, idx: int, sections: Sections): (k: Kind)
    ensures InRange(sections.revenue, idx) ==> k == Revenue
    ensures !InRange(sections.revenue, idx) && InRange(sections.expense, idx) ==> k == Expense
    ensures !InRange(sections.revenue, idx) && !InRange(sections.expense, idx) ==> (k == Revenue <==> HasRevenueKeyword(name))
  {
    if InRange(sections.revenue, idx) then Revenue
    else if InRange(sections.expense, idx) then Expense
    else if HasRevenueKeyword(name) then Revenue
    else Expense
  }

  // ---------------------------------------------------------------------
  // Rows and cells

  const SkipKeywords: seq<string> :=
    ["SUMMA", "RÖRELSENS INTÄKTER", "RÖRELSENS KOSTNADER",
     "NETTOOMSÄTTNING", "ÖVRIGA RÖRELSEINTÄKTER",
     "RÅVAROR OCH FÖRNÖDENHETER", "ÖVRIGA EXTERNA KOSTNADER",
     "ÅRETS RESULTAT", "BERÄKNAT RESULTAT"]

  /** A cleaned name that names an account: not empty, not a bare
      "Tot"/"Total", and no heading or total keyword in its upper case. */
  predicate RowAccepted(name: string) {
    name != "" && name != "Tot" && name != "Total"
    && !MentionsAny(Upper(name), SkipKeywords)
  }

  /** The amount a month cell contributes: missing cells and numeric zeros
      give nothing; text has its decimal commas rewritten before `float`,
      and text that does not convert gives nothing. */
  function CellAmount(c: Cell): (r: Option<real>)
    ensures c == Empty ==> r.None?
    ensures c.Int? ==> (r.Some? <==> c.i != 0) && (r.Some? ==> r.value == c.i as real)
    ensures c.Num? ==> (r.Some? <==> c.n != 0.0) && (r.Some? ==> r.value == c.n)
  {
    match c
    case Empty => None
    case Int(i) => if i == 0 then None else Some(i as real)
    case Num(x) => if x == 0.0 then None else Some(x)
    case Str(s) => TextAmount(s)
  }
}
