/** How the Excel-to-SQLite import reads one sheet. It differs from the
    Firebase import at every step: the title is searched (not matched) for
    three or four capitals and a year, the header row is the first row that
    mentions "jan" and "feb", header cells are matched to months by
    substring, rows are skipped by a different list, and zero amounts are
    dropped after conversion. The sheet arrives as the frame pandas builds
    with its default header, so `grid` holds the rows below the sheet's
    first line. */
module SqliteParse {
  import opened Options
  import opened Text
  import opened Cells
  import opened Months
  import opened Store

  // ---------------------------------------------------------------------
  // Sheet titles: re.search(r'([A-Z]{3,4})\s*(\d{4})', title.upper())

  predicate IsCapital(c: char) { 'A' <= c <= 'Z' }

  /** The length of the run of ASCII capitals starting at `p`, at most `max`
      of them: how far the greedy `[A-Z]{3,4}` reaches. */
  function CapitalRun(s: string, p: nat, max: nat): (n: nat)
    requires p <= |s|
    ensures n <= max && p + n <= |s|
    ensures forall i :: p <= i < p + n ==> IsCapital(s[i])
    ensures n < max && p + n < |s| ==> !IsCapital(s[p + n])
    decreases max
  {
    if max == 0 || p == |s| || !IsCapital(s[p]) then 0
    else 1 + CapitalRun(s, p + 1, max - 1)
  }

  /** The match of the pattern starting at `p`, if any: the capitals, then
      every whitespace character, then four digits. Backtracking cannot
      help: after three capitals with a fourth available the next character
      is a capital, and after fewer spaces the next character is a space,
      and neither is a digit. */
  function MatchAt(s: string, p: nat): (r: Option<(string, int)>)
    requires p <= |s|
  {
    var n := CapitalRun(s, p, 4);
    if n < 3 then None
    else
      var j := SkipSpaces(s, p + n);
      if j + 4 <= |s| && AllDigits(s[j..j + 4]) then Some((s[p..p + n], DigitsValue(s[j..j + 4])))
      else None
  }

  /** `re.search` from position `p` on: the leftmost match. */
  function SearchFrom(s: string, p: nat): (r: Option<(string, int)>)
    requires p <= |s|
    ensures r.Some? ==> exists q :: p <= q <= |s| && MatchAt(s, q) == r && forall q' :: p <= q' < q ==> MatchAt(s, q').None?
    ensures r.None? ==> forall q :: p <= q <= |s| ==> MatchAt(s, q).None?
    decreases |s| - p
  {
    if MatchAt(s, p).Some? then MatchAt(s, p)
    else if p == |s| then None
    else SearchFrom(s, p + 1)
  }

  /** `parse_sheet_name`: the company and the year of the leftmost match in
      the upper-cased title. */
  function ParseTitle(title: string): (r: Option<(string, int)>)
  {
    SearchFrom(Upper(title), 0)
  }

  /** A match is three or four ASCII capitals and the value of four digits. */
  lemma MatchAtShape(s: string, p: nat)
    requires p <= |s|
    ensures var r := MatchAt(s, p);
            r.Some? ==> 3 <= |r.value.0| <= 4 && (forall i :: 0 <= i < |r.value.0| ==> IsCapital(r.value.0[i]))
                        && 0 <= r.value.1 < 10000
  {
    var n := CapitalRun(s, p, 4);
    if n >= 3 {
      var j := SkipSpaces(s, p + n);
      if j + 4 <= |s| && AllDigits(s[j..j + 4]) {
        assert MatchAt(s, p).value.0 == s[p..p + n];
        assert Pow10(4) == 10000;
      }
    }
  }

  /** A parsed company is three or four ASCII capitals, and the year is the
      value of four digits. */
  lemma ParseTitleShape(title: string)
    ensures var r := ParseTitle(title);
            r.Some? ==> 3 <= |r.value.0| <= 4 && (forall i :: 0 <= i < |r.value.0| ==> IsCapital(r.value.0[i]))
                        && 0 <= r.value.1 < 10000
  {
    var s := Upper(title);
    if ParseTitle(title).Some? {
      var q :| 0 <= q <= |s| && MatchAt(s, q) == ParseTitle(title);
      MatchAtShape(s, q);
    }
  }

  /** Upper-casing leaves capitals, whitespace-free ASCII digits and the
      space alone. */
  lemma UpperKeeps(t: string)
    requires forall i :: 0 <= i < |t| ==> IsCapital(t[i]) || IsDigit(t[i]) || t[i] == ' '
    ensures Upper(t) == t
  {
    forall i | 0 <= i < |t|
      ensures Upper(t)[i] == t[i]
    {
      UpperAt(t, i);
    }
  }

  /** A title written as three or four capitals, a space and four digits
      parses back to those capitals and that year. */
  lemma ParseTitleRoundTrip(company: string, digits: string)
    requires 3 <= |company| <= 4 && forall i :: 0 <= i < |company| ==> IsCapital(company[i])
    requires |digits| == 4 && AllDigits(digits)
    ensures ParseTitle(company + " " + digits) == Some((company, DigitsValue(digits)))
  {
    var t := company + " " + digits;
    UpperKeeps(t);
    var n := CapitalRun(t, 0, 4);
    assert n == |company| by {
      assert forall i :: 0 <= i < |company| ==> t[i] == company[i];
      assert t[|company|] == ' ';
    }
    SkipSpacesShape(t, n);
    var j := SkipSpaces(t, n);
    assert j == n + 1 by {
      assert t[n] == ' ';
      assert !IsSpace(t[n + 1]);
    }
    assert t[j..j + 4] == digits;
    assert t[0..n] == company;
  }

  // ---------------------------------------------------------------------
  // Classification

  const RevenueWords: seq<string> :=
    ["intäkt", "försäljning", "membership", "avgift", "hyra", "uthyrning",
     "revenue", "income", "sale", "fee", "rent", "rental"]

  const ExpenseWords: seq<string> :=
    ["kostnad", "utgift", "lön", "hyra", "el", "försäkring", "material",
     "expense", "cost", "salary", "wage", "rent", "electricity", "insurance"]

  /** `categorize_account`: the revenue words first, then the expense
      words, and expense by default. */
  function CategoryOf(text: string): (name: string)
  {
    if MentionsAny(Lower(text), RevenueWords) then RevenueName
    else if MentionsAny(Lower(text), ExpenseWords) then ExpenseName
    else ExpenseName
  }

  /** The label lands in "Intäkter" exactly when a revenue word occurs in
      its lower case, and in "Kostnader" otherwise: the expense words never
      change the outcome. */
  lemma CategoryOfRevenueWords(text: string)
    ensures CategoryOf(text) == RevenueName <==> exists i :: 0 <= i < |RevenueWords| && Contains(Lower(text), RevenueWords[i])
    ensures CategoryOf(text) != RevenueName ==> CategoryOf(text) == ExpenseName
  {
    MentionsAnyAt(Lower(text), RevenueWords);
  }

  // ---------------------------------------------------------------------
  // The header row

  /** Some cell after the first whose lower-cased text contains `word`. */
  predicate Mentions(row: Row, word: string) {
    exists i :: 1 <= i < |row| && Contains(Lower(CellText(row[i])), word)
  }

  /** The header test: the text of the row after its first cell mentions
      both "jan" and "feb". */
  predicate HeaderLike(row: Row) {
    Mentions(row, "jan") && Mentions(row, "feb")
  }

  /** The first row from `i` on that passes the header test. */
  function HeaderFrom(grid: Grid, i: nat): (h: Option<nat>)
    requires i <= |grid|
    ensures h.Some? ==> i <= h.value < |grid| && HeaderLike(grid[h.value])
    ensures h.Some? ==> forall k :: i <= k < h.value ==> !HeaderLike(grid[k])
    ensures h.None? ==> forall k :: i <= k < |grid| ==> !HeaderLike(grid[k])
    decreases |grid| - i
  {
    if i == |grid| then None
    else if HeaderLike(grid[i]) then Some(i)
    else HeaderFrom(grid, i + 1)
  }

  /** The loop over the rows that stops at the first header row. */
  method FindHeader(grid: Grid) returns (h: Option<nat>)
    ensures h == HeaderFrom(grid, 0)
    ensures h.Some? ==> h.value < |grid| && HeaderLike(grid[h.value])
    ensures h.None? ==> forall k :: 0 <= k < |grid| ==> !HeaderLike(grid[k])
  {
    var i := 0;
    while i < |grid|
      invariant i <= |grid|
      invariant HeaderFrom(grid, i) == HeaderFrom(grid, 0)
    {
      if HeaderLike(grid[i]) {
        return Some(i);
      }
      i := i + 1;
    }
    return None;
  }

  // ---------------------------------------------------------------------
  // Month columns

  /** The month of the first entry of `table` from `i` on whose lower-cased
      name occurs in `text`. */
  function MonthInFrom(text: string, table: seq<(string, int)>, i: nat): (r: Option<int>)
    requires i <= |table|
    decreases |table| - i
  {
    if i == |table| then None
    else if Contains(text, Lower(table[i].0)) then Some(table[i].1)
    else MonthInFrom(text, table, i + 1)
  }

  /** A search from `i` finds a month exactly when some entry from `i` on
      occurs in the text, and then it is the month of the first such entry. */
  lemma {:induction false} MonthInFromFirst(text: string, table: seq<(string, int)>, i: nat)
    requires i <= |table|
    ensures MonthInFrom(text, table, i).None? <==> forall j :: i <= j < |table| ==> !Contains(text, Lower(table[j].0))
    ensures MonthInFrom(text, table, i).Some? ==>
              exists j :: i <= j < |table| && Contains(text, Lower(table[j].0)) && MonthInFrom(text, table, i) == Some(table[j].1)
                          && forall l :: i <= l < j ==> !Contains(text, Lower(table[l].0))
    decreases |table| - i
  {
    if i < |table| && !Contains(text, Lower(table[i].0)) {
      MonthInFromFirst(text, table, i + 1);
    }
  }

  /** The month a header text (stripped and lower-cased) maps to. */
  function TextMonth(text: string): Option<int> {
    MonthInFrom(text, Table, 0)
  }

  /** A search through a table whose months are all in 1..12 finds a month
      in 1..12. */
  lemma MonthInFromRange(text: string, table: seq<(string, int)>)
    requires forall j :: 0 <= j < |table| ==> 1 <= table[j].1 <= 12
    ensures MonthInFrom(text, table, 0).Some? ==> 1 <= MonthInFrom(text, table, 0).value <= 12
  {
    MonthInFromFirst(text, table, 0);
  }

  /** Every month a header text maps to is in 1..12. */
  lemma TextMonthInRange(text: string)
    ensures TextMonth(text).Some? ==> 1 <= TextMonth(text).value <= 12
  {
    TableMonthsInRange();
    MonthInFromRange(text, Table);
  }

  /** `str(header).strip().lower()` of every header cell. */
  function HeaderTexts(header: Row): (texts: seq<string>)
    ensures |texts| == |header|
  {
    if header == [] then []
    else HeaderTexts(header[..|header| - 1]) + [Lower(Strip(CellText(header[|header| - 1])))]
  }

  lemma {:induction false} HeaderTextsAt(header: Row, i: nat)
    requires i < |header|
    ensures HeaderTexts(header)[i] == Lower(Strip(CellText(header[i])))
  {
    if i < |header| - 1 {
      HeaderTextsAt(header[..|header| - 1], i);
    }
  }

  /** `month_mapping` over the header texts before `n`: each column from 1
      on whose text names a month, with that month, in column order. */
  function HeaderMonths(texts: seq<string>, table: seq<(string, int)>, n: nat): (mapping: seq<(int, int)>)
    requires n <= |texts|
  {
    if n <= 1 then []
    else
      var m := MonthInFrom(texts[n - 1], table, 0);
      HeaderMonths(texts, table, n - 1) + (if m.Some? then [(n - 1, m.value)] else [])
  }

  /** The mapping lists, in strictly increasing order, exactly the columns
      from 1 on whose text names a month, each with its month. */
  lemma {:induction false} HeaderMonthsShape(texts: seq<string>, table: seq<(string, int)>, n: nat)
    requires n <= |texts|
    ensures var mapping := HeaderMonths(texts, table, n);
            && (forall i :: 0 <= i < |mapping| ==> 1 <= mapping[i].0 < n && Some(mapping[i].1) == MonthInFrom(texts[mapping[i].0], table, 0))
            && (forall i, j :: 0 <= i < j < |mapping| ==> mapping[i].0 < mapping[j].0)
            && (forall c :: 1 <= c < n && MonthInFrom(texts[c], table, 0).Some? ==> exists i :: 0 <= i < |mapping| && mapping[i].0 == c)
  {
    if n > 1 {
      HeaderMonthsShape(texts, table, n - 1);
      var earlier := HeaderMonths(texts, table, n - 1);
      var m := MonthInFrom(texts[n - 1], table, 0);
      var mapping := HeaderMonths(texts, table, n);
      assert mapping == earlier + (if m.Some? then [(n - 1, m.value)] else []);
      forall c | 1 <= c < n && MonthInFrom(texts[c], table, 0).Some?
        ensures exists i :: 0 <= i < |mapping| && mapping[i].0 == c
      {
        if c < n - 1 {
          var i :| 0 <= i < |earlier| && earlier[i].0 == c;
          assert mapping[i] == earlier[i];
        } else {
          assert mapping[|earlier|].0 == c;
        }
      }
    }
  }

  /** The inner loop over the month table that stops at the first entry
      whose lower-cased name occurs in the header text. */
  method MatchMonth(text: string, table: seq<(string, int)>) returns (m: Option<int>)
    ensures m == MonthInFrom(text, table, 0)
  {
    var i := 0;
    while i < |table|
      invariant i <= |table|
      invariant MonthInFrom(text, table, i) == MonthInFrom(text, table, 0)
    {
      if Contains(text, Lower(table[i].0)) {
        return Some(table[i].1);
      }
      i := i + 1;
    }
    return None;
  }

  /** `str(header).strip()` lower-cased, for column `col`. */
  method ReadHeaderText(header: Row, col: nat) returns (text: string)
    requires col < |header|
    ensures text == HeaderTexts(header)[col]
  {
    text := Lower(Strip(CellText(header[col])));
    HeaderTextsAt(header, col);
  }

  /** The loop that builds `month_mapping` from the header row. */
  method MonthMapping(header: Row, table: seq<(string, int)>) returns (mapping: seq<(int, int)>)
    ensures mapping == HeaderMonths(HeaderTexts(header), table, |header|)
  {
    mapping := [];
    if |header| <= 1 {
      return;
    }
    ghost var texts := HeaderTexts(header);
    var col := 1;
    while col < |header|
      invariant 1 <= col <= |header|
      invariant mapping == HeaderMonths(texts, table, col)
    {
      col, mapping := MonthColumn(header, table, texts, col, mapping);
    }
  }

  /** One pass of the loop: column `col` is added when its text names a
      month. */
  method MonthColumn(header: Row, table: seq<(string, int)>, ghost texts: seq<string>, col: nat, mapping: seq<(int, int)>)
    returns (next: nat, mapping': seq<(int, int)>)
    requires texts == HeaderTexts(header) && 1 <= col < |header|
    requires mapping == HeaderMonths(texts, table, col)
    ensures next == col + 1 && mapping' == HeaderMonths(texts, table, next)
  {
    var text := ReadHeaderText(header, col);
    var m := MatchMonth(text, table);
    mapping' := if m.Some? then mapping + [(col, m.value)] else mapping;
    next := col + 1;
  }

  // ---------------------------------------------------------------------
  // Rows and cells

  /** `str(row.iloc[0]).strip()`. */
  function RowLabel(row: Row): string {
    Strip(CellText(FirstCell(row)))
  }

  const SkipWords: seq<string> := ["totalt", "summa", "resultat", "intäkter", "kostnader"]

  /** A label that is not an account: empty or a missing-value spelling, an
      all-capitals heading longer than three characters, or one that
      mentions a total, a result or a category heading. */
  predicate LabelSkipped(text: string) {
    || text == "" || text == "nan" || text == "NaN" || text == "None"
    || (IsUpperText(text) && |text| > 3)
    || MentionsAny(Lower(text), SkipWords)
  }

  /** The amount a month cell contributes: nothing for a missing cell, text
      has its decimal commas rewritten before `float`, and text that does
      not convert and every zero give nothing. */
  function SqlCellAmount(c: Cell): (r: Option<real>)
    ensures r.Some? ==> r.value != 0.0
  {
    match c
    case Empty => None
    case Int(i) => if i == 0 then None else Some(i as real)
    case Num(x) => if x == 0.0 then None else Some(x)
    case Str(s) =>
      match TextAmount(s)
      case None => None
      case Some(v) => if v == 0.0 then None else Some(v)
  }

  /** The amount of column `col` of a row; a column the row does not reach
      raises, and the cell is skipped. */
  function AmountAt(row: Row, col: nat): (r: Option<real>)
    ensures col >= |row| ==> r.None?
    ensures col < |row| ==> r == SqlCellAmount(row[col])
  {
    if col < |row| then SqlCellAmount(row[col]) else None
  }
}
