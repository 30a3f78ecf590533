/** Cells of a sheet read without a header row, and the two conversions the
    import scripts apply to them: `str(cell)` and `float(cell)`. */
module Cells {
  import opened Options
  import opened Text

  /** `Empty` is a missing cell (NaN / None). A number arrives either as a
      Python int (`Int`: an integral number in a column that also holds text)
      or as a float (`Num`). */
  datatype Cell = Empty | Int(i: int) | Num(n: real) | Str(s: string)

  type Row = seq<Cell>
  type Grid = seq<Row>

  /** `df.iloc[idx, 0]`; a row without cells reads as missing. */
  function FirstCell(row: Row): Cell {
    if |row| > 0 then row[0] else Empty
  }

  /** Digits after the decimal point of `f`, at most `n` of them. */
  function FracDigits(f: real, n: nat): (s: string)
    requires 0.0 <= f < 1.0
    ensures |s| <= n && AllDigits(s)
    decreases n
  {
    if n == 0 || f == 0.0 then []
    else
      var d := (f * 10.0).Floor;
      [DigitChar(d)] + FracDigits(f * 10.0 - d as real, n - 1)
  }

  /** `str(x)` for a float: sign, integer part, point, fraction ("2022.0", "-2.5"). */
  function NumText(x: real): (s: string)
    ensures |s| >= 3 && '.' in s
  {
    var a := if x < 0.0 then -x else x;
    var ip := a.Floor;
    var frac := a - ip as real;
    var fs := if frac == 0.0 then "0" else FracDigits(frac, 16);
    var body := NatText(ip) + "." + fs;
    assert body[|NatText(ip)|] == '.';
    if x < 0.0 then "-" + body else body
  }

  /** `str(cell)`: pandas renders a missing cell as "nan", a float with a
      decimal point and an int without one. */
  function CellText(c: Cell): (r: string)
    ensures c.Num? ==> '.' in r
    ensures c.Int? ==> |r| >= 1 && '.' !in r && IsDigit(r[|r| - 1])
  {
    match c
    case Empty => "nan"
    case Int(i) => IntText(i)
    case Num(x) => NumText(x)
    case Str(s) => s
  }

  function DotIndex(b: string): (k: nat)
    ensures k <= |b| && '.' !in b[..k]
    ensures k < |b| ==> b[k] == '.'
  {
    if b == [] then 0
    else if b[0] == '.' then 0
    else
      var k := DotIndex(b[1..]);
      assert b[..k + 1] == [b[0]] + b[1..][..k];
      k + 1
  }

  /** Digits with an optional decimal point, at least one digit in all. */
  function ParseUnsigned(b: string): Option<real> {
    var k := DotIndex(b);
    var ip := b[..k];
    var fp := if k < |b| then b[k + 1..] else [];
    if AllDigits(ip) && AllDigits(fp) && |ip| + |fp| >= 1 then
      Some(DigitsValue(ip) as real + DigitsValue(fp) as real / Pow10(|fp|) as real)
    else None
  }

  /** Python's `float(s)` on decimal text: surrounding whitespace, an
      optional sign, digits with an optional point. */
  function ParseDecimal(s: string): Option<real> {
    var t := Strip(s);
    if t == [] then None
    else
      var body := if t[0] == '-' || t[0] == '+' then t[1..] else t;
      match ParseUnsigned(body)
      case None => None
      case Some(v) => Some(if t[0] == '-' then -v else v)
  }

  /** A text cell after the decimal-comma rewrite, converted by `float`. */
  function TextAmount(s: string): Option<real> {
    ParseDecimal(ReplaceComma(s))
  }

  /** Rewriting commas before reading a text cell makes "1,5" and "1.5" read alike. */
  lemma TextAmountCommaInsensitive(s: string)
    ensures TextAmount(s) == TextAmount(ReplaceComma(s))
  {
    ReplaceCommaIdempotent(s);
  }
}
