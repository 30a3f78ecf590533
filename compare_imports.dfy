/** How the two imports differ in turning a month cell into an amount. */
module CompareImports {
  import opened Options
  import opened Text
  import opened Cells
  import FirebaseParse
  import SqliteParse

  /** The SQLite import converts a cell as the Firebase import does and
      then drops every zero, including a zero written as text, which the
      Firebase import stores. */
  lemma SqlAmountDropsZeros(c: Cell)
    ensures var r := FirebaseParse.CellAmount(c);
            SqliteParse.SqlCellAmount(c) == if r.Some? && r.value != 0.0 then r else None
  {
  }

  /** The text "0" is a stored amount in the Firebase import and nothing
      in the SQLite import: a cell on which the zero-dropping of
      `SqlAmountDropsZeros` is visible, since the Firebase test `value != 0`
      compares the text and not the number. */
  lemma TextZeroDiffers()
    ensures FirebaseParse.CellAmount(Str("0")) == Some(0.0)
    ensures SqliteParse.SqlCellAmount(Str("0")) == None
  {
    assert ReplaceComma("0") == "0";
    assert SkipSpaces("0", 0) == 0;
    assert SpaceRunStart("0", 1) == 1;
    assert Strip("0") == "0";
    assert DotIndex("0") == 1;
    assert DigitsValue("0") == 0 by {
      assert "0"[..0] == "";
    }
    assert "0"[1..] == [];
  }
}
