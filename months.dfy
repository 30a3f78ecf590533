/** The month-name table both import scripts carry: twelve Swedish short
    names followed by the twelve English full names, in that order. */
module Months {
  import opened Options

  const SwedishShort: seq<string> :=
    ["Jan", "Feb", "Mar", "Apr", "Maj", "Jun", "Jul", "Aug", "Sep", "Okt", "Nov", "Dec"]

  const EnglishLong: seq<string> :=
    ["January", "February", "March", "April", "May", "June",
     "July", "August", "September", "October", "November", "December"]

  /** The dictionary `months` in insertion order: the k-th Swedish short name
      and the k-th English full name both map to month k + 1. */
  const Table: seq<(string, int)> :=
    [("Jan", 1), ("Feb", 2), ("Mar", 3), ("Apr", 4), ("Maj", 5), ("Jun", 6),
     ("Jul", 7), ("Aug", 8), ("Sep", 9), ("Okt", 10), ("Nov", 11), ("Dec", 12),
     ("January", 1), ("February", 2), ("March", 3), ("April", 4), ("May", 5), ("June", 6),
     ("July", 7), ("August", 8), ("September", 9), ("October", 10), ("November", 11), ("December", 12)]

  /** The month of the first entry from position `i` on whose token is `token`. */
  function LookupFrom(token: string, i: nat): (r: Option<int>)
    requires i <= |Table|
    ensures r.Some? ==> 1 <= r.value <= 12
    decreases |Table| - i
  {
    if i == |Table| then None
    else if Table[i].0 == token then Some(Table[i].1)
    else LookupFrom(token, i + 1)
  }

  /** `self.months.get(token)`: the month number of a table token. */
  function MonthOf(token: string): (r: Option<int>)
    ensures r.Some? ==> 1 <= r.value <= 12
  {
    LookupFrom(token, 0)
  }

  /** `token in self.months`. */
  predicate IsMonthKey(token: string) {
    MonthOf(token).Some?
  }

  /** A lookup from `i` succeeds exactly when some entry from `i` on has the
      token, and then gives that entry's month. */
  lemma {:induction false} LookupFromFinds(token: string, i: nat)
    requires i <= |Table|
    ensures LookupFrom(token, i).Some? <==> exists j :: i <= j < |Table| && Table[j].0 == token
    ensures LookupFrom(token, i).Some? ==>
              exists j :: i <= j < |Table| && Table[j].0 == token && Table[j].1 == LookupFrom(token, i).value
    decreases |Table| - i
  {
    if i < |Table| && Table[i].0 != token {
      LookupFromFinds(token, i + 1);
    }
  }

  /** The first entry at or after `i` that has the token decides the lookup. */
  lemma {:induction false} LookupFromFirst(token: string, i: nat, j: nat)
    requires i <= j < |Table| && Table[j].0 == token
    requires forall l :: i <= l < j ==> Table[l].0 != token
    ensures LookupFrom(token, i) == Some(Table[j].1)
    decreases j - i
  {
    if i < j {
      LookupFromFirst(token, i + 1, j);
    }
  }

  /** The table is the Swedish short names then the English full names, the
      k-th of each mapping to month k + 1. */
  lemma TableIsTwoNameLists()
    ensures |Table| == 24
    ensures forall k :: 0 <= k < 12 ==> Table[k] == (SwedishShort[k], k + 1) && Table[12 + k] == (EnglishLong[k], k + 1)
  {
  }

  /** The 24 tokens are pairwise different, so the dictionary has 24 keys and
      a token is found at its own index (used by `MonthOfNames`). */
  lemma TableKeysDistinct()
    ensures forall i, j :: 0 <= i < j < |Table| ==> Table[i].0 != Table[j].0
  {
  }

  /** Exactly the Swedish short names and the English full names are months. */
  lemma {:induction false} MonthKeysAreNames(token: string)
    ensures IsMonthKey(token) <==> token in SwedishShort || token in EnglishLong
  {
    TableIsTwoNameLists();
    LookupFromFinds(token, 0);
    if token in SwedishShort {
      var k :| 0 <= k < 12 && SwedishShort[k] == token;
      assert Table[k].0 == token;
    }
    if token in EnglishLong {
      var k :| 0 <= k < 12 && EnglishLong[k] == token;
      assert Table[k + 12].0 == token;
    }
    if IsMonthKey(token) {
      var j :| 0 <= j < |Table| && Table[j].0 == token;
      if j < 12 {
        assert SwedishShort[j] == token;
      } else {
        assert EnglishLong[j - 12] == token;
      }
    }
  }

  /** The k-th Swedish short name and the k-th English full name both give
      month k + 1. */
  lemma {:induction false} MonthOfNames(k: nat)
    requires k < 12
    ensures MonthOf(SwedishShort[k]) == Some(k + 1)
    ensures MonthOf(EnglishLong[k]) == Some(k + 1)
  {
    TableIsTwoNameLists();
    TableKeysDistinct();
    LookupFromFirst(SwedishShort[k], 0, k);
    LookupFromFirst(EnglishLong[k], 0, 12 + k);
  }

  /** Every month number of the table is from 1 to 12; `TextMonthInRange`
      and `HeaderMonthsInRange` rest on it. */
  lemma TableMonthsInRange()
    ensures forall j :: 0 <= j < |Table| ==> 1 <= Table[j].1 <= 12
  {
  }

  /** Every token is a word of at least three letters starting with an
      upper-case ASCII letter. */
  lemma TableKeysCapitalised()
    ensures forall j :: 0 <= j < |Table| ==> |Table[j].0| >= 3 && 'A' <= Table[j].0[0] <= 'Z'
  {
  }

  /** A month token starts with an upper-case ASCII letter. */
  lemma MonthKeyCapitalised(token: string)
    ensures IsMonthKey(token) ==> |token| >= 3 && 'A' <= token[0] <= 'Z'
  {
    LookupFromFinds(token, 0);
    TableKeysCapitalised();
  }
}
