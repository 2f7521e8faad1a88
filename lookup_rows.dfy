/** The Python importer's reading of one row of the lookup sheet into a rule. */
module LookupRows {
  import opened Wrappers
  import opened Common

  /**
   * `Category.from_row`: the row without its first cell, padded with two Nones; the rule is
   * the first two entries of that list.
   */
  function FromRow(row: seq<string>): (c: Category)
    ensures |row| <= 1 ==> c == Category(None, None)
    ensures |row| == 2 ==> c == Category(Some(row[1]), None)
    ensures |row| >= 3 ==> c == Category(Some(row[1]), Some(row[2]))
  {
    var rest := if |row| == 0 then [] else row[1..];
    var checked := seq(|rest|, i requires 0 <= i < |rest| => Some(rest[i])) + [None, None];
    Category(checked[0], checked[1])
  }

  /** Cells past the third are ignored. */
  lemma FromRowIgnoresExtraCells(row: seq<string>, extra: seq<string>)
    requires |row| >= 3
    ensures FromRow(row + extra) == FromRow(row)
  {
    assert (row + extra)[1] == row[1] && (row + extra)[2] == row[2];
  }

  /** An empty cell is kept as the empty string, not read as a missing value. */
  lemma EmptyCellsKept(key: string)
    ensures FromRow([key, "", ""]) == Category(Some(""), Some(""))
  {
  }
}
