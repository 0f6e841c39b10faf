/**
 * The question records of the multiplication drill and the builder that turns
 * the authored difficulty matrix into one row of questions per table.
 */
module Questions {
  import opened Wrappers

  /** One question `table × multiplier` (the source's `by`): its authored difficulty and its play history.
      Timestamps are milliseconds since the epoch, `None` when never set. */
  datatype Question = Question(
    table: int,
    multiplier: int,
    difficulty: int,
    tried: int,
    correct: int,
    lastTried: Option<int>,
    lastCorrect: Option<int>)

  /** A question that has never been asked: both counters at zero, no timestamps. */
  function Fresh(table: int, multiplier: int, difficulty: int): Question
  {
    Question(table, multiplier, difficulty, 0, 0, None, None)
  }

  /** The authored difficulties: row `table - 2`, column `multiplier - 2`. */
  const DifficultyArrays: seq<seq<int>> := [
    [1, 2, 2, 3, 4, 5, 6, 7],          // 2
    [1, 2, 4, 5, 7, 12, 11, 13],       // 3
    [2, 5, 7, 6, 11, 12, 13, 14],      // 4
    [3, 4, 5, 7, 6, 9, 8, 10],         // 5
    [4, 5, 8, 7, 8, 9, 12, 18],        // 6
    [9, 11, 12, 13, 10, 15, 16, 17],   // 7
    [6, 11, 12, 13, 14, 17, 18, 19],   // 8
    [15, 19, 20, 21, 22, 25, 24, 23]   // 9
  ]

  /** The default largest table (and largest multiplier). */
  const DefaultMaxTable: int := 9

  /** How many tables, and how many questions per table, the builder makes:
      one for each of 2, 3, ..., maxTable. */
  function Span(maxTable: int): nat
  {
    if maxTable < 2 then 0 else maxTable - 1
  }

  /** The matrix has an entry at every index (table - 2, multiplier - 2) the builder reads. */
  predicate Covers(m: seq<seq<int>>, maxTable: int)
  {
    && Span(maxTable) <= |m|
    && forall i :: 0 <= i < Span(maxTable) ==> Span(maxTable) <= |m[i]|
  }

  /** What the builder promises: row `i` holds table `i + 2`, and within it
      column `j` is the fresh question `(i + 2) × (j + 2)` with difficulty `m[i][j]`. */
  ghost predicate IsQuestionSet(m: seq<seq<int>>, maxTable: int, ts: seq<seq<Question>>)
    requires Covers(m, maxTable)
  {
    && |ts| == Span(maxTable)
    && forall i :: 0 <= i < |ts| ==>
         && |ts[i]| == Span(maxTable)
         && forall j :: 0 <= j < |ts[i]| ==> ts[i][j] == Fresh(i + 2, j + 2, m[i][j])
  }

  /** The inner loop: the questions of `table` for the multipliers `multiplier`..`maxTable`, ascending. */
  function Row(m: seq<seq<int>>, maxTable: int, table: int, multiplier: int): (r: seq<Question>)
    requires Covers(m, maxTable)
    requires 2 <= table <= maxTable
    requires 2 <= multiplier <= maxTable + 1
    ensures |r| == maxTable + 1 - multiplier
    ensures forall k :: 0 <= k < |r| ==> r[k] == Fresh(table, multiplier + k, m[table - 2][multiplier + k - 2])
    decreases maxTable + 1 - multiplier
  {
    if multiplier > maxTable then []
    else [Fresh(table, multiplier, m[table - 2][multiplier - 2])] + Row(m, maxTable, table, multiplier + 1)
  }

  /** The outer loop: one full row for every table from `table` to `maxTable`. */
  function Rows(m: seq<seq<int>>, maxTable: int, table: int): (r: seq<seq<Question>>)
    requires Covers(m, maxTable)
    requires 2 <= maxTable
    requires 2 <= table <= maxTable + 1
    ensures |r| == maxTable + 1 - table
    ensures forall i :: 0 <= i < |r| ==>
              && |r[i]| == maxTable - 1
              && forall j :: 0 <= j < |r[i]| ==> r[i][j] == Fresh(table + i, j + 2, m[table + i - 2][j])
    decreases maxTable + 1 - table
  {
    if table > maxTable then []
    else [Row(m, maxTable, table, 2)] + Rows(m, maxTable, table + 1)
  }

  /** All question rows for tables 2..maxTable; empty when maxTable < 2. */
  function GetTables(m: seq<seq<int>>, maxTable: int): (r: seq<seq<Question>>)
    requires Covers(m, maxTable)
    ensures IsQuestionSet(m, maxTable, r)
  {
    if maxTable < 2 then [] else Rows(m, maxTable, 2)
  }

  /** The question for `table × multiplier` sits at `[table - 2][multiplier - 2]` and carries exactly
      that table, that multiplier, the matrix's difficulty and zeroed history. */
  lemma GetTablesLookup(m: seq<seq<int>>, maxTable: int, table: int, multiplier: int)
    requires Covers(m, maxTable)
    requires 2 <= table <= maxTable && 2 <= multiplier <= maxTable
    ensures table - 2 < |GetTables(m, maxTable)|
    ensures multiplier - 2 < |GetTables(m, maxTable)[table - 2]|
    ensures GetTables(m, maxTable)[table - 2][multiplier - 2] == Fresh(table, multiplier, m[table - 2][multiplier - 2])
  {
  }

  /** Rows are ordered by table and each row by ascending multiplier, so
      `(table, multiplier)` is a unique key of the question set. */
  lemma GetTablesOrdered(m: seq<seq<int>>, maxTable: int)
    requires Covers(m, maxTable)
    ensures forall i1, j1, i2, j2 ::
              0 <= i1 < |GetTables(m, maxTable)| && 0 <= j1 < |GetTables(m, maxTable)[i1]| &&
              0 <= i2 < |GetTables(m, maxTable)| && 0 <= j2 < |GetTables(m, maxTable)[i2]| ==>
                && (i1 < i2 ==> GetTables(m, maxTable)[i1][j1].table < GetTables(m, maxTable)[i2][j2].table)
                && (i1 == i2 && j1 < j2 ==> GetTables(m, maxTable)[i1][j1].multiplier < GetTables(m, maxTable)[i2][j2].multiplier)
  {
  }

  /** Every authored difficulty lies in 1..25. */
  lemma DifficultyArraysInRange()
    ensures |DifficultyArrays| == 8
    ensures forall i :: 0 <= i < 8 ==> |DifficultyArrays[i]| == 8
    ensures forall i, j :: 0 <= i < 8 && 0 <= j < 8 ==> 1 <= DifficultyArrays[i][j] <= 25
  {
  }

  /** The default matrix covers every index the default builder reads. */
  lemma DefaultCovers()
    ensures Covers(DifficultyArrays, DefaultMaxTable)
  {
  }

  /** The default question set: 8 rows of 8, tables and multipliers 2..9,
      difficulties from the matrix and hence in 1..25, all history zeroed. */
  lemma DefaultTablesShape()
    ensures Covers(DifficultyArrays, DefaultMaxTable)
    ensures |GetTables(DifficultyArrays, DefaultMaxTable)| == 8
    ensures forall i :: 0 <= i < 8 ==> |GetTables(DifficultyArrays, DefaultMaxTable)[i]| == 8
    ensures forall i, j :: 0 <= i < 8 && 0 <= j < 8 ==>
              var q := GetTables(DifficultyArrays, DefaultMaxTable)[i][j];
              && q.table == i + 2 && q.multiplier == j + 2
              && q.difficulty == DifficultyArrays[i][j]
              && 1 <= q.difficulty <= 25
              && q.tried == 0 && q.correct == 0
              && q.lastTried == None && q.lastCorrect == None
  {
    DefaultCovers();
    DifficultyArraysInRange();
  }

  /** Two sample entries: `2 × 2` has difficulty 1 and `9 × 9` has difficulty 23. */
  lemma DefaultTablesCorners()
    ensures Covers(DifficultyArrays, DefaultMaxTable)
    ensures |GetTables(DifficultyArrays, DefaultMaxTable)| == 8
    ensures |GetTables(DifficultyArrays, DefaultMaxTable)[0]| == 8
    ensures |GetTables(DifficultyArrays, DefaultMaxTable)[7]| == 8
    ensures GetTables(DifficultyArrays, DefaultMaxTable)[0][0].difficulty == 1
    ensures GetTables(DifficultyArrays, DefaultMaxTable)[7][7].difficulty == 23
  {
  }
}
