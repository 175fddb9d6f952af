/** Comma-separated text as both exports build it: each line is its cells
    joined by commas, the lines are joined by line breaks, and text cells
    are wrapped in double quotes (quotes inside are not escaped). */
module Csv {
  import opened JsText
  import opened Seqs

  /** `"${v}"` */
  function Quote(v: string): string {
    "\"" + v + "\""
  }

  /** `e.join(",")` */
  function CsvLine(cells: seq<string>): string {
    Join(cells, ",")
  }

  /** `rows.map(e => e.join(",")).join("\n")` */
  function CsvText(table: seq<seq<string>>): string {
    Join(Map(table, CsvLine), "\n")
  }

  /** Splitting CSV text at line breaks gives back its lines, one per row
      of cells, when no cell holds a line break. */
  lemma CsvLines(table: seq<seq<string>>)
    requires |table| >= 1
    requires forall i, j :: 0 <= i < |table| && 0 <= j < |table[i]| ==> '\n' !in table[i][j]
    ensures SplitAny(CsvText(table), {'\n'}) == Map(table, CsvLine)
  {
    var lines := Map(table, CsvLine);
    forall i | 0 <= i < |lines| ensures '\n' !in lines[i] {
      JoinAvoids(table[i], ",", '\n');
    }
    SplitJoin(lines, '\n');
  }
}
