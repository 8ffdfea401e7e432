/**
 * A CSV file as `pandas.read_csv` hands it over: the header's column names and
 * the rows, each cell already in its string form (`str(cell)`, with missing
 * cells turned into '' by `fillna`). The parser itself is not modelled; a file
 * it rejects is `None` at the call sites.
 */
module Tabular {

  datatype Frame = Frame(columns: seq<string>, rows: seq<seq<string>>)

  /** pandas always produces one cell per column in every row. */
  predicate Rectangular(f: Frame) {
    forall r :: 0 <= r < |f.rows| ==> |f.rows[r]| == |f.columns|
  }
}
