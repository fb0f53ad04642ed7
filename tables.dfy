/**
 * A pandas data frame as the table filters see it: named columns, and rows mapping each
 * column name to a cell. A cell is text, a number, a boolean, or missing (NaN / None).
 */
module Tables {
  import opened Wrappers
  import opened Seqs

  datatype Cell = Missing | Text(s: string) | Num(x: real) | Flag(b: bool)

  type Row = map<string, Cell>

  datatype Frame = Frame(columns: seq<string>, rows: seq<Row>)

  /** Every row has a cell in every column and in no other. */
  ghost predicate WellFormed(f: Frame)
  {
    forall i, c :: 0 <= i < |f.rows| ==> (c in f.rows[i] <==> c in f.columns)
  }

  /** The cell of `row` in column `c` (missing when the row has no such column). */
  function At(row: Row, c: string): Cell
  {
    if c in row then row[c] else Missing
  }

  /** `row[cols]`: the row restricted to the columns `cols`. */
  function Project(row: Row, cols: seq<string>): (r: Row)
    ensures forall c :: c in r <==> c in cols && c in row
    ensures forall c :: c in r ==> r[c] == row[c]
  {
    map c | c in row && c in cols :: row[c]
  }

  /** `df[cols]`: a `KeyError` when one of `cols` is not a column, otherwise those columns only. */
  function Select(f: Frame, cols: seq<string>): (r: Result<Frame, PyError>)
    ensures r.Failure? <==> exists c :: c in cols && c !in f.columns
    ensures r.Failure? ==> r.error == KeyError
    ensures r.Success? ==> r.value.columns == cols && |r.value.rows| == |f.rows| &&
                           forall i :: 0 <= i < |f.rows| ==> r.value.rows[i] == Project(f.rows[i], cols)
  {
    if exists c :: c in cols && c !in f.columns then Failure(KeyError)
    else Success(Frame(cols, seq(|f.rows|, i requires 0 <= i < |f.rows| => Project(f.rows[i], cols))))
  }

  /** Selecting columns of a well-formed frame gives a well-formed frame. */
  lemma SelectWellFormed(f: Frame, cols: seq<string>)
    requires WellFormed(f) && Select(f, cols).Success?
    ensures WellFormed(Select(f, cols).value)
  {
    var r := Select(f, cols).value;
    forall i, c | 0 <= i < |r.rows| ensures c in r.rows[i] <==> c in r.columns {
      assert r.rows[i] == Project(f.rows[i], cols);
    }
  }

  /** `list(df[col])`: the cells of one column, in row order. */
  function ColumnValues(rows: seq<Row>, col: string): (r: seq<Cell>)
    ensures |r| == |rows| && forall i :: 0 <= i < |rows| ==> r[i] == At(rows[i], col)
  {
    seq(|rows|, i requires 0 <= i < |rows| => At(rows[i], col))
  }

  /**
   * The twelve catalogue columns of a Steam game: those recsys/steam_preprocess.py keeps in
   * the details table and those recsys/inference.py `get_game_info` accepts.
   */
  const GameColumns: seq<string> :=
    ["id", "title", "publisher", "developer", "genres", "url", "tags", "discount_price",
     "reviews_url", "specs", "price", "early_access"]

  /** `df["id"].isin(items)`: the row's id is one of `items` (a missing id never is). */
  function IdIn(items: seq<string>): Row -> bool
  {
    (row: Row) => At(row, "id").Text? && At(row, "id").s in items
  }
}
