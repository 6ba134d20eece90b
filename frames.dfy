/**
 * A pandas DataFrame as the forecasting code uses it: named columns over
 * rows of cells, where a cell is a number, a text label, a date, or missing
 * (NaN, None or NaT).
 */
module Frames {
  import opened Calendar

  datatype Cell = Num(x: real) | Text(s: string) | When(d: Date) | Missing

  type Row = map<string, Cell>

  /** The value of column `col` in a row, missing when the row has no such column. */
  function Get(row: Row, col: string): Cell {
    if col in row then row[col] else Missing
  }

  datatype Frame = Frame(columns: set<string>, rows: seq<Row>)

  /** Every row has exactly the frame's columns. */
  predicate WellFormed(f: Frame) {
    forall i | 0 <= i < |f.rows| :: f.rows[i].Keys == f.columns
  }

  /** `df[col]`, as a sequence of cells. */
  function Column(f: Frame, col: string): (c: seq<Cell>)
    ensures |c| == |f.rows|
  {
    seq(|f.rows|, i requires 0 <= i < |f.rows| => Get(f.rows[i], col))
  }

  /** The columns of `pd.DataFrame(records)`: the keys of all the records together. */
  function KeysOf(records: seq<Row>): set<string> {
    if records == [] then {} else records[0].Keys + KeysOf(records[1..])
  }

  /** A key is a column of `pd.DataFrame(records)` exactly when some record has it. */
  lemma {:induction false} KeysOfRecords(records: seq<Row>)
    ensures forall i, k | 0 <= i < |records| && k in records[i] :: k in KeysOf(records)
    ensures forall k | k in KeysOf(records) :: exists i :: 0 <= i < |records| && k in records[i]
  {
    if records != [] {
      KeysOfRecords(records[1..]);
      forall i, k | 0 <= i < |records| && k in records[i] ensures k in KeysOf(records) {
        if i > 0 {
          assert records[1..][i - 1] == records[i];
        }
      }
      forall k | k in KeysOf(records) ensures exists i :: 0 <= i < |records| && k in records[i] {
        if k !in records[0] {
          assert k in KeysOf(records[1..]);
          var j :| 0 <= j < |records[1..]| && k in records[1..][j];
          assert records[j + 1] == records[1..][j];
        }
      }
    }
  }

  /** `pd.DataFrame(records)` for a list of dicts: a key a record lacks becomes NaN. */
  function FromRecords(records: seq<Row>): (f: Frame)
    ensures WellFormed(f) && |f.rows| == |records|
    ensures forall i, k | 0 <= i < |records| && k in records[i] :: Get(f.rows[i], k) == records[i][k]
  {
    var cols := KeysOf(records);
    KeysOfRecords(records);
    Frame(cols, seq(|records|, i requires 0 <= i < |records| => map k | k in cols :: Get(records[i], k)))
  }

  /** The frame's columns are the keys of all the records, and a key a record lacks is a missing cell in its row. */
  lemma FromRecordsFillsMissing(records: seq<Row>)
    ensures var f := FromRecords(records);
            && (forall k :: k in f.columns <==> exists i :: 0 <= i < |records| && k in records[i])
            && forall i, k | 0 <= i < |records| && k in f.columns && k !in records[i] :: f.rows[i][k] == Missing
  {
    KeysOfRecords(records);
  }

  /** A frame built from records that all have the same keys holds exactly those records. */
  lemma FromUniformRecords(records: seq<Row>, keys: set<string>)
    requires |records| > 0
    requires forall i | 0 <= i < |records| :: records[i].Keys == keys
    ensures FromRecords(records).columns == keys
    ensures FromRecords(records).rows == records
  {
    var f := FromRecords(records);
    KeysOfRecords(records);
    assert records[0].Keys == keys;
    forall i | 0 <= i < |records| ensures f.rows[i] == records[i] {
      assert f.rows[i].Keys == records[i].Keys;
    }
  }

  /** `df[col] = values`: adds the column, or overwrites it. */
  function WithColumn(f: Frame, col: string, values: seq<Cell>): (g: Frame)
    requires |values| == |f.rows|
    ensures g.columns == f.columns + {col} && |g.rows| == |f.rows|
  {
    Frame(f.columns + {col}, seq(|f.rows|, i requires 0 <= i < |f.rows| => f.rows[i][col := values[i]]))
  }

  /** `df[names]`: the selected columns of every row, in the order of `names`. */
  function Select(f: Frame, names: seq<string>): (m: seq<seq<Cell>>)
    ensures |m| == |f.rows|
    ensures forall i | 0 <= i < |m| :: |m[i]| == |names|
  {
    seq(|f.rows|, i requires 0 <= i < |f.rows| =>
      seq(|names|, j requires 0 <= j < |names| => Get(f.rows[i], names[j])))
  }
}
