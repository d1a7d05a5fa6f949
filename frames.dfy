/** The part of a pandas table the back-ends rely on: its column names, rows keyed by column,
    and the per-date sum `df.groupby('Date')[col].sum()`. Cell values are integers and dates are
    opaque integer keys. */
module Frames {

  type Row = map<string, int>

  datatype Frame = Frame(columns: seq<string>, rows: seq<Row>)

  /** Every row has a cell for every column. */
  predicate Rectangular(f: Frame) {
    forall i :: 0 <= i < |f.rows| ==> forall c :: c in f.columns ==> c in f.rows[i]
  }

  type Table = f: Frame | Rectangular(f) witness Frame([], [])

  /** The rows all hold both `key` and `col`. */
  predicate HasCells(rows: seq<Row>, key: string, col: string) {
    forall i :: 0 <= i < |rows| ==> key in rows[i] && col in rows[i]
  }

  /** The distinct values of `key` over the rows. */
  function KeysOf(rows: seq<Row>, key: string): set<int>
    requires forall i :: 0 <= i < |rows| ==> key in rows[i]
  {
    if rows == [] then {} else {rows[0][key]} + KeysOf(rows[1..], key)
  }

  /** The sum of `col` over the rows whose `key` is `d`. */
  function SumWhere(rows: seq<Row>, key: string, d: int, col: string): int
    requires HasCells(rows, key, col)
  {
    if rows == [] then 0
    else (if rows[0][key] == d then rows[0][col] else 0) + SumWhere(rows[1..], key, d, col)
  }

  /** `groupby(key)[col].sum()`: one entry per distinct key, folding the rows in. */
  function GroupSum(rows: seq<Row>, key: string, col: string): map<int, int>
    requires HasCells(rows, key, col)
  {
    if rows == [] then map[]
    else
      var rest := GroupSum(rows[1..], key, col);
      var d := rows[0][key];
      rest[d := (if d in rest then rest[d] else 0) + rows[0][col]]
  }

  lemma {:induction false} SumWhereAbsent(rows: seq<Row>, key: string, d: int, col: string)
    requires HasCells(rows, key, col) && d !in KeysOf(rows, key)
    ensures SumWhere(rows, key, d, col) == 0
  {
    if rows != [] {
      SumWhereAbsent(rows[1..], key, d, col);
    }
  }

  /** The grouped sums hold exactly one entry per date that occurs, and each entry is the sum
      of the column over the rows carrying that date. */
  lemma {:induction false} GroupSumSpec(rows: seq<Row>, key: string, col: string)
    requires HasCells(rows, key, col)
    ensures GroupSum(rows, key, col).Keys == KeysOf(rows, key)
    ensures forall d :: d in GroupSum(rows, key, col) ==>
      GroupSum(rows, key, col)[d] == SumWhere(rows, key, d, col)
  {
    if rows != [] {
      var tail := rows[1..];
      GroupSumSpec(tail, key, col);
      var rest := GroupSum(tail, key, col);
      var d0 := rows[0][key];
      forall d | d in GroupSum(rows, key, col)
        ensures GroupSum(rows, key, col)[d] == SumWhere(rows, key, d, col)
      {
        if d == d0 && d0 !in rest {
          SumWhereAbsent(tail, key, d0, col);
        }
      }
    }
  }

  /** The table a grouped sum is reset into: a date column and the summed column. */
  datatype DataFrame =
    | Raw(table: Table)
    | DateSums(column: string, sums: map<int, int>)
}
