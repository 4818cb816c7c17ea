/** The time history of a rigid body: a table of rows, one per recorded sample,
    whose columns are the time and the 18 kinematic and attitude quantities. */
module History {

  /** One recorded sample: one value per column. */
  type Row = seq<real>

  /** Number of columns of every row. */
  const Width: nat := 19

  /** Column index of each recorded quantity, by name. */
  const Didx: map<string, nat> := map[
    "t" := 0, "x" := 1, "y" := 2, "z" := 3,
    "vx" := 4, "vy" := 5, "vz" := 6,
    "ax" := 7, "ay" := 8, "az" := 9,
    "phi" := 10, "theta" := 11, "psi" := 12,
    "p" := 13, "q" := 14, "r" := 15,
    "p_dot" := 16, "q_dot" := 17, "r_dot" := 18]

  /** The quantities in the order a stored row lists them. */
  const Order: seq<string> := [
    "t", "x", "y", "z",
    "vx", "vy", "vz",
    "ax", "ay", "az",
    "phi", "theta", "psi",
    "p", "q", "r",
    "p_dot", "q_dot", "r_dot"]

  /** The index table and the row order describe the same layout: every
      position of a row carries the name whose index is that position, and
      every named index is a position of a row holding that name. */
  lemma DidxMatchesOrder()
    ensures |Order| == Width
    ensures forall i | 0 <= i < Width :: Order[i] in Didx && Didx[Order[i]] == i
    ensures forall name | name in Didx :: Didx[name] < Width && Order[Didx[name]] == name
  {
  }

  /** Every row has one value per column. */
  predicate Rectangular(data: seq<Row>)
  {
    forall i | 0 <= i < |data| :: |data[i]| == Width
  }

  /** The row the buffer starts with: every column zero. */
  function ZeroRow(): (z: Row)
    ensures |z| == Width
    ensures forall j | 0 <= j < Width :: z[j] == 0.0
  {
    seq(Width, _ => 0.0)
  }

  /** A new history: the single all-zero row. */
  function Initial(): (data: seq<Row>)
    ensures |data| == 1 && data[0] == ZeroRow()
    ensures Rectangular(data)
  {
    [ZeroRow()]
  }

  /** The history after one more sample is recorded: every earlier row is
      kept as it was and `row` follows them. */
  function Append(data: seq<Row>, row: Row): (d: seq<Row>)
    ensures |d| == |data| + 1
    ensures d[..|data|] == data
    ensures d[|data|] == row
  {
    data + [row]
  }

  /** Appending a full-width row keeps every row full width. */
  lemma AppendKeepsRectangular(data: seq<Row>, row: Row)
    requires Rectangular(data) && |row| == Width
    ensures Rectangular(Append(data, row))
  {
  }

  /** The history after recording `rows` one at a time, in call order. */
  function Replay(data: seq<Row>, rows: seq<Row>): seq<Row>
    decreases |rows|
  {
    if rows == [] then data else Replay(Append(data, rows[0]), rows[1..])
  }

  /** Recording row by row never touches the earlier rows and lays the new
      rows down in call order after them. */
  lemma {:induction false} ReplayAppendsInOrder(data: seq<Row>, rows: seq<Row>)
    ensures |Replay(data, rows)| == |data| + |rows|
    ensures Replay(data, rows)[..|data|] == data
    ensures forall k | 0 <= k < |rows| :: Replay(data, rows)[|data| + k] == rows[k]
    decreases |rows|
  {
    if rows != [] {
      var d := Append(data, rows[0]);
      ReplayAppendsInOrder(d, rows[1..]);
      var h := Replay(data, rows);
      assert h == Replay(d, rows[1..]);
      assert h[..|data|] == h[..|d|][..|data|];
      forall k | 0 <= k < |rows|
        ensures h[|data| + k] == rows[k]
      {
        if k > 0 {
          assert h[|d| + (k - 1)] == rows[1..][k - 1];
        } else {
          assert h[|data|] == h[..|d|][|data|];
        }
      }
    }
  }

  /** Recording a list of rows and then one more is recording the longer list. */
  lemma {:induction false} ReplaySnoc(data: seq<Row>, rows: seq<Row>, row: Row)
    ensures Replay(data, rows + [row]) == Append(Replay(data, rows), row)
    decreases |rows|
  {
    if rows == [] {
      assert rows + [row] == [row];
      assert [row][1..] == [];
    } else {
      assert (rows + [row])[0] == rows[0];
      assert (rows + [row])[1..] == rows[1..] + [row];
      ReplaySnoc(Append(data, rows[0]), rows[1..], row);
    }
  }

  /** After n full-width rows are recorded into a new history there are
      n + 1 rows, all full width, row 0 is still all zero and row k + 1 is
      the k-th recorded row. */
  lemma ReplayFromInitial(rows: seq<Row>)
    requires Rectangular(rows)
    ensures |Replay(Initial(), rows)| == |rows| + 1
    ensures Replay(Initial(), rows)[0] == ZeroRow()
    ensures forall k | 0 <= k < |rows| :: Replay(Initial(), rows)[k + 1] == rows[k]
    ensures Rectangular(Replay(Initial(), rows))
  {
    ReplayAppendsInOrder(Initial(), rows);
    var h := Replay(Initial(), rows);
    assert h[0] == h[..1][0];
    forall i | 0 <= i < |h|
      ensures |h[i]| == Width
    {
      if i > 0 {
        assert h[1 + (i - 1)] == rows[i - 1];
      }
    }
  }
}
