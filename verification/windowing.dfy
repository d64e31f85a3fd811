/**
 * Truncated windowing: each row of the batched series is cut into
 * num_batches consecutive windows of truncated_backprop_length columns;
 * columns after the last whole window are never used.
 */
module Windowing {
  import opened Hyperparams
  import opened EchoData

  /** Every row of m has exactly width entries. */
  predicate Rectangular(m: Matrix, width: nat) {
    forall r :: 0 <= r < |m| ==> |m[r]| == width
  }

  /**
   * Python's s[lo:hi] for non-negative bounds: a bound past the end stops at
   * the end, and a slice whose start is not before its end is empty.
   */
  function Slice<T>(s: seq<T>, lo: nat, hi: nat): (r: seq<T>)
    ensures lo <= hi <= |s| ==> r == s[lo..hi]
    ensures hi <= lo || |s| <= lo ==> r == []
    ensures lo <= |s| < hi ==> r == s[lo..]
  {
    var a := if lo < |s| then lo else |s|;
    var b := if hi < |s| then hi else |s|;
    if a <= b then s[a..b] else []
  }

  /** start_idx = batch_idx * truncated_backprop_length */
  function StartIdx(batchIdx: nat, tbl: nat): nat {
    batchIdx * tbl
  }

  /** end_idx = start_idx + truncated_backprop_length: a window is tbl wide and ends where the next one starts. */
  function EndIdx(batchIdx: nat, tbl: nat): (e: nat)
    ensures e - StartIdx(batchIdx, tbl) == tbl
    ensures e == StartIdx(batchIdx + 1, tbl)
  {
    StartIdx(batchIdx, tbl) + tbl
  }

  /** x[:, lo:hi], the same column range of every row. */
  function SliceColumns(m: Matrix, lo: nat, hi: nat): (w: Matrix)
    ensures |w| == |m|
  {
    seq(|m|, r requires 0 <= r < |m| => Slice(m[r], lo, hi))
  }

  /** Window batchIdx of the batched series, x[:, start_idx:end_idx]. */
  function Window(m: Matrix, batchIdx: nat, tbl: nat): Matrix {
    SliceColumns(m, StartIdx(batchIdx, tbl), EndIdx(batchIdx, tbl))
  }

  /** Every window the training loop asks for ends inside the row. */
  lemma WindowInRange(cfg: Config, batchIdx: nat)
    requires cfg.batchSize > 0 && cfg.truncatedBackpropLength > 0
    requires batchIdx < NumBatches(cfg)
    ensures EndIdx(batchIdx, cfg.truncatedBackpropLength) <= RowLength(cfg)
  {
    var t := cfg.truncatedBackpropLength;
    assert EndIdx(batchIdx, t) == StartIdx(batchIdx + 1, t);
    MulMonotone(batchIdx + 1, NumBatches(cfg), t);
  }

  lemma {:induction false} MulMonotone(a: nat, b: nat, t: nat)
    requires a <= b
    ensures a * t <= b * t
    decreases b - a
  {
    if a < b {
      MulMonotone(a, b - 1, t);
      assert (b - 1) * t + t == b * t;
    }
  }

  /**
   * A window that ends inside the rows is full width: row r of window
   * batchIdx holds columns start_idx .. end_idx - 1 of row r.
   */
  lemma WindowContents(m: Matrix, width: nat, batchIdx: nat, tbl: nat)
    requires Rectangular(m, width)
    requires EndIdx(batchIdx, tbl) <= width
    ensures |Window(m, batchIdx, tbl)| == |m|
    ensures Rectangular(Window(m, batchIdx, tbl), tbl)
    ensures forall r, j :: 0 <= r < |m| && 0 <= j < tbl ==>
      Window(m, batchIdx, tbl)[r][j] == m[r][StartIdx(batchIdx, tbl) + j]
  {
  }

  /** The first k columns of every row, x[:, :k]. */
  function TakeColumns(m: Matrix, k: nat): (w: Matrix)
    ensures |w| == |m|
  {
    SliceColumns(m, 0, k)
  }

  /** The first n windows put side by side again. */
  function Joined(m: Matrix, tbl: nat, n: nat): (j: Matrix)
    ensures |j| == |m|
  {
    if n == 0 then seq(|m|, r => [])
    else
      var prev, w := Joined(m, tbl, n - 1), Window(m, n - 1, tbl);
      seq(|m|, r requires 0 <= r < |m| => prev[r] + w[r])
  }

  /**
   * The windows are contiguous and do not overlap: putting the first n of
   * them side by side gives exactly the first n * tbl columns.
   */
  lemma {:induction false} WindowsTile(m: Matrix, width: nat, tbl: nat, n: nat)
    requires Rectangular(m, width)
    requires n * tbl <= width
    ensures Joined(m, tbl, n) == TakeColumns(m, n * tbl)
  {
    if n > 0 {
      var lo, hi := StartIdx(n - 1, tbl), EndIdx(n - 1, tbl);
      assert lo == (n - 1) * tbl && hi == n * tbl;
      WindowsTile(m, width, tbl, n - 1);
      var prev, w := Joined(m, tbl, n - 1), Window(m, n - 1, tbl);
      forall r | 0 <= r < |m| ensures Joined(m, tbl, n)[r] == TakeColumns(m, hi)[r] {
        assert prev[r] == m[r][..lo] && w[r] == m[r][lo..hi];
        assert m[r][..hi] == m[r][..lo] + m[r][lo..hi];
      }
    }
  }

  /**
   * One epoch's windows cover a prefix of every row, and what they leave
   * out is shorter than one window.
   */
  lemma WindowsCoverRows(cfg: Config, m: Matrix)
    requires WellFormed(cfg)
    requires Rectangular(m, RowLength(cfg))
    ensures Joined(m, cfg.truncatedBackpropLength, NumBatches(cfg))
         == TakeColumns(m, NumBatches(cfg) * cfg.truncatedBackpropLength)
    ensures 0 <= RowLength(cfg) - NumBatches(cfg) * cfg.truncatedBackpropLength < cfg.truncatedBackpropLength
  {
    WindowsTile(m, RowLength(cfg), cfg.truncatedBackpropLength, NumBatches(cfg));
  }

  /**
   * tf.unpack(batch, axis=1): the list of the first width columns, column t
   * holding entry t of every row.
   */
  function Columns(m: Matrix, width: nat): (cols: seq<seq<int>>)
    requires forall r :: 0 <= r < |m| ==> width <= |m[r]|
    ensures |cols| == width
    ensures forall t :: 0 <= t < width ==> |cols[t]| == |m|
  {
    seq(width, t requires 0 <= t < width => seq(|m|, r requires 0 <= r < |m| => m[r][t]))
  }

  /** The columns of a window are the matching stretch of the columns of the whole matrix. */
  lemma WindowColumns(m: Matrix, width: nat, batchIdx: nat, tbl: nat)
    requires Rectangular(m, width)
    requires EndIdx(batchIdx, tbl) <= width
    ensures Rectangular(Window(m, batchIdx, tbl), tbl)
    ensures Columns(Window(m, batchIdx, tbl), tbl)
         == Columns(m, width)[StartIdx(batchIdx, tbl) .. EndIdx(batchIdx, tbl)]
  {
    WindowContents(m, width, batchIdx, tbl);
    var w := Window(m, batchIdx, tbl);
    var lo := StartIdx(batchIdx, tbl);
    forall t | 0 <= t < tbl
      ensures Columns(w, tbl)[t] == Columns(m, width)[lo + t]
    {
    }
  }

  /** The columns of the first n windows are those of the first n - 1 windows followed by those of window n - 1. */
  lemma ColumnsSplit(m: Matrix, width: nat, tbl: nat, n: nat)
    requires Rectangular(m, width)
    requires 0 < n && n * tbl <= width
    ensures (n - 1) * tbl <= n * tbl
    ensures Rectangular(Window(m, n - 1, tbl), tbl)
    ensures Columns(m, width)[..n * tbl] == Columns(m, width)[..(n - 1) * tbl] + Columns(Window(m, n - 1, tbl), tbl)
  {
    var lo, hi := StartIdx(n - 1, tbl), EndIdx(n - 1, tbl);
    assert lo == (n - 1) * tbl && hi == n * tbl;
    WindowColumns(m, width, n - 1, tbl);
    var cols := Columns(m, width);
    assert cols[..hi] == cols[..lo] + cols[lo..hi];
  }
}
