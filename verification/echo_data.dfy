/**
 * Echo-data generation: the target series is the input series delayed by
 * echo_step positions with zeros shifted in, and both series are laid out
 * row-major as batch_size rows.  The random bits are a parameter.
 */
module EchoData {
  import opened Wrappers
  import opened Hyperparams

  type Matrix = seq<seq<int>>

  predicate IsBinary(s: seq<int>) {
    forall t :: 0 <= t < |s| ==> s[t] == 0 || s[t] == 1
  }

  /** Reference definition of the target: the input delayed by k, zero before k. */
  function Echo(x: seq<int>, k: nat): seq<int> {
    seq(|x|, t requires 0 <= t < |x| => if t < k then 0 else x[t - k])
  }

  /**
   * np.roll on a one-dimensional array: the last k mod n elements move to the
   * front, and every other element moves k mod n places to the right.
   */
  function Roll(x: seq<int>, k: nat): (r: seq<int>)
    ensures |r| == |x|
    ensures x != [] && k < |x| ==> r[k..] == x[..|x| - k] && r[..k] == x[|x| - k..]
    ensures x != [] ==> forall t :: 0 <= t < |x| ==> r[(t + k) % |x|] == x[t]
  {
    if x == [] then x
    else
      var s := k % |x|;
      var r := x[|x| - s..] + x[..|x| - s];
      assert k < |x| ==> s == k by { if k < |x| { ModUnique(k, |x|, 0, k); } }
      assert forall t :: 0 <= t < |x| ==> r[(t + k) % |x|] == x[t] by {
        forall t | 0 <= t < |x| ensures r[(t + k) % |x|] == x[t] { RollIndex(|x|, k, t); }
      }
      r
  }

  /** Where element t lands after a rotation by k: t + k mod n, written without a division. */
  lemma RollIndex(n: nat, k: nat, t: nat)
    requires 0 < n && t < n
    ensures (t + k) % n == if t + k % n < n then t + k % n else t + k % n - n
  {
    var q, s := k / n, k % n;
    assert k == q * n + s;
    if t + s < n {
      ModUnique(t + k, n, q, t + s);
    } else {
      assert t + k == (q + 1) * n + (t + s - n);
      ModUnique(t + k, n, q + 1, t + s - n);
    }
  }

  /** The remainder is determined by any quotient-remainder decomposition. */
  lemma ModUnique(a: nat, n: nat, q: nat, s: nat)
    requires 0 < n && s < n && a == q * n + s
    ensures a % n == s
  {
    var d := a / n - q;
    assert a == (a / n) * n + a % n;
    assert d * n == s - a % n;
    if d > 0 {
      MulAtLeast(d, n);
    } else if d < 0 {
      MulAtLeast(-d, n);
    }
  }

  lemma MulAtLeast(d: int, n: nat)
    requires d > 0
    ensures d * n >= n
  {
  }

  /**
   * y = np.roll(x, echo_step); y[0:echo_step] = 0.  The slice assignment
   * overwrites, in place, exactly the positions the roll filled with
   * elements wrapped around from the end of x.
   */
  method EchoTarget(x: seq<int>, echoStep: nat) returns (y: seq<int>)
    ensures y == Echo(x, echoStep)
    ensures |y| == |x|
    ensures forall t :: 0 <= t < |x| && t < echoStep ==> y[t] == 0
    ensures forall t :: echoStep <= t < |x| ==> y[t] == x[t - echoStep]
    ensures IsBinary(x) ==> IsBinary(y)
  {
    var rolled := Roll(x, echoStep);
    var a := new int[|rolled|](j requires 0 <= j < |rolled| => rolled[j]);
    // a Python slice bound past the end stops at the end
    var stop := if echoStep < a.Length then echoStep else a.Length;
    forall j | 0 <= j < stop {
      a[j] := 0;
    }
    y := a[..];
    assert forall t :: echoStep <= t < |x| ==> y[t] == rolled[echoStep..][t - echoStep];
  }

  /** Position in the flat series of entry (row, col) of a row-major layout with rows of length width. */
  function SeriesIndex(row: int, col: int, width: int): int {
    row * width + col
  }

  /** numpy's reshape((rows, -1)): rows equal rows, filled row-major. */
  function Reshape(s: seq<int>, rows: nat): (r: Result<Matrix>)
    ensures r.Ok? <==> rows > 0 && |s| % rows == 0
    ensures r.Ok? ==> |r.value| == rows && |s| == rows * (|s| / rows)
    ensures r.Ok? ==> forall i :: 0 <= i < rows ==> |r.value[i]| == |s| / rows
    ensures r.Ok? ==> forall i, j :: 0 <= i < rows && 0 <= j < |s| / rows ==>
      0 <= SeriesIndex(i, j, |s| / rows) < |s| && r.value[i][j] == s[SeriesIndex(i, j, |s| / rows)]
  {
    if rows == 0 || |s| % rows != 0 then
      Err("cannot reshape array into shape (rows, -1)")
    else
      var w := |s| / rows;
      ExactDivision(|s|, rows);
      var m := Rows(s, rows, w);
      RowsLayout(s, rows, w);
      Ok(m)
  }

  lemma ExactDivision(n: nat, d: nat)
    requires d > 0 && n % d == 0
    ensures n == d * (n / d)
  {
  }

  lemma RowFits(i: int, rows: nat, w: nat)
    requires 0 <= i < rows
    ensures 0 <= i * w <= i * w + w <= rows * w
  {
    assert i * w + w == (i + 1) * w;
    assert (i + 1) * w <= rows * w;
  }

  /** The series cut into rows consecutive blocks of w elements. */
  function Rows(s: seq<int>, rows: nat, w: nat): (m: Matrix)
    requires |s| == rows * w
    ensures |m| == rows
    ensures forall i :: 0 <= i < rows ==> i * w + w <= |s| && m[i] == s[i * w .. i * w + w]
  {
    var m := seq(rows, i requires 0 <= i < rows => RowFits(i, rows, w); s[i * w .. i * w + w]);
    forall i | 0 <= i < rows ensures i * w + w <= |s| && m[i] == s[i * w .. i * w + w] {
      RowFits(i, rows, w);
    }
    m
  }

  lemma RowsLayout(s: seq<int>, rows: nat, w: nat)
    requires |s| == rows * w
    ensures forall i :: 0 <= i < rows ==> |Rows(s, rows, w)[i]| == w
    ensures forall i, j :: 0 <= i < rows && 0 <= j < w ==>
      0 <= SeriesIndex(i, j, w) < |s| && Rows(s, rows, w)[i][j] == s[SeriesIndex(i, j, w)]
  {
    var m := Rows(s, rows, w);
    forall i | 0 <= i < rows ensures |m[i]| == w {
      RowFits(i, rows, w);
    }
    forall i, j | 0 <= i < rows && 0 <= j < w
      ensures 0 <= SeriesIndex(i, j, w) < |s| && m[i][j] == s[SeriesIndex(i, j, w)]
    {
      RowFits(i, rows, w);
      assert m[i] == s[i * w .. i * w + w];
    }
  }

  /** Row-major flattening (the inverse of Reshape): the rows one after another. */
  function Flatten<T>(m: seq<seq<T>>): seq<T> {
    if m == [] then [] else m[0] + Flatten(m[1..])
  }

  /** Flattening one more row appends that row. */
  lemma {:induction false} FlattenAppend<T>(m: seq<seq<T>>, row: seq<T>)
    ensures Flatten(m + [row]) == Flatten(m) + row
  {
    if m == [] {
      assert [] + [row] == [row];
      assert [row][1..] == [];
    } else {
      assert (m + [row])[1..] == m[1..] + [row];
      FlattenAppend(m[1..], row);
    }
  }

  /** A flattened matrix is as long as its rows put together. */
  lemma {:induction false} FlattenLength<T>(m: seq<seq<T>>, width: nat)
    requires forall i :: 0 <= i < |m| ==> |m[i]| == width
    ensures |Flatten(m)| == |m| * width
  {
    if m != [] {
      FlattenLength(m[1..], width);
    }
  }

  /** Reshaping never loses or reorders data: flattening the rows gives the series back. */
  lemma ReshapeRoundTrip(s: seq<int>, rows: nat)
    requires Reshape(s, rows).Ok?
    ensures Flatten(Reshape(s, rows).value) == s
  {
    var m := Reshape(s, rows).value;
    var w := |s| / rows;
    assert |s| == rows * w;
    FlattenBlocks(s, m, w, 0);
  }

  lemma {:induction false} FlattenBlocks(s: seq<int>, m: Matrix, w: nat, from: nat)
    requires from <= |m| && |s| == |m| * w
    requires forall i :: 0 <= i < |m| ==> i * w + w <= |s| && m[i] == s[i * w .. i * w + w]
    ensures from * w <= |s| && Flatten(m[from..]) == s[from * w ..]
    decreases |m| - from
  {
    if from == |m| {
      assert m[from..] == [];
    } else {
      var a := from * w;
      var b := a + w;
      assert b == (from + 1) * w;
      assert m[from] == s[a .. b];
      FlattenBlocks(s, m, w, from + 1);
      assert m[from..][1..] == m[from + 1..];
      assert s[a..] == s[a .. b] + s[b..];
    }
  }

  /** Both series of one epoch, as the batch_size x (L / batch_size) matrices the script trains on. */
  datatype Batched = Batched(x: Matrix, y: Matrix)

  /** What generateData returns for the given bits, as a function of them. */
  function Generated(cfg: Config, bits: seq<int>): Result<Batched> {
    match (Reshape(bits, cfg.batchSize), Reshape(Echo(bits, cfg.echoStep), cfg.batchSize))
    case (Ok(x), Ok(y)) => Ok(Batched(x, y))
    case (Err(e), _) => Err(e)
    case (_, Err(e)) => Err(e)
  }

  /**
   * generateData with the bits drawn by np.random.choice(2, total_series_length)
   * given as a parameter.  Fails exactly when reshape fails.
   */
  method GenerateData(cfg: Config, bits: seq<int>) returns (r: Result<Batched>)
    requires |bits| == cfg.totalSeriesLength
    ensures r == Generated(cfg, bits)
    ensures r.Ok? <==> cfg.batchSize > 0 && cfg.totalSeriesLength % cfg.batchSize == 0
    ensures r.Ok? ==> |r.value.x| == |r.value.y| == cfg.batchSize
    ensures r.Ok? ==> forall i :: 0 <= i < cfg.batchSize ==>
      |r.value.x[i]| == |r.value.y[i]| == RowLength(cfg)
    ensures r.Ok? ==> forall i, j :: 0 <= i < cfg.batchSize && 0 <= j < RowLength(cfg) ==>
      var t := SeriesIndex(i, j, RowLength(cfg));
      0 <= t < |bits| && r.value.x[i][j] == bits[t] &&
      r.value.y[i][j] == (if t < cfg.echoStep then 0 else bits[t - cfg.echoStep])
    ensures r.Ok? && IsBinary(bits) ==> forall i :: 0 <= i < cfg.batchSize ==>
      IsBinary(r.value.x[i]) && IsBinary(r.value.y[i])
  {
    var y := EchoTarget(bits, cfg.echoStep);
    var xm := Reshape(bits, cfg.batchSize);
    var ym := Reshape(y, cfg.batchSize);
    if xm.Err? {
      return Err(xm.message);
    }
    r := Ok(Batched(xm.value, ym.value));
  }

  /**
   * Row-major layout and the echo together: for every row after the first,
   * the first echo_step targets echo the last inputs of the row above, so a
   * row's own inputs never contain them.
   */
  lemma EchoCrossesRows(cfg: Config, bits: seq<int>, i: nat, j: nat)
    requires |bits| == cfg.totalSeriesLength
    requires Generated(cfg, bits).Ok?
    requires 0 < i < cfg.batchSize && j < cfg.echoStep <= RowLength(cfg)
    ensures RowLength(cfg) - cfg.echoStep + j < RowLength(cfg)
    ensures SeriesIndex(i, j, RowLength(cfg)) - cfg.echoStep == SeriesIndex(i - 1, RowLength(cfg) - cfg.echoStep + j, RowLength(cfg))
    ensures Generated(cfg, bits).value.y[i][j] == Generated(cfg, bits).value.x[i - 1][RowLength(cfg) - cfg.echoStep + j]
  {
    var w, k := RowLength(cfg), cfg.echoStep;
    var b := Generated(cfg, bits).value;
    assert |Echo(bits, k)| == |bits|;
    assert b.x == Reshape(bits, cfg.batchSize).value;
    assert b.y == Reshape(Echo(bits, k), cfg.batchSize).value;
    var above := (i - 1) * w;
    assert above + w == i * w;
    assert SeriesIndex(i, j, w) - k == SeriesIndex(i - 1, w - k + j, w);
  }
}
