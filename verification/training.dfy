/**
 * The training loop: for every epoch, fresh echo data and a zero hidden
 * state; for every window of the epoch, one session run that takes the
 * carried state in, returns the window's loss and final state, and updates
 * the parameters.  The numerics are parameters of the model (Network).
 */
module Training {
  import opened Wrappers
  import opened Hyperparams
  import opened EchoData
  import opened Windowing
  import opened Recurrence

  /**
   * The floating-point parts of the graph.  P holds W, b, W2, b2 and the
   * Adagrad accumulators; S is a batch_size x state_size hidden state.
   *  - cell: one time-step, tanh(concat(column, state) . W + b);
   *  - loss: total_loss of a window from its label window and its recorded states;
   *  - update: one Adagrad step, from the window and the state fed into it;
   *  - zero: np.zeros((batch_size, state_size)).
   */
  datatype Network<!P, !S, L> = Network(
    cell: (P, seq<int>, S) -> S,
    loss: (P, Matrix, seq<S>) -> L,
    update: (P, Matrix, Matrix, S) -> P,
    zero: S)

  /** One session run: the window it was for, the state fed in, the state returned and the loss. */
  datatype Record<S, L> = Record(epoch: nat, batchIdx: nat, entry: S, exit: S, loss: L)

  /** One progress line with its plot: the window index, its loss and loss_list so far. */
  datatype Report<L> = Report(batchIdx: nat, loss: L, lossHistory: seq<L>)

  /** Part-way through an epoch: the parameters, the carried state and the runs so far. */
  datatype EpochState<P, S, L> = EpochState(params: P, carried: S, records: seq<Record<S, L>>)

  /** After some epochs: the parameters and the runs of each epoch. */
  datatype TrainState<P, S, L> = TrainState(params: P, epochs: seq<seq<Record<S, L>>>)

  /** An epoch's data has generateData's shape: batchSize rows of the row length. */
  predicate Shaped(cfg: Config, data: Batched)
    requires cfg.batchSize > 0
  {
    && |data.x| == cfg.batchSize && Rectangular(data.x, RowLength(cfg))
    && |data.y| == cfg.batchSize && Rectangular(data.y, RowLength(cfg))
  }

  /** generateData's result for the given bits, which a well-formed configuration always reshapes. */
  function EpochData(cfg: Config, bits: seq<int>): (data: Batched)
    requires WellFormed(cfg) && |bits| == cfg.totalSeriesLength
    ensures Generated(cfg, bits) == Ok(data)
    ensures Shaped(cfg, data)
  {
    assert |Echo(bits, cfg.echoStep)| == |bits|;
    Generated(cfg, bits).value
  }

  /** What the session run for window batchIdx returns when fed parameters p and carried state s. */
  function WindowOutcome<P, S, L>(net: Network<P, S, L>, cfg: Config, data: Batched, epoch: nat, batchIdx: nat,
                                  p: P, s: S): (P, Record<S, L>)
    requires WellFormed(cfg) && Shaped(cfg, data) && batchIdx < NumBatches(cfg)
  {
    var tbl := cfg.truncatedBackpropLength;
    WindowInRange(cfg, batchIdx);
    WindowContents(data.x, RowLength(cfg), batchIdx, tbl);
    var batchX, batchY := Window(data.x, batchIdx, tbl), Window(data.y, batchIdx, tbl);
    var inputs := Columns(batchX, tbl);
    var exit := Run(net.cell, p, inputs, s);
    var loss := net.loss(p, batchY, States(net.cell, p, inputs, s));
    (net.update(p, batchX, batchY, s), Record(epoch, batchIdx, s, exit, loss))
  }

  /** Window batchIdx of an epoch: fed the carried state, it leaves its final state as the new carried state. */
  function TrainWindow<P, S, L>(net: Network<P, S, L>, cfg: Config, data: Batched, epoch: nat, batchIdx: nat,
                                st: EpochState<P, S, L>): EpochState<P, S, L>
    requires WellFormed(cfg) && Shaped(cfg, data) && batchIdx < NumBatches(cfg)
  {
    var (p, rec) := WindowOutcome(net, cfg, data, epoch, batchIdx, st.params, st.carried);
    EpochState(p, rec.exit, st.records + [rec])
  }

  /** The first n windows of an epoch, starting from parameters p and a zero state. */
  function EpochRun<P, S, L>(net: Network<P, S, L>, cfg: Config, data: Batched, epoch: nat, p: P, n: nat): EpochState<P, S, L>
    requires WellFormed(cfg) && Shaped(cfg, data) && n <= NumBatches(cfg)
  {
    if n == 0 then EpochState(p, net.zero, [])
    else TrainWindow(net, cfg, data, epoch, n - 1, EpochRun(net, cfg, data, epoch, p, n - 1))
  }

  /** Every bit series has the length generateData draws. */
  predicate SeriesLengths(cfg: Config, epochBits: seq<seq<int>>) {
    forall e :: 0 <= e < |epochBits| ==> |epochBits[e]| == cfg.totalSeriesLength
  }

  /** The first k epochs, epoch e trained on the bits epochBits[e]. */
  function TrainRun<P, S, L>(net: Network<P, S, L>, cfg: Config, p0: P, epochBits: seq<seq<int>>, k: nat): TrainState<P, S, L>
    requires WellFormed(cfg) && SeriesLengths(cfg, epochBits) && k <= |epochBits|
  {
    if k == 0 then TrainState(p0, [])
    else
      var prev := TrainRun(net, cfg, p0, epochBits, k - 1);
      var ep := EpochRun(net, cfg, EpochData(cfg, epochBits[k - 1]), k - 1, prev.params, NumBatches(cfg));
      TrainState(ep.params, prev.epochs + [ep.records])
  }

  /** loss_list as built from a sequence of runs. */
  function Losses<S, L>(recs: seq<Record<S, L>>): (ls: seq<L>)
    ensures |ls| == |recs|
  {
    seq(|recs|, j requires 0 <= j < |recs| => recs[j].loss)
  }

  /** The values fed to init_state, run by run. */
  function Entries<S, L>(recs: seq<Record<S, L>>): (es: seq<S>)
    ensures |es| == |recs|
  {
    seq(|recs|, j requires 0 <= j < |recs| => recs[j].entry)
  }

  /** The progress reports a sequence of runs produces: one after each run whose batch_idx % 100 == 0. */
  function Reports<S, L>(recs: seq<Record<S, L>>): seq<Report<L>> {
    if recs == [] then []
    else
      var last := recs[|recs| - 1];
      Reports(recs[..|recs| - 1]) +
        if last.batchIdx % 100 == 0 then [Report(last.batchIdx, last.loss, Losses(recs))] else []
  }

  /**
   * One window of the loop body: slice batchX and batchY, run the forward
   * pass from the carried state, and apply one optimizer step.  The result
   * is what TrainWindow records.
   */
  method SessionRun<P, S, L>(net: Network<P, S, L>, cfg: Config, data: Batched, epochIdx: nat, batchIdx: nat,
                             params: P, currentState: S)
    returns (newParams: P, rec: Record<S, L>)
    requires WellFormed(cfg) && Shaped(cfg, data) && batchIdx < NumBatches(cfg)
    ensures (newParams, rec) == WindowOutcome(net, cfg, data, epochIdx, batchIdx, params, currentState)
    ensures rec.epoch == epochIdx && rec.batchIdx == batchIdx && rec.entry == currentState
  {
    var tbl := cfg.truncatedBackpropLength;
    var startIdx := StartIdx(batchIdx, tbl);
    var endIdx := startIdx + tbl;
    var batchX := SliceColumns(data.x, startIdx, endIdx);
    var batchY := SliceColumns(data.y, startIdx, endIdx);
    WindowInRange(cfg, batchIdx);
    WindowContents(data.x, RowLength(cfg), batchIdx, tbl);
    var inputsSeries := Columns(batchX, tbl);
    var statesSeries, finalState := ForwardPass(net.cell, params, inputsSeries, currentState);
    var totalLoss := net.loss(params, batchY, statesSeries);
    rec := Record(epochIdx, batchIdx, currentState, finalState, totalLoss);
    newParams := net.update(params, batchX, batchY, currentState);
  }

  /** Adding one window's run to what the runs before it produced. */
  lemma AppendRecord<S, L>(done: seq<Record<S, L>>, recs: seq<Record<S, L>>, rec: Record<S, L>)
    ensures Losses(done + (recs + [rec])) == Losses(done + recs) + [rec.loss]
    ensures Entries(done + (recs + [rec])) == Entries(done + recs) + [rec.entry]
    ensures Reports(done + (recs + [rec])) == Reports(done + recs) +
      if rec.batchIdx % 100 == 0 then [Report(rec.batchIdx, rec.loss, Losses(done + recs) + [rec.loss])] else []
  {
    var all := done + (recs + [rec]);
    assert all == (done + recs) + [rec];
    assert all[..|all| - 1] == done + recs;
  }

  /**
   * The body of the epoch loop after generateData: the hidden state starts
   * at zero and is carried from window to window; every window appends its
   * loss to loss_list, and every hundredth also reports.
   */
  method TrainEpoch<P, S, L>(cfg: Config, net: Network<P, S, L>, data: Batched, epochIdx: nat, ghost done: seq<Record<S, L>>,
                             params0: P, lossList0: seq<L>, reports0: seq<Report<L>>, ghost fed0: seq<S>)
    returns (params: P, lossList: seq<L>, reports: seq<Report<L>>, ghost fed: seq<S>, ghost recs: seq<Record<S, L>>)
    requires WellFormed(cfg) && Shaped(cfg, data)
    requires lossList0 == Losses(done) && fed0 == Entries(done) && reports0 == Reports(done)
    ensures params == EpochRun(net, cfg, data, epochIdx, params0, NumBatches(cfg)).params
    ensures var ep := EpochRun(net, cfg, data, epochIdx, params0, NumBatches(cfg)).records;
      lossList == Losses(done + ep) && reports == Reports(done + ep)
    ensures fed == Entries(done + EpochRun(net, cfg, data, epochIdx, params0, NumBatches(cfg)).records)
    ensures recs == EpochRun(net, cfg, data, epochIdx, params0, NumBatches(cfg)).records
  {
    var numBatches := NumBatches(cfg);
    var currentState := net.zero;
    params, lossList, reports, fed, recs := params0, lossList0, reports0, fed0, [];
    assert done + recs == done;
    for batchIdx := 0 to numBatches
      invariant EpochRun(net, cfg, data, epochIdx, params0, batchIdx) == EpochState(params, currentState, recs)
      invariant lossList == Losses(done + recs)
      invariant fed == Entries(done + recs)
      invariant reports == Reports(done + recs)
    {
      var newParams, rec := SessionRun(net, cfg, data, epochIdx, batchIdx, params, currentState);
      AppendRecord(done, recs, rec);
      params := newParams;
      currentState := rec.exit;
      fed := fed + [rec.entry];
      lossList := lossList + [rec.loss];
      if batchIdx % 100 == 0 {
        reports := reports + [Report(batchIdx, rec.loss, lossList)];
      }
      recs := recs + [rec];
    }
  }

  /**
   * The training loop.  The bits generateData draws in each epoch are a
   * parameter; the method returns loss_list, the progress reports, the
   * sequence of states fed to init_state and the final parameters.
   */
  method Train<P, S, L>(cfg: Config, net: Network<P, S, L>, params0: P, epochBits: seq<seq<int>>)
    returns (lossList: seq<L>, reports: seq<Report<L>>, ghost fed: seq<S>, params: P)
    requires WellFormed(cfg)
    requires |epochBits| == cfg.numEpochs && SeriesLengths(cfg, epochBits)
    ensures var run := TrainRun(net, cfg, params0, epochBits, cfg.numEpochs);
      && params == run.params
      && lossList == Losses(Flatten(run.epochs))
      && reports == Reports(Flatten(run.epochs))
    ensures fed == Entries(Flatten(TrainRun(net, cfg, params0, epochBits, cfg.numEpochs).epochs))
    ensures |lossList| == cfg.numEpochs * NumBatches(cfg) && |fed| == |lossList|
    ensures forall rep :: rep in reports ==>
      rep.batchIdx % 100 == 0 && rep.lossHistory != [] && rep.lossHistory[|rep.lossHistory| - 1] == rep.loss
  {
    lossList, reports, fed, params := [], [], [], params0;
    ghost var done: seq<seq<Record<S, L>>> := [];
    for epochIdx := 0 to cfg.numEpochs
      invariant TrainRun(net, cfg, params0, epochBits, epochIdx) == TrainState(params, done)
      invariant lossList == Losses(Flatten(done))
      invariant fed == Entries(Flatten(done))
      invariant reports == Reports(Flatten(done))
    {
      var generated := GenerateData(cfg, epochBits[epochIdx]);
      var data := generated.value;
      assert data == EpochData(cfg, epochBits[epochIdx]);
      ghost var recs;
      params, lossList, reports, fed, recs := TrainEpoch(cfg, net, data, epochIdx, Flatten(done), params, lossList, reports, fed);
      FlattenAppend(done, recs);
      done := done + [recs];
    }
    LossListLength(net, cfg, params0, epochBits);
    ReportsWellFormed(Flatten(done));
  }

  /** Every report is at a hundredth window and ends its history with its own loss. */
  lemma {:induction false} ReportsWellFormed<S, L>(recs: seq<Record<S, L>>)
    ensures forall rep :: rep in Reports(recs) ==>
      rep.batchIdx % 100 == 0 && rep.lossHistory != [] && rep.lossHistory[|rep.lossHistory| - 1] == rep.loss
  {
    if recs != [] {
      ReportsWellFormed(recs[..|recs| - 1]);
    }
  }

  /**
   * The runs of one epoch, in order: window j is batch_idx j of this epoch,
   * the first is fed the zero state, and every later one is fed the final
   * state of the run before it.
   */
  ghost predicate Threaded<S, L>(recs: seq<Record<S, L>>, epoch: nat, zero: S) {
    && (recs != [] ==> recs[0].entry == zero)
    && (forall j :: 0 <= j < |recs| ==> recs[j].epoch == epoch && recs[j].batchIdx == j)
    && (forall j :: 0 < j < |recs| ==> recs[j].entry == recs[j - 1].exit)
  }

  /** Within an epoch the state is reset once, at the start, and otherwise carried from window to window. */
  lemma {:induction false} EpochThreaded<P, S, L>(net: Network<P, S, L>, cfg: Config, data: Batched, epoch: nat, p: P, n: nat)
    requires WellFormed(cfg) && Shaped(cfg, data) && n <= NumBatches(cfg)
    ensures |EpochRun(net, cfg, data, epoch, p, n).records| == n
    ensures Threaded(EpochRun(net, cfg, data, epoch, p, n).records, epoch, net.zero)
    ensures EpochRun(net, cfg, data, epoch, p, n).carried ==
      if n == 0 then net.zero else EpochRun(net, cfg, data, epoch, p, n).records[n - 1].exit
  {
    if n > 0 {
      EpochThreaded(net, cfg, data, epoch, p, n - 1);
      var prev := EpochRun(net, cfg, data, epoch, p, n - 1).records;
      var recs := EpochRun(net, cfg, data, epoch, p, n).records;
      assert recs[..n - 1] == prev;
      assert forall j :: 0 <= j < n - 1 ==> recs[j] == prev[j];
    }
  }

  /**
   * Every epoch makes num_batches runs, and each epoch is threaded on its
   * own: its first run is fed the zero state whatever the previous epoch
   * ended with.
   */
  lemma {:induction false} TrainThreaded<P, S, L>(net: Network<P, S, L>, cfg: Config, p0: P, epochBits: seq<seq<int>>, k: nat)
    requires WellFormed(cfg) && SeriesLengths(cfg, epochBits) && k <= |epochBits|
    ensures |TrainRun(net, cfg, p0, epochBits, k).epochs| == k
    ensures forall e :: 0 <= e < k ==>
      |TrainRun(net, cfg, p0, epochBits, k).epochs[e]| == NumBatches(cfg) &&
      Threaded(TrainRun(net, cfg, p0, epochBits, k).epochs[e], e, net.zero)
  {
    if k > 0 {
      TrainThreaded(net, cfg, p0, epochBits, k - 1);
      var prev := TrainRun(net, cfg, p0, epochBits, k - 1).epochs;
      var data := EpochData(cfg, epochBits[k - 1]);
      var p := TrainRun(net, cfg, p0, epochBits, k - 1).params;
      var last := EpochRun(net, cfg, data, k - 1, p, NumBatches(cfg)).records;
      EpochThreaded(net, cfg, data, k - 1, p, NumBatches(cfg));
      var epochs := TrainRun(net, cfg, p0, epochBits, k).epochs;
      assert epochs == prev + [last];
      forall e | 0 <= e < k
        ensures |epochs[e]| == NumBatches(cfg) && Threaded(epochs[e], e, net.zero)
      {
        if e < k - 1 {
          assert epochs[e] == prev[e];
        } else {
          assert epochs[e] == last;
        }
      }
    }
  }

  /** loss_list ends with one entry per window of every epoch. */
  lemma LossListLength<P, S, L>(net: Network<P, S, L>, cfg: Config, p0: P, epochBits: seq<seq<int>>)
    requires WellFormed(cfg) && SeriesLengths(cfg, epochBits) && |epochBits| == cfg.numEpochs
    ensures |Losses(Flatten(TrainRun(net, cfg, p0, epochBits, cfg.numEpochs).epochs))| == cfg.numEpochs * NumBatches(cfg)
  {
    TrainThreaded(net, cfg, p0, epochBits, cfg.numEpochs);
    FlattenLength(TrainRun(net, cfg, p0, epochBits, cfg.numEpochs).epochs, NumBatches(cfg));
  }

  /**
   * A report is made exactly after the runs whose batch_idx is a multiple
   * of 100, and it carries that run's loss and loss_list up to and
   * including it.
   */
  lemma {:induction false} ReportsEveryHundredth<S, L>(recs: seq<Record<S, L>>)
    ensures forall rep :: rep in Reports(recs) <==>
      exists k :: 0 <= k < |recs| && recs[k].batchIdx % 100 == 0 &&
        rep == Report(recs[k].batchIdx, recs[k].loss, Losses(recs[..k + 1]))
  {
    if recs != [] {
      var n := |recs| - 1;
      var front := recs[..n];
      ReportsEveryHundredth(front);
      assert recs[..n + 1] == recs;
      assert forall k :: 0 <= k < n ==> front[k] == recs[k] && front[..k + 1] == recs[..k + 1];
    }
  }

  /**
   * With the parameters held fixed, carrying the state across windows makes
   * truncation invisible to the forward pass: the state after n windows is
   * the state after running the cell over the first n * tbl columns from the
   * zero state.
   */
  lemma {:induction false} CarryMatchesUntruncated<P, S, L>(net: Network<P, S, L>, cfg: Config, data: Batched, epoch: nat, p: P, n: nat)
    requires WellFormed(cfg) && Shaped(cfg, data) && n <= NumBatches(cfg)
    requires forall x, y, s :: net.update(p, x, y, s) == p
    ensures n * cfg.truncatedBackpropLength <= RowLength(cfg)
    ensures EpochRun(net, cfg, data, epoch, p, n).params == p
    ensures EpochRun(net, cfg, data, epoch, p, n).carried ==
      Run(net.cell, p, Columns(data.x, RowLength(cfg))[..n * cfg.truncatedBackpropLength], net.zero)
  {
    var tbl, w := cfg.truncatedBackpropLength, RowLength(cfg);
    assert n * tbl <= NumBatches(cfg) * tbl;
    var cols := Columns(data.x, w);
    if n == 0 {
      assert cols[..0] == [];
    } else {
      CarryMatchesUntruncated(net, cfg, data, epoch, p, n - 1);
      ColumnsSplit(data.x, w, tbl, n);
      RunAppend(net.cell, p, cols[..(n - 1) * tbl], Columns(Window(data.x, n - 1, tbl), tbl), net.zero);
    }
  }
}
