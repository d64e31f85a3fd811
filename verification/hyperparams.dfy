/**
 * The script's hyper-parameters and the number of truncated windows per epoch
 * derived from them.
 */
module Hyperparams {

  datatype Config = Config(
    numEpochs: nat,
    totalSeriesLength: nat,
    truncatedBackpropLength: nat,
    stateSize: nat,
    numClasses: nat,
    echoStep: nat,
    batchSize: nat)

  /** The values the script is run with. */
  const Script: Config := Config(100, 50000, 15, 4, 2, 3, 5)

  /**
   * A configuration on which num_batches and generateData's reshape
   * succeed: the series splits into batchSize equal rows, and both integer
   * divisions are defined.
   */
  predicate WellFormed(cfg: Config) {
    && cfg.batchSize > 0
    && cfg.truncatedBackpropLength > 0
    && cfg.totalSeriesLength % cfg.batchSize == 0
  }

  /** Length of one row of the batched series. */
  function RowLength(cfg: Config): nat
    requires cfg.batchSize > 0
  {
    cfg.totalSeriesLength / cfg.batchSize
  }

  /**
   * num_batches = total_series_length // batch_size // truncated_backprop_length.
   * Python's // on non-negative operands is floor division, as Dafny's / is.
   * The result is the largest number of whole windows that fit in one row.
   */
  function NumBatches(cfg: Config): (n: nat)
    requires cfg.batchSize > 0 && cfg.truncatedBackpropLength > 0
    ensures n * cfg.truncatedBackpropLength <= RowLength(cfg)
    ensures RowLength(cfg) < (n + 1) * cfg.truncatedBackpropLength
  {
    var w, t := RowLength(cfg), cfg.truncatedBackpropLength;
    assert w == t * (w / t) + w % t;
    w / t
  }

  /** With the script's values there are 666 windows per epoch and 10 columns of each row are never used. */
  lemma ScriptWindows()
    ensures WellFormed(Script)
    ensures RowLength(Script) == 10000
    ensures NumBatches(Script) == 666
    ensures RowLength(Script) - NumBatches(Script) * Script.truncatedBackpropLength == 10
  {
  }
}
