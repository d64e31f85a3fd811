# Echo-RNN truncated-BPTT skeleton in Dafny

This project models the integer and sequence logic of a small echo-RNN training script,
`demo_RNN/How-to-Use-Tensorflow-for-Time-Series-Live-/demo_full_notes.py`. The script trains a recurrent cell to reproduce a binary stream delayed by
`echo_step` steps, using truncated back-propagation through time. The model covers:

- **Echo-data generation** (`generateData`). The target is the input rolled right by `echo_step`
  (`np.roll`). Its first `echo_step` entries are then zeroed in place. Both series are reshaped
  row-major into `batch_size` rows. The random bits are a parameter.
- **Truncated windowing**. `num_batches` is computed as floor division. Window `batch_idx` covers
  columns `[batch_idx * tbl, batch_idx * tbl + tbl)`, with Python's clamping slice semantics. The
  windows tile a prefix of every row, and the remaining columns are dropped.
- **Forward pass**. A loop feeds the window's columns to the cell, records every state and returns
  the last one.
- **Training loop**. Each epoch gets fresh data and a zero hidden state. The state is carried from
  window to window. `loss_list` grows by one entry per window, and a report is made every hundredth
  window.

The floating-point parts of the graph are parameters of the model, bundled in
`Training.Network`:
- the cell (`tanh(concat(x, s) . W + b)`);
- the window loss (logits, softmax, cross-entropy, mean);
- the Adagrad update;
- the zero state.

They act over generic types: `P` (weights and optimizer accumulators), `S` (hidden-state matrix)
and `L` (loss value). The model therefore checks ordering, reset and carry logic without floats.

Modules, one per file: `Wrappers` (Result), `Hyperparams` (constants, `num_batches`),
`EchoData` (generateData), `Windowing` (slicing), `Recurrence` (forward pass), `Training`
(epoch and window loops).

Each imperative part of the script is a method proved against a specification function:
- `EchoData.EchoTarget` zeroes an array in place, and is proved against `Echo`;
- `Recurrence.ForwardPass` is proved against `Run` and `States`;
- `Training.Train`, `Training.TrainEpoch` and `Training.SessionRun` are proved against
  `TrainRun`, `EpochRun` and `WindowOutcome`.

The lemmas state the script's properties about those functions.

Facts about the script that the model follows:
- The script validates no configuration. A `batch_size` that does not divide
  `total_series_length` fails inside `reshape` (lines 76-77), and a zero divisor fails at line 50.
  `EchoData.GenerateData` returns `Err` exactly when `reshape` would fail. `NumBatches` and `Train`
  require a configuration on which lines 50 and 76-77 succeed (`Hyperparams.WellFormed`).
- The script reports when `batch_idx % 100 == 0`, and so does the model.
- The script computes `total_series_length // batch_size // truncated_backprop_length`, which equals
  floor(row length / tbl). `NumBatches` is stated against the row length.

## Model

| member | source | states |
|---|---|---|
| Hyperparams.NumBatches | demo_RNN/How-to-Use-Tensorflow-for-Time-Series-Live-/demo_full_notes.py:50 | `num_batches` is floor(row length / tbl): the largest n with n * tbl <= row length < (n + 1) * tbl |
| Hyperparams.ScriptWindows | demo_RNN/How-to-Use-Tensorflow-for-Time-Series-Live-/demo_full_notes.py:43-50 | with the script's constants the series splits evenly into rows of 10000; there are 666 windows per epoch and 10 columns per row are never trained on |
| EchoData.Roll | demo_RNN/How-to-Use-Tensorflow-for-Time-Series-Live-/demo_full_notes.py:70 | `np.roll` keeps the length and, for every shift k, puts element t at position (t + k) mod n; for k < n this means the first n - k elements move k places right and the last k wrap around to the front |
| EchoData.EchoTarget | demo_RNN/How-to-Use-Tensorflow-for-Time-Series-Live-/demo_full_notes.py:70-72 | the target equals the reference `Echo`: same length as the input, 0 at every t < echo_step (wrapped-around elements never survive), input[t - echo_step] at every t >= echo_step; a binary input gives a binary target |
| EchoData.Reshape | demo_RNN/How-to-Use-Tensorflow-for-Time-Series-Live-/demo_full_notes.py:76-77 | `reshape((rows, -1))` succeeds exactly when rows > 0 divides the length; it then has rows rows of length L / rows and entry (i, j) is s[i * (L / rows) + j] (row-major, not interleaved) |
| EchoData.ReshapeRoundTrip | demo_RNN/How-to-Use-Tensorflow-for-Time-Series-Live-/demo_full_notes.py:76-77 | reshaping loses and reorders nothing: flattening the rows gives the series back |
| EchoData.GenerateData | demo_RNN/How-to-Use-Tensorflow-for-Time-Series-Live-/demo_full_notes.py:66-79 | fails exactly when batch_size is 0 or does not divide the length; otherwise x and y are batch_size x row-length matrices with x[i][j] = bits[t] and y[i][j] = 0 if t < echo_step else bits[t - echo_step], t = i * row length + j; binary bits give binary rows |
| EchoData.EchoCrossesRows | demo_RNN/How-to-Use-Tensorflow-for-Time-Series-Live-/demo_full_notes.py:70-77 | in every row after the first, the first echo_step targets are the last inputs of the row above: target (i, j) echoes series position i * w + j - echo_step, which is column w - echo_step + j of row i - 1, so it is not in row i's own input |
| Windowing.Slice | demo_RNN/How-to-Use-Tensorflow-for-Time-Series-Live-/demo_full_notes.py:309-310 | Python `s[lo:hi]`: equal to s[lo..hi] when in range, clamped to the end when hi is past it, empty when lo >= hi or lo is past the end |
| Windowing.EndIdx | demo_RNN/How-to-Use-Tensorflow-for-Time-Series-Live-/demo_full_notes.py:306-307 | every window is tbl columns wide and ends where the next window starts |
| Windowing.WindowInRange | demo_RNN/How-to-Use-Tensorflow-for-Time-Series-Live-/demo_full_notes.py:300-307 | for every batch_idx < num_batches, end_idx <= row length |
| Windowing.WindowContents | demo_RNN/How-to-Use-Tensorflow-for-Time-Series-Live-/demo_full_notes.py:309-310 | a window that ends inside the rows is full width: row r of window i holds columns start_idx .. end_idx - 1 of row r |
| Windowing.WindowsTile | demo_RNN/How-to-Use-Tensorflow-for-Time-Series-Live-/demo_full_notes.py:300-310 | windows 0 .. n-1 put side by side give exactly the first n * tbl columns (no gaps, no overlaps) |
| Windowing.WindowsCoverRows | demo_RNN/How-to-Use-Tensorflow-for-Time-Series-Live-/demo_full_notes.py:300-310 | one epoch's windows give exactly the first num_batches * tbl columns, and fewer than tbl columns are dropped |
| Windowing.WindowColumns | demo_RNN/How-to-Use-Tensorflow-for-Time-Series-Live-/demo_full_notes.py:156-157 | the columns `tf.unpack` gives of a window are the corresponding stretch of the columns of the whole matrix |
| Recurrence.ForwardPass | demo_RNN/How-to-Use-Tensorflow-for-Time-Series-Live-/demo_full_notes.py:176-195 | one state per column in column order: the first from init_state, each later one from the state before it; current_state is the last recorded state (init_state for no columns); results equal `States` and `Run` |
| Recurrence.StatesStep | demo_RNN/How-to-Use-Tensorflow-for-Time-Series-Live-/demo_full_notes.py:184-195 | the recorded states of the specification obey the same step relation, and `Run` is the last of them |
| Recurrence.RunAppend | demo_RNN/How-to-Use-Tensorflow-for-Time-Series-Live-/demo_full_notes.py:176-195 | running a + b from s is running b from where a left off |
| Recurrence.StatesAppend | demo_RNN/How-to-Use-Tensorflow-for-Time-Series-Live-/demo_full_notes.py:176-195 | the states over a + b are the states over a followed by the states over b from a's final state |
| Recurrence.LanesEvolveIndependently | demo_RNN/How-to-Use-Tensorflow-for-Time-Series-Live-/demo_full_notes.py:186-191 | with a row-wise cell, lane r of the batch run equals the one-lane run over lane r's inputs from lane r's initial state |
| Training.EpochData | demo_RNN/How-to-Use-Tensorflow-for-Time-Series-Live-/demo_full_notes.py:294 | with a well-formed configuration, `generateData` succeeds, giving x and y of `batch_size` rows of row length each (the window, not the whole matrix, has the placeholders' shape) |
| Training.SessionRun | demo_RNN/How-to-Use-Tensorflow-for-Time-Series-Live-/demo_full_notes.py:306-320 | one loop body: the record and new parameters equal `WindowOutcome`; the record is for this epoch and batch_idx and was fed the carried state |
| Training.TrainEpoch | demo_RNN/How-to-Use-Tensorflow-for-Time-Series-Live-/demo_full_notes.py:296-326 | the inner loop's parameters and runs equal `EpochRun` over num_batches windows from a zero state; `loss_list`, reports and fed states grow by exactly those runs |
| Training.Train | demo_RNN/How-to-Use-Tensorflow-for-Time-Series-Live-/demo_full_notes.py:290-326 | the final parameters, `loss_list`, reports and fed states equal `TrainRun` over num_epochs epochs; `loss_list` has num_epochs * num_batches entries; every report is at a batch_idx divisible by 100 and carries its loss as the last entry of its history |
| Training.EpochThreaded | demo_RNN/How-to-Use-Tensorflow-for-Time-Series-Live-/demo_full_notes.py:296-320 | an epoch has one run per window with batch_idx 0, 1, ...; the first is fed the zero state; every later one is fed the previous run's final state; the carried state is the last final state |
| Training.TrainThreaded | demo_RNN/How-to-Use-Tensorflow-for-Time-Series-Live-/demo_full_notes.py:292-320 | every epoch has num_batches runs and is threaded on its own: it starts from zero whatever the previous epoch ended with |
| Training.LossListLength | demo_RNN/How-to-Use-Tensorflow-for-Time-Series-Live-/demo_full_notes.py:290-322 | `loss_list` ends with num_epochs * num_batches entries |
| Training.ReportsEveryHundredth | demo_RNN/How-to-Use-Tensorflow-for-Time-Series-Live-/demo_full_notes.py:322-326 | a report exists exactly for each run whose batch_idx % 100 == 0; it carries that run's loss and `loss_list` up to and including it |
| Training.CarryMatchesUntruncated | demo_RNN/How-to-Use-Tensorflow-for-Time-Series-Live-/demo_full_notes.py:296-320 | with the parameters held fixed, the state carried after n windows equals one uninterrupted forward pass over the first n * tbl columns from zero |

## Left out

- Random bits (`np.random.choice`, line 68) and random weight initialisation (lines 129-134): the bits
  of each epoch are a parameter, and the initial weights are an arbitrary `P`.
- `tanh`, `matmul`, softmax, sparse cross-entropy, `reduce_mean` and `AdagradOptimizer` (lines 191,
  212-222, 243): floating point and automatic differentiation. They are the uninterpreted
  `Network.cell`, `Network.loss` and `Network.update`.
- The TensorFlow graph, placeholders, session and `feed_dict` plumbing (lines 113-117, 279-320) are
  not modelled. A session run is modelled as plain calls. The model assumes `total_loss` and
  `current_state` are computed with the parameters from before that run's optimizer step.
- `predictions_series` is used only for plotting. `plot`, matplotlib and IPython `Image` calls, and all
  `print` output are left out as presentation (lines 83, 90, 145, 164, 202, 253-271, 284-288, 298,
  325-329, 336, 346). A report keeps only `batch_idx`, the loss and `loss_list`.
- `state_size` and `num_classes` are carried in `Config` but shape nothing: `S` and `L` are
  abstract.
- `echo_step` and slice bounds are non-negative (`nat`). The script never uses negative values, so
  Python's negative-index slicing is not modelled.
- Training.Train: requires a well-formed configuration instead of modelling the script's crash. With a
  non-dividing batch size or a zero divisor the script aborts before training (lines 50 and 76-77).
- Training.Train: returns normally on configurations where the script itself fails. `plot` runs at
  `batch_idx` 0 (lines 324-326) and reads lanes 0-4 of `predictions_series` and `batchX` (lines
  258-266), so a `batch_size` below 5 raises IndexError in the first window. Line 282 passes
  `tf.global_variables_initializer` without calling it, which `sess.run` rejects before any epoch.
  Neither failure is modelled.
- Recurrence.LanesEvolveIndependently: holds for cells built with `Lift`. `Training.Network.cell` is
  any batch-level function, so lane independence is not imposed on it.
- Recurrence.Lift: a column and a state of different heights are zipped to the shorter one. TensorFlow
  would reject that shape mismatch, and the training model never builds one.
- Training.CarryMatchesUntruncated: holds only for an update that leaves the parameters unchanged. In
  training the weights change after every window, so truncation does change the forward
  computation.
