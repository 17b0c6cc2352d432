# Handwritten digit prediction: confidence gate and preprocessing, in Dafny

This project models the prediction path of a small MNIST digit recogniser
(`src/predict.py`). One image becomes a 28 by 28 greyscale frame. Each
intensity is divided by 255 and the frame is reshaped into a
`(1, 28, 28, 1)` tensor. The trained CNN scores the ten digits. A
confidence gate then returns the best digit, or `-1` when the best score
is below 0.3. The model's score row is always returned unchanged.

Modules:

- `Grids` (`grids.dfy`): row-major flattening and refilling of nested
  sequences, the layout numpy's `reshape` works on. It also proves that
  both operations are inverse to each other.
- `Preprocessing` (`preprocess.dfy`): exact division by 255 of 8-bit
  intensities, numpy's `reshape(1, 28, 28, 1)` with its size-mismatch
  error, and the post-resize part of `preprocesar_imagen`.
- `Scores` (`scores.dfy`): numpy's `argmax` (ties go to the first index)
  and `max` on a non-empty row. It has recursive reference definitions and
  a one-pass loop proved against them.
- `Predict` (`predict.dfy`): the confidence gate of `predecir_digito`
  with the threshold as a parameter. `PredictDigit` is the whole pipeline,
  gated at the code's 0.3.

The classifier's forward pass (`modelo.predict`) is a function parameter
of type `Tensor -> seq<seq<real>>`: one score row per image of the batch.
Nothing is assumed about its values; in particular they need not sum to 1.
The resize step is opaque. Its contract, a 28 by 28 frame of values in
`[0, 255]`, is the precondition of `Preprocess`. Pixel values use the subset type
`Intensity` (0..255), the `uint8` of a greyscale image.

## Model

| member | source | states |
|---|---|---|
| Scores.ArgMax | src/predict.py:36 | the digit candidate is an index of the row holding its maximum, and every earlier index holds a strictly smaller score (ties resolve to the lowest index) |
| Scores.Max | src/predict.py:38 | the confidence is an upper bound of every score in the row and is one of its scores |
| Scores.FirstMaxUnique | src/predict.py:36 | at most one index is the first maximum, so the arg-max is fully determined by its defining property |
| Scores.MaxAtArgMax | src/predict.py:36-38 | the confidence equals the score at the arg-max index: `probs[argmax(probs)] == max(probs)` |
| Scores.ScanMax | src/predict.py:36-38 | a single left-to-right pass that replaces its candidate only on a strictly larger score yields the first maximum index and the maximum value, the same as the recursive `ArgMax` and `Max` |
| Predict.Gate | src/predict.py:36-42 | the label is -1 or an index of the row; it is -1 exactly when every score is strictly below the threshold; otherwise it is the first maximum index; the row is returned unchanged either way |
| Predict.GateIsCandidateGate | src/predict.py:36-41 | gating on the row's maximum gives the same result as gating on the candidate label's own score, for every threshold |
| Predict.AcceptedIsArgMax | src/predict.py:36-41 | a prediction is accepted exactly when the maximum is at least the threshold (strict `<` rejects), and an accepted label is the arg-max |
| Predict.GateMonotoneInThreshold | src/predict.py:39-41 | lowering the threshold keeps an accepted prediction accepted with the same digit |
| Predict.BoundaryTieAccepted | src/predict.py:36-41 | a row whose maximum is exactly 0.3 and is held by two indices is accepted, with the lower of the two indices as its label |
| Predict.UniformRowRejected | src/predict.py:38-41 | a flat row of ten 0.1 scores is rejected with -1 |
| Predict.PredictDigit | src/predict.py:30-42 | the returned scores are the forward pass's first output row on the preprocessed frame; the label is -1 or an index of that row, within -1..9 for a ten-class row; -1 exactly when all scores are below 0.3; otherwise the first maximum |
| Preprocessing.Scale | src/predict.py:24 | an intensity divided by 255 lies in [0, 1]; it is 0 exactly for intensity 0 and 1 exactly for intensity 255 |
| Preprocessing.ScaleRoundTrip | src/predict.py:24 | scaling loses no information: multiplying back by 255 and rounding down recovers the intensity |
| Preprocessing.ScaleMonotone | src/predict.py:24 | scaling preserves and reflects both the strict and the non-strict order of intensities |
| Preprocessing.ScaleGrid | src/predict.py:24 | element-wise scaling of a frame keeps its shape, puts every value in [0, 1], and keeps each value at its pixel position |
| Preprocessing.ScaleCommutesWithFlatten | src/predict.py:24-26 | scaling then laying out row-major equals laying out row-major then scaling |
| Preprocessing.Reshape | src/predict.py:26 | reshaping succeeds exactly when the array holds 28*28 values, and then yields shape (1, 28, 28, 1); otherwise it reports the element count it refused |
| Preprocessing.ReshapeKeepsOrder | src/predict.py:26 | the reshaped tensor holds the same values in the same row-major order as the input array |
| Preprocessing.ReshapeFrame | src/predict.py:22-26 | a 28 by 28 frame always reshapes, and pixel (i, j) lands at tensor index [0][i][j][0] |
| Preprocessing.Preprocess | src/predict.py:22-27 | the input tensor has shape (1, 28, 28, 1); entry [0][i][j][0] is pixel (i, j) divided by 255 and lies in [0, 1]; all 784 values appear in row-major order |
| Grids.FlattenRows | src/predict.py:26 | cutting a flat sequence into equal rows and concatenating them again returns it unchanged |
| Grids.RowsFlatten | src/predict.py:26 | concatenating the rows of a rectangular grid and cutting again returns the grid |
| Grids.FlattenIndex | src/predict.py:26 | entry (i, j) of a grid of width w lands at row-major offset i*w + j |

## Left out

- `cargar_modelo` (`src/predict.py:12-15`): building a filesystem path and
  calling Keras `load_model` is file I/O. The loaded model appears only as
  the forward-pass parameter of `PredictDigit`.
- `Image.open(...).convert('L')` and `resize((28, 28), LANCZOS)`
  (`src/predict.py:20-22`): image decoding and resampling are library
  numerics. Only their output (a 28 by 28 frame of 8-bit values) is
  modelled, as the precondition of `Preprocess` and `PredictDigit`.
- `modelo.predict` (`src/predict.py:34`): the CNN forward pass is
  floating-point TensorFlow code and is left as an uninterpreted function
  parameter. The requires of `PredictDigit` only ask for a non-empty first
  output row, which is what `np.argmax` needs.
- The warning `print` (`src/predict.py:40`) and the `__main__` demo
  (`src/predict.py:44-48`): console output.
- Floating point: scores and scaled pixels are exact reals. `x / 255.0` is
  modelled without rounding. NaN scores, which `np.argmax` treats as the
  maximum, cannot occur.
- The probability-sum property (scores sum to about 1): the code never
  checks it, so the model neither assumes nor proves it.
- `Preprocessing.Quantize` is not in the code. It exists only to state that
  scaling is invertible.
- `src/train.py`, `src/dashboard.py`, `main.py`: these files contain only
  planning comments and no executable code. That covers training, the label
  one-hot encoding, model saving, the drag-and-drop window and the upload.
- `test/test_predict.py`, `test/test_train.py`: placeholder tests that state
  nothing about the prediction logic.
