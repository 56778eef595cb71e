# Sentiment classifier: encoding, early stopping and accuracy

A Dafny model of the three pieces of original logic in `sentiment.py`, a
notebook that trains a convolutional sentiment classifier on movie reviews:

- **Encoding** (`encoding.dfy`). A review is tokenised and the token list cut
  to `max_len` (256). Each token is looked up in a vocabulary that holds the
  reserved entries `<unk>` and `<pad>`. Once the unknown index is made the
  default, a missing token maps to it. The id list is then right-padded with
  the padding index up to `max_len`. The tokenizer is a parameter
  (`string -> seq<Token>`). The vocabulary is a parameter too: a table from
  token to index plus the default index.
- **Early stopping** (`early_stopping.dfy`). The epoch loop of the training
  driver keeps the best validation loss (starting at +inf). It saves a
  checkpoint on every strict improvement and resets a counter then. Any other
  epoch increments the counter. The loop stops once the counter reaches 3, or
  after `n_epochs` epochs. Each epoch's mean validation loss is an input. It is
  a double (`Finite`, `PosInf` or `NaN`), compared the way Python's `<`
  compares doubles. So a NaN or infinite loss never counts as an improvement.
- **Accuracy** (`accuracy.dfy`). The accuracy routine overwrites its
  prediction array in place: above 0.5 becomes 1, and everything else becomes
  0. It then divides the number of matches by the batch size. The test loop
  labels a copy of the predictions with `>= 0.5` instead. The two rules
  disagree on one input only: exactly 0.5.

Two points about the code are easy to miss:

- The encoder alone does not yield `max_len` ids. It only pads, so an input
  longer than `max_len` comes out unpadded and longer
  (`TokensToIdsDoesNotTruncate`). Only tokenising and then encoding gives the
  fixed length (`EncodeSentence`).
- The accuracy routine counts a prediction as positive only above 0.5, while
  the test loop counts 0.5 or more (`ThresholdsDisagreeOnlyAtHalf`).

The notebook's `max_len` (256) and `n_epochs` (20) are parameters of the
model (`Encoder.maxLen` and the `nEpochs` argument of
`EarlyStopping.TrainEvalNNModel`); every result holds for any value.

## Model

| member | source | states |
|---|---|---|
| `Encoding.Tokenize` | sentiment.py:94-95 | the result is a prefix of the tokenizer output, at most `maxLen` long, and the whole output when that is shorter than `maxLen` |
| `Encoding.SetUp` | sentiment.py:101-108 | setup succeeds exactly when both `<unk>` and `<pad>` are in the table (their lookups raise otherwise); the resulting vocabulary keeps the table, and every absent token then looks up as the unknown index |
| `Encoding.UnknownTokenFallback` | sentiment.py:106-111 | with the vocabulary set up, an absent token is encoded as the unknown index, a present one as its own index, and no lookup fails or yields an index outside the table |
| `Encoding.LookupAll` | sentiment.py:111 | the comprehension yields one id per token, in order, each the vocabulary lookup of its token |
| `Encoding.Repeat` | sentiment.py:112 | `[pad] * n` has `n` copies of `pad` when `n` is positive, and is empty otherwise |
| `Encoding.TokensToIds` | sentiment.py:110-113 | the ids start with the lookups of the input tokens, in order, and continue with the padding index only; the length is `maxLen` when the input is no longer than that, else the input's length |
| `Encoding.TokensToIdsDoesNotTruncate` | sentiment.py:110-113 | an input longer than `maxLen` gets no padding: it is encoded as its plain lookups and stays longer than `maxLen` |
| `Encoding.EncodeSentence` | sentiment.py:253-255 | tokenising then encoding any sentence gives exactly `maxLen` ids: the lookups of the first tokens, then padding |
| `Encoding.EmptySentenceIsAllPadding` | sentiment.py:253-255 | a sentence with no tokens encodes to `maxLen` padding indices |
| `Accuracy.ThresholdsDisagreeOnlyAtHalf` | sentiment.py:349-350 | the test loop's rule and the accuracy routine's rule (sentiment.py lines 155-156) both give 0 or 1; they disagree if and only if the prediction is exactly 0.5, which the accuracy routine labels 0 and the test loop labels 1 |
| `Accuracy.MatchesBounded` | sentiment.py:157 | the number of matches is at most the batch size, and equals it exactly when all predictions equal their labels |
| `Accuracy.AccuracyInUnitInterval` | sentiment.py:157-158 | the accuracy of a non-empty batch lies in [0, 1], and is 1 exactly when every prediction equals its label; an empty batch gives no number (0/0) |
| `Accuracy.CountCorrect` | sentiment.py:157 | the count equals the number of positions where prediction and label agree |
| `Accuracy.GetAccuracy` | sentiment.py:153-159 | the two masked passes leave every prediction as 1 if it was above 0.5 and 0 otherwise, and the result is the share of labelled predictions equal to their labels |
| `Accuracy.BinarizeForTest` | sentiment.py:347-350 | the copy holds 1 where the prediction is at least 0.5 and 0 elsewhere; the predictions are not changed |
| `EarlyStopping.SinceRecordIsTrailingRun` | sentiment.py:223-229 | the counter value equals the length of the trailing run of epochs without a strict improvement, and the epoch before that run (if any) improved |
| `EarlyStopping.RecordStep` | sentiment.py:222-227 | a loss is below the best so far exactly when it is a strict record among the losses seen (ties and NaN are not); taking it when it is keeps the best the minimum of +inf and all losses seen |
| `EarlyStopping.StopFollowsLastRecord` | sentiment.py:229-233 | when the counter reaches 3, the last three epochs brought no improvement and the epoch before them did (or there was none): the stop comes exactly three epochs after the last improvement |
| `EarlyStopping.TrainEvalNNModel` | sentiment.py:204-235 | runs at most `nEpochs` epochs; returns the minimum of +inf and all losses seen (not the last loss); checkpoints are saved, in order, exactly at the strict-record epochs; it stops right after the first epoch that ends three non-improving epochs in a row, or after `nEpochs` |

## Left out

- Reading the CSV, installing packages and previewing the data are I/O.
- The random stratified train/validation/test splits are not modelled: they are sklearn internals with no fixed seed.
- The TF-IDF features, the three sklearn classifiers and the routine that fits and plots them are thin library wrappers.
- The torchtext tokenizer and the vocabulary builder are foreign code. The tokenizer is an abstract parameter. The built table is a parameter, with `<unk>` and `<pad>` required only where setup reads them.
- The CNN forward pass, the gradient steps of the training and validation passes, the loss function and the optimizer are floating-point tensor numerics. The per-epoch mean validation loss they produce is an input of `EarlyStopping.TrainEvalNNModel`.
- The mean of the batch losses is floating-point arithmetic. The model takes its value, including an infinite or NaN mean, as given.
- Saving the model is recorded as "checkpoint at epoch e", not as a file write.
- The four per-batch loss and accuracy histories only feed the plots, so they are not modelled.
- Plotting, progress bars, device selection, printing, the hyperparameter loop and the confusion-matrix and ROC displays are presentation and driver code.
- `Accuracy.GetAccuracy` and `Accuracy.BinarizeForTest` treat predictions as reals. A NaN prediction, which both masks skip and so leave as NaN, is not modelled.
- `Accuracy.GetAccuracy` divides the number of matches by the batch size exactly, in reals; the source divides in float32, so its quotient is rounded.
- `Accuracy.GetAccuracy` takes predictions and labels as one-dimensional arrays of the same length, not as `[batch, 1]` tensors. Broadcasting between shapes that differ is not modelled.
- The sigmoid and the forward pass of the single-sentence inference helper are not modelled, only its encoding step (`Encoding.EncodeSentence`).
