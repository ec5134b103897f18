# Reader trust weights and the score scale, in Dafny

This project models the two stateful or numeric components of a system that scores news
"reporters" from the ratings of "readers":

- **ReaderWeightHolder** (`src/reader_weight_holder.py`): every known reader has a trust
  weight and a fixed-length FIFO history of past weight observations. `reset` refills every
  history with `window` copies of the initial mean. `inserts` takes a dictionary of new
  observations. For each entry it evicts the reader's oldest observation, appends the new one,
  and sets the reader's weight to the history's sum divided by the window. `get` looks up a
  weight.
- **Scale** (`src/scale.py`): an immutable score range `[min, max]` (default 1..10) with
  `mean = (min+max)/2` and `sigma = (max-mean)/3`. `translateZ` maps a z-score to
  `z*sigma + mean`, clamped into the range. `arange` lists the integers `min..max`.

Files:

- `wrappers.dfy`: module `Wrappers`, with `Option` and `Result`. These model the source's
  exceptions as values.
- `scale.dfy`: module `Scales`. The datatype `Scale` has the member functions `Mean`, `Sigma`,
  `Arange` and `TranslateZ`. Lemmas state bounds, landmarks, saturation, monotonicity,
  nearest-point clamping, the default range and the shape of `arange`.
- `reader_weight_holder.dfy`: module `ReaderWeights`.
  - The specification is stated over a value `Snapshot(weights, history)` of the two
    dictionaries. `ResetSnapshot` is `reset`. `InsertOne` is one entry of `inserts`.
    `InsertAll` is the whole batch, processed in order and stopping at the first entry that
    fails.
  - `Wellformed` is the holder's invariant. Both tables have exactly the known readers as keys.
    Every history has length `window`. With a non-empty window, every weight is the mean of its
    history.
  - The class `ReaderWeightHolder` keeps `readers`, `window`, `initMean`, `weights` and
    `pastWeights` as instance fields. Its `Reset` and `Inserts` methods are proved against
    `ResetSnapshot` and `InsertAll`. `Inserts` loops over the batch with the invariant
    `InsertAll(Tables(), rest) == InsertAll(old(Tables()), batch)`. For each entry it calls
    `InsertEntry`, which updates the two maps in place and is proved against `InsertOne`.
    The lemma `InsertAllStep` turns one entry's effect into the loop invariant for the next
    index.
  - `ExampleSession` walks all three steps of the window-3 example through the object: the
    history of reader "a" goes `[5,5,8]`, `[5,8,8]`, `[8,8,8]`, its weight goes 6, 7, 8, and
    reader "b" is untouched. `ExampleLookup` shows that looking up an unknown reader
    yields `UnknownReader`.

Modelling decisions:

- **Numbers.** All scores, weights and z-scores are `real`. The bounds of a `Scale` are
  integers, as the defaults and `arange` use them.
- **`readers` input.** The `readers['reader_id']` column is a `seq<Id>`. The known readers are
  its set of ids.
- **`new_weights` input.** The argument of `inserts` is the sequence of the dictionary's items,
  in iteration order.
- **Lookup errors.** They are modelled as error values, not as preconditions:
  - `Get` of an unknown reader returns `Failure(UnknownReader(id))`. The source raises KeyError
    at line 34.
  - `Inserts` returns the first failure: an unknown reader (KeyError, line 40), or `pop(0)` from
    an empty history, which happens when `window` is 0 (IndexError, line 40). The entries before
    the failing one stay applied, as they do in Python, because its loop mutates state before
    raising.
- **Stored weight.** The weight is `sum / window` (line 43), and this is what the method
  computes. The specification states it as `Mean(history)`. The invariant `|history| == window`
  proves the two equal.
- **Per-instance tables.** The class-level dictionaries at lines 8 and 11 are never shared:
  `reset` assigns fresh instance attributes. So the model has per-instance fields only.
- **Bounds of a `Scale`.** The code does not enforce `min < max`, and neither does the model.
  For `min > max`, `translateZ` always returns `min`, as the code does. The bounds lemmas
  assume `min <= max`.

## Model

| member | source | states |
|---|---|---|
| `Scales.Scale.TranslateZ` | src/scale.py:15-19 | for `min <= max` the translated score always lies in `[min, max]` |
| `Scales.Scale.Mean` | src/scale.py:9 | the mean is equally far from `min` and from `max`, and lies inside a proper range |
| `Scales.Scale.Sigma` | src/scale.py:10 | sigma is a sixth of the width: three sigmas from the mean reach `max` and `min`; it is non-negative for `min <= max` and positive for `min < max` |
| `Scales.TranslateZUnclamped` | src/scale.py:18-19 | for z in [-3, 3] nothing is clamped: the result is exactly `z*sigma + mean` |
| `Scales.TranslateZLandmarks` | src/scale.py:18-19 | z = 0 gives the mean, z = 3 gives `max`, z = -3 gives `min` |
| `Scales.TranslateZSaturates` | src/scale.py:18-19 | z >= 3 gives `max`, z <= -3 gives `min` |
| `Scales.TranslateZMonotone` | src/scale.py:18-19 | for any bounds, z1 <= z2 implies translateZ(z1) <= translateZ(z2) |
| `Scales.TranslateZIsNearest` | src/scale.py:19 | the clamped result is the point of `[min, max]` nearest to `z*sigma + mean` |
| `Scales.DefaultScale` | src/scale.py:6-19 | the default range 1..10 has mean 5.5 and sigma 1.5, maps z = 0 to 5.5 and very large or very small z to 10 and 1, and its arange is 1..10 |
| `Scales.RangeElements` | src/scale.py:13 | numpy's arange with step 1 from lo to hi: `hi - lo` elements (none if lo >= hi), the i-th being `lo + i` |
| `Scales.Scale.Arange` | src/scale.py:12-13 | arange has `max - min + 1` elements (none for an empty range), and the i-th is `min + i` |
| `Scales.ArangeSpec` | src/scale.py:12-13 | arange strictly increases, and an integer occurs in it exactly when it lies in `[min, max]` |
| `ReaderWeights.MeanRepeat` | src/reader_weight_holder.py:24-30 | a history of `window` copies of the initial mean averages to the initial mean |
| `ReaderWeights.Slide` | src/reader_weight_holder.py:40-41 | evict-oldest-then-append keeps the length, puts the new value last, and shifts the rest one place forward |
| `ReaderWeights.SlideSum` | src/reader_weight_holder.py:40-43 | a slide changes the history's sum by the new value minus the evicted one |
| `ReaderWeights.ResetSnapshot` | src/reader_weight_holder.py:23-30 | both reset tables have exactly the ids of the reader column as keys; every history is `window` copies of the initial mean, and every weight is the initial mean |
| `ReaderWeights.ResetSpec` | src/reader_weight_holder.py:23-30 | after a reset the invariant holds (histories of length `window`, weight = mean), and every history entry and every weight equals the initial mean |
| `ReaderWeights.InsertOne` | src/reader_weight_holder.py:39-43 | one entry fails exactly when the reader is unknown or its history is empty, always naming that reader; on success the key set and the history's length are unchanged |
| `ReaderWeights.InsertOneKeepsWellformed` | src/reader_weight_holder.py:39-43 | an entry for a known reader with a non-empty window succeeds and keeps the invariant |
| `ReaderWeights.InsertOneSpec` | src/reader_weight_holder.py:39-43 | under the invariant: an unknown reader gives `UnknownReader`, a known one with window 0 gives `EmptyHistory`; otherwise the invariant is kept, the history becomes `h[1..] + [v]`, the weight becomes `sum(history) / window`, and every other reader is untouched |
| `ReaderWeights.InsertAll` | src/reader_weight_holder.py:36-43 | a batch never changes which readers have a history, and an error it reports always names a reader that occurs in the batch |
| `ReaderWeights.InsertAllStep` | src/reader_weight_holder.py:39-43 | once one entry has had `InsertOne`'s effect, the batch either stops there with that entry's error or continues from the new tables with the next entry |
| `ReaderWeights.InsertAllWellformed` | src/reader_weight_holder.py:36-43 | every batch, including one that stops with an error, keeps each history at exactly `window` entries and each weight equal to its history's mean |
| `ReaderWeights.InsertAllFrame` | src/reader_weight_holder.py:39-43 | readers the batch does not mention keep exactly their weight and history |
| `ReaderWeights.InsertAllSucceeds` | src/reader_weight_holder.py:39-41 | a batch succeeds if and only if all its readers are known and, unless it is empty, the window is non-empty |
| `ReaderWeights.InsertAllStopsAtFailure` | src/reader_weight_holder.py:39-41 | a failing batch stops at an entry k (`FailsAt`): entry k names the failing reader; the tables are those after entries 0..k-1, which all succeeded; and entry k itself fails on those tables with the reported error |
| `ReaderWeights.InsertAllPointwise` | src/reader_weight_holder.py:39-43 | a batch of distinct known readers with a non-empty window succeeds and equals the simultaneous pointwise update (each mentioned history slides its own value in, each weight becomes its new mean), so the per-reader updates are independent |
| `ReaderWeights.InsertAllOrderIndependent` | src/reader_weight_holder.py:39 | two orderings of one dictionary whose readers are all known, with a non-empty window, give the same tables and the same (absent) error |
| `ReaderWeights.WorkedExample` | src/reader_weight_holder.py:23-43 | with window 3 and initial mean 5, inserting 8 three times gives histories [5,5,8], [5,8,8], [8,8,8] and weights 6, 7, 8 |
| `ReaderWeights.ReaderWeightHolder.constructor` | src/reader_weight_holder.py:16-21 | the new holder stores its arguments (window 10 by default), its tables are those of a reset, and the invariant holds from construction on |
| `ReaderWeights.ReaderWeightHolder.Reset` | src/reader_weight_holder.py:23-30 | the tables become exactly the reset tables and the invariant holds; readers, window and initial mean are not modified |
| `ReaderWeights.ReaderWeightHolder.Get` | src/reader_weight_holder.py:32-34 | returns the stored weight of a known reader and `UnknownReader` otherwise; under the invariant it succeeds exactly for ids in the reader column, and the weight is the mean of the reader's history |
| `ReaderWeights.ReaderWeightHolder.InsertEntry` | src/reader_weight_holder.py:40-43 | one entry updates the maps in place exactly as `InsertOne` says: on failure nothing changes and the error is returned, on success the tables become `InsertOne`'s result; the invariant is preserved |
| `ReaderWeights.ReaderWeightHolder.Inserts` | src/reader_weight_holder.py:36-43 | the new tables and the reported error are exactly those of `InsertAll` on the old tables, and the invariant is preserved |

## Left out

- `print_weights`, `print_past_weights`, `print_all` (src/reader_weight_holder.py:45-53): pandas rendering and standard output. They do not change state.
- `index_as_id` (src/helper.py): DataFrame column plumbing over a library.
- numpy and pandas: the `readers` DataFrame is a sequence of ids, `np.repeat(...).tolist()` is `Repeat`, and `np.arange` is `Range`.
- IEEE floating-point rounding: weights and scores are exact reals. It is not modelled that a float `sum / window` can differ from the exact mean.
- Negative windows: `window` is a `nat`. With a negative window and a non-empty reader column, numpy raises ValueError in `reset`. That path is not modelled.
- Non-integer `Scale` bounds: `min` and `max` are integers. numpy's `arange` over real bounds is not modelled.
- Attribute reassignment from outside the object: Python callers can rebind `reader_pass_weight_window` or mutate the lists returned through `past_weights`. The model proves the invariant only for changes made through the holder's methods.
- The alternative weighting policies named in the TODO at src/reader_weight_holder.py:42: only the simple average exists in the code.
- Duplicate keys in a batch: a Python dictionary cannot have them. `Inserts` accepts any sequence of entries and applies them in order. The order-independence lemmas assume distinct ids, every id known and `window > 0`. A batch that stops with an error does depend on dictionary order: the entries before the failing one stay applied, so `[("a", 8), ("u", 1)]` changes `a` and `[("u", 1), ("a", 8)]` does not.
