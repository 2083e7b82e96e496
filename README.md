# GAIN bookkeeping in Dafny

A Dafny model of the exact, discrete bookkeeping around the Generative
Adversarial Imputation Network (GAIN) of this repository. The two neural
networks stay outside the model. What is modelled:

- `gain.py`. Several steps work cell by cell:
  - the observed-mask `data_m = 1 - isnan(data_x)`;
  - zero-filling of the normalised data, as a value and in place;
  - minibatch row slicing;
  - the hint `M_mb * B`;
  - the two merges `m*x + (1-m)*z` (generator input) and `m*x + (1-m)*g` (final imputation).

  Around them sits the run control: reading the parameter dictionary,
  restoring or initialising parameters, a fixed number of training steps
  (discriminator step, then generator step), saving outside predict mode,
  and post-processing with reverse encoding only when `onehot > 0`.
- `main.py`: the `str2bool` validator and the `gain_parameters` dictionary.
- `data_loader.py`: the choice of encoding branch, feature names and
  dimensions, and the introduction of missingness into a copy of the data.

Cells are `Missing` (numpy's NaN) or `Value(v)`. Masks, hints and noise are
real matrices. The merges are written with the source's arithmetic. The
lemmas prove that, with a 0/1 mask, each merge picks one input per cell.

The following are inputs to the model, not parts of it:
- the samplers (batch indices, uniform noise, Bernoulli draws);
- the helpers of `utils.py`;
- the generator network;
- one Adam step of each solver, as a function of the saved variables (weights and Adam state) and the batch;
- the initial parameters.

Checkpoints are a map from the model path `model/<data_name>` to saved
parameters.

Modules, one file each:
- `Matrices`: shared types.
- `Results`: Result.
- `GainMasks`: element-wise steps of `gain.py`.
- `GainTraining`: batches, training steps, the `ModelStore` and `Session` classes.
- `Gain`: the `gain` function end to end.
- `DataLoader`: `data_loader.py`.
- `MainArgs`: `main.py`.

## Model

| member | source | states |
|---|---|---|
| GainMasks.MaskOf | gain.py:42 | the mask has the data's shape, is 0/1, is 1 exactly at observed cells and 0 exactly at missing cells |
| GainMasks.NanToNum | gain.py:63-64 | zero-filled data has the input's shape; every missing cell becomes 0 and every observed cell keeps its value |
| GainMasks.NanToNumInPlace | gain.py:64 | in place, every cell of the array becomes the zero-filled value of what it held; afterwards no cell is missing |
| GainMasks.Rows | gain.py:160-162 | the slice has one row per index, and row k is row `batch_idx[k]` of the matrix |
| GainMasks.BatchAligned | gain.py:160-162 | slicing the data and its mask with the same indices keeps them aligned: the mask of the sliced data is the sliced mask, which is 0/1 and has the sliced data's shape |
| GainMasks.ZeroFilledVanishesOffMask | gain.py:42-64 | zero-filled data times its own mask is the zero-filled data itself, so the `M * X` products of gain.py:126, 138 and 188 remove nothing that zero-filling left; no other lemma builds on it |
| GainMasks.HintContainment | gain.py:166-167 | with 0/1 mask and draw, the hint is 0/1, is 1 exactly where both are 1, is 0 wherever the mask is 0, is 0 or the mask value, and never exceeds the mask |
| GainMasks.MergeSelects | gain.py:170 | with a 0/1 mask, `m*x + (1-m)*z` is `x` where the mask is 1 and `z` where it is 0 |
| GainMasks.Product | gain.py:167 | the elementwise product has the operands' shape and each cell is the product of the two cells |
| GainMasks.Merge | gain.py:170 | `m*x + (1-m)*z` has the mask's shape and is that expression at every cell |
| GainMasks.MergeAbsorbs | gain.py:126 | `Hat_X`, the fed input X (data merged with noise) merged with the generator output, equals the data merged directly with that output, so noise never reaches an observed cell |
| GainMasks.GeneratorInputSelects | gain.py:181-184 | the full-data generator input has the data's shape, holds the zero-filled value at every observed cell and the noise at every missing cell |
| GainMasks.ImputationPreservesObserved | gain.py:186-188 | the imputation holds the normalised value at every observed cell and the generator output at every missing cell; if normalisation keeps missing cells missing, observed cells carry the normalised numbers |
| GainTraining.MakeBatch | gain.py:159-170 | batch mask row k is mask row `idx[k]`; batch input is that data row at observed cells and the noise at missing cells; the hint is the batch mask times the hint draw, so it is 1 exactly where both are 1 and is 0/1; all have `batch_size x dim` shape |
| GainTraining.RangeLen | gain.py:157 | `range(iterations)` has `iterations` elements when that is not negative, and none otherwise |
| GainTraining.Batches | gain.py:157-170 | one batch per draw, in order, the k-th built from the k-th draw |
| GainTraining.TrainStep | gain.py:172-176 | the discriminator step sees the parameters from before the step and sets theta_D only; the generator step then sees the updated theta_D and sets theta_G only |
| GainTraining.Trained | gain.py:157-176 | with no batch nothing changes; with one batch the result is exactly one step |
| GainTraining.TrainedSnoc | gain.py:157-176 | the last batch fed is the last step taken, from where the earlier batches left the parameters |
| GainTraining.TrainedAppend | gain.py:150-157 | training on two lists of batches in a row gives the same parameters as one run over both lists joined, so a run restored from a checkpoint continues the earlier training |
| GainTraining.ModelStore.Restore | gain.py:150-152 | restoring an existing checkpoint returns exactly the parameters saved under that path |
| GainTraining.ModelStore.Save | gain.py:177-178 | saving writes the checkpoint of the model path and leaves every other checkpoint as it was |
| GainTraining.Session.constructor | gain.py:148-154 | parameters are restored iff `predict` holds and the checkpoint exists; otherwise they are freshly initialised |
| GainTraining.Session.Step | gain.py:172-176 | one iteration is one discriminator update followed by one generator update on the same batch; the batch is appended to the history |
| GainTraining.Session.Train | gain.py:157-176 | exactly `len(range(iterations))` steps run, with no early exit, on the batches the draws give, in order; the parameters are the start parameters trained on them |
| Gain.ReadConfig | gain.py:45-51 | keys are read in order: if every earlier key is present with the right kind, an absent key gives `KeyError` naming it and a wrongly kinded one gives `WrongKind` naming it; every failure names one of the seven keys, and a `KeyError` names an absent one; a successful read implies all seven keys are present and carries each one's value unchanged (an int read as a float where a float is wanted); a dictionary with all seven keys of the right kinds always reads successfully |
| Gain.ModelPath | gain.py:54 | the model path starts with `model/`, and the data name follows it unchanged |
| Gain.Finish | gain.py:190-199 | renormalise, then round; reverse-encode iff `onehot > 0`, otherwise return the rounded matrix as is |
| Gain.Gain | gain.py:41-199 | restored iff predict and checkpoint exists; exactly `len(range(iterations))` steps on the drawn batches; checkpoint saved iff not predict; result is the post-processed merge of zero-filled data at observed cells and one generator pass at missing cells |
| Gain.TrainThenPredict | gain.py:150-178 | a predict-mode run after a training run on the same store restores what that run saved, and ends with the parameters of one run over both runs' batches |
| DataLoader.DimensionCheckAsWritten | data_loader.py:34-35 | the check as written raises exactly when the shape has at most two entries, and otherwise always warns |
| DataLoader.DimensionCheck | data_loader.py:34-35 | the intended check never raises and warns exactly when the data is not 2-D |
| DataLoader.DimensionCheckOnTables | data_loader.py:34-35 | on every table the check as written raises, while the intended check passes silently |
| DataLoader.ChooseBranch | data_loader.py:37-48 | encode iff `onehot > 0` and the leading columns are complete; raw table iff `onehot == 0`; skip encoding in every other case |
| DataLoader.Ablate | data_loader.py:58-60 | the ablated data has the data's shape, is missing wherever the sampled mask is 0 and equals the data wherever it is not |
| DataLoader.AblationMask | data_loader.py:58-60 | the mask derived from ablated data is the sampled mask times the data's own mask |
| DataLoader.AblationMaskOfCompleteData | data_loader.py:58-60 | for data without missing cells, the mask derived from the ablated data is exactly the sampled mask |
| DataLoader.IntroduceMissingness | data_loader.py:58-60 | returns a fresh array of the data's shape equal to the ablated data, and leaves `data_x` unchanged |
| DataLoader.Load | data_loader.py:44-60 | on the non-encoding branches `data_x` is the raw table, so `dim == ori_data_dim`; feature names are the columns, one per original column; `data_m` has `data_x`'s shape; `miss_data_x` is the ablated copy |
| MainArgs.Lower | main.py:20-22 | lowering keeps the length and lowers each character |
| MainArgs.LowerIdempotent | main.py:20-22 | lowering a lowered string changes nothing; `str2bool` lowers once, so this is a check on the ASCII lowering model and no other lemma builds on it |
| MainArgs.Str2Bool | main.py:17-25 | a bool is returned unchanged; a string gives True iff its lowered form is a true-word and False iff it is a false-word; every other string raises `ArgumentTypeError('Boolean value expected.')` and never returns a bool |
| MainArgs.CaseInsensitive | main.py:20-23 | strings that differ only in letter case get the same answer |
| MainArgs.AcceptsAnyCase | main.py:20-23 | 'yes', 'true', 't', 'y', '1' in any letter case give True; 'no', 'false', 'f', 'n', '0' in any letter case give False |
| MainArgs.RejectsOthers | main.py:24-25 | a string that is none of the ten words in any letter case raises the argument-type error |
| MainArgs.WordsDisjoint | main.py:20-23 | the true-words and the false-words are disjoint |
| MainArgs.Str2BoolExamples | main.py:17-25 | 'TRUE' gives True, 'No' gives False, 'maybe' raises, the bool False is returned as is |
| MainArgs.GainParameters | main.py:47-53 | the dictionary has exactly the seven keys `gain` reads; `alpha` is an int exactly when argparse left it one (the default `100`, main.py:89-93) |
| MainArgs.ParametersRoundTrip | main.py:47-53 | reading the dictionary back gives, for each of the seven settings, the same-named command-line value unchanged, with an int `alpha` read as the float of the same value |

## Left out

- The TensorFlow graph is not modelled: the layers of both networks, `Hat_X`, the losses and the Adam solvers (gain.py:66-148). The generator is a function of theta_G, X and M. Each solver step is a function from the session's saved variables and the batch to the new theta_D or theta_G, each with its solver's Adam state. The unguarded division by `mean(M)` in the MSE loss (gain.py:137-138) is therefore not modelled. A batch with no observed cell makes that loss NaN in TensorFlow.
- The Adam state of both solvers (moment slots and beta-power counters) is part of `Params`. The saver saves and restores it with theta_G and theta_D (gain.py:144-149), but the model does not look inside it. Each step is a function of these saved variables and the batch.
- `utils.py` is not part of this model. `normalization`, `renormalization`, `rounding`, `reverse_encoding`, `xavier_init` and the three samplers are inputs. So observed-value preservation is stated for the normalised imputation, before renormalisation and rounding.
- Gain.Gain: requires each per-iteration draw to have one noise row and one hint row per batch index. The source's sampler makes that true only when `batch_size <= no`. Otherwise numpy fails on the shape mismatch, and the model does not capture that failure.
- Gain.Gain: requires normalisation and the generator to keep the `no x dim` shape. These functions live in `utils.py` and TensorFlow, and numpy broadcasting errors are not modelled.
- Gain.Gain: `batch_size`, `hint_rate` and `alpha` are read but only shape the samplers and losses, which are inputs here. The model takes the draws of each iteration directly, and `batch_size` is the number of indices in each draw.
- Checkpoint files are a map keyed by the model path. A key is present exactly when `<path>.ckpt.meta` exists. The file formats, `tf.train.Saver` and `os.path.exists` are not modelled.
- Floating point is modelled with unbounded reals. The model has no float32 rounding and no infinities, so `nan_to_num`'s replacement of infinities is not modelled.
- MainArgs.Lower: lowers only the letters A to Z, where Python's `str.lower` is Unicode-aware. The only characters that Python lowers to ASCII letters are U+0130 (to "i" plus a combining dot) and U+212A (to "k"). Neither "i" nor "k" occurs in the ten accepted words, so the set of accepted strings is the same.
- MainArgs.Str2Bool: takes only a bool or a string. Any other value would make `v.lower()` raise `AttributeError` in the source.
- Gain.ReadConfig: a value of the wrong kind is reported when it is read (`WrongKind`). In Python the failure would come later, at first use, or not at all.
- DataLoader.Load: requires the encoding branch (`onehot > 0` with complete leading columns) not to be taken. That branch is not modelled: it depends on sklearn's `OneHotEncoder`, and its indexing (`data[:,:onehot-1]`, the hard-coded `iloc[:,5:]`) is broken as written. Whether the leading columns are complete is an input.
- DataLoader.Load: the branch test `data[:,:onehot-1].isnull() == 0` raises on a DataFrame before `onehot` is looked at. The model uses the evidently intended test, not that crash.
- DataLoader.Load: the data is a float array. With an integer array, writing NaN into the copy would raise in numpy.
- DataLoader.Load: `miss_rate` only sets the sampler's probability, and the sampled mask is an input.
- CSV reading and writing, pandas, argparse wiring, tqdm and the prints are not modelled.
- The four-argument call of the three-parameter `data_loader` (main.py:56) is not modelled. It raises `TypeError` as written.
- Randomness and seeding are not modelled: every draw is an input.

## Findings

| source | as written | input that shows it | evidently intended | confidence | as-written member | corrected member |
|---|---|---|---|---|---|---|
| data_loader.py:34 | `data.shape[2] is not None` indexes a third dimension of the shape of a 2-D DataFrame | any table, e.g. 3 rows and 2 columns (shape `(3, 2)`): `shape[2]` raises IndexError (lemma `DataLoader.DimensionCheckOnTables`) | print "Dataset not 2D" only when the data is not 2-D, and go on otherwise | high, not executed | DataLoader.DimensionCheckAsWritten | DataLoader.DimensionCheck |
