# Shogun: ICA converter lifecycle and cross-validation storage, in Dafny

This project models two small stateful parts of the Shogun machine-learning
toolbox and proves properties of them.

- **`CICAConverter`** (module `ICA`, file `ica_converter.dfy`). The converter holds a
  mixing matrix, `max_iter` and `tol`. An empty mixing matrix (one whose
  handle has no buffer) means "not fitted". `fit` checks three guards in order
  and only then hands over to the algorithm-specific `fit_dense`.
  `transform` computes `C.inverse() * X` and `inverse_transform` computes
  `M * X`. Each first refuses an unfitted converter. Each then works on the
  caller's own buffer (`inplace`) or on a fresh clone of it. Each overwrites
  that working buffer with the product and returns new dense features over
  it.
- **`SGMatrix`** (module `Linalg`, file `linalg.dfy`). This is a handle datatype
  over an `array?<real>` buffer, so copying a handle shares the buffer, as in
  C++. The backend's two products are per-entry functions passed in as a
  `Backend` value. Their results have the input's shape by construction, and
  nothing else about their arithmetic is assumed.
- **Feature collections** (module `Features`, file `features.dfy`). A collection
  has a storage-class tag, an element-type tag and a feature-matrix handle.
- **`CrossValidationFoldStorage` / `CrossValidationStorage`** (module
  `CrossValidation`, file `cross_validation_storage.dfy`). A fold record holds
  a run index, a fold index, references to the trained machine, the predicted
  labels and the true labels, the train and test indices, and a score. The
  aggregate holds the run and fold counts, the original labels and a
  `seq<FoldStorage?>` of record pointers. `append_fold_result` pushes onto
  that sequence in place. The foreign `equals` of machines and labels is an
  abstract `ForeignEquals` value made of two relations.

Points where the code behaves differently from what one might expect:

- The aggregate's `operator==` compares the fold pointers at
  `CrossValidationStorage.cpp:155`. The fold records' own `operator==` is not
  called there. So two aggregates holding distinct but field-for-field equal
  fold records are unequal. `PointerIdentityNotDeep` states this.
- `transform` and `inverse_transform` do not check the feature class or type
  themselves. After the "not fitted" guard, only the `as<CDenseFeatures>`
  cast stands between a wrong kind of features and the arithmetic. The model
  reports that cast as `NotDenseReal`.
- All guards raise the same exception kind with different messages. The model
  gives each message its own `Error` constructor.
- Both `operator==`s rely on C++'s short-circuiting `&&`. A reference is
  dereferenced only when the earlier conjuncts held. So each `requires`
  (`CanCompare`) asks for a non-null reference only where the conjunction
  reaches it.

## Model

| member | source | states |
|---|---|---|
| `CrossValidation.FoldStorage.constructor` | src/shogun/evaluation/CrossValidationStorage.cpp:44-50 | a fresh record has run index 0, fold index 0, null machine, predicted and true labels; the train/test indices, which these lines do not assign, are empty because the default-constructed SGVector members are |
| `CrossValidation.FoldStorage.CanCompare` | src/shogun/evaluation/CrossValidationStorage.cpp:90-96 | the left-hand record's machine must be non-null once run and fold index agree, its predicted labels once the machines are equal too, and its ground truth once the predicted labels are equal too: exactly the dereferences the short-circuit conjunction reaches |
| `CrossValidation.FoldStorage.Equal` | src/shogun/evaluation/CrossValidationStorage.cpp:87-98 | run index, fold index, machine, predicted labels, ground truth and score are compared in that order under short-circuiting; the train and test indices are not compared |
| `CrossValidation.FoldEqualIgnoresIndices` | src/shogun/evaluation/CrossValidationStorage.cpp:87-98 | fold equality does not depend on the train or test indices, on either side of the comparison |
| `CrossValidation.FoldEqualReflexive` | src/shogun/evaluation/CrossValidationStorage.cpp:90-97 | a record whose three references are self-equal under the foreign equals compares equal to itself, and all its dereferences are safe |
| `CrossValidation.FoldScalarMismatchUnequal` | src/shogun/evaluation/CrossValidationStorage.cpp:90-97 | a different run index, fold index or score makes two records unequal |
| `CrossValidation.FirstMismatch` | src/shogun/evaluation/CrossValidationStorage.cpp:153-157 | the scan's stopping index: all earlier positions hold the same pointer, and it is the length or a position where the pointers differ |
| `CrossValidation.FirstMismatchAtEnd` | src/shogun/evaluation/CrossValidationStorage.cpp:153-158 | the scan runs to the end exactly when the two lists are identical |
| `CrossValidation.Storage.constructor` | src/shogun/evaluation/CrossValidationStorage.cpp:106-110 | a fresh aggregate has 0 runs, 0 folds, null original labels and no fold records |
| `CrossValidation.Storage.AppendFoldResult` | src/shogun/evaluation/CrossValidationStorage.cpp:135-140 | the list grows by exactly one, with the given pointer (null included) last and the earlier records in place; the counts and labels are unchanged |
| `CrossValidation.Storage.CanCompare` | src/shogun/evaluation/CrossValidationStorage.cpp:144-146 | the left-hand original labels must be non-null once both counts agree, where the conjunction reaches the dereference |
| `CrossValidation.Storage.MembersEqual` | src/shogun/evaluation/CrossValidationStorage.cpp:144-146 | `member_vars`: equal run count, equal fold count and foreign-equal original labels, in that order |
| `CrossValidation.Storage.Equals` | src/shogun/evaluation/CrossValidationStorage.cpp:142-159 | the result is true exactly when the counts match, the labels are foreign-equal and the two lists hold the same pointers in the same order; no fold is compared when a member or the length differs; otherwise the scan compares up to and including the first mismatch |
| `CrossValidation.PointerIdentityNotDeep` | src/shogun/evaluation/CrossValidationStorage.cpp:153-156 | aggregates holding distinct fold objects at any one position are unequal, even when those two folds are deep-equal |
| `CrossValidation.SameAsReflexive` | src/shogun/evaluation/CrossValidationStorage.cpp:142-158 | an aggregate whose labels are self-equal equals itself |
| `CrossValidation.AppendToBoth` | src/shogun/evaluation/CrossValidationStorage.cpp:135-159 | appending the same record to two aggregates preserves both their equality and their inequality |
| `ICA.ICAConverter.constructor` | src/shogun/converter/ica/ICAConverter.cpp:15-24 | a fresh converter is unfitted (empty mixing matrix with no storage), with max_iter 200 and tol 1e-6 |
| `ICA.ICAConverter.SetMixingMatrix` | src/shogun/converter/ica/ICAConverter.cpp:35-38 | stores the given handle whatever its shape; max_iter and tol are unchanged |
| `ICA.ICAConverter.SetMaxIter` | src/shogun/converter/ica/ICAConverter.cpp:45-48 | stores any 32-bit int; the mixing matrix and tol are unchanged |
| `ICA.ICAConverter.SetTol` | src/shogun/converter/ica/ICAConverter.cpp:55-58 | stores any tolerance; the mixing matrix and max_iter are unchanged |
| `ICA.ICAConverter.GetMixingMatrix` | src/shogun/converter/ica/ICAConverter.cpp:40-43 | returns the stored handle (shared buffer), empty when unfitted |
| `ICA.ICAConverter.GetMaxIter` | src/shogun/converter/ica/ICAConverter.cpp:50-53 | returns the stored max_iter |
| `ICA.ICAConverter.GetTol` | src/shogun/converter/ica/ICAConverter.cpp:60-63 | returns the stored tol |
| `ICA.MixingMatrixRoundTrip` | src/shogun/converter/ica/ICAConverter.cpp:35-43 | set then get returns the very same handle (same buffer, any shape), and no other field changes |
| `ICA.MaxIterRoundTrip` | src/shogun/converter/ica/ICAConverter.cpp:45-53 | set then get returns k for every int, 0 and negatives included, and no other field changes |
| `ICA.TolRoundTrip` | src/shogun/converter/ica/ICAConverter.cpp:55-63 | set then get returns t, and no other field changes |
| `ICA.ICAConverter.Fit` | src/shogun/converter/ica/ICAConverter.cpp:65-76 | checks null features, then a non-dense class, then a non-double type, in that order; fit_dense runs exactly when all three pass; a failure leaves the mixing matrix as it was; max_iter and tol never change |
| `ICA.RefitReplaces` | src/shogun/converter/ica/ICAConverter.cpp:65-76 | after two successful fits the mixing matrix is the second one |
| `ICA.ICAConverter.Transform` | src/shogun/converter/ica/ICAConverter.cpp:78-95 | "not fitted" is refused first, then non-dense-double features, with no buffer touched; on success the result has the input's shape and holds C⁻¹·X computed from the pre-call values; with inplace the caller's buffer is overwritten and shared by the result; without it the caller's buffer is untouched and the result's buffer is fresh; the converter's fields never change |
| `ICA.ICAConverter.InverseTransform` | src/shogun/converter/ica/ICAConverter.cpp:97-108 | the same guards, the same aliasing and the same "nothing else changes" as Transform, with M·X in place of C⁻¹·X |
| `Linalg.Clone` | src/shogun/converter/ica/ICAConverter.cpp:82-84 | `X.clone()`: a handle to a fresh buffer with the same rows, columns and entries |
| `ICA.UnfittedRefuses` | src/shogun/converter/ica/ICAConverter.cpp:78-108 | a freshly constructed converter refuses both transform and inverse_transform with NotFitted and leaves the caller's buffer unchanged |

## Left out

- The numbers computed by `C.inverse() * EX` and `linalg::matrix_prod` are left out. These are Eigen and backend floating-point routines, so the model passes them in as uninterpreted per-entry functions (`Backend`). `Linalg.InverseTimes` and `Linalg.Times` only build a matrix of X's shape from those functions; the shape the source promises is stated by the `Transform` and `InverseTransform` contracts.
- The round trip `inverse_transform(transform(X)) == X` is left out. It holds only up to floating-point error, and the products are uninterpreted here.
- Floating point is not modelled: matrix entries, `tol` and the fold score are `real`. So the model does not capture NaN making the score comparison at `CrossValidationStorage.cpp:97` false for identical records.
- ICA.ICAConverter.Transform: the shape rule is a `requires`: once fitted and dense, the mixing matrix must be square with side equal to the feature matrix's row count. The converter does not check this itself. What the backend does on a mismatch (an Eigen assertion, or a `REQUIRE` inside `matrix_prod`) is not part of this model.
- ICA.ICAConverter.InverseTransform: the same shape `requires` as Transform, for the same reason.
- `fit_dense` is abstract and its implementations are not part of this model. `Fit` takes its outcome as a parameter (`Install(m)` or `Raise`). A raising `fit_dense` is taken to leave the mixing matrix alone.
- The `as<CDenseFeatures<float64_t>>` cast and the feature-class hierarchy are reduced to two enum tags. A failed cast is the error `NotDenseReal`. Whether the real cast throws or returns null is not part of this model.
- `transform` and `inverse_transform` on a null `features` pointer are left out: the source dereferences it unchecked, so the model's parameter type is non-null.
- The `SG_ADD` and `watch_param` parameter registrations, used for reflection and serialization, are left out.
- `SG_REF`/`SG_UNREF` reference counting, the destructors, and the no-op hooks `post_update_results`, `print_result` and `post_init` are left out.
- The `equals` of `CMachine` and `CLabels` is foreign code. The model replaces it with the abstract relations in `ForeignEquals`. Because these are total functions, they cannot read the objects' state.
- The setters in the headers of the two storage classes are not part of this model. Their fields are public `var`s that clients assign directly.
- `index_t` counts and indices are unbounded `int`s. They are only assigned and compared for equality, so their width does not matter.
- CrossValidation.FoldStorage.constructor: states nothing about the score, because `CrossValidationStorage.cpp` does not initialise `m_evaluation_result`.
