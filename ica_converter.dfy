/** The ICA converter's lifecycle around its mixing matrix: construction,
    the accessor pairs, the guards of fit, and transform / inverse_transform
    with their copy-or-alias handling of the caller's buffer. */
module ICA {
  import opened Linalg
  import opened Features

  /** A C `int`. */
  newtype int32 = x: int | -0x8000_0000 <= x < 0x8000_0000

  /** The failures the converter raises. The source raises one exception kind
      for all of them and tells them apart by message. */
  datatype Error =
    | FeaturesNotProvided   // "Features are not provided"
    | NotDense              // "ICA converters only work with dense features"
    | NotReal               // "ICA converters only work with real features"
    | NotFitted             // "ICAConverter has not been fitted."
    | NotDenseReal          // the as<CDenseFeatures<float64_t>> cast fails
    | FitDenseFailed        // the algorithm-specific fit_dense raised

  datatype Status = Done | Failed(error: Error)

  datatype Result<T> = Success(value: T) | Failure(error: Error)

  /** What the algorithm-specific fit_dense does with the features it is
      handed: install a new mixing matrix, or raise. */
  datatype FitDenseStep = Install(mixing: SGMatrix) | Raise

  const DefaultMaxIter: int32 := 200
  const DefaultTol: real := 0.000001

  /** The shapes the backend needs once the guards have passed: the mixing
      matrix square, with side the feature matrix's row count. */
  predicate Conforms(mixing: SGMatrix, x: SGMatrix)
  {
    mixing.Wf() && x.Wf() && mixing.numRows == mixing.numCols == x.numRows
  }

  class ICAConverter {
    /** Empty (no storage) until fitted or set. */
    var mixingMatrix: SGMatrix
    var maxIter: int32
    var tol: real

    /** The constructor runs init: unfitted, 200 iterations, tolerance 1e-6. */
    constructor ()
      ensures mixingMatrix == Empty && !mixingMatrix.HasStorage()
      ensures maxIter == DefaultMaxIter && tol == DefaultTol
    {
      mixingMatrix := Empty;
      maxIter := DefaultMaxIter;
      tol := DefaultTol;
    }

    /** Stores the handle as given: no shape or value check, buffer shared. */
    method SetMixingMatrix(m: SGMatrix)
      modifies this
      ensures mixingMatrix == m
      ensures maxIter == old(maxIter) && tol == old(tol)
    {
      mixingMatrix := m;
    }

    function GetMixingMatrix(): (m: SGMatrix)
      reads this
    {
      mixingMatrix
    }

    /** Stores any int, zero and negative ones included. */
    method SetMaxIter(iter: int32)
      modifies this
      ensures maxIter == iter
      ensures mixingMatrix == old(mixingMatrix) && tol == old(tol)
    {
      maxIter := iter;
    }

    function GetMaxIter(): (iter: int32)
      reads this
    {
      maxIter
    }

    /** Stores any tolerance, zero and negative ones included. */
    method SetTol(t: real)
      modifies this
      ensures tol == t
      ensures mixingMatrix == old(mixingMatrix) && maxIter == old(maxIter)
    {
      tol := t;
    }

    function GetTol(): (t: real)
      reads this
    {
      tol
    }

    /** Checks, in order, that features are given, dense and of doubles; only
        then runs fit_dense (`fitDenseRan`), whose outcome is `step`. */
    method Fit(features: FeatureCollection?, step: FitDenseStep)
      returns (status: Status, ghost fitDenseRan: bool)
      modifies this
      ensures features == null ==> status == Failed(FeaturesNotProvided)
      ensures features != null && features.featureClass != DenseClass ==>
        status == Failed(NotDense)
      ensures (features != null && features.featureClass == DenseClass &&
               features.featureType != Float64) ==> status == Failed(NotReal)
      ensures fitDenseRan <==> features != null && features.IsDenseReal()
      ensures fitDenseRan && step.Install? ==> status == Done && mixingMatrix == step.mixing
      ensures fitDenseRan && step.Raise? ==> status == Failed(FitDenseFailed)
      ensures status.Failed? ==> mixingMatrix == old(mixingMatrix)
      ensures maxIter == old(maxIter) && tol == old(tol)
    {
      fitDenseRan := false;
      if features == null {
        return Failed(FeaturesNotProvided), fitDenseRan;
      }
      if features.featureClass != DenseClass {
        return Failed(NotDense), fitDenseRan;
      }
      if features.featureType != Float64 {
        return Failed(NotReal), fitDenseRan;
      }
      fitDenseRan := true;
      match step
      case Install(m) =>
        mixingMatrix := m;
        status := Done;
      case Raise =>
        status := Failed(FitDenseFailed);
    }

    /** Unmixes: overwrites the working buffer X with C.inverse() * X, where X
        is the caller's own buffer when `inplace` and a fresh clone otherwise,
        and returns new dense features over X. */
    method Transform(features: FeatureCollection, inplace: bool, backend: Backend)
      returns (r: Result<FeatureCollection>)
      requires mixingMatrix.HasStorage() && features.IsDenseReal() ==>
        Conforms(mixingMatrix, features.featureMatrix)
      modifies if inplace then features.featureMatrix.Buffer() else {}
      ensures !mixingMatrix.HasStorage() ==> r == Failure(NotFitted)
      ensures mixingMatrix.HasStorage() && !features.IsDenseReal() ==> r == Failure(NotDenseReal)
      ensures r.Success? <==> mixingMatrix.HasStorage() && features.IsDenseReal()
      ensures r.Failure? ==> unchanged(features.featureMatrix.Buffer())
      ensures r.Success? ==>
        fresh(r.value) && r.value.IsDenseReal() && r.value.featureMatrix.Wf() &&
        r.value.featureMatrix.numRows == features.featureMatrix.numRows &&
        r.value.featureMatrix.numCols == features.featureMatrix.numCols &&
        r.value.featureMatrix.matrix[..] ==
          InverseTimes(backend, old(Contents(mixingMatrix)), old(Contents(features.featureMatrix))).entries
      ensures r.Success? && inplace ==> r.value.featureMatrix.matrix == features.featureMatrix.matrix
      ensures r.Success? && !inplace ==>
        fresh(r.value.featureMatrix.matrix) && unchanged(features.featureMatrix.Buffer())
      ensures !(inplace && features.featureMatrix.matrix == mixingMatrix.matrix) ==>
        unchanged(mixingMatrix.Buffer())
      ensures mixingMatrix == old(mixingMatrix) && maxIter == old(maxIter) && tol == old(tol)
      ensures features.featureMatrix == old(features.featureMatrix)
    {
      if !mixingMatrix.HasStorage() {
        return Failure(NotFitted);
      }
      if !features.IsDenseReal() {
        return Failure(NotDenseReal);
      }
      var x := features.featureMatrix;
      if !inplace {
        x := Clone(x);
      }
      var unmixed := InverseTimes(backend, Contents(mixingMatrix), Contents(x));
      forall k | 0 <= k < x.matrix.Length {
        x.matrix[k] := unmixed.entries[k];
      }
      assert x.matrix[..] == unmixed.entries;
      var out := new FeatureCollection(DenseClass, Float64, x);
      return Success(out);
    }

    /** Mixes: overwrites the working buffer X with M * X, where X is the
        caller's own buffer when `inplace` and a fresh clone otherwise, and
        returns new dense features over X. */
    method InverseTransform(features: FeatureCollection, inplace: bool, backend: Backend)
      returns (r: Result<FeatureCollection>)
      requires mixingMatrix.HasStorage() && features.IsDenseReal() ==>
        Conforms(mixingMatrix, features.featureMatrix)
      modifies if inplace then features.featureMatrix.Buffer() else {}
      ensures !mixingMatrix.HasStorage() ==> r == Failure(NotFitted)
      ensures mixingMatrix.HasStorage() && !features.IsDenseReal() ==> r == Failure(NotDenseReal)
      ensures r.Success? <==> mixingMatrix.HasStorage() && features.IsDenseReal()
      ensures r.Failure? ==> unchanged(features.featureMatrix.Buffer())
      ensures r.Success? ==>
        fresh(r.value) && r.value.IsDenseReal() && r.value.featureMatrix.Wf() &&
        r.value.featureMatrix.numRows == features.featureMatrix.numRows &&
        r.value.featureMatrix.numCols == features.featureMatrix.numCols &&
        r.value.featureMatrix.matrix[..] ==
          Times(backend, old(Contents(mixingMatrix)), old(Contents(features.featureMatrix))).entries
      ensures r.Success? && inplace ==> r.value.featureMatrix.matrix == features.featureMatrix.matrix
      ensures r.Success? && !inplace ==>
        fresh(r.value.featureMatrix.matrix) && unchanged(features.featureMatrix.Buffer())
      ensures !(inplace && features.featureMatrix.matrix == mixingMatrix.matrix) ==>
        unchanged(mixingMatrix.Buffer())
      ensures mixingMatrix == old(mixingMatrix) && maxIter == old(maxIter) && tol == old(tol)
      ensures features.featureMatrix == old(features.featureMatrix)
    {
      if !mixingMatrix.HasStorage() {
        return Failure(NotFitted);
      }
      if !features.IsDenseReal() {
        return Failure(NotDenseReal);
      }
      var x := features.featureMatrix;
      if !inplace {
        x := Clone(x);
      }
      var mixed := Times(backend, Contents(mixingMatrix), Contents(x));
      forall k | 0 <= k < x.matrix.Length {
        x.matrix[k] := mixed.entries[k];
      }
      assert x.matrix[..] == mixed.entries;
      var out := new FeatureCollection(DenseClass, Float64, x);
      return Success(out);
    }
  }

  /** set_max_iter(k) then get_max_iter() gives k back; nothing else moves. */
  method MaxIterRoundTrip(c: ICAConverter, k: int32) returns (got: int32)
    modifies c
    ensures got == k
    ensures c.mixingMatrix == old(c.mixingMatrix) && c.tol == old(c.tol)
  {
    c.SetMaxIter(k);
    got := c.GetMaxIter();
  }

  /** set_tol(t) then get_tol() gives t back; nothing else moves. */
  method TolRoundTrip(c: ICAConverter, t: real) returns (got: real)
    modifies c
    ensures got == t
    ensures c.mixingMatrix == old(c.mixingMatrix) && c.maxIter == old(c.maxIter)
  {
    c.SetTol(t);
    got := c.GetTol();
  }

  /** set_mixing_matrix(m) then get_mixing_matrix() gives back the very same
      handle (same buffer, same shape), whatever its shape. */
  method MixingMatrixRoundTrip(c: ICAConverter, m: SGMatrix) returns (got: SGMatrix)
    modifies c
    ensures got == m && got.matrix == m.matrix
    ensures c.maxIter == old(c.maxIter) && c.tol == old(c.tol)
  {
    c.SetMixingMatrix(m);
    got := c.GetMixingMatrix();
  }

  /** A freshly built converter refuses both transforms, touching no buffer. */
  method UnfittedRefuses(features: FeatureCollection, inplace: bool, backend: Backend)
    returns (forward: Result<FeatureCollection>, backward: Result<FeatureCollection>)
    modifies if inplace then features.featureMatrix.Buffer() else {}
    ensures forward == Failure(NotFitted) && backward == Failure(NotFitted)
    ensures unchanged(features.featureMatrix.Buffer())
  {
    var c := new ICAConverter();
    forward := c.Transform(features, inplace, backend);
    backward := c.InverseTransform(features, inplace, backend);
  }

  /** Fitting twice replaces the mixing matrix wholesale: the second fit's
      matrix is the one a later transform reads. */
  method RefitReplaces(c: ICAConverter, f1: FeatureCollection, f2: FeatureCollection,
                       m1: SGMatrix, m2: SGMatrix)
    requires f1.IsDenseReal() && f2.IsDenseReal()
    modifies c
    ensures c.mixingMatrix == m2
  {
    var s1, ran1 := c.Fit(f1, Install(m1));
    var s2, ran2 := c.Fit(f2, Install(m2));
  }
}
