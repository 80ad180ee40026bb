/** Cross-validation result storage: one record per (run, fold) pair and an
    aggregate that keeps the run and fold counts, the original labels and the
    fold records in the order they were appended. */
module CrossValidation {

  /** A trained machine and a label set: foreign objects, known here only by
      reference. */
  class Machine { }
  class Labels { }

  /** The foreign `equals` of machines and of labels, left abstract. The
      receiver is dereferenced; the argument may be null. */
  datatype ForeignEquals = ForeignEquals(
    machines: (Machine, Machine?) -> bool,
    labels: (Labels, Labels?) -> bool)

  /** The outcome of one fold of one run. */
  class FoldStorage {
    var runIndex: int
    var foldIndex: int
    var trainedMachine: Machine?
    var testResult: Labels?        // predicted labels
    var testTrueResult: Labels?    // ground-truth labels
    var trainIndices: seq<int>
    var testIndices: seq<int>
    var evaluationResult: real

    constructor ()
      ensures runIndex == 0 && foldIndex == 0
      ensures trainedMachine == null && testResult == null && testTrueResult == null
      ensures trainIndices == [] && testIndices == []
    {
      runIndex, foldIndex := 0, 0;
      trainedMachine, testResult, testTrueResult := null, null, null;
      trainIndices, testIndices := [], [];
    }

    /** The references operator== dereferences are non-null, as far as its
        short-circuiting conjunction reaches them. */
    predicate CanCompare(rhs: FoldStorage, eq: ForeignEquals)
      reads this, rhs
    {
      runIndex == rhs.runIndex && foldIndex == rhs.foldIndex ==>
        trainedMachine != null &&
        (eq.machines(trainedMachine, rhs.trainedMachine) ==>
          testResult != null &&
          (eq.labels(testResult, rhs.testResult) ==> testTrueResult != null))
    }

    /** operator==: run index, fold index, machine, predicted labels, ground
        truth and score, in that order; the train and test indices are not
        compared. */
    predicate Equal(rhs: FoldStorage, eq: ForeignEquals)
      reads this, rhs
      requires CanCompare(rhs, eq)
    {
      runIndex == rhs.runIndex &&
      foldIndex == rhs.foldIndex &&
      eq.machines(trainedMachine, rhs.trainedMachine) &&
      eq.labels(testResult, rhs.testResult) &&
      eq.labels(testTrueResult, rhs.testTrueResult) &&
      evaluationResult == rhs.evaluationResult
    }
  }

  /** Two records that differ at most in their train and test indices compare
      alike against any third record. */
  lemma FoldEqualIgnoresIndices(a: FoldStorage, b: FoldStorage, c: FoldStorage, eq: ForeignEquals)
    requires a.runIndex == b.runIndex && a.foldIndex == b.foldIndex
    requires a.trainedMachine == b.trainedMachine
    requires a.testResult == b.testResult && a.testTrueResult == b.testTrueResult
    requires a.evaluationResult == b.evaluationResult
    requires a.CanCompare(c, eq)
    ensures b.CanCompare(c, eq) && a.Equal(c, eq) == b.Equal(c, eq)
    ensures c.CanCompare(a, eq) <==> c.CanCompare(b, eq)
    ensures c.CanCompare(a, eq) ==> c.Equal(a, eq) == c.Equal(b, eq)
  {
  }

  /** A record whose references the foreign equals finds equal to themselves
      equals itself. */
  lemma FoldEqualReflexive(f: FoldStorage, eq: ForeignEquals)
    requires f.trainedMachine != null && f.testResult != null && f.testTrueResult != null
    requires eq.machines(f.trainedMachine, f.trainedMachine)
    requires eq.labels(f.testResult, f.testResult)
    requires eq.labels(f.testTrueResult, f.testTrueResult)
    ensures f.CanCompare(f, eq) && f.Equal(f, eq)
  {
  }

  /** A record differing in any compared scalar field is unequal. */
  lemma FoldScalarMismatchUnequal(a: FoldStorage, b: FoldStorage, eq: ForeignEquals)
    requires a.CanCompare(b, eq)
    requires a.runIndex != b.runIndex || a.foldIndex != b.foldIndex ||
             a.evaluationResult != b.evaluationResult
    ensures !a.Equal(b, eq)
  {
  }

  /** The index at which two equally long lists first differ (the length if
      nowhere): where the element-by-element scan stops. */
  function FirstMismatch<T(==)>(xs: seq<T>, ys: seq<T>): (i: nat)
    requires |xs| == |ys|
    ensures i <= |xs|
    ensures forall j :: 0 <= j < i ==> xs[j] == ys[j]
    ensures i < |xs| ==> xs[i] != ys[i]
  {
    if xs == [] then 0
    else if xs[0] != ys[0] then 0
    else 1 + FirstMismatch(xs[1..], ys[1..])
  }

  /** The scan runs to the end exactly when the lists are identical. */
  lemma {:induction false} FirstMismatchAtEnd<T>(xs: seq<T>, ys: seq<T>)
    requires |xs| == |ys|
    ensures FirstMismatch(xs, ys) == |xs| <==> xs == ys
  {
  }

  /** The results of a whole cross-validation. */
  class Storage {
    var numRuns: int
    var numFolds: int
    var originalLabels: Labels?
    /** The fold records as pointers, in append order; null is accepted. */
    var foldsResults: seq<FoldStorage?>

    constructor ()
      ensures numRuns == 0 && numFolds == 0
      ensures originalLabels == null && foldsResults == []
    {
      numRuns, numFolds := 0, 0;
      originalLabels := null;
      foldsResults := [];
    }

    /** append_fold_result: the record goes last; nothing else changes. */
    method AppendFoldResult(result: FoldStorage?)
      modifies this
      ensures foldsResults == old(foldsResults) + [result]
      ensures numRuns == old(numRuns) && numFolds == old(numFolds)
      ensures originalLabels == old(originalLabels)
    {
      foldsResults := foldsResults + [result];
    }

    /** The original labels are non-null wherever operator== dereferences
        them: once the two counts agree. */
    predicate CanCompare(rhs: Storage)
      reads this, rhs
    {
      numRuns == rhs.numRuns && numFolds == rhs.numFolds ==> originalLabels != null
    }

    /** The member-variable part of operator==. */
    predicate MembersEqual(rhs: Storage, eq: ForeignEquals)
      reads this, rhs
      requires CanCompare(rhs)
    {
      numRuns == rhs.numRuns && numFolds == rhs.numFolds &&
      eq.labels(originalLabels, rhs.originalLabels)
    }

    /** What operator== decides: equal member variables, and the very same
        fold objects (pointer identity) at every position. */
    predicate SameAs(rhs: Storage, eq: ForeignEquals)
      reads this, rhs
      requires CanCompare(rhs)
    {
      MembersEqual(rhs, eq) && foldsResults == rhs.foldsResults
    }

    /** operator==, with `compared` counting the fold pointers it compares:
        none when the members or the lengths differ, otherwise up to and
        including the first mismatch. */
    method Equals(rhs: Storage, eq: ForeignEquals) returns (same: bool, ghost compared: nat)
      requires CanCompare(rhs)
      ensures same == SameAs(rhs, eq)
      ensures !MembersEqual(rhs, eq) ==> compared == 0
      ensures |foldsResults| != |rhs.foldsResults| ==> !same && compared == 0
      ensures MembersEqual(rhs, eq) && |foldsResults| == |rhs.foldsResults| ==>
        var m := FirstMismatch(foldsResults, rhs.foldsResults);
        compared == if m < |foldsResults| then m + 1 else m
    {
      var memberVars := numRuns == rhs.numRuns && numFolds == rhs.numFolds &&
                        eq.labels(originalLabels, rhs.originalLabels);
      compared := 0;
      if !memberVars {
        return memberVars, compared;
      }
      if |rhs.foldsResults| != |foldsResults| {
        return false, compared;
      }
      var i := 0;
      while i < |foldsResults|
        invariant 0 <= i <= |foldsResults|
        invariant compared == i
        invariant forall j :: 0 <= j < i ==> foldsResults[j] == rhs.foldsResults[j]
      {
        compared := compared + 1;
        if foldsResults[i] != rhs.foldsResults[i] {
          return false, compared;
        }
        i := i + 1;
      }
      return memberVars, compared;
    }
  }

  /** Two aggregates that hold distinct fold objects at some position are not
      equal, even when those two folds are deep-equal and everything else
      matches: the fold comparison is by pointer, not by the fold's own
      operator==. */
  lemma PointerIdentityNotDeep(a: Storage, b: Storage, i: nat, eq: ForeignEquals)
    requires a.CanCompare(b)
    requires i < |a.foldsResults| && i < |b.foldsResults|
    requires a.foldsResults[i] != null && b.foldsResults[i] != null
    requires a.foldsResults[i] != b.foldsResults[i]
    requires a.foldsResults[i].CanCompare(b.foldsResults[i], eq)
    requires a.foldsResults[i].Equal(b.foldsResults[i], eq)
    ensures !a.SameAs(b, eq)
  {
  }

  /** An aggregate whose labels equal themselves equals itself. */
  lemma SameAsReflexive(a: Storage, eq: ForeignEquals)
    requires a.originalLabels != null && eq.labels(a.originalLabels, a.originalLabels)
    ensures a.CanCompare(a) && a.SameAs(a, eq)
  {
  }

  /** Appending the same record to two aggregates keeps them equal, and
      unequal ones unequal. */
  method AppendToBoth(a: Storage, b: Storage, f: FoldStorage?, eq: ForeignEquals)
    requires a != b && a.CanCompare(b)
    modifies a, b
    ensures a.CanCompare(b)
    ensures a.SameAs(b, eq) <==> old(a.SameAs(b, eq))
  {
    ghost var xs, ys := a.foldsResults, b.foldsResults;
    a.AppendFoldResult(f);
    b.AppendFoldResult(f);
    // Cancelling the common last record: equal extended lists had equal prefixes.
    assert a.foldsResults == b.foldsResults ==> xs == a.foldsResults[..|xs|] == b.foldsResults[..|ys|] == ys;
  }
}
