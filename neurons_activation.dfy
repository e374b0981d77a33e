/** NeuronsActivation as an object over a mutable two-dimensional array of doubles.
    Construction scans the bias slice; `WithBiasUnit` allocates a new array and fills
    it cell by cell. Every step is proved against the value model in ActivationSpec. */
module Neurons {
  import opened ActivationSpec

  /** The value held by an array: its dimensions and its cells row by row. */
  ghost function MatrixOf(a: array2<real>): (m: Matrix)
    reads a
    ensures WellFormed(m) && m.rows == a.Length0 && m.columns == a.Length1
    ensures forall i, j :: 0 <= i < a.Length0 && 0 <= j < a.Length1 ==> m.cells[i][j] == a[i, j]
  {
    Matrix(a.Length0, a.Length1,
           seq(a.Length0, i requires 0 <= i < a.Length0 reads a =>
             seq(a.Length1, j requires 0 <= j < a.Length1 reads a => a[i, j])))
  }

  /** Scans index 0 of the feature axis, example by example, for the bias value. */
  method ScanBiasSlice(a: array2<real>, o: FeatureOrientation) returns (ok: bool)
    ensures ok == HasBiasSlice(MatrixOf(a), o)
  {
    ghost var m := MatrixOf(a);
    var features := if o.RowsSpanFeatureSet? then a.Length0 else a.Length1;
    var examples := if o.RowsSpanFeatureSet? then a.Length1 else a.Length0;
    if features == 0 {
      return false;
    }
    var e := 0;
    while e < examples
      invariant 0 <= e <= examples
      invariant forall k :: 0 <= k < e ==> Feature(m, o, k, 0) == BiasUnitValue
    {
      var v := if o.RowsSpanFeatureSet? then a[0, e] else a[e, 0];
      if v != BiasUnitValue {
        assert Feature(m, o, e, 0) != BiasUnitValue;
        return false;
      }
      e := e + 1;
    }
    return true;
  }

  /** A fresh array holding the bias slice at index 0 of the feature axis followed by
      a copy of `a`. */
  method CopyWithBiasSlice(a: array2<real>, o: FeatureOrientation) returns (b: array2<real>)
    ensures fresh(b)
    ensures MatrixOf(b) == PrependBias(MatrixOf(a), o)
  {
    ghost var target := PrependBias(MatrixOf(a), o);
    var rows := if o.RowsSpanFeatureSet? then a.Length0 + 1 else a.Length0;
    var columns := if o.RowsSpanFeatureSet? then a.Length1 else a.Length1 + 1;
    b := new real[rows, columns];
    var i := 0;
    while i < rows
      invariant 0 <= i <= rows
      invariant forall p, q :: 0 <= p < i && 0 <= q < columns ==> b[p, q] == target.cells[p][q]
    {
      var j := 0;
      while j < columns
        invariant 0 <= j <= columns
        invariant forall p, q :: 0 <= p < i && 0 <= q < columns ==> b[p, q] == target.cells[p][q]
        invariant forall q :: 0 <= q < j ==> b[i, q] == target.cells[i][q]
      {
        if o.RowsSpanFeatureSet? {
          b[i, j] := if i == 0 then BiasUnitValue else a[i - 1, j];
        } else {
          b[i, j] := if j == 0 then BiasUnitValue else a[i, j - 1];
        }
        j := j + 1;
      }
      i := i + 1;
    }
    CellExtensionality(MatrixOf(b), target);
  }

  /** A fresh array holding `a` without index 0 of its feature axis. */
  method CopyWithoutBiasSlice(a: array2<real>, o: FeatureOrientation) returns (b: array2<real>)
    requires 0 < FeatureAxisLength(MatrixOf(a), o)
    ensures fresh(b)
    ensures MatrixOf(b) == DropBias(MatrixOf(a), o)
  {
    ghost var target := DropBias(MatrixOf(a), o);
    var rows := if o.RowsSpanFeatureSet? then a.Length0 - 1 else a.Length0;
    var columns := if o.RowsSpanFeatureSet? then a.Length1 else a.Length1 - 1;
    b := new real[rows, columns];
    var i := 0;
    while i < rows
      invariant 0 <= i <= rows
      invariant forall p, q :: 0 <= p < i && 0 <= q < columns ==> b[p, q] == target.cells[p][q]
    {
      var j := 0;
      while j < columns
        invariant 0 <= j <= columns
        invariant forall p, q :: 0 <= p < i && 0 <= q < columns ==> b[p, q] == target.cells[p][q]
        invariant forall q :: 0 <= q < j ==> b[i, q] == target.cells[i][q]
      {
        if o.RowsSpanFeatureSet? {
          b[i, j] := a[i + 1, j];
        } else {
          b[i, j] := a[i, j + 1];
        }
        j := j + 1;
      }
      i := i + 1;
    }
    CellExtensionality(MatrixOf(b), target);
  }

  /** A batch of feature vectors with its bias flag and feature orientation. All three
      are fixed at construction; the array is shared with the caller, not copied. */
  class NeuronsActivation {
    const activations: array2<real>
    const biasUnitIncluded: bool
    const featureOrientation: FeatureOrientation

    ghost function Model(): Activation
      reads activations
    {
      Activation(MatrixOf(activations), biasUnitIncluded, featureOrientation)
    }

    ghost predicate Valid()
      reads activations
    {
      ActivationSpec.Valid(Model())
    }

    /** Wraps an array already known to satisfy the bias claim; `Create` is the
        checked entry point. */
    constructor (matrix: array2<real>, includesBias: bool, orientation: FeatureOrientation)
      requires includesBias ==> HasBiasSlice(MatrixOf(matrix), orientation)
      ensures activations == matrix && biasUnitIncluded == includesBias
      ensures featureOrientation == orientation
      ensures Valid()
    {
      activations := matrix;
      biasUnitIncluded := includesBias;
      featureOrientation := orientation;
    }

    /** The library constructor: fails with IllegalArgument when a bias unit is
        claimed but index 0 of the feature axis is not 1 for every example. */
    static method Create(matrix: array2<real>, includesBias: bool, orientation: FeatureOrientation)
      returns (r: Result<NeuronsActivation>)
      ensures r.Success? <==> Construct(MatrixOf(matrix), includesBias, orientation).Success?
      ensures r.Failure? ==> r.error == IllegalArgument
      ensures r.Success? ==>
                r.value.activations == matrix && r.value.Valid() &&
                r.value.Model() == Construct(MatrixOf(matrix), includesBias, orientation).value
    {
      if includesBias {
        var ok := ScanBiasSlice(matrix, orientation);
        if !ok {
          return Failure(IllegalArgument);
        }
      }
      var n := new NeuronsActivation(matrix, includesBias, orientation);
      return Success(n);
    }

    function FeatureCountIncludingBias(): (n: nat)
      reads activations
      ensures n == ActivationSpec.FeatureCountIncludingBias(Model())
    {
      if featureOrientation.RowsSpanFeatureSet? then activations.Length0 else activations.Length1
    }

    function FeatureCountExcludingBias(): (n: int)
      reads activations
      ensures n == ActivationSpec.FeatureCountExcludingBias(Model())
      ensures Valid() ==> 0 <= n
    {
      if biasUnitIncluded then FeatureCountIncludingBias() - 1 else FeatureCountIncludingBias()
    }

    /** `withBiasUnit`: this object when the flag already matches, otherwise a new
        object over a newly allocated array. The receiver and its array are not
        modified (the method modifies nothing). */
    method WithBiasUnit(includeBias: bool) returns (r: NeuronsActivation)
      requires Valid()
      ensures r.Valid()
      ensures r.Model() == ActivationSpec.WithBiasUnit(Model(), includeBias)
      ensures includeBias == biasUnitIncluded ==> r == this
      ensures includeBias != biasUnitIncluded ==> fresh(r) && fresh(r.activations)
    {
      if includeBias == biasUnitIncluded {
        return this;
      }
      var m;
      if includeBias {
        m := CopyWithBiasSlice(activations, featureOrientation);
      } else {
        m := CopyWithoutBiasSlice(activations, featureOrientation);
      }
      r := new NeuronsActivation(m, includeBias, featureOrientation);
    }
  }
}
