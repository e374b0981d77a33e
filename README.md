# NeuronsActivation: bias units over a two-orientation activation matrix

A `NeuronsActivation` in ml4j holds a batch of feature vectors in a matrix of doubles. It
also records whether a constant bias unit is included, and a feature orientation:
`ROWS_SPAN_FEATURE_SET` means each row is a feature and each column an example;
`COLUMNS_SPAN_FEATURE_SET` is the reverse. The bias unit, when present, sits at index 0
of the feature axis and holds 1 for every example. This project models:

- construction, which rejects a bias claim whose index-0 slice is not all ones;
- the two feature-count getters;
- `withBiasUnit(include, context)`, which returns the activation unchanged when the flag
  already matches, otherwise a new activation over a new matrix that gains or loses the
  index-0 slice.

The modelled behaviour is the one asserted by
`ml4j-synapses-api/src/test/java/org/ml4j/nn/axons/NeuronsActivationTest.java`.

Two modules:

- `ActivationSpec` (`activation_spec.dfy`) is the value model. A `Matrix` is a
  `seq<seq<real>>` that records its dimensions. `Feature(m, o, e, f)` reads feature `f`
  of example `e` under either orientation. Construction (`Construct`) returns a `Result`
  whose failure is `IllegalArgument`, the library's `IllegalArgumentException`.
  `WithBiasUnit` is defined through `PrependBias` and `DropBias`. The lemmas state the
  shapes, counts and cell values the tests check. They also prove that adding then
  removing a bias unit (or removing then adding) gives back the original activation,
  and that the rows-span and columns-span layouts are transposes of each other.
- `Neurons` (`neurons_activation.dfy`) is the object model. `NeuronsActivation` is a class
  with constant fields over an `array2<real>`. `Create` is the checked constructor: it
  scans the bias slice in a loop. `WithBiasUnit` allocates a new array and copies it cell
  by cell in nested loops. Every method is proved equal to the corresponding
  `ActivationSpec` function. `getActivations`, `getFeatureOrientation` and
  `isBiasUnitIncluded` are the constant fields `activations`, `featureOrientation` and
  `biasUnitIncluded`.

Modelling decisions:
- The construction failure is `IllegalArgument`, as the tests expect
  (`IllegalArgumentException`).
- No test uses a matrix with an empty feature axis. The model itself decides to reject a
  bias claim over such a matrix, because there is no index 0 to hold the bias unit and
  the excluding-bias count would be -1 (see "## Left out").
- No test uses a batch of zero examples either. With at least one feature index, the
  model accepts a bias claim over such a batch, because the per-example check is
  vacuous (`ConstructBiasOverEmptyBatch`).

## Model

| member | source | states |
|---|---|---|
| `ActivationSpec.Construct` | ml4j-synapses-api/src/test/java/org/ml4j/nn/axons/NeuronsActivationTest.java:254-290 | construction succeeds exactly when no bias is claimed or index 0 of the feature axis exists and is 1 for every example; failure is IllegalArgument; success keeps the matrix, the flag and the orientation and yields a valid activation |
| `ActivationSpec.ConstructedFeatureCounts` | ml4j-synapses-api/src/test/java/org/ml4j/nn/axons/NeuronsActivationTest.java:39-54 | a constructed activation reports the column count (columns-span) or row count (rows-span) as its including-bias count, and one less as its excluding-bias count exactly when bias is included, never negative |
| `ActivationSpec.ConstructRejectsBadBiasSlice` | ml4j-synapses-api/src/test/java/org/ml4j/nn/axons/NeuronsActivationTest.java:254-262 | if some example's feature 0 is not 1, a bias claim is refused with IllegalArgument, in either orientation |
| `ActivationSpec.ConstructBiasOverEmptyBatch` | ml4j-synapses-api/src/test/java/org/ml4j/nn/axons/NeuronsActivationTest.java:266-290 | boundary case: with zero examples and at least one feature index, a bias claim is accepted |
| `ActivationSpec.PrependBias` | ml4j-synapses-api/src/test/java/org/ml4j/nn/axons/NeuronsActivationTest.java:86-101 | the feature axis grows by one, the example count is kept, feature 0 is 1 for every example and each original feature f moves to f+1 |
| `ActivationSpec.DropBias` | ml4j-synapses-api/src/test/java/org/ml4j/nn/axons/NeuronsActivationTest.java:386-404 | the feature axis shrinks by one, the example count is kept, and feature f of the result is feature f+1 of the original |
| `ActivationSpec.WithBiasUnit` | ml4j-synapses-api/src/test/java/org/ml4j/nn/axons/NeuronsActivationTest.java:134-151 | the result is valid, carries the requested flag, keeps orientation, example count and the excluding-bias count, and is the receiver itself when the flag already matches |
| `ActivationSpec.WithBiasUnitAdds` | ml4j-synapses-api/src/test/java/org/ml4j/nn/axons/NeuronsActivationTest.java:185-201 | adding a bias unit adds one row (rows-span) or one column (columns-span), sets the flag, makes the counts F+1 and F, puts ones at index 0 and shifts every feature up by one |
| `ActivationSpec.WithBiasUnitRemoves` | ml4j-synapses-api/src/test/java/org/ml4j/nn/axons/NeuronsActivationTest.java:546-565 | removing a bias unit drops one row or column, clears the flag, makes both counts the original excluding-bias count, and index 0 of the result is index 1 of the original |
| `ActivationSpec.RemoveAfterAddIsIdentity` | ml4j-synapses-api/src/test/java/org/ml4j/nn/axons/NeuronsActivationTest.java:86-101 | adding a bias unit and removing it again gives back exactly the original activation |
| `ActivationSpec.AddAfterRemoveIsIdentity` | ml4j-synapses-api/src/test/java/org/ml4j/nn/axons/NeuronsActivationTest.java:386-404 | removing a bias unit from a valid activation and adding it back gives back exactly the original, because the dropped slice was all ones |
| `ActivationSpec.WithBiasUnitIdempotent` | ml4j-synapses-api/src/test/java/org/ml4j/nn/axons/NeuronsActivationTest.java:329-346 | repeating a bias request changes nothing further; this follows in one step from the no-op clause of `ActivationSpec.WithBiasUnit` (result is the receiver when the flag already matches), which is what this test checks for a single call |
| `ActivationSpec.TransposeSwapsOrientation` | ml4j-synapses-api/src/test/java/org/ml4j/nn/axons/NeuronsActivationTest.java:408-424 | a rows-span matrix and its transpose read as columns-span have the same example count, feature count and feature values |
| `ActivationSpec.PrependBiasCommutesWithTranspose` | ml4j-synapses-api/src/test/java/org/ml4j/nn/axons/NeuronsActivationTest.java:155-201 | inserting the bias row of a rows-span matrix then transposing equals transposing then inserting the bias column of the columns-span layout |
| `ActivationSpec.ColumnsSpan10x784Scenario` | ml4j-synapses-api/src/test/java/org/ml4j/nn/axons/NeuronsActivationTest.java:56-102 | any 10x784 matrix constructs without bias with counts 784/784; adding a bias unit gives 10x785 with counts 785/784 and column 0 all ones |
| `ActivationSpec.RowsSpanBiasRemovalScenario` | ml4j-synapses-api/src/test/java/org/ml4j/nn/axons/NeuronsActivationTest.java:510-566 | a 785x10 matrix with row 0 all ones constructs with bias (785/784); removing the bias unit gives 784x10 whose row 0 is the original row 1, counts 784/784 |
| `Neurons.ScanBiasSlice` | ml4j-synapses-api/src/test/java/org/ml4j/nn/axons/NeuronsActivationTest.java:569-578 | the example-by-example scan answers true exactly when index 0 of the feature axis exists and holds 1 for every example |
| `Neurons.CopyWithBiasSlice` | ml4j-synapses-api/src/test/java/org/ml4j/nn/axons/NeuronsActivationTest.java:185-201 | the new array is freshly allocated and its contents are exactly PrependBias of the source |
| `Neurons.CopyWithoutBiasSlice` | ml4j-synapses-api/src/test/java/org/ml4j/nn/axons/NeuronsActivationTest.java:546-565 | the new array is freshly allocated and its contents are exactly DropBias of the source |
| `Neurons.NeuronsActivation.Create` | ml4j-synapses-api/src/test/java/org/ml4j/nn/axons/NeuronsActivationTest.java:427-450 | the object constructor succeeds exactly when the value model's Construct does, fails with IllegalArgument otherwise, and on success wraps the caller's array with the same model |
| `Neurons.NeuronsActivation.FeatureCountIncludingBias` | ml4j-synapses-api/src/test/java/org/ml4j/nn/axons/NeuronsActivationTest.java:282-283 | the getter equals the value model's including-bias count |
| `Neurons.NeuronsActivation.FeatureCountExcludingBias` | ml4j-synapses-api/src/test/java/org/ml4j/nn/axons/NeuronsActivationTest.java:365-367 | the getter equals the value model's excluding-bias count and is never negative for a valid object |
| `Neurons.NeuronsActivation.WithBiasUnit` | ml4j-synapses-api/src/test/java/org/ml4j/nn/axons/NeuronsActivationTest.java:86-101 | returns this object when the flag matches, otherwise a fresh object over a fresh array whose model is ActivationSpec.WithBiasUnit of the receiver's; the receiver and its array are not modified |

## Left out

- The matrix factory and the `NeuronsActivationContext` passed to `withBiasUnit` only allocate. Allocation is Dafny's `new`, and the context parameter is dropped.
- `createRand` randomness: a random matrix is an arbitrary matrix of the given shape. A test that relies on a random column 0 not being all ones is stated through a witness example whose feature 0 is not 1.
- Floating point: cells are `real` and the 1e-9 comparisons against 1 are exact equality. NaN, infinities and rounding are not modelled.
- Whether `getActivations` returns the stored matrix or a copy is not visible in the tests. The model shares the caller's array, so callers must not write to the matrix after construction: a write that breaks the bias slice makes `Valid()` false, and the object's `WithBiasUnit` can then no longer be called.
- ActivationSpec.Construct: the behaviour on a matrix whose feature axis is empty (zero columns under columns-span, zero rows under rows-span) is not fixed by the tests. The model rejects a bias claim there; an implementation that only scans the examples would accept a 0 x 0 matrix and report an excluding-bias count of -1.
- `DirectedLayer` (ml4j-layers-api/src/main/java/org/ml4j/nn/layers/DirectedLayer.java) is an interface without bodies. Its forward propagation and optimal-input query depend on axon, synapse and activation-function implementations that are not part of this model.
- `DirectedNeuralNetwork` (ml4j-nn-api/src/main/java/org/ml4j/nn/DirectedNeuralNetwork.java) is an interface without bodies. Its forward pass and last-epoch training context belong to code that is not part of this model.
