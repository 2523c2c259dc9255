/**
 * The class `NeuralNetwork` of neuralnet.py: a fully connected feed-forward
 * network whose layers, connexion matrices and biases are lists the methods
 * update in place.
 */
module NeuralNet {
  import opened Wrappers
  import opened Layout
  import opened Forward
  import opened Backward
  import opened Evaluation

  /** The weighted sum `netj` of neuron `j`, before its bias is added (neuralnet.py:60-62). */
  method RawValue(prev: seq<real>, weights: seq<real>, width: nat, j: nat) returns (netj: real)
    requires j < width && |weights| == |prev| * width
    ensures netj == WeightedSum(prev, weights, width, j, |prev|)
  {
    netj := 0.0;
    for k := 0 to |prev|
      invariant netj == WeightedSum(prev, weights, width, j, k)
    {
      FlatIndexBound(k, j, width, |prev|);
      netj := netj + prev[k] * weights[FlatIndex(k, j, width)];
    }
  }

  /**
   * One pass of the loop at neuralnet.py:59-64 over layer `i`: `current` is
   * the layer's old content, every neuron of which is overwritten with the
   * sigmoid of its weighted sum plus its bias.
   */
  method ComputeLayer(prev: seq<real>, weights: seq<real>, bias: seq<real>, current: seq<real>, sigmoid: Squash)
    returns (layer: seq<real>)
    requires |weights| == |prev| * |bias| && |current| == |bias|
    ensures layer == NextLayer(prev, weights, bias, sigmoid)
  {
    layer := current;
    var width := |layer|;
    for j := 0 to width
      invariant |layer| == width
      invariant forall j' :: 0 <= j' < j ==> layer[j'] == NextLayer(prev, weights, bias, sigmoid)[j']
    {
      var netj := RawValue(prev, weights, width, j);
      netj := netj + bias[j];
      layer := layer[j := sigmoid(netj)];
    }
  }

  /**
   * The loop of neuralnet.py:58-64 over the layers of `current`, whose
   * layer 0 already holds the input: each later layer is overwritten with
   * its activations, in order.
   */
  method FillLayers(current: seq<seq<real>>, connexions: seq<seq<real>>, biases: seq<Option<seq<real>>>,
                    ghost sizes: seq<nat>, sigmoid: Squash)
    returns (layers: seq<seq<real>>)
    requires WeightsShaped(sizes, connexions) && BiasesShaped(sizes, biases)
    requires |current| == |sizes| && forall i :: 0 <= i < |sizes| ==> |current[i]| == sizes[i]
    ensures layers == ForwardPass(current[0], connexions, biases, sizes, sigmoid)
  {
    layers := current;
    for i := 1 to |layers|
      invariant |layers| == |sizes| && forall i' :: i <= i' < |sizes| ==> |layers[i']| == sizes[i']
      invariant layers[..i] == Activations(current[0], connexions, biases, sizes, sigmoid, i)
    {
      var next := ComputeLayer(layers[i - 1], connexions[i - 1], biases[i].value, layers[i], sigmoid);
      ActivationsLast(current[0], connexions, biases, sizes, sigmoid, i + 1);
      ActivationsPrefix(current[0], connexions, biases, sizes, sigmoid, i, i + 1);
      layers := layers[i := next];
    }
    assert layers == layers[..|layers|];
  }

  /**
   * The inner loop of the output step of `backprop` (neuralnet.py:88-92):
   * every weight into output neuron `k` moves by `step * dk * Oj`.
   */
  method AdjustColumn(weights: seq<real>, step: real, dk: real, acts: seq<real>, k: nat, m: nat)
    returns (adjusted: seq<real>)
    requires |weights| == |acts| * m && k < m
    ensures |adjusted| == |weights|
    ensures forall j', k' :: 0 <= j' < |acts| && 0 <= k' < m ==>
              FlatIndex(j', k', m) < |adjusted| &&
              adjusted[FlatIndex(j', k', m)]
              == if k' == k then Updated(weights[FlatIndex(j', k', m)], step, dk, acts[j']) else weights[FlatIndex(j', k', m)]
  {
    FlatIndexBounds(m, |acts|);
    adjusted := weights;
    for j := 0 to |acts|
      invariant |adjusted| == |weights|
      invariant forall j', k' :: 0 <= j' < |acts| && 0 <= k' < m ==>
                  adjusted[FlatIndex(j', k', m)]
                  == if k' == k && j' < j then Updated(weights[FlatIndex(j', k', m)], step, dk, acts[j'])
                     else weights[FlatIndex(j', k', m)]
    {
      var idx := FlatIndex(j, k, m);
      adjusted := adjusted[idx := Updated(adjusted[idx], step, dk, acts[j])];
    }
  }

  /**
   * The output step of `backprop` (neuralnet.py:84-92), output neuron `k`
   * by output neuron: record `dk` in `signals` (the zeroed error signals of
   * the output layer), then adjust the weights into `k`.
   */
  method AdjustOutput(weights: seq<real>, step: real, targets: seq<real>, output: seq<real>, acts: seq<real>,
                      signals: seq<real>)
    returns (adjusted: seq<real>, deltas: seq<real>)
    requires |targets| == |output| == |signals| && |weights| == |acts| * |output|
    ensures deltas == OutputDeltas(output, targets)
    ensures adjusted == Adjusted(weights, step, deltas, acts)
  {
    ghost var goal := Adjusted(weights, step, OutputDeltas(output, targets), acts);
    var m := |output|;
    FlatIndexBounds(m, |acts|);
    AdjustedEntries(weights, step, OutputDeltas(output, targets), acts);
    adjusted, deltas := weights, signals;
    for k := 0 to m
      invariant |adjusted| == |weights| && |deltas| == m
      invariant forall k' :: 0 <= k' < k ==> deltas[k'] == OutputDeltas(output, targets)[k']
      invariant forall j', k' :: 0 <= j' < |acts| && 0 <= k' < m ==>
                  adjusted[FlatIndex(j', k', m)] == if k' < k then goal[FlatIndex(j', k', m)] else weights[FlatIndex(j', k', m)]
    {
      var dk := (targets[k] - output[k]) * output[k] * (1.0 - output[k]);
      deltas := deltas[k := dk];
      adjusted := AdjustColumn(adjusted, step, dk, acts, k, m);
    }
    SameEntries(adjusted, goal, m, |acts|);
  }

  /** The weights out of source neuron `j` to the first `count` destinations are updated; every other weight is as in `weights`. */
  predicate RowUpdated(weights: seq<real>, adjusted: seq<real>, step: real, deltas: seq<real>, acts: seq<real>, j: nat, count: nat)
    requires |weights| == |adjusted| == |acts| * |deltas|
  {
    forall j', k' :: 0 <= j' < |acts| && 0 <= k' < |deltas| ==>
      FlatIndex(j', k', |deltas|) < |adjusted| &&
      adjusted[FlatIndex(j', k', |deltas|)]
      == if j' == j && k' < count then Updated(weights[FlatIndex(j', k', |deltas|)], step, deltas[k'], acts[j])
         else weights[FlatIndex(j', k', |deltas|)]
  }

  /** Updating the weight from `j` to destination `count` extends `RowUpdated` by one destination. */
  lemma RowUpdatedStep(weights: seq<real>, adjusted: seq<real>, step: real, deltas: seq<real>, acts: seq<real>, j: nat, count: nat)
    requires |weights| == |adjusted| == |acts| * |deltas| && j < |acts| && count < |deltas|
    requires RowUpdated(weights, adjusted, step, deltas, acts, j, count)
    ensures FlatIndex(j, count, |deltas|) < |adjusted|
    ensures var idx := FlatIndex(j, count, |deltas|);
            RowUpdated(weights, adjusted[idx := Updated(adjusted[idx], step, deltas[count], acts[j])], step, deltas, acts, j, count + 1)
  {
    var m := |deltas|;
    var idx := FlatIndex(j, count, m);
    var next := adjusted[idx := Updated(adjusted[idx], step, deltas[count], acts[j])];
    forall j', k' | 0 <= j' < |acts| && 0 <= k' < m
      ensures FlatIndex(j', k', m) < |next|
      ensures next[FlatIndex(j', k', m)]
              == if j' == j && k' < count + 1 then Updated(weights[FlatIndex(j', k', m)], step, deltas[k'], acts[j])
                 else weights[FlatIndex(j', k', m)]
    {
      if FlatIndex(j', k', m) == idx {
        assert j' == j && k' == count;
      }
    }
  }

  /**
   * The inner loop of neuralnet.py:97-108 for source neuron `j`: each weight
   * out of `j` moves by `step * dk * Oj`, and `errorSignals[i][j]`, zero
   * until then, becomes the largest of itself and `oh*(1-oh)*Whz*dk`, read
   * with the weight just updated.
   */
  method AdjustRow(weights: seq<real>, step: real, deltas: seq<real>, acts: seq<real>, j: nat, hidden: seq<real>)
    returns (adjusted: seq<real>, hidden': seq<real>)
    requires |weights| == |acts| * |deltas| && j < |acts| == |hidden| && hidden[j] == 0.0
    ensures |adjusted| == |weights|
    ensures forall j', k' :: 0 <= j' < |acts| && 0 <= k' < |deltas| ==>
              FlatIndex(j', k', |deltas|) < |adjusted| &&
              adjusted[FlatIndex(j', k', |deltas|)]
              == if j' == j then Updated(weights[FlatIndex(j', k', |deltas|)], step, deltas[k'], acts[j])
                 else weights[FlatIndex(j', k', |deltas|)]
    ensures hidden' == hidden[j := HiddenSignal(acts, adjusted, deltas, j, |deltas|)]
  {
    var m := |deltas|;
    FlatIndexBounds(m, |acts|);
    adjusted, hidden' := weights, hidden;
    for k := 0 to m
      invariant |adjusted| == |weights| && RowUpdated(weights, adjusted, step, deltas, acts, j, k)
      invariant hidden' == hidden[j := HiddenSignal(acts, adjusted, deltas, j, k)]
    {
      RowUpdatedStep(weights, adjusted, step, deltas, acts, j, k);
      var idx := FlatIndex(j, k, m);
      var dk := deltas[k];
      SignalStep(acts, adjusted, deltas, j, k, Updated(adjusted[idx], step, dk, acts[j]));
      adjusted := adjusted[idx := Updated(adjusted[idx], step, dk, acts[j])];
      var oh := acts[j];
      var whz := adjusted[idx];
      var dh := Share(oh, whz, deltas[k]);
      hidden' := hidden'[j := Max(dh, hidden'[j])];
    }
  }

  /**
   * One pass of the loop at neuralnet.py:95-108 over connexion matrix `i`,
   * source neuron `j` by source neuron. `signals` is the zeroed
   * `errorSignals[i]`; each of its entries becomes the error signal of the
   * corresponding neuron.
   */
  method AdjustLayer(weights: seq<real>, step: real, deltas: seq<real>, acts: seq<real>, signals: seq<real>)
    returns (adjusted: seq<real>, hidden: seq<real>)
    requires |weights| == |acts| * |deltas| && signals == ZeroVector(|acts|)
    ensures adjusted == Adjusted(weights, step, deltas, acts)
    ensures hidden == Signals(acts, adjusted, deltas)
  {
    ghost var goal := Adjusted(weights, step, deltas, acts);
    var m := |deltas|;
    FlatIndexBounds(m, |acts|);
    AdjustedEntries(weights, step, deltas, acts);
    adjusted, hidden := weights, signals;
    for j := 0 to |acts|
      invariant |adjusted| == |weights| && |hidden| == |acts|
      invariant forall j', k' :: 0 <= j' < |acts| && 0 <= k' < m ==>
                  adjusted[FlatIndex(j', k', m)] == if j' < j then goal[FlatIndex(j', k', m)] else weights[FlatIndex(j', k', m)]
      invariant forall j' :: 0 <= j' < j ==> hidden[j'] == HiddenSignal(acts, goal, deltas, j', m)
      invariant forall j' :: j <= j' < |acts| ==> hidden[j'] == 0.0
    {
      adjusted, hidden := AdjustRow(adjusted, step, deltas, acts, j, hidden);
      SameRowSameSignal(acts, adjusted, goal, deltas, j, m);
    }
    SameEntries(adjusted, goal, m, |acts|);
  }

  /** The `errorSignals` buffer of neuralnet.py:78-81: a zero for every neuron of every layer. */
  method ZeroedSignals(layers: seq<seq<real>>) returns (signals: seq<seq<real>>)
    ensures signals == ZeroSignals(layers)
  {
    signals := [];
    for i := 0 to |layers|
      invariant |signals| == i && forall i' :: 0 <= i' < i ==> signals[i'] == ZeroVector(|layers[i']|)
    {
      signals := signals + [ZeroVector(|layers[i]|)];
    }
  }

  /** Layers of the lengths `sizes` gives, with matrices of the matching shape, are ready for `backprop`. */
  lemma ShapedReady(sizes: seq<nat>, layers: seq<seq<real>>, connexions: seq<seq<real>>, targets: seq<real>)
    requires WeightsShaped(sizes, connexions) && |sizes| >= 2
    requires |layers| == |sizes| && forall i :: 0 <= i < |sizes| ==> |layers[i]| == sizes[i]
    requires |targets| == sizes[|sizes| - 1]
    ensures Ready(layers, connexions, targets)
  {
    forall i | 0 <= i < |connexions| ensures |connexions[i]| == |layers[i]| * |layers[i + 1]| {
      assert |connexions[i]| == MatrixSize(sizes, i);
    }
  }

  /**
   * The weight updates of `backprop` (neuralnet.py:83-108) on a network with
   * at least two layers, given the zeroed `errorSignals`: the output step on
   * the last matrix, then the loop over every matrix from the last to the first.
   */
  method AdjustAll(layers: seq<seq<real>>, connexions: seq<seq<real>>, step: real, targets: seq<real>,
                   errorSignals: seq<seq<real>>)
    returns (adjusted: seq<seq<real>>)
    requires Ready(layers, connexions, targets) && errorSignals == ZeroSignals(layers)
    ensures adjusted == Final(layers, connexions, step, targets).connexions
  {
    var n := |layers|;
    var signals := errorSignals;
    var output, deltas := AdjustOutput(connexions[n - 2], step, targets, layers[n - 1], layers[n - 2], signals[n - 1]);
    adjusted := connexions[n - 2 := output];
    signals := signals[n - 1 := deltas];
    var i := n - 1;
    while i > 0
      invariant 0 <= i <= n - 1
      invariant Sweep(adjusted, signals) == SweepFrom(layers, connexions, step, targets, i)
    {
      i := i - 1;
      Untouched(layers, connexions, step, targets, i + 1, i);
      var matrix, hidden := AdjustLayer(adjusted[i], step, signals[i + 1], layers[i], signals[i]);
      adjusted := adjusted[i := matrix];
      signals := signals[i := hidden];
    }
  }

  /**
   * The inner loop of `test` (neuralnet.py:125-127) for one example: the
   * miss on each target is appended to the list of its output neuron; a
   * target without an output neuron is an IndexError.
   */
  method RecordMisses(errors: seq<seq<real>>, target: seq<real>, output: seq<real>) returns (r: Result<seq<seq<real>>>)
    requires |errors| == |output|
    ensures |target| > |output| <==> r.Err?
    ensures r.Err? ==> r.error == IndexError(OutOfRange)
    ensures r.Ok? ==>
              && |r.value| == |errors|
              && forall i :: 0 <= i < |errors| ==>
                   r.value[i] == errors[i] + if i < |target| then [Miss(target[i], output[i])] else []
  {
    var updated := errors;
    for i := 0 to |target|
      invariant |updated| == |errors| && i <= |output|
      invariant forall i' :: 0 <= i' < |errors| ==> updated[i'] == errors[i'] + if i' < i then [Miss(target[i'], output[i'])] else []
    {
      if i >= |output| {
        return Err(IndexError(OutOfRange));
      }
      var predicted := if output[i] < 0.5 then 0.0 else 1.0;
      updated := updated[i := updated[i] + [Abs(target[i] - predicted)]];
    }
    r := Ok(updated);
  }

  /** `[mean(l) for l in errors]` (neuralnet.py:128), stopping at the first empty list. */
  method Means(errors: seq<seq<real>>) returns (r: Result<seq<real>>)
    ensures r == MeanMisses(errors)
  {
    var means := [];
    for i := 0 to |errors|
      invariant |means| == i && forall i' :: 0 <= i' < i ==> errors[i'] != [] && means[i'] == Mean(errors[i'])
    {
      if errors[i] == [] {
        return Err(StatisticsError(NoDataPoint));
      }
      means := means + [Mean(errors[i])];
    }
    assert means == MeanMisses(errors).value;
    r := Ok(means);
  }

  /** The zeroed layers of a new network (neuralnet.py:28-31). */
  method ZeroedLayers(sizes: seq<nat>) returns (layers: seq<seq<real>>)
    ensures layers == ZeroLayers(sizes)
  {
    layers := [];
    for i := 0 to |sizes|
      invariant |layers| == i
      invariant forall i' :: 0 <= i' < i ==> layers[i'] == ZeroLayers(sizes)[i']
    {
      layers := layers + [[]];
      for x := 0 to sizes[i]
        invariant |layers| == i + 1 && |layers[i]| == x
        invariant forall i' :: 0 <= i' < i ==> layers[i'] == ZeroLayers(sizes)[i']
        invariant forall x' :: 0 <= x' < x ==> layers[i][x'] == 0.0
      {
        layers := layers[i := layers[i] + [0.0]];
      }
    }
  }

  /**
   * `count` successive values `random.random() * 20 - 10`, starting at draw
   * `first`, as the inner loops of neuralnet.py:35-36 and :44-45 append them.
   */
  method DrawValues(count: nat, random: Draws, first: nat) returns (values: seq<real>, next: nat)
    ensures values == InitialValues(count, first, random)
    ensures next == first + count
  {
    values, next := [], first;
    for x := 0 to count
      invariant values == InitialValues(x, first, random) && next == first + x
    {
      values := values + [InitialValue(random(next))];
      next := next + 1;
    }
  }

  /**
   * The connexion matrices of a new network (neuralnet.py:33-36), drawn in
   * order from the start of `random`; `drawn` is the number of draws made.
   */
  method DrawConnexions(sizes: seq<nat>, random: Draws) returns (connexions: seq<seq<real>>, drawn: nat)
    requires |sizes| >= 1
    ensures connexions == InitialConnexions(sizes, random)
    ensures drawn == WeightDraws(sizes, |sizes| - 1)
  {
    connexions, drawn := [], 0;
    for i := 0 to |sizes| - 1
      invariant connexions == InitialMatrices(sizes, random, i) && drawn == WeightDraws(sizes, i)
    {
      var row;
      row, drawn := DrawValues(MatrixSize(sizes, i), random, drawn);
      connexions := connexions + [row];
    }
  }

  /**
   * The biases of a new network (neuralnet.py:41-45): none for the input
   * layer, then one draw per neuron, continuing from draw `drawn`.
   */
  method DrawBiases(sizes: seq<nat>, random: Draws, drawn: nat) returns (biases: seq<Option<seq<real>>>)
    requires |sizes| >= 1 && drawn == WeightDraws(sizes, |sizes| - 1)
    ensures biases == InitialBiases(sizes, random)
  {
    var next := drawn;
    biases := [None];
    for i := 1 to |sizes|
      invariant biases == InitialBiasLists(sizes, random, i) && next == BiasDraws(sizes, i)
    {
      var values;
      values, next := DrawValues(sizes[i], random, next);
      biases := biases + [Some(values)];
    }
  }

  /**
   * A network. `layers[i][j]` is the last value computed for neuron `j` of
   * layer `i`; `connexions[i][j * |layers[i+1]| + k]` is the weight from
   * neuron `j` of layer `i` to neuron `k` of layer `i+1`; `biases[i][j]` is
   * the bias of neuron `j` of layer `i`, and the input layer has none.
   */
  class NeuralNetwork {
    const nInputs: nat
    const step: real
    const sigmoid: Squash
    /** The `neuronsPerLayer` the network was built with. */
    ghost const sizes: seq<nat>
    var layers: seq<seq<real>>
    var connexions: seq<seq<real>>
    var biases: seq<Option<seq<real>>>

    /** Every list has the length the layer sizes give it. */
    ghost predicate Valid()
      reads this
    {
      && |sizes| >= 1 && nInputs == sizes[0]
      && |layers| == |sizes| && (forall i :: 0 <= i < |sizes| ==> |layers[i]| == sizes[i])
      && WeightsShaped(sizes, connexions)
      && BiasesShaped(sizes, biases)
    }

    /**
     * `NeuralNetwork(neuronsPerLayer, learningStep)` (neuralnet.py:14-45):
     * zeroed layers, then every weight and then every bias drawn from
     * `random`, each as `random.random() * 20 - 10`.
     */
    constructor (random: Draws, sigmoid: Squash, neuronsPerLayer: seq<nat> := [4, 8, 1], learningStep: real := 0.1)
      requires |neuronsPerLayer| >= 1
      ensures Valid() && sizes == neuronsPerLayer
      ensures nInputs == neuronsPerLayer[0] && step == learningStep && this.sigmoid == sigmoid
      ensures layers == ZeroLayers(neuronsPerLayer)
      ensures connexions == InitialConnexions(neuronsPerLayer, random)
      ensures biases == InitialBiases(neuronsPerLayer, random)
    {
      nInputs := neuronsPerLayer[0];
      step := learningStep;
      this.sigmoid := sigmoid;
      sizes := neuronsPerLayer;
      var zeroed := ZeroedLayers(neuronsPerLayer);
      var drawnConnexions, drawn := DrawConnexions(neuronsPerLayer, random);
      var drawnBiases := DrawBiases(neuronsPerLayer, random, drawn);
      layers, connexions, biases := zeroed, drawnConnexions, drawnBiases;
    }

    /** The output layer as last computed (neuralnet.py:110-111). */
    function GetOutput(): (output: seq<real>)
      reads this
      requires Valid()
      ensures |output| == sizes[|sizes| - 1]
    {
      layers[|layers| - 1]
    }

    /**
     * `compute(input)` (neuralnet.py:47-65): a ValueError, with nothing
     * changed, for an input of the wrong length; otherwise the input becomes
     * layer 0, every later layer is computed from the one before it, and the
     * output layer is returned.
     */
    method Compute(input: seq<real>) returns (r: Result<seq<real>>)
      requires Valid()
      modifies this
      ensures Valid() && connexions == old(connexions) && biases == old(biases)
      ensures |input| != nInputs ==> r == Err(ValueError(InputMismatch)) && layers == old(layers)
      ensures |input| == nInputs ==>
                layers == ForwardPass(input, connexions, biases, sizes, sigmoid) && r == Ok(GetOutput())
    {
      if |input| != nInputs {
        return Err(ValueError(InputMismatch));
      }
      layers := FillLayers(layers[0 := input], connexions, biases, sizes, sigmoid);
      r := Ok(layers[|layers| - 1]);
    }

    /**
     * `backprop(targetValues)` (neuralnet.py:67-108), on the activations
     * left by the last `compute`: a ValueError, with nothing changed, for a
     * target list of the wrong length; an IndexError for a network with a
     * single, non-empty layer, which has no matrix to update; otherwise every
     * connexion matrix is rewritten as `Final` describes.
     */
    method Backprop(targetValues: seq<real>) returns (r: Result<()>)
      requires Valid()
      modifies this
      ensures Valid() && layers == old(layers) && biases == old(biases)
      ensures |targetValues| != |GetOutput()| ==> r == Err(ValueError(TargetMismatch)) && connexions == old(connexions)
      ensures |targetValues| == |GetOutput()| && |sizes| == 1 ==>
                r == (if sizes[0] > 0 then Err(IndexError(OutOfRange)) else Ok(())) && connexions == old(connexions)
      ensures |targetValues| == |GetOutput()| && |sizes| >= 2 ==>
                Ready(layers, old(connexions), targetValues) && r == Ok(())
                && connexions == Final(layers, old(connexions), step, targetValues).connexions
    {
      var n := |layers|;
      var outputLayer := layers[n - 1];
      if |targetValues| != |outputLayer| {
        return Err(ValueError(TargetMismatch));
      }
      var errorSignals := ZeroedSignals(layers);
      if n == 1 {
        // The weight update of the first output neuron indexes `connexions[-1]`, which does not exist.
        if |targetValues| > 0 {
          return Err(IndexError(OutOfRange));
        }
        return Ok(());
      }
      ShapedReady(sizes, layers, connexions, targetValues);
      connexions := AdjustAll(layers, connexions, step, targetValues, errorSignals);
      r := Ok(());
    }

    /**
     * Pass `e` of the loop of `test` (neuralnet.py:123-127): `compute` on the
     * input of `kb[e]`, then its misses appended to `errors`, which hold those
     * of the examples before it. Either the whole test stops here with this
     * exception, or `errors` grows to the misses of one more example.
     */
    method TestExample(kb: seq<Example>, e: nat, errors: seq<seq<real>>, ghost before: seq<seq<real>>)
      returns (r: Result<seq<seq<real>>>)
      requires Valid() && e < |kb| && forall x :: 0 <= x < e ==> Testable(sizes, kb[x])
      requires errors == TestedSoFar(sizes, connexions, biases, sigmoid, kb, e)
      requires layers == LayersAfter(before, sizes, connexions, biases, sigmoid, kb, e)
      modifies this
      ensures Valid() && connexions == old(connexions) && biases == old(biases)
      ensures r.Err? ==>
                && TestOutcome(sizes, connexions, biases, sigmoid, kb) == Err(r.error)
                && layers == LayersAfter(before, sizes, connexions, biases, sigmoid, kb, Computed(sizes, kb, false))
      ensures r.Ok? ==>
                && Testable(sizes, kb[e])
                && layers == LayersAfter(before, sizes, connexions, biases, sigmoid, kb, e + 1)
                && r.value == TestedSoFar(sizes, connexions, biases, sigmoid, kb, e + 1)
    {
      var out := Compute(kb[e].input);
      if out.Err? {
        TestStopsAt(sizes, connexions, biases, sigmoid, kb, e);
        return Err(out.error);
      }
      r := RecordMisses(errors, kb[e].target, out.value);
      if r.Err? {
        TestStopsAt(sizes, connexions, biases, sigmoid, kb, e);
        return;
      }
      TestedOneMore(sizes, connexions, biases, sigmoid, kb, e, r.value);
    }

    /**
     * `test(knowledgeBase)` (neuralnet.py:120-129): `compute` on every
     * example in order, the thresholded miss of each output neuron recorded,
     * and the mean miss of each output neuron returned; the exceptions are
     * those of `TestOutcome`. The layers are left as the last `compute` made them.
     */
    method Test(knowledgeBase: seq<Example>) returns (r: Result<seq<real>>)
      requires Valid()
      modifies this
      ensures Valid() && connexions == old(connexions) && biases == old(biases)
      ensures r == TestOutcome(sizes, connexions, biases, sigmoid, knowledgeBase)
      ensures layers == LayersAfter(old(layers), sizes, connexions, biases, sigmoid, knowledgeBase, Computed(sizes, knowledgeBase, false))
    {
      var kb := knowledgeBase;
      ghost var C, B := connexions, biases;
      var errors: seq<seq<real>> := seq(|GetOutput()|, _ => []);
      for e := 0 to |kb|
        invariant Valid() && connexions == C && biases == B
        invariant forall x :: 0 <= x < e ==> Testable(sizes, kb[x])
        invariant errors == TestedSoFar(sizes, C, B, sigmoid, kb, e)
        invariant layers == LayersAfter(old(layers), sizes, C, B, sigmoid, kb, e)
      {
        var recorded := TestExample(kb, e, errors, old(layers));
        if recorded.Err? {
          return Err(recorded.error);
        }
        errors := recorded.value;
      }
      TestGotThrough(sizes, C, B, sigmoid, kb);
      r := Means(errors);
    }

    /**
     * Pass `e` of the loop of `train` (neuralnet.py:114-116): `compute` on the
     * input of `kb[e]`, then `backprop` on its target. Either `train` stops
     * here with this exception, or the connexions take one more `TrainStep`.
     */
    method TrainExample(kb: seq<Example>, e: nat, ghost start: seq<seq<real>>, ghost before: seq<seq<real>>)
      returns (r: Result<()>)
      requires Valid() && WeightsShaped(sizes, start) && e < |kb| && forall x :: 0 <= x < e ==> Trainable(sizes, kb[x])
      requires connexions == TrainedSoFar(sizes, biases, sigmoid, step, start, kb, e)
      requires layers == TrainLayersAfter(before, sizes, biases, sigmoid, step, start, kb, e)
      modifies this
      ensures Valid() && biases == old(biases)
      ensures r.Err? ==>
                && FirstRejected(sizes, kb, true) == e
                && r.error == TrainError(sizes, kb[e])
                && connexions == old(connexions)
                && layers == TrainLayersAfter(before, sizes, biases, sigmoid, step, start, kb, Computed(sizes, kb, true))
      ensures r.Ok? ==>
                && Trainable(sizes, kb[e])
                && connexions == TrainedSoFar(sizes, biases, sigmoid, step, start, kb, e + 1)
                && layers == TrainLayersAfter(before, sizes, biases, sigmoid, step, start, kb, e + 1)
    {
      var out := Compute(kb[e].input);
      if out.Err? {
        TrainStopsAt(sizes, kb, e);
        return Err(out.error);
      }
      ghost var trained := connexions;
      r := Backprop(kb[e].target);
      if r.Err? {
        TrainStopsAt(sizes, kb, e);
        return;
      }
      TrainedOneMore(sizes, biases, sigmoid, step, start, kb, e);
      assert connexions == TrainStep(sizes, biases, sigmoid, step, trained, kb[e]);
    }

    /**
     * `train(knowledgeBase, doTests)` (neuralnet.py:113-118): `compute` then
     * `backprop` on every example in order, stopping at the first exception;
     * then, if `doTests`, the result of `test` on the whole knowledge base.
     */
    method Train(knowledgeBase: seq<Example>, doTests: bool := true) returns (r: Result<Option<seq<real>>>)
      requires Valid()
      modifies this
      ensures Valid() && biases == old(biases)
      ensures connexions == TrainedSoFar(sizes, biases, sigmoid, step, old(connexions), knowledgeBase,
                                         FirstRejected(sizes, knowledgeBase, true))
      ensures var e := FirstRejected(sizes, knowledgeBase, true);
              r == if e < |knowledgeBase| then Err(TrainError(sizes, knowledgeBase[e]))
                   else if !doTests then Ok(None)
                   else match TestOutcome(sizes, connexions, biases, sigmoid, knowledgeBase)
                        case Ok(errors) => Ok(Some(errors))
                        case Err(error) => Err(error)
      ensures var trainedLayers := TrainLayersAfter(old(layers), sizes, biases, sigmoid, step, old(connexions), knowledgeBase,
                                                    Computed(sizes, knowledgeBase, true));
              layers == if FirstRejected(sizes, knowledgeBase, true) == |knowledgeBase| && doTests
                        then LayersAfter(trainedLayers, sizes, connexions, biases, sigmoid, knowledgeBase,
                                         Computed(sizes, knowledgeBase, false))
                        else trainedLayers
    {
      var kb := knowledgeBase;
      ghost var start := connexions;
      for e := 0 to |kb|
        invariant Valid() && biases == old(biases)
        invariant forall x :: 0 <= x < e ==> Trainable(sizes, kb[x])
        invariant connexions == TrainedSoFar(sizes, biases, sigmoid, step, start, kb, e)
        invariant layers == TrainLayersAfter(old(layers), sizes, biases, sigmoid, step, start, kb, e)
      {
        var done := TrainExample(kb, e, start, old(layers));
        if done.Err? {
          return Err(done.error);
        }
      }
      TrainGotThrough(sizes, kb);
      if doTests {
        var tested := Test(kb);
        r := match tested
             case Ok(errors) => Ok(Some(errors))
             case Err(error) => Err(error);
      } else {
        r := Ok(None);
      }
    }
  }
}
