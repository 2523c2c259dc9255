/**
 * The forward pass of `NeuralNetwork.compute` (neuralnet.py:47-65): every
 * layer after the input is the sigmoid of the weighted sum of the previous
 * layer plus the neuron's bias.
 */
module Forward {
  import opened Wrappers
  import opened Layout

  /**
   * The activation function. The source's `sigmoid` (neuralnet.py:132-135)
   * is `1/(1+e^-x)`; the model keeps only what that function guarantees,
   * a value strictly between 0 and 1. In double precision the source's
   * function rounds to exactly 1.0 for large arguments; the model, on exact
   * reals, does not capture that saturation.
   */
  type Squash = f: real -> real | forall x :: 0.0 < f(x) < 1.0 witness (x: real) => 0.5

  /**
   * `netj` after the first `count` steps of the loop at neuralnet.py:61-62:
   * the contributions `prev[k] * weights[k*width+j]` for `k < count`, added in order.
   */
  function WeightedSum(prev: seq<real>, weights: seq<real>, width: nat, j: nat, count: nat): real
    requires j < width && count <= |prev| && |weights| == |prev| * width
  {
    if count == 0 then 0.0
    else
      FlatIndexBound(count - 1, j, width, |prev|);
      WeightedSum(prev, weights, width, j, count - 1) + prev[count - 1] * weights[FlatIndex(count - 1, j, width)]
  }

  /** The activations of the layer that follows `prev`, one per bias (neuralnet.py:59-64). */
  function NextLayer(prev: seq<real>, weights: seq<real>, bias: seq<real>, sigmoid: Squash): (layer: seq<real>)
    requires |weights| == |prev| * |bias|
    ensures |layer| == |bias|
    ensures forall j :: 0 <= j < |layer| ==> 0.0 < layer[j] < 1.0
  {
    seq(|bias|, j requires 0 <= j < |bias| => sigmoid(WeightedSum(prev, weights, |bias|, j, |prev|) + bias[j]))
  }

  /** The first `count` layers after `compute(input)`: layer 0 is the input itself. */
  function Activations(input: seq<real>, connexions: seq<seq<real>>, biases: seq<Option<seq<real>>>,
                       sizes: seq<nat>, sigmoid: Squash, count: nat): (layers: seq<seq<real>>)
    requires WeightsShaped(sizes, connexions) && BiasesShaped(sizes, biases)
    requires |input| == sizes[0] && 1 <= count <= |sizes|
    ensures |layers| == count && layers[0] == input
    ensures forall i :: 0 <= i < count ==> |layers[i]| == sizes[i]
    ensures forall i, j :: 1 <= i < count && 0 <= j < |layers[i]| ==> 0.0 < layers[i][j] < 1.0
    decreases count
  {
    if count == 1 then [input]
    else
      var before := Activations(input, connexions, biases, sizes, sigmoid, count - 1);
      before + [NextLayer(before[count - 2], connexions[count - 2], biases[count - 1].value, sigmoid)]
  }

  /** The message of the ValueError `compute` raises for an input of the wrong length (neuralnet.py:53-54). */
  const InputMismatch := "Input list length does not match number of input neurons in network"

  /** Every layer after `compute(input)`. */
  function ForwardPass(input: seq<real>, connexions: seq<seq<real>>, biases: seq<Option<seq<real>>>,
                       sizes: seq<nat>, sigmoid: Squash): (layers: seq<seq<real>>)
    requires WeightsShaped(sizes, connexions) && BiasesShaped(sizes, biases) && |input| == sizes[0]
    ensures |layers| == |sizes| && layers[0] == input
    ensures forall i :: 0 <= i < |sizes| ==> |layers[i]| == sizes[i]
    ensures forall i, j :: 1 <= i < |sizes| && 0 <= j < sizes[i] ==> 0.0 < layers[i][j] < 1.0
  {
    Activations(input, connexions, biases, sizes, sigmoid, |sizes|)
  }

  /** Each layer of the forward pass is computed from the one before it alone (neuralnet.py:58-64). */
  lemma {:induction false} ForwardStep(input: seq<real>, connexions: seq<seq<real>>, biases: seq<Option<seq<real>>>,
                                       sizes: seq<nat>, sigmoid: Squash, i: nat)
    requires WeightsShaped(sizes, connexions) && BiasesShaped(sizes, biases) && |input| == sizes[0]
    requires 1 <= i < |sizes|
    ensures ForwardPass(input, connexions, biases, sizes, sigmoid)[i]
         == NextLayer(ForwardPass(input, connexions, biases, sizes, sigmoid)[i - 1], connexions[i - 1], biases[i].value, sigmoid)
  {
    ActivationsPrefix(input, connexions, biases, sizes, sigmoid, i + 1, |sizes|);
    ActivationsLast(input, connexions, biases, sizes, sigmoid, i + 1);
    var all := ForwardPass(input, connexions, biases, sizes, sigmoid);
    var upTo := Activations(input, connexions, biases, sizes, sigmoid, i + 1);
    assert all[i] == upTo[i] && all[i - 1] == upTo[i - 1];
  }

  /** The last of the first `count` layers is computed from the one before it. */
  lemma ActivationsLast(input: seq<real>, connexions: seq<seq<real>>, biases: seq<Option<seq<real>>>,
                        sizes: seq<nat>, sigmoid: Squash, count: nat)
    requires WeightsShaped(sizes, connexions) && BiasesShaped(sizes, biases) && |input| == sizes[0]
    requires 2 <= count <= |sizes|
    ensures Activations(input, connexions, biases, sizes, sigmoid, count)[count - 1]
         == NextLayer(Activations(input, connexions, biases, sizes, sigmoid, count)[count - 2],
                      connexions[count - 2], biases[count - 1].value, sigmoid)
  {
    var before := Activations(input, connexions, biases, sizes, sigmoid, count - 1);
    assert Activations(input, connexions, biases, sizes, sigmoid, count)[count - 2] == before[count - 2];
  }

  /** Computing fewer layers gives a prefix of computing more. */
  lemma {:induction false} ActivationsPrefix(input: seq<real>, connexions: seq<seq<real>>, biases: seq<Option<seq<real>>>,
                                             sizes: seq<nat>, sigmoid: Squash, count: nat, count': nat)
    requires WeightsShaped(sizes, connexions) && BiasesShaped(sizes, biases) && |input| == sizes[0]
    requires 1 <= count <= count' <= |sizes|
    ensures Activations(input, connexions, biases, sizes, sigmoid, count')[..count]
         == Activations(input, connexions, biases, sizes, sigmoid, count)
    decreases count'
  {
    if count' > count {
      ActivationsPrefix(input, connexions, biases, sizes, sigmoid, count, count' - 1);
    }
  }
}
