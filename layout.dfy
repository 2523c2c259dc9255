/**
 * The buffers of a NeuralNetwork (neuralnet.py:14-45): per-layer activation
 * lists, one flattened connexion matrix per pair of adjacent layers, one bias
 * list per non-input layer, and how the constructor fills them.
 */
module Layout {
  import opened Wrappers

  /**
   * Successive results of `random.random()`: the n-th call returns `random(n)`,
   * a value in [0, 1).
   */
  type Draws = f: nat -> real | forall n :: 0.0 <= f(n) < 1.0 witness (n: nat) => 0.0

  /**
   * Position of the weight from neuron `j` of a layer to neuron `k` of the next
   * layer, which has `width` neurons, in the flattened matrix: `j*width+k`.
   * Row and column are recovered from it by division and remainder.
   */
  function FlatIndex(j: nat, k: nat, width: nat): (idx: nat)
    requires k < width
    ensures idx / width == j && idx % width == k
  {
    DivModOfFlatIndex(j, k, width);
    j * width + k
  }

  lemma DivModOfFlatIndex(j: nat, k: nat, width: nat)
    requires k < width
    ensures (j * width + k) / width == j && (j * width + k) % width == k
  {
    var x := j * width + k;
    var q, r := x / width, x % width;
    assert x == width * q + r;
    assert (j - q) * width == r - k;
    if j - q >= 1 {
      assert (j - q) * width >= width by { MultiplyMonotone(1, j - q, width); }
    } else if j - q <= -1 {
      assert (q - j) * width >= width by { MultiplyMonotone(1, q - j, width); }
    }
  }

  lemma MultiplyMonotone(a: int, b: int, c: nat)
    requires a <= b
    ensures a * c <= b * c
  {
    assert b * c - a * c == (b - a) * c;
  }

  /** Every flat index of a `rows` by `width` matrix is in bounds. */
  lemma FlatIndexBound(j: nat, k: nat, width: nat, rows: nat)
    requires j < rows && k < width
    ensures FlatIndex(j, k, width) < rows * width
  {
    MultiplyMonotone(j + 1, rows, width);
  }

  /** Every position of a `rows` by `width` flattened matrix is the flat index of its row and column. */
  lemma SplitFlatIndex(idx: nat, width: nat, rows: nat)
    requires idx < rows * width
    ensures width > 0 && idx / width < rows && FlatIndex(idx / width, idx % width, width) == idx
  {
    if width > 0 {
      assert idx == width * (idx / width) + idx % width;
      if idx / width >= rows {
        MultiplyMonotone(rows, idx / width, width);
      }
    }
  }

  /** Every (row, column) pair inside a `rows` by `width` matrix has its flat index inside it. */
  lemma FlatIndexBounds(width: nat, rows: nat)
    ensures forall j, k :: 0 <= j < rows && 0 <= k < width ==> FlatIndex(j, k, width) < rows * width
  {
    forall j, k | 0 <= j < rows && 0 <= k < width
      ensures FlatIndex(j, k, width) < rows * width
    {
      FlatIndexBound(j, k, width, rows);
    }
  }

  /** Two flat matrices that agree at every (row, column) pair are equal. */
  lemma SameEntries(a: seq<real>, b: seq<real>, width: nat, rows: nat)
    requires |a| == |b| == rows * width
    requires forall j, k :: 0 <= j < rows && 0 <= k < width ==>
               FlatIndex(j, k, width) < |a| && a[FlatIndex(j, k, width)] == b[FlatIndex(j, k, width)]
    ensures a == b
  {
    forall idx | 0 <= idx < |a| ensures a[idx] == b[idx] {
      SplitFlatIndex(idx, width, rows);
    }
  }

  /** The number of weights in connexion matrix `i`: one per pair of neurons of layers `i` and `i+1`. */
  function MatrixSize(sizes: seq<nat>, i: nat): nat
    requires i < |sizes| - 1
  {
    sizes[i] * sizes[i + 1]
  }

  /** Connexion matrix `i` joins layer `i` to layer `i+1` and holds one weight per pair of their neurons. */
  predicate WeightsShaped(sizes: seq<nat>, connexions: seq<seq<real>>)
  {
    && |sizes| >= 1
    && |connexions| == |sizes| - 1
    && forall i :: 0 <= i < |connexions| ==> |connexions[i]| == MatrixSize(sizes, i)
  }

  /** The input layer has no biases (`None`); every other layer has one per neuron. */
  predicate BiasesShaped(sizes: seq<nat>, biases: seq<Option<seq<real>>>)
  {
    && |sizes| >= 1
    && |biases| == |sizes|
    && biases[0].None?
    && forall i :: 1 <= i < |biases| ==> biases[i].Some? && |biases[i].value| == sizes[i]
  }

  /** The initial value `random.random() * 20 - 10` of a weight or a bias. */
  function InitialValue(u: real): (v: real)
    requires 0.0 <= u < 1.0
    ensures -10.0 <= v < 10.0
  {
    u * 20.0 - 10.0
  }

  /** How many draws the constructor makes before it fills connexion matrix `i`. */
  function WeightDraws(sizes: seq<nat>, i: nat): nat
    requires i < |sizes|
  {
    if i == 0 then 0 else WeightDraws(sizes, i - 1) + MatrixSize(sizes, i - 1)
  }

  /** How many draws the constructor makes before it fills the biases of layer `i`: all weights come first. */
  function BiasDraws(sizes: seq<nat>, i: nat): nat
    requires 1 <= i <= |sizes|
  {
    if i == 1 then WeightDraws(sizes, |sizes| - 1) else BiasDraws(sizes, i - 1) + sizes[i - 1]
  }

  /** Every layer filled with zeroes, as neuralnet.py:28-31 does. */
  function ZeroLayers(sizes: seq<nat>): (layers: seq<seq<real>>)
    ensures |layers| == |sizes|
    ensures forall i :: 0 <= i < |sizes| ==> |layers[i]| == sizes[i]
    ensures forall i, j :: 0 <= i < |sizes| && 0 <= j < sizes[i] ==> layers[i][j] == 0.0
  {
    seq(|sizes|, i requires 0 <= i < |sizes| => seq(sizes[i], _ => 0.0))
  }

  /** `count` successive initial values, taken from the draws that start at `first`. */
  function InitialValues(count: nat, first: nat, random: Draws): (values: seq<real>)
    ensures |values| == count
  {
    if count == 0 then [] else InitialValues(count - 1, first, random) + [InitialValue(random(first + count - 1))]
  }

  /** Value `x` of `InitialValues(count, first, random)` is the value of draw `first + x`. */
  lemma {:induction false} InitialValueAt(count: nat, first: nat, random: Draws, x: nat)
    requires x < count
    ensures InitialValues(count, first, random)[x] == InitialValue(random(first + x))
  {
    if x < count - 1 {
      InitialValueAt(count - 1, first, random, x);
    }
  }

  /** The first `count` connexion matrices of a new network. */
  function InitialMatrices(sizes: seq<nat>, random: Draws, count: nat): (connexions: seq<seq<real>>)
    requires count < |sizes|
    ensures |connexions| == count
    ensures forall i :: 0 <= i < count ==> |connexions[i]| == MatrixSize(sizes, i)
  {
    if count == 0 then []
    else InitialMatrices(sizes, random, count - 1) + [InitialValues(MatrixSize(sizes, count - 1), WeightDraws(sizes, count - 1), random)]
  }

  /** The connexion matrices of a new network: weight `x` of matrix `i` is draw `WeightDraws(sizes, i) + x`. */
  function InitialConnexions(sizes: seq<nat>, random: Draws): (connexions: seq<seq<real>>)
    requires |sizes| >= 1
    ensures WeightsShaped(sizes, connexions)
  {
    InitialMatrices(sizes, random, |sizes| - 1)
  }

  /** The bias lists of the first `count` layers of a new network. */
  function InitialBiasLists(sizes: seq<nat>, random: Draws, count: nat): (biases: seq<Option<seq<real>>>)
    requires 1 <= count <= |sizes|
    ensures |biases| == count && biases[0].None?
    ensures forall i :: 1 <= i < count ==> biases[i].Some? && |biases[i].value| == sizes[i]
  {
    if count == 1 then [None]
    else InitialBiasLists(sizes, random, count - 1) + [Some(InitialValues(sizes[count - 1], BiasDraws(sizes, count - 1), random))]
  }

  /** The biases of a new network: none for the input layer; bias `x` of layer `i` is draw `BiasDraws(sizes, i) + x`. */
  function InitialBiases(sizes: seq<nat>, random: Draws): (biases: seq<Option<seq<real>>>)
    requires |sizes| >= 1
    ensures BiasesShaped(sizes, biases)
  {
    InitialBiasLists(sizes, random, |sizes|)
  }

  /** Matrix `i` of a new network takes the draws from `WeightDraws(sizes, i)` on. */
  lemma {:induction false} InitialMatricesAt(sizes: seq<nat>, random: Draws, count: nat, i: nat)
    requires i < count < |sizes|
    ensures InitialMatrices(sizes, random, count)[i] == InitialValues(MatrixSize(sizes, i), WeightDraws(sizes, i), random)
  {
    if i < count - 1 {
      InitialMatricesAt(sizes, random, count - 1, i);
    }
  }

  /** The biases of layer `i` of a new network take the draws from `BiasDraws(sizes, i)` on. */
  lemma {:induction false} InitialBiasListsAt(sizes: seq<nat>, random: Draws, count: nat, i: nat)
    requires 1 <= i < count <= |sizes|
    ensures InitialBiasLists(sizes, random, count)[i] == Some(InitialValues(sizes[i], BiasDraws(sizes, i), random))
  {
    if i < count - 1 {
      InitialBiasListsAt(sizes, random, count - 1, i);
    }
  }

  /** Every weight and every bias of a new network lies in [-10, 10). */
  lemma InitialValuesInRange(sizes: seq<nat>, random: Draws)
    requires |sizes| >= 1
    ensures forall i, x :: 0 <= i < |sizes| - 1 && 0 <= x < |InitialConnexions(sizes, random)[i]| ==>
              -10.0 <= InitialConnexions(sizes, random)[i][x] < 10.0
    ensures forall i, x :: 1 <= i < |sizes| && 0 <= x < sizes[i] ==>
              -10.0 <= InitialBiases(sizes, random)[i].value[x] < 10.0
  {
    var connexions := InitialConnexions(sizes, random);
    forall i, x | 0 <= i < |sizes| - 1 && 0 <= x < |connexions[i]|
      ensures -10.0 <= connexions[i][x] < 10.0
    {
      InitialMatricesAt(sizes, random, |sizes| - 1, i);
      InitialValueAt(MatrixSize(sizes, i), WeightDraws(sizes, i), random, x);
    }
    var biases := InitialBiases(sizes, random);
    forall i, x | 1 <= i < |sizes| && 0 <= x < sizes[i]
      ensures -10.0 <= biases[i].value[x] < 10.0
    {
      InitialBiasListsAt(sizes, random, |sizes|, i);
      InitialValueAt(sizes[i], BiasDraws(sizes, i), random, x);
    }
  }

  /** Draws for a later connexion matrix come after all the draws of an earlier one. */
  lemma {:induction false} WeightDrawsIncrease(sizes: seq<nat>, i: nat, i': nat)
    requires i < i' < |sizes|
    ensures WeightDraws(sizes, i) + MatrixSize(sizes, i) <= WeightDraws(sizes, i')
    decreases i'
  {
    if i' > i + 1 {
      WeightDrawsIncrease(sizes, i, i' - 1);
    }
  }

  /** Draws for a later bias list come after all the draws of an earlier one, and after every weight. */
  lemma {:induction false} BiasDrawsIncrease(sizes: seq<nat>, i: nat, i': nat)
    requires 1 <= i < i' <= |sizes|
    ensures WeightDraws(sizes, |sizes| - 1) + sizes[i] <= BiasDraws(sizes, i) + sizes[i] <= BiasDraws(sizes, i')
    decreases i'
  {
    if i' > i + 1 {
      BiasDrawsIncrease(sizes, i, i' - 1);
    } else if i > 1 {
      BiasDrawsAfterWeights(sizes, i);
    }
  }

  lemma {:induction false} BiasDrawsAfterWeights(sizes: seq<nat>, i: nat)
    requires 1 <= i <= |sizes|
    ensures WeightDraws(sizes, |sizes| - 1) <= BiasDraws(sizes, i)
  {
    if i > 1 {
      BiasDrawsAfterWeights(sizes, i - 1);
    }
  }

  /**
   * Each initial weight and bias is its own call of `random.random()`: two
   * different weights, two different biases, or a weight and a bias never
   * share a draw.
   */
  lemma DrawsAreDistinct(sizes: seq<nat>, i: nat, x: nat, i': nat, x': nat)
    requires |sizes| >= 1
    ensures i < i' < |sizes| - 1 && x < MatrixSize(sizes, i) ==> WeightDraws(sizes, i) + x != WeightDraws(sizes, i') + x'
    ensures 1 <= i < i' < |sizes| && x < sizes[i] ==> BiasDraws(sizes, i) + x != BiasDraws(sizes, i') + x'
    ensures i < |sizes| - 1 && x < MatrixSize(sizes, i) && 1 <= i' < |sizes|
            ==> WeightDraws(sizes, i) + x != BiasDraws(sizes, i') + x'
  {
    if i < i' < |sizes| - 1 {
      WeightDrawsIncrease(sizes, i, i');
    }
    if 1 <= i < i' < |sizes| {
      BiasDrawsIncrease(sizes, i, i');
    }
    if i < |sizes| - 1 && 1 <= i' < |sizes| {
      WeightDrawsIncrease(sizes, i, |sizes| - 1);
      BiasDrawsAfterWeights(sizes, i');
    }
  }
}
