/**
 * The weight update of `NeuralNetwork.backprop` (neuralnet.py:67-108), as
 * functions of the cached activations, the connexion matrices, the learning
 * step and the target values.
 */
module Backward {
  import opened Layout

  /** Connexion matrix `i` holds one weight per pair of neurons of layers `i` and `i+1`. */
  predicate Fits(layers: seq<seq<real>>, connexions: seq<seq<real>>)
  {
    && |layers| >= 1
    && |connexions| == |layers| - 1
    && forall i :: 0 <= i < |connexions| ==> |connexions[i]| == |layers[i]| * |layers[i + 1]|
  }

  /** Two lists of lists with the same number of lists and the same length for each. */
  predicate SameShape(a: seq<seq<real>>, b: seq<seq<real>>)
  {
    |a| == |b| && forall i :: 0 <= i < |a| ==> |a[i]| == |b[i]|
  }

  /** Python's `max(a, b)`: `a` unless `b` is strictly larger. */
  function Max(a: real, b: real): (m: real)
    ensures m >= a && m >= b && (m == a || m == b)
  {
    if b > a then b else a
  }

  function ZeroVector(n: nat): (v: seq<real>)
    ensures |v| == n && forall x :: 0 <= x < n ==> v[x] == 0.0
  {
    seq(n, _ => 0.0)
  }

  /** The `errorSignals` buffer as neuralnet.py:78-81 creates it: a zero per neuron. */
  function ZeroSignals(layers: seq<seq<real>>): (signals: seq<seq<real>>)
    ensures |signals| == |layers| && forall i :: 0 <= i < |layers| ==> signals[i] == ZeroVector(|layers[i]|)
  {
    seq(|layers|, i requires 0 <= i < |layers| => ZeroVector(|layers[i]|))
  }

  /**
   * The output error signals `(Tk-Ok)*Ok*(1-Ok)` (neuralnet.py:86). For an
   * output strictly between 0 and 1 the signal has the sign of `Tk-Ok`.
   */
  function OutputDeltas(output: seq<real>, target: seq<real>): (deltas: seq<real>)
    requires |target| == |output|
    ensures |deltas| == |output|
    ensures forall k :: 0 <= k < |output| && target[k] == output[k] ==> deltas[k] == 0.0
    ensures forall k :: 0 <= k < |output| && 0.0 < output[k] < 1.0 ==>
              (deltas[k] > 0.0 <==> target[k] > output[k]) && (deltas[k] < 0.0 <==> target[k] < output[k])
  {
    var deltas := seq(|output|, k requires 0 <= k < |output| => (target[k] - output[k]) * output[k] * (1.0 - output[k]));
    forall k | 0 <= k < |output| && 0.0 < output[k] < 1.0
      ensures (deltas[k] > 0.0 <==> target[k] > output[k]) && (deltas[k] < 0.0 <==> target[k] < output[k])
    {
      SignOfProduct(target[k] - output[k], output[k] * (1.0 - output[k]));
    }
    deltas
  }

  lemma SignOfProduct(a: real, b: real)
    requires b > 0.0
    ensures (a * b > 0.0 <==> a > 0.0) && (a * b < 0.0 <==> a < 0.0)
  {
    if a > 0.0 {
      assert a * b > 0.0;
    } else if a < 0.0 {
      assert (-a) * b > 0.0;
    }
  }

  /** `WjkNew = WjkOld + step * dk * Oj` (neuralnet.py:91, 101). */
  function Updated(w: real, step: real, dk: real, oj: real): real
  {
    w + step * dk * oj
  }

  /**
   * A connexion matrix after `W += step * deltas[k] * acts[j]` for every
   * source neuron `j` and destination neuron `k` (neuralnet.py:88-92, 99-102).
   */
  function Adjusted(weights: seq<real>, step: real, deltas: seq<real>, acts: seq<real>): (adjusted: seq<real>)
    requires |weights| == |acts| * |deltas|
    ensures |adjusted| == |weights|
  {
    seq(|weights|, idx requires 0 <= idx < |weights| =>
      SplitFlatIndex(idx, |deltas|, |acts|);
      Updated(weights[idx], step, deltas[idx % |deltas|], acts[idx / |deltas|]))
  }

  /** The weight from `j` to `k` becomes `W + step * dk * Oj`, the rule of neuralnet.py:91 and :101. */
  lemma AdjustedAt(weights: seq<real>, step: real, deltas: seq<real>, acts: seq<real>, j: nat, k: nat)
    requires |weights| == |acts| * |deltas| && j < |acts| && k < |deltas|
    ensures FlatIndex(j, k, |deltas|) < |weights|
    ensures Adjusted(weights, step, deltas, acts)[FlatIndex(j, k, |deltas|)]
         == Updated(weights[FlatIndex(j, k, |deltas|)], step, deltas[k], acts[j])
  {
    FlatIndexBound(j, k, |deltas|, |acts|);
  }

  /** `AdjustedAt` for every pair of neurons at once. */
  lemma AdjustedEntries(weights: seq<real>, step: real, deltas: seq<real>, acts: seq<real>)
    requires |weights| == |acts| * |deltas|
    ensures forall j, k :: 0 <= j < |acts| && 0 <= k < |deltas| ==>
              FlatIndex(j, k, |deltas|) < |weights| &&
              Adjusted(weights, step, deltas, acts)[FlatIndex(j, k, |deltas|)]
              == Updated(weights[FlatIndex(j, k, |deltas|)], step, deltas[k], acts[j])
  {
    forall j, k | 0 <= j < |acts| && 0 <= k < |deltas|
      ensures FlatIndex(j, k, |deltas|) < |weights|
      ensures Adjusted(weights, step, deltas, acts)[FlatIndex(j, k, |deltas|)]
              == Updated(weights[FlatIndex(j, k, |deltas|)], step, deltas[k], acts[j])
    {
      AdjustedAt(weights, step, deltas, acts, j, k);
    }
  }

  /** The candidate error signal `oh*(1-oh)*Whz*dk` of neuralnet.py:107. */
  function Share(oh: real, whz: real, dk: real): real
  {
    oh * (1.0 - oh) * whz * dk
  }

  /** The contribution of destination `k` to the error signal of source neuron `j` (neuralnet.py:105-107). */
  function Contribution(acts: seq<real>, weights: seq<real>, deltas: seq<real>, j: nat, k: nat): real
    requires j < |acts| && k < |deltas| && |weights| == |acts| * |deltas|
  {
    FlatIndexBound(j, k, |deltas|, |acts|);
    Share(acts[j], weights[FlatIndex(j, k, |deltas|)], deltas[k])
  }

  /**
   * `errorSignals[i][j]` after the first `count` destinations (neuralnet.py:97-108):
   * it starts at 0 and is replaced by `max(dh, errorSignals[i][j])`, so it is the
   * largest of 0 and the contributions so far.
   */
  function HiddenSignal(acts: seq<real>, weights: seq<real>, deltas: seq<real>, j: nat, count: nat): (signal: real)
    requires j < |acts| && count <= |deltas| && |weights| == |acts| * |deltas|
    ensures signal >= 0.0
    ensures forall k :: 0 <= k < count ==> signal >= Contribution(acts, weights, deltas, j, k)
    ensures signal == 0.0 || exists k :: 0 <= k < count && signal == Contribution(acts, weights, deltas, j, k)
  {
    if count == 0 then 0.0
    else Max(Contribution(acts, weights, deltas, j, count - 1), HiddenSignal(acts, weights, deltas, j, count - 1))
  }

  /** Updating the weight from `j` to `k` and then reading it extends the error signal of `j` by one destination. */
  lemma SignalStep(acts: seq<real>, weights: seq<real>, deltas: seq<real>, j: nat, k: nat, w: real)
    requires j < |acts| && k < |deltas| && |weights| == |acts| * |deltas|
    requires FlatIndex(j, k, |deltas|) < |weights|
    ensures HiddenSignal(acts, weights[FlatIndex(j, k, |deltas|) := w], deltas, j, k + 1)
         == Max(Contribution(acts, weights[FlatIndex(j, k, |deltas|) := w], deltas, j, k), HiddenSignal(acts, weights, deltas, j, k))
  {
    var m := |deltas|;
    var updated := weights[FlatIndex(j, k, m) := w];
    forall k' | 0 <= k' < k
      ensures FlatIndex(j, k', m) < |weights| && weights[FlatIndex(j, k', m)] == updated[FlatIndex(j, k', m)]
    {
      FlatIndexBound(j, k', m, |acts|);
      assert FlatIndex(j, k', m) % m != FlatIndex(j, k, m) % m;
    }
    SameRowSameSignal(acts, weights, updated, deltas, j, k);
  }

  /** The error signal of source neuron `j` reads only the weights out of `j`. */
  lemma {:induction false} SameRowSameSignal(acts: seq<real>, weights: seq<real>, weights': seq<real>, deltas: seq<real>,
                                             j: nat, count: nat)
    requires j < |acts| && count <= |deltas| && |weights| == |weights'| == |acts| * |deltas|
    requires forall k :: 0 <= k < count ==>
               FlatIndex(j, k, |deltas|) < |weights| && weights[FlatIndex(j, k, |deltas|)] == weights'[FlatIndex(j, k, |deltas|)]
    ensures HiddenSignal(acts, weights, deltas, j, count) == HiddenSignal(acts, weights', deltas, j, count)
  {
    if count > 0 {
      SameRowSameSignal(acts, weights, weights', deltas, j, count - 1);
      var idx := FlatIndex(j, count - 1, |deltas|);
      assert weights[idx] == weights'[idx];
      assert Contribution(acts, weights, deltas, j, count - 1) == Contribution(acts, weights', deltas, j, count - 1);
    }
  }

  /** The error signals of one layer, from the layer's activations and its updated outgoing weights. */
  function Signals(acts: seq<real>, weights: seq<real>, deltas: seq<real>): (signals: seq<real>)
    requires |weights| == |acts| * |deltas|
    ensures |signals| == |acts|
    ensures forall j :: 0 <= j < |acts| ==> signals[j] >= 0.0
  {
    seq(|acts|, j requires 0 <= j < |acts| => HiddenSignal(acts, weights, deltas, j, |deltas|))
  }

  /** The message of the ValueError `backprop` raises for a target list of the wrong length (neuralnet.py:75-76). */
  const TargetMismatch := "Target list length does not match number of output neurons in network"

  /** The connexion matrices and the `errorSignals` buffer, part way through `backprop`. */
  datatype Sweep = Sweep(connexions: seq<seq<real>>, errorSignals: seq<seq<real>>)

  /** What `backprop` needs of its cached activations, weights and targets. */
  predicate Ready(layers: seq<seq<real>>, connexions: seq<seq<real>>, targets: seq<real>)
  {
    Fits(layers, connexions) && |layers| >= 2 && |targets| == |layers[|layers| - 1]|
  }

  /** The last connexion matrix after the output step of neuralnet.py:84-92. */
  function OutputStep(layers: seq<seq<real>>, connexions: seq<seq<real>>, step: real, targets: seq<real>): (adjusted: seq<real>)
    requires Ready(layers, connexions, targets)
    ensures |adjusted| == |connexions[|layers| - 2]|
  {
    var last := |layers| - 1;
    Adjusted(connexions[last - 1], step, OutputDeltas(layers[last], targets), layers[last - 1])
  }

  /**
   * The state of `backprop` once connexion matrix `i` has been processed by
   * the loop of neuralnet.py:95-108; for `i` the last layer, the state after
   * the output step of neuralnet.py:84-92.
   */
  function SweepFrom(layers: seq<seq<real>>, connexions: seq<seq<real>>, step: real, targets: seq<real>, i: nat): (s: Sweep)
    requires Ready(layers, connexions, targets) && i <= |layers| - 1
    ensures SameShape(s.connexions, connexions) && SameShape(s.errorSignals, layers)
    decreases |layers| - i
  {
    var last := |layers| - 1;
    if i == last then
      Sweep(connexions[last - 1 := OutputStep(layers, connexions, step, targets)],
            ZeroSignals(layers)[last := OutputDeltas(layers[last], targets)])
    else
      var s := SweepFrom(layers, connexions, step, targets, i + 1);
      var adjusted := Adjusted(s.connexions[i], step, s.errorSignals[i + 1], layers[i]);
      Sweep(s.connexions[i := adjusted], s.errorSignals[i := Signals(layers[i], adjusted, s.errorSignals[i + 1])])
  }

  /** The state `backprop` ends in. */
  function Final(layers: seq<seq<real>>, connexions: seq<seq<real>>, step: real, targets: seq<real>): (s: Sweep)
    requires Ready(layers, connexions, targets)
    ensures SameShape(s.connexions, connexions) && SameShape(s.errorSignals, layers)
  {
    SweepFrom(layers, connexions, step, targets, 0)
  }

  /** A matrix below the one being processed still holds its value from before the loop. */
  lemma {:induction false} Untouched(layers: seq<seq<real>>, connexions: seq<seq<real>>, step: real, targets: seq<real>, i: nat, x: nat)
    requires Ready(layers, connexions, targets) && x < i <= |layers| - 1
    ensures SweepFrom(layers, connexions, step, targets, i).connexions[x]
         == if x == |layers| - 2 then OutputStep(layers, connexions, step, targets) else connexions[x]
    ensures SweepFrom(layers, connexions, step, targets, i).errorSignals[x] == ZeroVector(|layers[x]|)
    decreases |layers| - i
  {
    var here := SweepFrom(layers, connexions, step, targets, i);
    if i < |layers| - 1 {
      Untouched(layers, connexions, step, targets, i + 1, x);
      var next := SweepFrom(layers, connexions, step, targets, i + 1);
      assert here.connexions[x] == next.connexions[x];
      assert here.errorSignals[x] == next.errorSignals[x];
    } else {
      assert here.errorSignals[x] == ZeroSignals(layers)[x];
    }
  }

  /** Once matrix `x` and the signals of layer `x` are computed, later steps leave them alone. */
  lemma {:induction false} Settled(layers: seq<seq<real>>, connexions: seq<seq<real>>, step: real, targets: seq<real>, i: nat, x: nat)
    requires Ready(layers, connexions, targets) && i <= x <= |layers| - 1
    ensures SweepFrom(layers, connexions, step, targets, i).errorSignals[x]
         == SweepFrom(layers, connexions, step, targets, x).errorSignals[x]
    ensures x < |layers| - 1 ==>
              (SweepFrom(layers, connexions, step, targets, i).connexions[x]
               == SweepFrom(layers, connexions, step, targets, x).connexions[x])
    decreases x - i
  {
    if i < x {
      Settled(layers, connexions, step, targets, i + 1, x);
      LaterStepKeeps(layers, connexions, step, targets, i, x);
    }
  }

  /** Processing matrix `i` writes only matrix `i` and the signals of layer `i`. */
  lemma LaterStepKeeps(layers: seq<seq<real>>, connexions: seq<seq<real>>, step: real, targets: seq<real>, i: nat, x: nat)
    requires Ready(layers, connexions, targets) && i < x <= |layers| - 1
    ensures SweepFrom(layers, connexions, step, targets, i).errorSignals[x]
         == SweepFrom(layers, connexions, step, targets, i + 1).errorSignals[x]
    ensures x < |layers| - 1 ==>
              SweepFrom(layers, connexions, step, targets, i).connexions[x]
              == SweepFrom(layers, connexions, step, targets, i + 1).connexions[x]
  {
  }

  /**
   * The last connexion matrix is updated twice: once by the output step
   * (neuralnet.py:88-92), and again when the loop of neuralnet.py:95 starts at
   * `i = len(layers) - 2`, with the output signals left in `errorSignals`.
   */
  lemma LastMatrixUpdatedTwice(layers: seq<seq<real>>, connexions: seq<seq<real>>, step: real, targets: seq<real>, j: nat, k: nat)
    requires Ready(layers, connexions, targets)
    requires j < |layers[|layers| - 2]| && k < |layers[|layers| - 1]|
    ensures var x, width := |layers| - 2, |layers[|layers| - 1]|;
            var d := OutputDeltas(layers[x + 1], targets)[k];
            (FlatIndexBound(j, k, width, |layers[x]|);
             Final(layers, connexions, step, targets).connexions[x][FlatIndex(j, k, width)]
             == Updated(Updated(connexions[x][FlatIndex(j, k, width)], step, d, layers[x][j]), step, d, layers[x][j]))
    ensures Final(layers, connexions, step, targets).errorSignals[|layers| - 1]
         == OutputDeltas(layers[|layers| - 1], targets)
  {
    var x := |layers| - 2;
    var deltas := OutputDeltas(layers[x + 1], targets);
    var output := SweepFrom(layers, connexions, step, targets, x + 1);
    var at := SweepFrom(layers, connexions, step, targets, x);
    Settled(layers, connexions, step, targets, 0, x);
    Settled(layers, connexions, step, targets, 0, x + 1);
    var once := OutputStep(layers, connexions, step, targets);
    assert output.connexions[x] == once && output.errorSignals[x + 1] == deltas;
    AdjustedAt(connexions[x], step, deltas, layers[x], j, k);
    AdjustedAt(once, step, deltas, layers[x], j, k);
  }

  /**
   * Every other matrix is updated once, by `W += step * dk * Oj` where `dk` is
   * the final error signal of the destination neuron (neuralnet.py:99-102).
   */
  lemma HiddenWeightRule(layers: seq<seq<real>>, connexions: seq<seq<real>>, step: real, targets: seq<real>, x: nat, j: nat, k: nat)
    requires Ready(layers, connexions, targets)
    requires x < |layers| - 2 && j < |layers[x]| && k < |layers[x + 1]|
    ensures FlatIndex(j, k, |layers[x + 1]|) < |connexions[x]|
    ensures Final(layers, connexions, step, targets).connexions[x][FlatIndex(j, k, |layers[x + 1]|)]
         == Updated(connexions[x][FlatIndex(j, k, |layers[x + 1]|)], step,
                    Final(layers, connexions, step, targets).errorSignals[x + 1][k], layers[x][j])
  {
    var before := SweepFrom(layers, connexions, step, targets, x + 1);
    var at := SweepFrom(layers, connexions, step, targets, x);
    Settled(layers, connexions, step, targets, 0, x);
    Settled(layers, connexions, step, targets, 0, x + 1);
    Untouched(layers, connexions, step, targets, x + 1, x);
    assert at.connexions[x] == Adjusted(connexions[x], step, before.errorSignals[x + 1], layers[x]);
    AdjustedAt(connexions[x], step, before.errorSignals[x + 1], layers[x], j, k);
  }

  /**
   * The error signal of a neuron that is not an output is the largest of 0 and
   * its contributions, each computed from the weight as already updated
   * (neuralnet.py:102 writes it, :106 reads it back).
   */
  lemma HiddenSignalRule(layers: seq<seq<real>>, connexions: seq<seq<real>>, step: real, targets: seq<real>, x: nat, j: nat)
    requires Ready(layers, connexions, targets)
    requires x < |layers| - 1 && j < |layers[x]|
    ensures var s := Final(layers, connexions, step, targets);
            s.errorSignals[x][j] == HiddenSignal(layers[x], s.connexions[x], s.errorSignals[x + 1], j, |layers[x + 1]|)
  {
    Settled(layers, connexions, step, targets, 0, x);
    Settled(layers, connexions, step, targets, 0, x + 1);
  }

  /** Every error signal outside the output layer is at least 0 (neuralnet.py:80, 108). */
  lemma HiddenSignalsNonNegative(layers: seq<seq<real>>, connexions: seq<seq<real>>, step: real, targets: seq<real>, x: nat, j: nat)
    requires Ready(layers, connexions, targets)
    requires x < |layers| - 1 && j < |layers[x]|
    ensures Final(layers, connexions, step, targets).errorSignals[x][j] >= 0.0
  {
    HiddenSignalRule(layers, connexions, step, targets, x, j);
  }

  /** A weight whose source neuron has activation 0 is left as it was. */
  lemma InactiveSourceKeepsWeight(layers: seq<seq<real>>, connexions: seq<seq<real>>, step: real, targets: seq<real>, x: nat, j: nat, k: nat)
    requires Ready(layers, connexions, targets)
    requires x < |layers| - 1 && j < |layers[x]| && k < |layers[x + 1]|
    requires layers[x][j] == 0.0
    ensures (FlatIndexBound(j, k, |layers[x + 1]|, |layers[x]|);
             Final(layers, connexions, step, targets).connexions[x][FlatIndex(j, k, |layers[x + 1]|)]
             == connexions[x][FlatIndex(j, k, |layers[x + 1]|)])
  {
    if x == |layers| - 2 {
      LastMatrixUpdatedTwice(layers, connexions, step, targets, j, k);
    } else {
      HiddenWeightRule(layers, connexions, step, targets, x, j, k);
    }
  }

  /**
   * Because hidden error signals are never negative, a weight of a matrix
   * other than the last, whose source activation is not negative, never
   * decreases under a non-negative step.
   */
  lemma HiddenWeightsNeverDecrease(layers: seq<seq<real>>, connexions: seq<seq<real>>, step: real, targets: seq<real>, x: nat, j: nat, k: nat)
    requires Ready(layers, connexions, targets)
    requires x < |layers| - 2 && j < |layers[x]| && k < |layers[x + 1]|
    requires step >= 0.0 && layers[x][j] >= 0.0
    ensures (FlatIndexBound(j, k, |layers[x + 1]|, |layers[x]|);
             Final(layers, connexions, step, targets).connexions[x][FlatIndex(j, k, |layers[x + 1]|)]
             >= connexions[x][FlatIndex(j, k, |layers[x + 1]|)])
  {
    HiddenWeightRule(layers, connexions, step, targets, x, j, k);
    HiddenSignalsNonNegative(layers, connexions, step, targets, x + 1, k);
    var e := Final(layers, connexions, step, targets).errorSignals[x + 1][k];
    assert step * e >= 0.0;
    assert step * e * layers[x][j] >= 0.0;
  }

  /**
   * With a positive step, an output weight from an active source neuron moves
   * toward the target: up when the output is too low, down when it is too high.
   */
  lemma OutputWeightFollowsTarget(layers: seq<seq<real>>, connexions: seq<seq<real>>, step: real, targets: seq<real>, j: nat, k: nat)
    requires Ready(layers, connexions, targets)
    requires j < |layers[|layers| - 2]| && k < |layers[|layers| - 1]|
    requires step > 0.0 && layers[|layers| - 2][j] > 0.0 && 0.0 < layers[|layers| - 1][k] < 1.0
    ensures var x, width := |layers| - 2, |layers[|layers| - 1]|;
            (FlatIndexBound(j, k, width, |layers[x]|);
             var before := connexions[x][FlatIndex(j, k, width)];
             var after := Final(layers, connexions, step, targets).connexions[x][FlatIndex(j, k, width)];
             (targets[k] > layers[x + 1][k] ==> after > before)
             && (targets[k] < layers[x + 1][k] ==> after < before)
             && (targets[k] == layers[x + 1][k] ==> after == before))
  {
    LastMatrixUpdatedTwice(layers, connexions, step, targets, j, k);
    var x := |layers| - 2;
    var d := OutputDeltas(layers[x + 1], targets)[k];
    var a := layers[x][j];
    assert step * a > 0.0;
    if d > 0.0 {
      assert step * d * a > 0.0 by { assert step * d * a == (step * a) * d; }
    } else if d < 0.0 {
      assert step * d * a < 0.0 by { assert step * d * a == -((step * a) * (-d)); }
    }
  }

  /** When every output already equals its target, no weight moves and every signal stays zero. */
  lemma {:induction false} OnTargetSweep(layers: seq<seq<real>>, connexions: seq<seq<real>>, step: real, targets: seq<real>, i: nat)
    requires Ready(layers, connexions, targets) && i <= |layers| - 1
    requires layers[|layers| - 1] == targets
    ensures SweepFrom(layers, connexions, step, targets, i) == Sweep(connexions, ZeroSignals(layers))
    decreases |layers| - i
  {
    if i == |layers| - 1 {
      OnTargetOutputStep(layers, connexions, step, targets);
    } else {
      OnTargetSweep(layers, connexions, step, targets, i + 1);
      OnTargetLayerStep(layers, connexions, step, targets, i);
    }
  }

  lemma OnTargetOutputStep(layers: seq<seq<real>>, connexions: seq<seq<real>>, step: real, targets: seq<real>)
    requires Ready(layers, connexions, targets)
    requires layers[|layers| - 1] == targets
    ensures SweepFrom(layers, connexions, step, targets, |layers| - 1) == Sweep(connexions, ZeroSignals(layers))
  {
    var last := |layers| - 1;
    var deltas := OutputDeltas(layers[last], targets);
    assert deltas == ZeroVector(|layers[last]|);
    AdjustedByZero(connexions[last - 1], step, deltas, layers[last - 1]);
    assert OutputStep(layers, connexions, step, targets) == connexions[last - 1];
    assert ZeroSignals(layers)[last := deltas] == ZeroSignals(layers);
    assert connexions[last - 1 := connexions[last - 1]] == connexions;
  }

  lemma OnTargetLayerStep(layers: seq<seq<real>>, connexions: seq<seq<real>>, step: real, targets: seq<real>, i: nat)
    requires Ready(layers, connexions, targets) && i < |layers| - 1
    requires SweepFrom(layers, connexions, step, targets, i + 1) == Sweep(connexions, ZeroSignals(layers))
    ensures SweepFrom(layers, connexions, step, targets, i) == Sweep(connexions, ZeroSignals(layers))
  {
    var zeros := ZeroSignals(layers);
    AdjustedByZero(connexions[i], step, zeros[i + 1], layers[i]);
    SignalsOfZero(layers[i], connexions[i], zeros[i + 1]);
    assert connexions[i := connexions[i]] == connexions;
    assert zeros[i := zeros[i]] == zeros;
  }

  lemma SignalsOfZero(acts: seq<real>, weights: seq<real>, deltas: seq<real>)
    requires |weights| == |acts| * |deltas|
    requires forall k :: 0 <= k < |deltas| ==> deltas[k] == 0.0
    ensures Signals(acts, weights, deltas) == ZeroVector(|acts|)
  {
    var signals := Signals(acts, weights, deltas);
    forall j | 0 <= j < |acts| ensures signals[j] == 0.0 {
      assert HiddenSignal(acts, weights, deltas, j, |deltas|) == signals[j];
    }
  }

  lemma AdjustedByZero(weights: seq<real>, step: real, deltas: seq<real>, acts: seq<real>)
    requires |weights| == |acts| * |deltas|
    requires forall k :: 0 <= k < |deltas| ==> deltas[k] == 0.0
    ensures Adjusted(weights, step, deltas, acts) == weights
  {
    var adjusted := Adjusted(weights, step, deltas, acts);
    forall idx | 0 <= idx < |weights| ensures adjusted[idx] == weights[idx] {
      SplitFlatIndex(idx, |deltas|, |acts|);
    }
  }

  /** If every output equals its target, `backprop` changes no weight at all. */
  lemma OnTargetChangesNothing(layers: seq<seq<real>>, connexions: seq<seq<real>>, step: real, targets: seq<real>)
    requires Ready(layers, connexions, targets)
    requires layers[|layers| - 1] == targets
    ensures Final(layers, connexions, step, targets).connexions == connexions
  {
    OnTargetSweep(layers, connexions, step, targets, 0);
  }
}
