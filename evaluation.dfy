/**
 * What `NeuralNetwork.train` and `NeuralNetwork.test` compute
 * (neuralnet.py:113-129): the weights after one pass of online training, and
 * the mean thresholded error of each output neuron over a knowledge base.
 */
module Evaluation {
  import opened Wrappers
  import opened Layout
  import opened Forward
  import opened Backward

  /** One entry of a knowledge base: the input values and the expected output values. */
  datatype Example = Example(input: seq<real>, target: seq<real>)

  /** `compute` and `backprop` accept the example: an input per input neuron, a target per output neuron. */
  predicate Fitting(sizes: seq<nat>, example: Example)
  {
    |sizes| >= 1 && |example.input| == sizes[0] && |example.target| == sizes[|sizes| - 1]
  }

  /** `test` gets through the example: an input per input neuron, and no more targets than output neurons. */
  predicate Testable(sizes: seq<nat>, example: Example)
  {
    |sizes| >= 1 && |example.input| == sizes[0] && |example.target| <= sizes[|sizes| - 1]
  }

  /**
   * `train` gets through the example: it fits, and `backprop` finds a
   * connexion matrix to update. With a single layer `backprop` reaches for
   * `connexions[-1]` of an empty list as soon as that layer has a neuron.
   */
  predicate Trainable(sizes: seq<nat>, example: Example)
  {
    Fitting(sizes, example) && (|sizes| >= 2 || sizes[0] == 0)
  }

  /** `Trainable` when `training`, `Testable` otherwise. */
  predicate Accepted(sizes: seq<nat>, example: Example, training: bool)
  {
    if training then Trainable(sizes, example) else Testable(sizes, example)
  }

  /** The index of the first example that `train` (or `test`) cannot get through, or `|kb|` when there is none. */
  function FirstRejected(sizes: seq<nat>, kb: seq<Example>, training: bool): (e: nat)
    ensures e <= |kb|
    ensures forall x :: 0 <= x < e ==> Accepted(sizes, kb[x], training)
    ensures e < |kb| ==> !Accepted(sizes, kb[e], training)
  {
    if kb == [] then 0
    else if !Accepted(sizes, kb[0], training) then 0
    else 1 + FirstRejected(sizes, kb[1..], training)
  }

  /** The number of examples `compute` has been run on when `train` (or `test`) stops. */
  function Computed(sizes: seq<nat>, kb: seq<Example>, training: bool): (n: nat)
    requires |sizes| >= 1
    ensures n <= |kb|
    ensures forall x :: 0 <= x < n ==> |kb[x].input| == sizes[0]
    ensures FirstRejected(sizes, kb, training) == |kb| ==> n == |kb|
  {
    var e := FirstRejected(sizes, kb, training);
    if e < |kb| && |kb[e].input| == sizes[0] then e + 1 else e
  }

  /**
   * The layers once `compute` has run on the inputs of the first `n`
   * examples: those of the last of them, or `before` when there is none.
   */
  function LayersAfter(before: seq<seq<real>>, sizes: seq<nat>, connexions: seq<seq<real>>, biases: seq<Option<seq<real>>>,
                       sigmoid: Squash, kb: seq<Example>, n: nat): seq<seq<real>>
    requires WeightsShaped(sizes, connexions) && BiasesShaped(sizes, biases)
    requires n <= |kb| && forall x :: 0 <= x < n ==> |kb[x].input| == sizes[0]
  {
    if n == 0 then before else ForwardPass(kb[n - 1].input, connexions, biases, sizes, sigmoid)
  }

  /** The message of the StatisticsError `statistics.mean` raises on an empty list. */
  const NoDataPoint := "mean requires at least one data point"

  /**
   * What `train` raises on an example it cannot get through: `compute`'s
   * ValueError, `backprop`'s ValueError, or the IndexError of a network
   * with a single, non-empty layer.
   */
  function TrainError(sizes: seq<nat>, example: Example): (error: Error)
    requires |sizes| >= 1
    ensures error.ValueError? <==> !Fitting(sizes, example)
  {
    if |example.input| != sizes[0] then ValueError(InputMismatch)
    else if |example.target| != sizes[|sizes| - 1] then ValueError(TargetMismatch)
    else IndexError(OutOfRange)
  }

  function Abs(x: real): (a: real)
    ensures a >= 0.0 && (a == x || a == -x)
  {
    if x < 0.0 then -x else x
  }

  /** The class `test` reads off an output: 0 below 0.5, otherwise 1 (neuralnet.py:126). */
  function Threshold(output: real): (c: real)
    ensures c == 0.0 || c == 1.0
    ensures c == 1.0 <==> output >= 0.5
  {
    if output < 0.5 then 0.0 else 1.0
  }

  /** `abs(expected - predicted)` (neuralnet.py:127): for a 0/1 target, 0 on a hit and 1 on a miss. */
  function Miss(target: real, output: real): (m: real)
    ensures m >= 0.0
    ensures target == 0.0 || target == 1.0 ==>
              (m == 0.0 <==> target == Threshold(output)) && (m == 1.0 <==> target != Threshold(output))
  {
    Abs(target - Threshold(output))
  }

  /** The sum of a list, added from the front. */
  function Sum(s: seq<real>): real
  {
    if s == [] then 0.0 else Sum(s[..|s| - 1]) + s[|s| - 1]
  }

  /** `statistics.mean`: the sum divided by the count. */
  function Mean(s: seq<real>): real
    requires |s| > 0
  {
    Sum(s) / (|s| as real)
  }

  lemma {:induction false} SumBounds(s: seq<real>)
    requires forall x :: 0 <= x < |s| ==> 0.0 <= s[x] <= 1.0
    ensures 0.0 <= Sum(s) <= |s| as real
  {
    if s != [] {
      SumBounds(s[..|s| - 1]);
    }
  }

  /** The mean of values between 0 and 1 lies between 0 and 1. */
  lemma MeanInUnitInterval(s: seq<real>)
    requires |s| > 0
    requires forall x :: 0 <= x < |s| ==> 0.0 <= s[x] <= 1.0
    ensures 0.0 <= Mean(s) <= 1.0
  {
    SumBounds(s);
    var n := |s| as real;
    assert Mean(s) * n == Sum(s);
  }

  /** The output layer `compute` produces for every example of the knowledge base. */
  function Outputs(sizes: seq<nat>, connexions: seq<seq<real>>, biases: seq<Option<seq<real>>>,
                   sigmoid: Squash, kb: seq<Example>): (outputs: seq<seq<real>>)
    requires WeightsShaped(sizes, connexions) && BiasesShaped(sizes, biases)
    requires forall e :: 0 <= e < |kb| ==> |kb[e].input| == sizes[0]
    ensures |outputs| == |kb|
    ensures forall e :: 0 <= e < |kb| ==> |outputs[e]| == sizes[|sizes| - 1]
    decreases |kb|
  {
    if kb == [] then []
    else Outputs(sizes, connexions, biases, sigmoid, kb[..|kb| - 1])
         + [ForwardPass(kb[|kb| - 1].input, connexions, biases, sizes, sigmoid)[|sizes| - 1]]
  }

  /** Every expected value is a class label, 0 or 1. */
  predicate ZeroOneTargets(kb: seq<Example>)
  {
    forall e, i :: 0 <= e < |kb| && 0 <= i < |kb[e].target| ==> kb[e].target[i] == 0.0 || kb[e].target[i] == 1.0
  }

  /**
   * The list `errors[i]` that `test` fills for output neuron `i`
   * (neuralnet.py:124-127): one miss per example that has an `i`-th target, in order.
   */
  function Misses(kb: seq<Example>, outputs: seq<seq<real>>, i: nat): (misses: seq<real>)
    requires |outputs| == |kb|
    requires forall e :: 0 <= e < |kb| ==> i < |outputs[e]|
    ensures |misses| <= |kb|
    decreases |kb|
  {
    if kb == [] then []
    else
      var before := Misses(kb[..|kb| - 1], outputs[..|kb| - 1], i);
      var example := kb[|kb| - 1];
      if i < |example.target| then before + [Miss(example.target[i], outputs[|kb| - 1][i])] else before
  }

  /** The lists `errors` of `test` (neuralnet.py:122-127), one per output neuron. */
  function MissLists(kb: seq<Example>, outputs: seq<seq<real>>, width: nat): (lists: seq<seq<real>>)
    requires |outputs| == |kb|
    requires forall e :: 0 <= e < |kb| ==> width <= |outputs[e]|
    ensures |lists| == width
  {
    seq(width, i requires 0 <= i < width => Misses(kb, outputs, i))
  }

  /** `[mean(l) for l in lists]` (neuralnet.py:128): `statistics.mean` raises on the first empty list. */
  function MeanMisses(lists: seq<seq<real>>): (r: Result<seq<real>>)
    ensures r.Err? <==> exists i :: 0 <= i < |lists| && lists[i] == []
    ensures r.Err? ==> r.error == StatisticsError(NoDataPoint)
    ensures r.Ok? ==> |r.value| == |lists| && forall i :: 0 <= i < |lists| ==> r.value[i] == Mean(lists[i])
  {
    if exists i :: 0 <= i < |lists| && lists[i] == [] then Err(StatisticsError(NoDataPoint))
    else Ok(seq(|lists|, i requires 0 <= i < |lists| => Mean(lists[i])))
  }

  /**
   * What `test(kb)` returns or raises (neuralnet.py:120-129): the first
   * example it cannot get through raises (`compute` a ValueError, a surplus
   * target an IndexError), an output neuron without any target makes `mean`
   * raise, and otherwise the result is the mean miss of each output neuron.
   */
  function TestOutcome(sizes: seq<nat>, connexions: seq<seq<real>>, biases: seq<Option<seq<real>>>,
                       sigmoid: Squash, kb: seq<Example>): (r: Result<seq<real>>)
    requires WeightsShaped(sizes, connexions) && BiasesShaped(sizes, biases)
    ensures r.Ok? ==> |r.value| == sizes[|sizes| - 1]
  {
    var e := FirstRejected(sizes, kb, false);
    if e < |kb| then
      Err(if |kb[e].input| != sizes[0] then ValueError(InputMismatch) else IndexError(OutOfRange))
    else
      MeanMisses(MissLists(kb, Outputs(sizes, connexions, biases, sigmoid, kb), sizes[|sizes| - 1]))
  }

  /** `test` stops at the first example it cannot get through, with that example's exception. */
  lemma TestStopsAt(sizes: seq<nat>, connexions: seq<seq<real>>, biases: seq<Option<seq<real>>>,
                    sigmoid: Squash, kb: seq<Example>, e: nat)
    requires WeightsShaped(sizes, connexions) && BiasesShaped(sizes, biases)
    requires e < |kb| && !Testable(sizes, kb[e]) && forall x :: 0 <= x < e ==> Testable(sizes, kb[x])
    ensures TestOutcome(sizes, connexions, biases, sigmoid, kb)
         == Err(if |kb[e].input| != sizes[0] then ValueError(InputMismatch) else IndexError(OutOfRange))
    ensures Computed(sizes, kb, false) == if |kb[e].input| != sizes[0] then e else e + 1
  {
    assert FirstRejected(sizes, kb, false) == e;
  }

  /** The outputs of one more example are those of the examples before it, followed by its own. */
  lemma OutputsGrow(sizes: seq<nat>, connexions: seq<seq<real>>, biases: seq<Option<seq<real>>>,
                    sigmoid: Squash, kb: seq<Example>, e: nat)
    requires WeightsShaped(sizes, connexions) && BiasesShaped(sizes, biases)
    requires e < |kb| && forall x :: 0 <= x <= e ==> |kb[x].input| == sizes[0]
    ensures Outputs(sizes, connexions, biases, sigmoid, kb[..e + 1])
         == Outputs(sizes, connexions, biases, sigmoid, kb[..e])
            + [ForwardPass(kb[e].input, connexions, biases, sizes, sigmoid)[|sizes| - 1]]
  {
    assert kb[..e + 1][..e] == kb[..e];
  }

  /** Testing one more example appends its miss to the list of every output neuron it has a target for. */
  lemma MissListsGrow(kb: seq<Example>, outputs: seq<seq<real>>, example: Example, output: seq<real>, width: nat)
    requires |outputs| == |kb| && forall e :: 0 <= e < |kb| ==> width <= |outputs[e]|
    requires width <= |output|
    ensures forall i :: 0 <= i < width ==>
              MissLists(kb + [example], outputs + [output], width)[i]
              == MissLists(kb, outputs, width)[i] + if i < |example.target| then [Miss(example.target[i], output[i])] else []
  {
    assert (kb + [example])[..|kb|] == kb;
    assert (outputs + [output])[..|kb|] == outputs;
  }

  /** The lists `errors` of `test` once it has got through the first `e` examples. */
  function TestedSoFar(sizes: seq<nat>, connexions: seq<seq<real>>, biases: seq<Option<seq<real>>>,
                       sigmoid: Squash, kb: seq<Example>, e: nat): (errors: seq<seq<real>>)
    requires WeightsShaped(sizes, connexions) && BiasesShaped(sizes, biases)
    requires e <= |kb| && forall x :: 0 <= x < e ==> Testable(sizes, kb[x])
    ensures |errors| == sizes[|sizes| - 1]
  {
    var done := kb[..e];
    assert forall x :: 0 <= x < |done| ==> Testable(sizes, done[x]);
    MissLists(done, Outputs(sizes, connexions, biases, sigmoid, done), sizes[|sizes| - 1])
  }

  /** The lists of `test` after one more example are those before it, with that example's misses appended. */
  lemma TestedOneMore(sizes: seq<nat>, connexions: seq<seq<real>>, biases: seq<Option<seq<real>>>,
                      sigmoid: Squash, kb: seq<Example>, e: nat, recorded: seq<seq<real>>)
    requires WeightsShaped(sizes, connexions) && BiasesShaped(sizes, biases)
    requires e < |kb| && Testable(sizes, kb[e]) && forall x :: 0 <= x < e ==> Testable(sizes, kb[x])
    requires |recorded| == sizes[|sizes| - 1]
    requires forall i :: 0 <= i < |recorded| ==>
               recorded[i] == TestedSoFar(sizes, connexions, biases, sigmoid, kb, e)[i]
                              + if i < |kb[e].target|
                                then [Miss(kb[e].target[i], ForwardPass(kb[e].input, connexions, biases, sizes, sigmoid)[|sizes| - 1][i])]
                                else []
    ensures recorded == TestedSoFar(sizes, connexions, biases, sigmoid, kb, e + 1)
  {
    var width := sizes[|sizes| - 1];
    var output := ForwardPass(kb[e].input, connexions, biases, sizes, sigmoid)[|sizes| - 1];
    var outputs := Outputs(sizes, connexions, biases, sigmoid, kb[..e]);
    OutputsGrow(sizes, connexions, biases, sigmoid, kb, e);
    MissListsGrow(kb[..e], outputs, kb[e], output, width);
    assert kb[..e + 1] == kb[..e] + [kb[e]];
  }

  /** Once `test` has got through every example, its result is the mean of each of its lists. */
  lemma TestGotThrough(sizes: seq<nat>, connexions: seq<seq<real>>, biases: seq<Option<seq<real>>>,
                       sigmoid: Squash, kb: seq<Example>)
    requires WeightsShaped(sizes, connexions) && BiasesShaped(sizes, biases)
    requires forall x :: 0 <= x < |kb| ==> Testable(sizes, kb[x])
    ensures TestOutcome(sizes, connexions, biases, sigmoid, kb) == MeanMisses(TestedSoFar(sizes, connexions, biases, sigmoid, kb, |kb|))
    ensures Computed(sizes, kb, false) == |kb|
  {
    assert kb[..|kb|] == kb;
    assert FirstRejected(sizes, kb, false) == |kb|;
  }

  lemma {:induction false} MissesInUnitInterval(kb: seq<Example>, outputs: seq<seq<real>>, i: nat)
    requires |outputs| == |kb|
    requires forall e :: 0 <= e < |kb| ==> i < |outputs[e]|
    requires ZeroOneTargets(kb)
    ensures forall x :: 0 <= x < |Misses(kb, outputs, i)| ==> 0.0 <= Misses(kb, outputs, i)[x] <= 1.0
    decreases |kb|
  {
    if kb != [] {
      MissesInUnitInterval(kb[..|kb| - 1], outputs[..|kb| - 1], i);
    }
  }

  /** With 0/1 targets every error rate `test` returns lies between 0 (always right) and 1 (always wrong). */
  lemma ErrorRatesInUnitInterval(sizes: seq<nat>, connexions: seq<seq<real>>, biases: seq<Option<seq<real>>>,
                                 sigmoid: Squash, kb: seq<Example>)
    requires WeightsShaped(sizes, connexions) && BiasesShaped(sizes, biases)
    requires ZeroOneTargets(kb)
    requires TestOutcome(sizes, connexions, biases, sigmoid, kb).Ok?
    ensures forall i :: 0 <= i < sizes[|sizes| - 1] ==> 0.0 <= TestOutcome(sizes, connexions, biases, sigmoid, kb).value[i] <= 1.0
  {
    var outputs := Outputs(sizes, connexions, biases, sigmoid, kb);
    var lists := MissLists(kb, outputs, sizes[|sizes| - 1]);
    forall i | 0 <= i < sizes[|sizes| - 1]
      ensures 0.0 <= TestOutcome(sizes, connexions, biases, sigmoid, kb).value[i] <= 1.0
    {
      MissesInUnitInterval(kb, outputs, i);
      assert lists[i] == Misses(kb, outputs, i);
      MeanInUnitInterval(lists[i]);
    }
  }

  lemma {:induction false} MissesOfFullTargets(kb: seq<Example>, outputs: seq<seq<real>>, i: nat)
    requires |outputs| == |kb|
    requires forall e :: 0 <= e < |kb| ==> i < |outputs[e]| && i < |kb[e].target|
    ensures |Misses(kb, outputs, i)| == |kb|
    decreases |kb|
  {
    if kb != [] {
      MissesOfFullTargets(kb[..|kb| - 1], outputs[..|kb| - 1], i);
    }
  }

  /** A non-empty knowledge base whose examples all fit the network is tested without an exception. */
  lemma FittingExamplesPassTest(sizes: seq<nat>, connexions: seq<seq<real>>, biases: seq<Option<seq<real>>>,
                                sigmoid: Squash, kb: seq<Example>)
    requires WeightsShaped(sizes, connexions) && BiasesShaped(sizes, biases)
    requires |kb| > 0 && forall e :: 0 <= e < |kb| ==> Fitting(sizes, kb[e])
    ensures TestOutcome(sizes, connexions, biases, sigmoid, kb).Ok?
  {
    var outputs := Outputs(sizes, connexions, biases, sigmoid, kb);
    var lists := MissLists(kb, outputs, sizes[|sizes| - 1]);
    forall i | 0 <= i < sizes[|sizes| - 1] ensures lists[i] != [] {
      MissesOfFullTargets(kb, outputs, i);
    }
  }

  /**
   * The connexions after one step of `train` (neuralnet.py:115-116):
   * `compute` on the input, then `backprop` toward the target. A network
   * with a single layer has no connexion to update.
   */
  function TrainStep(sizes: seq<nat>, biases: seq<Option<seq<real>>>, sigmoid: Squash, step: real,
                     connexions: seq<seq<real>>, example: Example): (after: seq<seq<real>>)
    requires WeightsShaped(sizes, connexions) && BiasesShaped(sizes, biases)
    requires Trainable(sizes, example)
    ensures WeightsShaped(sizes, after)
  {
    if |sizes| == 1 then connexions
    else
      var layers := ForwardPass(example.input, connexions, biases, sizes, sigmoid);
      Final(layers, connexions, step, example.target).connexions
  }

  /** The connexions after `train` has gone once over the examples of `kb`, in order (neuralnet.py:114-116). */
  function Trained(sizes: seq<nat>, biases: seq<Option<seq<real>>>, sigmoid: Squash, step: real,
                   connexions: seq<seq<real>>, kb: seq<Example>): (after: seq<seq<real>>)
    requires WeightsShaped(sizes, connexions) && BiasesShaped(sizes, biases)
    requires forall e :: 0 <= e < |kb| ==> Trainable(sizes, kb[e])
    ensures WeightsShaped(sizes, after)
    decreases |kb|
  {
    if kb == [] then connexions
    else
      var before := Trained(sizes, biases, sigmoid, step, connexions, kb[..|kb| - 1]);
      TrainStep(sizes, biases, sigmoid, step, before, kb[|kb| - 1])
  }

  /** The connexions once `train` has got through the first `e` examples. */
  function TrainedSoFar(sizes: seq<nat>, biases: seq<Option<seq<real>>>, sigmoid: Squash, step: real,
                        connexions: seq<seq<real>>, kb: seq<Example>, e: int): (after: seq<seq<real>>)
    requires WeightsShaped(sizes, connexions) && BiasesShaped(sizes, biases)
    requires 0 <= e <= |kb| && forall x :: 0 <= x < e ==> Trainable(sizes, kb[x])
    ensures WeightsShaped(sizes, after)
  {
    var done := kb[..e];
    assert forall x :: 0 <= x < |done| ==> Trainable(sizes, done[x]);
    Trained(sizes, biases, sigmoid, step, connexions, done)
  }

  /** Getting through one more example is one more `TrainStep`. */
  lemma TrainedOneMore(sizes: seq<nat>, biases: seq<Option<seq<real>>>, sigmoid: Squash, step: real,
                       connexions: seq<seq<real>>, kb: seq<Example>, e: nat)
    requires WeightsShaped(sizes, connexions) && BiasesShaped(sizes, biases)
    requires e < |kb| && Trainable(sizes, kb[e]) && forall x :: 0 <= x < e ==> Trainable(sizes, kb[x])
    ensures TrainedSoFar(sizes, biases, sigmoid, step, connexions, kb, e + 1)
         == TrainStep(sizes, biases, sigmoid, step, TrainedSoFar(sizes, biases, sigmoid, step, connexions, kb, e), kb[e])
  {
    assert kb[..e + 1][..e] == kb[..e];
  }

  /**
   * The layers once `train` has run `compute` on the inputs of the first `n`
   * examples: the forward pass of the last of them through the connexions
   * trained on the examples before it, or `before` when there is none.
   */
  function TrainLayersAfter(before: seq<seq<real>>, sizes: seq<nat>, biases: seq<Option<seq<real>>>, sigmoid: Squash,
                            step: real, connexions: seq<seq<real>>, kb: seq<Example>, n: nat): seq<seq<real>>
    requires WeightsShaped(sizes, connexions) && BiasesShaped(sizes, biases)
    requires n <= |kb| && forall x :: 0 <= x < n ==> |kb[x].input| == sizes[0]
    requires forall x :: 0 <= x < n - 1 ==> Trainable(sizes, kb[x])
  {
    if n == 0 then before
    else ForwardPass(kb[n - 1].input, TrainedSoFar(sizes, biases, sigmoid, step, connexions, kb, n - 1), biases, sizes, sigmoid)
  }

  /** `train` stops at the first example it cannot get through, after running `compute` on it if its input fits. */
  lemma TrainStopsAt(sizes: seq<nat>, kb: seq<Example>, e: nat)
    requires |sizes| >= 1
    requires e < |kb| && !Trainable(sizes, kb[e]) && forall x :: 0 <= x < e ==> Trainable(sizes, kb[x])
    ensures FirstRejected(sizes, kb, true) == e
    ensures Computed(sizes, kb, true) == if |kb[e].input| != sizes[0] then e else e + 1
  {
  }

  /** When `train` gets through every example it has run `compute` on all of them. */
  lemma TrainGotThrough(sizes: seq<nat>, kb: seq<Example>)
    requires |sizes| >= 1
    requires forall x :: 0 <= x < |kb| ==> Trainable(sizes, kb[x])
    ensures FirstRejected(sizes, kb, true) == |kb| && Computed(sizes, kb, true) == |kb|
  {
  }

  /** Examples that `train` gets through, followed by more such examples, are all got through. */
  lemma ConcatTrainable(sizes: seq<nat>, kb: seq<Example>, kb': seq<Example>)
    requires forall e :: 0 <= e < |kb| ==> Trainable(sizes, kb[e])
    requires forall e :: 0 <= e < |kb'| ==> Trainable(sizes, kb'[e])
    ensures forall e :: 0 <= e < |kb + kb'| ==> Trainable(sizes, (kb + kb')[e])
  {
    forall e | 0 <= e < |kb + kb'| ensures Trainable(sizes, (kb + kb')[e]) {
      if e >= |kb| { assert (kb + kb')[e] == kb'[e - |kb|]; }
    }
  }

  /** Training on two knowledge bases one after the other is training on their concatenation. */
  lemma {:induction false} TrainedConcat(sizes: seq<nat>, biases: seq<Option<seq<real>>>, sigmoid: Squash, step: real,
                                         connexions: seq<seq<real>>, kb: seq<Example>, kb': seq<Example>)
    requires WeightsShaped(sizes, connexions) && BiasesShaped(sizes, biases)
    requires forall e :: 0 <= e < |kb| ==> Trainable(sizes, kb[e])
    requires forall e :: 0 <= e < |kb'| ==> Trainable(sizes, kb'[e])
    ensures forall e :: 0 <= e < |kb + kb'| ==> Trainable(sizes, (kb + kb')[e])
    ensures Trained(sizes, biases, sigmoid, step, connexions, kb + kb')
         == Trained(sizes, biases, sigmoid, step, Trained(sizes, biases, sigmoid, step, connexions, kb), kb')
    decreases |kb'|
  {
    ConcatTrainable(sizes, kb, kb');
    if kb' == [] {
      assert kb + kb' == kb;
    } else {
      var all := kb + kb';
      var front := kb'[..|kb'| - 1];
      assert all[..|all| - 1] == kb + front;
      assert all[|all| - 1] == kb'[|kb'| - 1];
      TrainedConcat(sizes, biases, sigmoid, step, connexions, kb, front);
    }
  }
}
