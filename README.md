# Hanabi card judge: neural network, deck and training examples

This project models three pieces of a Hanabi-playing program:

- **The neural network** (`neuralnet.py`). It is a fully connected feed-forward network.
  - Every layer holds one activation per neuron.
  - Each pair of adjacent layers has one flattened connexion matrix.
  - Every layer except the input has one bias per neuron.
  - `compute` runs a sigmoid forward pass. `backprop` updates the weights toward a target.
  - `train` runs `compute` then `backprop` over a knowledge base.
  - `test` returns the mean thresholded miss of each output neuron.
- **The deck** (`deck.py`). It is a list of 50 cards that can be shuffled, sorted, indexed and drawn from the end.
- **The training-example generators** (`net_31_31_1.py`). They build a 25-slot graveyard of 0/1 flags, followed by the binary code of a card.

Modules:

- `Wrappers`: `Option`, `Result`, the Python exceptions, and Python list indexing (`Slot`).
- `Layout`: the flat weight index, the shapes of the buffers, and how the constructor draws the initial values.
- `Forward`: the forward pass, as functions.
- `Backward`: backpropagation, as functions, and what it does to weights and error signals.
- `Evaluation`: what `test` and `train` compute over a knowledge base, including where they stop with an exception.
- `NeuralNet`: the class `NeuralNetwork`, whose methods update `layers` and `connexions` in place. The loops of the source are loops here, each proved against the functions above.
- `Deck`: the class `Deck`, over a `seq<Card>` field, and the functions that specify its operations.
- `TrainingData`: the two generators, as methods. `GenerateIndispensableCard` keeps the loop of net_31_31_1.py:30-31. The only iteration of `generateDispensableCard`, the comprehension of random flags at net_31_31_1.py:16, is the `bits` parameter.

Sources of nondeterminism and code outside the model are parameters:

- **`random.random()`**: a stream `Draws` of values in [0, 1), consumed in source order.
- **`random.shuffle`**: the index it picks at each position is a `Picks` sequence.
- **Generators**: `random.randint(0, 1)`, `int(card)`, `Suit.toInt(...)` and `card.toBinary()` are arguments.
- **`sigmoid`**: an arbitrary function into (0, 1).
- **Card ordering**: an integer rank.

The model follows the code as written:

- The hidden error signal is a running `max` from 0 (neuralnet.py:108).
- One learning step serves every layer (neuralnet.py:26).
- Initial values lie in [-10, 10). The comments at neuralnet.py:33 and :42 say [-10, 10], but `random.random() * 20 - 10` at :36 and :45 never reaches 10.
- The last connexion matrix is updated twice. The comments at neuralnet.py:83 and :94-95 suggest each matrix is handled once, but the loop at :95 starts at the matrix the output step at :84-92 already updated.
- Biases are never updated.
- A hidden signal reads back the weight that was just updated (neuralnet.py:102 and :106).

## Model

| member | source | states |
|---|---|---|
| Wrappers.Slot | deck.py:51-52 | A Python list index denotes a position exactly when `-len <= key < len`; a negative key counts back from the end |
| Layout.FlatIndex | neuralnet.py:37-39 | The weight from `j` to `k` sits at `j*width+k`; row and column come back by `/` and `%` |
| Layout.SplitFlatIndex | neuralnet.py:37-39 | Every position of a flattened matrix is the flat index of its own row and column |
| Layout.FlatIndexBounds | neuralnet.py:35-39 | Every (row, column) pair of a matrix has its flat index inside the matrix |
| Layout.SameEntries | neuralnet.py:35-39 | Two matrices that agree at every (row, column) are equal |
| Layout.MatrixSize | neuralnet.py:35 | The number of weights of matrix `i`: `len(layers[i]) * len(layers[i + 1])` |
| Layout.WeightDraws | neuralnet.py:33-36 | Matrix `i` starts after the weights of every earlier matrix: the sum of `n_x*n_(x+1)` for `x < i` |
| Layout.BiasDraws | neuralnet.py:41-45 | The biases of layer `i` start after every weight and after the biases of layers 1 to `i-1` |
| Layout.InitialValue | neuralnet.py:36 | `random()*20-10` lies in [-10, 10) |
| Layout.ZeroLayers | neuralnet.py:28-31 | One list per layer, of the layer's size, all zeroes |
| Layout.InitialConnexions | neuralnet.py:33-36 | Matrix `i` has `len(layers[i])*len(layers[i+1])` weights |
| Layout.InitialBiases | neuralnet.py:41-45 | No biases for the input layer, and one per neuron for every other layer |
| Layout.InitialValues | neuralnet.py:35-36 | `count` successive values `random()*20-10`, one per draw from `first` on |
| Layout.InitialMatrices | neuralnet.py:33-36 | The first `count` matrices, each of `n_i*n_(i+1)` weights |
| Layout.InitialBiasLists | neuralnet.py:41-45 | The bias lists of the first `count` layers: `None` for the input, then one per neuron |
| Layout.InitialValueAt | neuralnet.py:35-36 | Value `x` of a run of initial values comes from draw `first + x` |
| Layout.InitialMatricesAt | neuralnet.py:33-36 | Matrix `i` takes its draws from `WeightDraws(sizes, i)` on |
| Layout.InitialBiasListsAt | neuralnet.py:42-45 | The biases of layer `i` take their draws from `BiasDraws(sizes, i)` on |
| Layout.InitialValuesInRange | neuralnet.py:33-45 | Every initial weight and bias lies in [-10, 10) |
| Layout.WeightDrawsIncrease | neuralnet.py:33-36 | A later matrix draws after every draw of an earlier one |
| Layout.BiasDrawsIncrease | neuralnet.py:42-45 | Later bias lists draw after earlier ones, and all of them after every weight |
| Layout.BiasDrawsAfterWeights | neuralnet.py:33-45 | Every bias is drawn after every weight |
| Layout.DrawsAreDistinct | neuralnet.py:33-45 | No two weights, no two biases and no weight and bias share a call of `random.random()` |
| Forward.WeightedSum | neuralnet.py:60-62 | `netj` after `count` steps: the products `prev[k] * weights[k*width+j]` for `k < count`, added in order from 0 |
| Forward.NextLayer | neuralnet.py:59-64 | The next layer has one activation per bias, each strictly between 0 and 1 |
| Forward.Activations | neuralnet.py:56-64 | Layer 0 is the input, every layer has its size, and every later activation lies in (0, 1) |
| Forward.ForwardPass | neuralnet.py:53-65 | The whole forward pass: the input first, the sizes kept, later activations in (0, 1) |
| Forward.ForwardStep | neuralnet.py:58-64 | Each layer of the forward pass is computed from the layer before it alone |
| Forward.ActivationsLast | neuralnet.py:58-64 | The last computed layer is the next layer of the one before it |
| Forward.ActivationsPrefix | neuralnet.py:58-64 | Computing fewer layers gives a prefix of computing more |
| Backward.Max | neuralnet.py:108 | `max(a, b)` is at least both arguments and equals one of them |
| Backward.ZeroVector | neuralnet.py:80 | `n` zeroes |
| Backward.ZeroSignals | neuralnet.py:78-81 | The error-signal buffer has one zero per neuron of every layer |
| Backward.OutputDeltas | neuralnet.py:84-87 | `dk` is 0 on target; for an output in (0, 1) it has the sign of `Tk-Ok` |
| Backward.Updated | neuralnet.py:90-91 | The updated weight `Wold + step*dk*Oj` |
| Backward.Adjusted | neuralnet.py:88-102 | A matrix after `W += step*dk*Oj` at every position `j*width+k`; its length is kept |
| Backward.AdjustedAt | neuralnet.py:88-92 | The weight from `j` to `k` becomes `W + step*dk*Oj` |
| Backward.AdjustedEntries | neuralnet.py:88-92 | The update rule holds for every pair of neurons at once |
| Backward.Share | neuralnet.py:105-107 | The candidate signal `dh = oh*(1-oh)*Whz*dk` |
| Backward.Contribution | neuralnet.py:105-107 | The candidate signal of source `j` for destination `k`, with `Whz` read at `j*width+k` |
| Backward.HiddenSignal | neuralnet.py:97-108 | The hidden signal is at least 0 and at least every contribution so far, and equals 0 or one of them |
| Backward.SignalStep | neuralnet.py:99-108 | Updating one weight and reading it back extends the running maximum by one destination |
| Backward.SameRowSameSignal | neuralnet.py:104-108 | A neuron's error signal reads only the weights out of that neuron |
| Backward.Signals | neuralnet.py:96-108 | The signals of a layer are one per neuron, all at least 0 |
| Backward.OutputStep | neuralnet.py:84-92 | The output step keeps the shape of the last matrix |
| Backward.SweepFrom | neuralnet.py:95-108 | Every partial sweep keeps the shapes of the connexions and of the signal buffer |
| Backward.Final | neuralnet.py:83-108 | The final state of `backprop` keeps every shape |
| Backward.Untouched | neuralnet.py:95-108 | Matrices and signals below the current one still hold their initial values |
| Backward.Settled | neuralnet.py:95-108 | Once a matrix and its signals are computed, later passes leave them alone |
| Backward.LaterStepKeeps | neuralnet.py:95-108 | Processing matrix `i` writes only matrix `i` and the signals of layer `i` |
| Backward.LastMatrixUpdatedTwice | neuralnet.py:84-102 | A last-matrix weight is updated by the output step and then once more with the same `dk`; the output signals stay `dk` |
| Backward.HiddenWeightRule | neuralnet.py:95-102 | Every other weight is updated exactly once, with the final signal of its destination |
| Backward.HiddenSignalRule | neuralnet.py:97-108 | A non-output signal is the running maximum of contributions, computed from the updated weights |
| Backward.HiddenSignalsNonNegative | neuralnet.py:78-108 | Every non-output error signal is at least 0 |
| Backward.InactiveSourceKeepsWeight | neuralnet.py:88-102 | A weight whose source activation is 0 does not change |
| Backward.HiddenWeightsNeverDecrease | neuralnet.py:99-108 | With `step >= 0` and a non-negative source activation, a weight that is not in the last matrix never decreases |
| Backward.OutputWeightFollowsTarget | neuralnet.py:84-92 | With a positive step and an active source, an output weight moves in the direction of `Tk-Ok`, and stays put on target |
| Backward.OnTargetSweep | neuralnet.py:84-108 | When the outputs equal the targets, every partial sweep keeps the weights and all-zero signals |
| Backward.OnTargetOutputStep | neuralnet.py:84-92 | On target, the output step changes nothing |
| Backward.OnTargetLayerStep | neuralnet.py:95-108 | On target, each later pass changes nothing |
| Backward.SignalsOfZero | neuralnet.py:104-108 | Zero destination signals give zero signals |
| Backward.AdjustedByZero | neuralnet.py:99-102 | Zero signals change no weight |
| Backward.OnTargetChangesNothing | neuralnet.py:67-108 | If every output equals its target, `backprop` changes no weight |
| Evaluation.Fitting | neuralnet.py:53-76 | `compute` raises no ValueError (input length is `nInputs`, line 53) and neither does `backprop` (target length is the output width, line 75) |
| Evaluation.Testable | neuralnet.py:53-126 | `test` gets through the example: the input fits (line 53), and every target has an output neuron for `getOutput()[i]` (line 126) |
| Evaluation.Trainable | neuralnet.py:53-108 | `train` gets through the example: it fits, and the network has two layers or an empty single layer, so `connexions[len(layers)-2]` at line 90 exists or is never read |
| Evaluation.FirstRejected | neuralnet.py:113-127 | The first example that `train` or `test` cannot get through: every earlier one is accepted and this one is not |
| Evaluation.Computed | neuralnet.py:114-124 | How many examples `compute` has run on when the loop stops: all of them when none is rejected |
| Evaluation.LayersAfter | neuralnet.py:56-64 | The layers once `compute` (lines 56-64) has run on the inputs of the first `n` examples, as the loop of `test` does at lines 123-124: the forward pass of the `n`-th input, or the earlier layers when `n` is 0 |
| Evaluation.TrainError | neuralnet.py:53-108 | A ValueError exactly when the example does not fit the network; otherwise the IndexError of a one-layer network |
| Evaluation.Abs | neuralnet.py:127 | Python's `abs`: at least 0, and equal to `x` or `-x` |
| Evaluation.Threshold | neuralnet.py:126 | The class is 1 exactly when the output is at least 0.5, and 0 otherwise |
| Evaluation.Miss | neuralnet.py:127 | For a 0/1 target the miss is 0 on a correct class and 1 on a wrong one |
| Evaluation.Sum | neuralnet.py:128 | The sum of a list, added from the front |
| Evaluation.Mean | neuralnet.py:128 | `statistics.mean` of a non-empty list: its sum divided by its length |
| Evaluation.SumBounds | neuralnet.py:128 | A sum of values in [0, 1] lies between 0 and the count |
| Evaluation.MeanInUnitInterval | neuralnet.py:128 | A mean of values in [0, 1] lies in [0, 1] |
| Evaluation.Outputs | neuralnet.py:123-124 | One output layer per example, each the width of the output layer |
| Evaluation.Misses | neuralnet.py:125-127 | An output neuron's list holds at most one miss per example |
| Evaluation.MissLists | neuralnet.py:122-127 | One list per output neuron |
| Evaluation.MeanMisses | neuralnet.py:128 | StatisticsError exactly when some list is empty; otherwise the mean of each list |
| Evaluation.TestOutcome | neuralnet.py:120-129 | A result of `test` has one error rate per output neuron |
| Evaluation.TestStopsAt | neuralnet.py:123-127 | `test` raises the first rejected example's exception: a ValueError for a bad input, an IndexError for a surplus target |
| Evaluation.OutputsGrow | neuralnet.py:123-124 | One more example appends its output layer |
| Evaluation.MissListsGrow | neuralnet.py:125-127 | One more example appends its miss to the list of every output neuron it has a target for |
| Evaluation.TestedSoFar | neuralnet.py:122-127 | The lists partway through `test` are one per output neuron |
| Evaluation.TestedOneMore | neuralnet.py:123-127 | Recording one more example's misses gives the lists after one more example |
| Evaluation.TestGotThrough | neuralnet.py:123-129 | When every example is accepted, `test` returns the means of its lists, and `compute` ran on every example |
| Evaluation.MissesInUnitInterval | neuralnet.py:125-127 | With 0/1 targets every miss lies in [0, 1] |
| Evaluation.ErrorRatesInUnitInterval | neuralnet.py:120-129 | With 0/1 targets every error rate `test` returns lies in [0, 1] |
| Evaluation.MissesOfFullTargets | neuralnet.py:125-127 | An output neuron that every example targets gets one miss per example |
| Evaluation.FittingExamplesPassTest | neuralnet.py:120-129 | A non-empty knowledge base of fitting examples is tested without an exception |
| Evaluation.TrainStep | neuralnet.py:115-116 | One `compute` and `backprop` keeps the shape of the connexions |
| Evaluation.Trained | neuralnet.py:114-116 | Training over a knowledge base keeps the shape of the connexions |
| Evaluation.TrainedSoFar | neuralnet.py:114-116 | The connexions partway through `train` keep their shape |
| Evaluation.TrainedOneMore | neuralnet.py:114-116 | Getting through one more example is one more training step |
| Evaluation.TrainLayersAfter | neuralnet.py:114-116 | The layers once `train` has run `compute` on the first `n` inputs: the forward pass of the `n`-th input through the connexions trained on the examples before it, or the earlier layers when `n` is 0 |
| Evaluation.TrainStopsAt | neuralnet.py:114-116 | `train` stops at the first rejected example, after `compute` on it if its input fits |
| Evaluation.TrainGotThrough | neuralnet.py:114-116 | When every example is trainable, `train` gets through all of them |
| Evaluation.ConcatTrainable | neuralnet.py:114-116 | Trainable examples followed by trainable examples are all trainable |
| Evaluation.TrainedConcat | neuralnet.py:113-116 | Training on two knowledge bases one after the other is training on their concatenation |
| NeuralNet.RawValue | neuralnet.py:60-62 | The loop computes the weighted sum `netj` over the whole previous layer |
| NeuralNet.ComputeLayer | neuralnet.py:59-64 | The loop over a layer's neurons yields exactly `NextLayer` |
| NeuralNet.FillLayers | neuralnet.py:58-64 | The loop over the layers yields exactly the forward pass of layer 0 |
| NeuralNet.AdjustColumn | neuralnet.py:88-92 | Every weight into output neuron `k` moves by `step*dk*Oj`, and no other weight moves |
| NeuralNet.AdjustOutput | neuralnet.py:84-92 | The output loop yields the output deltas and the adjusted last matrix |
| NeuralNet.RowUpdatedStep | neuralnet.py:99-102 | One more weight update extends the updated part of a row by one destination |
| NeuralNet.AdjustRow | neuralnet.py:97-108 | Only the weights out of `j` move, and `j`'s signal becomes the running maximum over the updated weights |
| NeuralNet.AdjustLayer | neuralnet.py:96-108 | One pass over a matrix yields the adjusted matrix and the layer's signals |
| NeuralNet.ZeroedSignals | neuralnet.py:78-81 | The loop builds the zeroed signal buffer |
| NeuralNet.ShapedReady | neuralnet.py:74-92 | Layers and matrices of a network's shape, with a target per output, are ready for `backprop` |
| NeuralNet.AdjustAll | neuralnet.py:83-108 | The output step, then the loop from the last matrix to the first, yields `Final` |
| NeuralNet.RecordMisses | neuralnet.py:125-127 | An IndexError exactly when there are more targets than outputs; otherwise each list gets its miss appended |
| NeuralNet.Means | neuralnet.py:128 | The loop yields `MeanMisses`, including its StatisticsError |
| NeuralNet.ZeroedLayers | neuralnet.py:28-31 | The loop yields the zeroed layers |
| NeuralNet.DrawValues | neuralnet.py:33-45 | The loop yields the initial values from draw `first` on, and advances the draw count by `count` |
| NeuralNet.DrawConnexions | neuralnet.py:33-36 | The loop yields `InitialConnexions` and counts every weight draw |
| NeuralNet.DrawBiases | neuralnet.py:41-45 | The loop yields `InitialBiases`, drawing after the weights |
| NeuralNet.NeuralNetwork.constructor | neuralnet.py:14-45 | The new network has zeroed layers and the given sizes and step; its weights, then its biases, are drawn in order |
| NeuralNet.NeuralNetwork.GetOutput | neuralnet.py:110-111 | The output layer has one value per output neuron |
| NeuralNet.NeuralNetwork.Compute | neuralnet.py:47-65 | A ValueError with nothing changed for a wrong-length input; otherwise the layers become the forward pass and the output is returned |
| NeuralNet.NeuralNetwork.Backprop | neuralnet.py:67-108 | A ValueError with nothing changed for a wrong-length target; an IndexError for a one-layer network with neurons; otherwise the connexions become `Final`, with layers and biases unchanged |
| NeuralNet.NeuralNetwork.TestExample | neuralnet.py:123-127 | One pass of `test` either raises the exception `test` raises, or extends the lists by one example |
| NeuralNet.NeuralNetwork.Test | neuralnet.py:120-129 | Returns `TestOutcome`, changes no weight, and leaves the layers of the last `compute` |
| NeuralNet.NeuralNetwork.TrainExample | neuralnet.py:114-116 | One pass of `train` either raises the example's exception with the weights unchanged, or takes one more training step |
| NeuralNet.NeuralNetwork.Train | neuralnet.py:113-118 | The connexions are trained up to the first rejected example; its exception is raised, or `None` is returned, or the result of `test` |
| Deck.Copies | deck.py:19-26 | A suit holds 3 copies of value 1, 2 each of 2, 3 and 4, 1 of value 5, and none of any other value |
| Deck.SuitCards | deck.py:21-26 | The ten cards the constructor appends for one suit, in order, all of that suit |
| Deck.StandardDeck | deck.py:15-26 | The 50 cards of a new deck: the suits of deck.py:17 in order, each as `SuitCards` |
| Deck.SuitIndex | deck.py:17 | Every suit has a place in the suit list |
| Deck.Repeat | deck.py:21-25 | `n` copies of a card |
| Deck.Build | deck.py:20-26 | Ten cards per suit |
| Deck.RepeatCount | deck.py:21-25 | `n` copies of a card hold it `n` times and hold no other card |
| Deck.SuitCardsCount | deck.py:21-26 | A suit contributes three 1s, two each of 2, 3 and 4, and one 5, and no card of another suit |
| Deck.BuildCount | deck.py:20-26 | Building distinct suits gives each of them its copies, and no other card |
| Deck.StandardDeckComposition | deck.py:15-26 | A new deck has 50 cards: for each suit, three 1s, two 2s, two 3s, two 4s and one 5 |
| Deck.Swap | deck.py:28-29 | An exchange keeps the length and the same cards |
| Deck.Shuffled | deck.py:28-29 | `random.shuffle` for the given picks: the exchange passes from the last position down to 1; the length is kept |
| Deck.ShuffledFrom | deck.py:28-29 | The shuffle passes keep the length |
| Deck.ShuffledFromPermutes | deck.py:28-29 | The shuffle passes from any position keep the same cards |
| Deck.ShuffledPermutes | deck.py:28-29 | A shuffle is a permutation |
| Deck.ShuffledFromZero | deck.py:28-29 | The final pass, at position 0, would change nothing |
| Deck.Index | deck.py:51-52 | `cards[key]` succeeds exactly for `-len <= key < len` and gives a card of the deck; otherwise an IndexError |
| Deck.IndexFromEnd | deck.py:51-52 | `key` and `key - len` denote the same card |
| Deck.Insert | deck.py:31-32 | Moving one card earlier shifts the cards in between, and keeps the same cards |
| Deck.InsertSorted | deck.py:31-32 | Inserting the next card after the last card that does not rank above it extends the sorted prefix |
| Deck.Deck.constructor | deck.py:15-26 | The new deck is the standard deck, suit by suit in the source's order |
| Deck.Deck.Empty | deck.py:42-43 | Empty exactly when no card is left |
| Deck.Deck.CardsLeft | deck.py:45-46 | The number of cards, 0 exactly when empty |
| Deck.Deck.Length | deck.py:48-49 | `len(deck)` equals `cardsLeft()` |
| Deck.Deck.GetItem | deck.py:51-52 | `deck[key]` succeeds exactly for `-len <= key < len`, and gives a card of the deck |
| Deck.Deck.Draw | deck.py:34-36 | `None` with nothing changed on an empty deck; otherwise removes and returns the last card, `deck[-1]`, leaving one card fewer |
| Deck.Deck.Shuffle | deck.py:28-29 | The deck becomes the shuffle for the given picks: a permutation of the old deck |
| Deck.Deck.Sort | deck.py:31-32 | The deck becomes sorted by rank, and holds the same cards |
| TrainingData.GenerateDispensableCard | net_31_31_1.py:10-19 | An IndexError exactly when `int(card)-1` is outside the list; otherwise the card's slot becomes 0, the other flags are kept, and the card's code follows |
| TrainingData.GenerateIndispensableCard | net_31_31_1.py:22-34 | An IndexError exactly when the loop or the slot runs past the list; otherwise the slots of the lower cards of the suit become 0, the card's own slot becomes 1, the rest are kept, and the code follows |

## Left out

- `sigmoid` (neuralnet.py:132-135) is any function into (0, 1). The model does not compute `1/(1+e^-x)`, because real exponentials are not available. Two effects of double arithmetic are not modelled. `math.exp` raises an `OverflowError` for a very negative `netj`. For a `netj` above about 37, `1/(1+math.exp(-x))` rounds to exactly 1.0, so an output or hidden activation of 1.0 gives `dk == 0`. The strict (0, 1) range that `Forward.Activations`, `Forward.NextLayer` and `Backward.OutputWeightFollowsTarget` rely on then fails in the program. With 31 inputs and weights in [-10, 10), this saturation is common.
- Floating point: all arithmetic is on exact reals, so rounding is not modelled.
- Aliasing: the model copies values, so no list is shared between the network and its caller. The source shares lists in two ways:
  - `compute` stores the caller's input list itself as layer 0 (neuralnet.py:56). A later mutation of that list by the caller changes the network's layer 0.
  - `compute` (neuralnet.py:65) and `getOutput` (neuralnet.py:111) return the network's own output list, and the next `compute` overwrites it in place (neuralnet.py:64). A result the caller kept therefore changes.
- NeuralNet.NeuralNetwork.Compute: the contract does not hold when the input is one of the network's own layers, for example `nn.compute(nn.getOutput())` on a two-layer network with equal layer sizes. Line 56 then makes `layers[0]` and `layers[1]` the same list. Neuron `j >= 1` reads the already-overwritten `layers[1][0]` through `layers[0]` (neuralnet.py:62), so the result is not `ForwardPass(input, ...)`. No caller in the repository passes such a list.
- `random`: every draw is a parameter (`Draws`, `Picks`, `bits`), so the seeding in the generators and the distribution of the draws are not modelled.
- `Card` and `Suit` (`card.py`, `suit.py`) are not part of this model.
  - A card is a suit and a value.
  - `int(card)`, `Suit.toInt` and `card.toBinary()` are arguments of the generators.
  - The order that `list.sort` uses is an integer `rank`.
- Deck.Deck.Sort: the contract states a sorted permutation, not the stability of `list.sort`. The model sorts by insertion.
- Deck.Deck.GetItem: slice keys are not modelled; only integer keys are.
- `Deck.display` (deck.py:38-40) only prints, and `N_SHUFFLES` (deck.py:13) is never used.
- The `__main__` driver of net_31_31_1.py:37-66 and the commented-out driver in neuralnet.py:138-165 are I/O only.
- NeuralNet.NeuralNetwork.constructor requires at least one layer. With none, the source raises an IndexError at neuralnet.py:20.
- Knowledge-base entries are pairs of lists (`Example`). Malformed entries, which Python would fail to unpack, are not modelled.
- The generators take `suitNumber` in 1..5 and a 25-flag `bits` list, as `Suit` and `randint(0, 1)` supply them.
