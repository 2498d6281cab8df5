# talawa-ai in Dafny

A model of talawa-ai, a small C++ machine-learning library. It contains a
neural-network training stack and a reinforcement-learning and evolution
toolkit built on top of it. The modules follow the library's own files.

- **Dense matrices** (`Matrices`, `MatrixKernels`, `MatrixSpec`):
  - `Matrix` is a class over a row-major cell sequence. Its bounds-checked access, slicing, `+=`, broadcasting, `hadamard`, `sumRows`, `apply`/`map`/`reduce` and both `transpose` variants are methods.
  - The i-k-j and cache-blocked `dot` kernels and `dotWithBTransposed` are methods, each proved equal to the mathematical product `MatrixSpec.Product`.
  - Every shape mismatch the source checks is an error result. `operator-` checks nothing, and its model `Minus` requires an operand buffer at least as long as the receiver's (see "## Left out").
- **Training kernels**:
  - activations (`Activations`);
  - the MSE, cross-entropy, categorical and with-logits losses (`Losses`, `LossKinds`);
  - the seeded initializers (`Initializers`);
  - SGD and Adam with gradient clipping (`Optimizers`, `OptimizerKinds`).
- **Layers**:
  - Dense (`DenseLayers`);
  - Conv2D (`Convolutions` for im2col/col2im and the pixel-major reshapes, `Conv2DLayers` for the layer);
  - MAX/AVERAGE pooling (`Poolings`).

  Each layer is a class with a forward pass, a backward pass, parameter and gradient lists, and an output shape.
- **Networks** (`Layers`, `Networks`, `NeuralNetworks`, `Shapes`):
  - the layer factory and the builder with shape propagation;
  - `predict`, and `train` (forward, loss, backward in reverse order, one optimizer call over the concatenated parameter lists);
  - `clone`.
- **Reinforcement learning**:
  - the schedulers and their bindings (`Schedulers`);
  - the tabular Q-learner and its text format (`QTables`, `QTableText`);
  - the DQN agent's rules and its dueling head (`DQN`, `DuelingHeads`);
  - the replay ring buffer (`Replay`);
  - the random agent (`RandomAgents`);
  - the trainer loop (`Trainers`);
  - tournament scoring (`Arenas`).
- **Environments**:
  - the agent registry shared by all talawa environments (`Environments`) and the action and observation spaces (`Spaces`, `GameStates`);
  - the graph walk, the line walk and the talawa-ai TicTacToe (`GraphEnvironments`, `LineEnvironments`, `TicTacToeEnvironments`);
  - Corridor, FrozenLake, the sticks game and the talawa TicTacToe (`Corridors`, `FrozenLakes`, `SticksGame`, `TicTacToes`).
- **Evolution**:
  - the neural genome's flatten/`setGenes` round trip (`Genomes`);
  - the double-buffered population (`Populations`);
  - the string and XOR example strategies (`StringGA`, `XorGA`).
- **Data**: dataset batch splicing and shuffling (`Datasets`), and the CSV loader over a list of lines (`DataLoaders`).

Conventions used throughout:

- `float` cells are `real`.
- `exp`, `log`, `tanh` and `sqrt` are uninterpreted functions, which carry only the facts the code relies on, such as positivity.
- `pow` with an integer exponent is exact repeated multiplication (`Common.Pow`).
- `static_cast<int>` of a float truncates toward zero (`Common.Trunc`), and C++ integer `/` and `%` truncate (`Common.CDiv`, `Common.CMod`).
- A thrown exception is an `Err` result. Where the source has already changed state before it throws, the model records those changes as well.
- Random draws (`rand()`, `std::mt19937`, `std::random_device`) are parameters of the operation that makes them.
- OpenMP and AVX loops are the sequential loops they parallelise.

Objects the source updates in place are classes:

- the matrix;
- the layers and the network;
- the optimizers;
- the Q-table;
- the replay buffer;
- the schedulers;
- the trainer;
- the environments;
- the genome and the population.

Each class's methods state the object's new state in terms of a specification function of its old state. The properties of those functions are proved as lemmas.

## Model

| member | source | states |
|---|---|---|
| Matrices.Matrix.Empty | include/talawa-ai/core/Matrix.hpp:15 | the default matrix is 0 x 0 with no cells |
| Matrices.Matrix.Sized | src/core/Matrix.cpp:17-19 | `Matrix(rows, cols)` has that shape and every cell 0 |
| Matrices.Matrix.Copy | include/talawa-ai/core/Matrix.hpp:17 | the copy holds the same shape and cells as the original |
| Matrices.Matrix.Literal | src/core/Matrix.cpp:21-45 | the nested-literal constructor fails exactly on zero rows, zero columns or a jagged row, and otherwise holds the rows row-major |
| Matrices.Matrix.At | src/core/Matrix.cpp:151-159 | the read succeeds exactly when 0 <= row < rows and 0 <= col < cols, and then returns cell (row, col) |
| Matrices.Matrix.Put | src/core/Matrix.cpp:160-168 | the write succeeds exactly for in-range indices and then changes that one cell only; out of range nothing changes |
| Matrices.Matrix.Fill | src/core/Matrix.cpp:170 | afterwards every cell holds the value and the shape is unchanged |
| Matrices.Matrix.AssignFrom | src/core/Matrix.cpp:130-149 | after assignment the receiver equals the source matrix (shape and cells), including on self-assignment |
| Matrices.Matrix.AssignRows | src/core/Matrix.cpp:217-248 | an empty list gives 0 x 0; a jagged list is an error and leaves the matrix unchanged; otherwise the matrix stores the rows row-major |
| Matrices.Matrix.SliceRows | src/core/Matrix.cpp:190-209 | error exactly when start < 0, end > rows or start >= end; otherwise rows [start, end) of the matrix |
| Matrices.Matrix.Transpose | src/core/Matrix.cpp:250-287 | the blocked loops produce the transpose |
| Matrices.Matrix.TransposeInto | src/core/Matrix.cpp:374-400 | `out` ends as the transpose of the receiver, whatever its shape was |
| Matrices.Matrix.AddAssign | src/core/Matrix.cpp:290-357 | equal shapes add cell by cell; a 1 x cols operand is added to every row; any other shape is an error that changes nothing; the shape is kept |
| Matrices.Matrix.Plus | src/core/Matrix.cpp:86-90 | the same three outcomes as `+=`, on a copy |
| Matrices.Matrix.Minus | src/core/Matrix.cpp:91-110 | flat cell k of the result is cell k of the receiver minus cell k of the operand, with the receiver's shape; for equal shapes this is the matrix difference |
| Matrices.Matrix.Times | src/core/Matrix.cpp:111-129 | every cell multiplied by the scalar |
| Matrices.Matrix.Hadamard | src/core/Matrix.cpp:774-797 | error exactly on a shape mismatch, otherwise the cell-by-cell product |
| Matrices.Matrix.Equals | src/core/Matrix.cpp:359-371 | true exactly when shapes and all cells agree |
| Matrices.Matrix.Dot | src/core/Matrix.cpp:405-533 | error exactly when cols != other.rows; otherwise both the i-k-j path and the blocked path give the matrix product |
| Matrices.Matrix.DotInto | src/core/Matrix.cpp:536-617 | error exactly when cols != other.rows, leaving `out` unchanged; otherwise `out` holds the matrix product |
| Matrices.Matrix.DotWithBTransposed | src/core/Matrix.cpp:619-678 | error exactly when cols != B_T.cols; otherwise the product with the transpose of B_T |
| Matrices.Matrix.DotWithBTransposedInto | src/core/Matrix.cpp:680-739 | the out-parameter form: same error condition, `out` unchanged on error, otherwise the product with the transpose of B_T |
| Matrices.Matrix.AddVector | src/core/Matrix.cpp:741-749 | error exactly unless the vector is 1 x cols; otherwise the vector added to every row |
| Matrices.Matrix.SumRows | src/core/Matrix.cpp:751-772 | the first cols flat cells of `out` grow by the column sums; the other cells and the shape of `out` are kept |
| Matrices.Matrix.Apply | include/talawa-ai/core/Matrix.hpp:62-68 | every cell (i, j) becomes func(i, j, old cell); the shape is kept |
| Matrices.Matrix.MapAsWritten | include/talawa-ai/core/Matrix.hpp:70-74 | the result is func applied to a zero matrix of the receiver's shape |
| Matrices.Matrix.Map | include/talawa-ai/core/Matrix.hpp:70-74 | the intended `map`: func applied to the receiver's own cells, receiver unchanged |
| Matrices.Matrix.Reduce | include/talawa-ai/core/Matrix.hpp:77-87 | the result is the row-major left fold of func over the cells from `initial` |
| Matrices.FillRows | src/core/Matrix.cpp:241-245 | writing the rows cell by cell into a zero matrix stores them row-major |
| Matrices.BroadcastRows | src/core/Matrix.cpp:327-350 | the broadcast branch of `+=` adds the row vector to every row |
| Matrices.ScaleCells | src/core/Matrix.cpp:119-127 | cell k of the result is cell k times the scalar |
| Matrices.MultiplyCells | src/core/Matrix.cpp:786-795 | cell k of the result is the product of the two cells k |
| Matrices.AddRow | src/core/Matrix.cpp:758-770 | one row of `sumRows` adds that row's cells to the first cols accumulator cells and leaves the rest alone |
| Matrices.ProductOfBlocked | src/core/Matrix.cpp:463-530 | the blocked kernel over the transpose of B, started from zero, computes A * B |
| Matrices.ProductTOfBlocked | src/core/Matrix.cpp:638-677 | the blocked kernel over B_T, started from zero, computes A * transpose(B_T) |
| Matrices.AddedOneRow | src/core/Matrix.cpp:292-350 | for a one-row receiver the two branches of `+=` agree |
| Matrices.MapAsWrittenLosesCells | include/talawa-ai/core/Matrix.hpp:70-74 | mapping the identity over [[5]] gives [[0]] as written, where the intended `map` gives [[5]] |
| Matrices.ProductExample | tests/matrix.test.cpp:105-143 | [[1,2,3],[4,5,6]] . [[7,8],[9,1],[2,3]] = [[31,19],[85,55]] |
| MatrixKernels.TransposeBlock | src/core/Matrix.cpp:273-282 | one block writes dst(c, r) = src(r, c) for its rows and columns and leaves every other cell alone |
| MatrixKernels.BlockedTranspose | src/core/Matrix.cpp:265-284 | the 32-blocked loops write the whole transpose |
| MatrixKernels.ProductIkj | src/core/Matrix.cpp:428-451 | the i-k-j loops, started from zero, compute the matrix product |
| MatrixKernels.ProductRow | src/core/Matrix.cpp:432-445 | row i grows by a(i, k) times row k of b for every k; other rows unchanged |
| MatrixKernels.AxpyRow | src/core/Matrix.cpp:441-443 | c(i, j) grows by a(i, k) * b(k, j) for every j; other cells unchanged |
| MatrixKernels.PartialDot | src/core/Matrix.cpp:501-520 | the SIMD and cleanup loops compute the dot product of row i of A and row j of B_T over the k-block |
| MatrixKernels.MicroRow | src/core/Matrix.cpp:494-526 | cells (i, j) of one row of the block grow by their partial dot product; other cells unchanged |
| MatrixKernels.MicroKernel | src/core/Matrix.cpp:486-527 | every cell of the (i, j) block grows by its partial dot product over the k-block |
| MatrixKernels.BlockedProductT | src/core/Matrix.cpp:472-530 | the three block loops add A * transpose(B_T) onto the accumulator |
| Activations.Name | src/core/Activation.cpp:264-279 | the name is "Unknown" exactly for LogSoftmax |
| Activations.RowMaxIsMax | src/core/Activation.cpp:68-72 | the row scan's value bounds every cell of the row and is one of them |
| Activations.ClipBounds | src/core/Activation.cpp:86-88 | a clipped probability lies in [1e-7, 1 - 1e-7], and one already there is unchanged |
| Activations.SoftmaxRawSumsToOne | src/core/Activation.cpp:74-83 | before clipping, each softmax cell is positive and a row's cells sum to 1 |
| Activations.Activated | src/core/Activation.cpp:21-99 | error exactly for an empty matrix (`&result(0, 0)` throws) or LogSoftmax; otherwise the shape is kept |
| Activations.ActivatedCells | src/core/Activation.cpp:26-92 | Linear is the identity, ReLU / sigmoid / tanh act cell by cell, softmax gives each cell its clipped, max-shifted normalised exponential |
| Activations.Apply | src/core/Activation.cpp:21-99 | `apply` fails exactly when the input is empty or the kind is LogSoftmax, and otherwise computes the activated matrix |
| Activations.SoftmaxRows | src/core/Activation.cpp:64-91 | the row loop computes the softmax of every row |
| Activations.ElementwiseCells | src/core/Activation.cpp:30-57 | the flat loops compute the element-wise activation |
| Activations.RowMaxScan | src/core/Activation.cpp:69-72 | the scan returns the row maximum |
| Activations.ExpRow | src/core/Activation.cpp:75-80 | row i is replaced by exp(cell - max) and the sum of those exponentials is returned; other rows unchanged |
| Activations.NormalizeRow | src/core/Activation.cpp:83-90 | row i is scaled by 1/sum and clipped; other rows unchanged |
| Activations.SoftmaxRow | src/core/Activation.cpp:65-90 | one row becomes its softmax; other rows unchanged |
| Activations.Backpropagated | src/core/Activation.cpp:101-224 | the vector-Jacobian product has the activation's shape |
| Activations.Backprop | src/core/Activation.cpp:101-224 | `dZ` is resized to a's shape when needed; error exactly for LogSoftmax; otherwise dZ is the vector-Jacobian product |
| Activations.BackpropagatedCells | src/core/Activation.cpp:116-219 | Linear passes the gradient through; ReLU, sigmoid and tanh multiply it by the local derivative in terms of the output; softmax gives y_i (g_i - sum_k y_k g_k) |
| Activations.ElementwiseBack | src/core/Activation.cpp:121-176 | the flat loops compute the local-gradient product cell by cell |
| Activations.SoftmaxBack | src/core/Activation.cpp:179-219 | the row loop computes the softmax vector-Jacobian product |
| Activations.SoftmaxBackRow | src/core/Activation.cpp:182-217 | one row becomes y (g - y.g); other rows unchanged |
| Activations.Derivative | src/core/Activation.cpp:226-262 | error exactly for softmax and LogSoftmax; otherwise the derivative of the activation cell by cell, shape kept |
| Activations.ReluRectifies | src/core/Activation.cpp:30-41 | ReLU is max(0, x) |
| Activations.BackpropIsChainRule | src/core/Activation.cpp:121-176 | for the element-wise kinds, the output-based gradient at f(x) equals f'(x) times the incoming gradient, so `backprop` agrees with `derivative` |
| Activations.ReluBackpropExample | src/core/Activation.cpp:134-136 | ReLU's gradient is 0 at an output of 0 and passes the gradient at a positive output |
| Losses.ClampProb | src/neuralnetwork/Loss.cpp:60 | `std::clamp(p, EPSILON, 1 - EPSILON)` lies in [1e-7, 1 - 1e-7] and leaves an in-range p alone |
| Losses.MseLoss | src/neuralnetwork/Loss.cpp:23-35 | error exactly when the target is smaller than the prediction (`target(row, col)` throws) |
| Losses.MseGradient | src/neuralnetwork/Loss.cpp:37-48 | intended gradient: error exactly when a cell's target read is out of range; otherwise cell (i, j) is 2/N (p - t) with N the cell count |
| Losses.SquaredErrorPrefix | src/neuralnetwork/Loss.cpp:25-31 | the reduced squared error over any prefix of the cells is non-negative, and 0 exactly when every cell of the prefix matches its target |
| Losses.SquaredErrorGrows | src/neuralnetwork/Loss.cpp:26-30 | each reduce step never lowers the sum, and keeps it exactly when the cell matches its target |
| Losses.MseZeroIffEqual | src/neuralnetwork/Loss.cpp:23-35 | for equal shapes the MSE is non-negative and is 0 exactly when prediction equals target |
| Losses.MseGradientZeroAtTarget | src/neuralnetwork/Loss.cpp:37-48 | the intended gradient at the target is the zero matrix |
| Losses.CrossEntropyLoss | src/neuralnetwork/Loss.cpp:55-65 | error exactly when a non-empty prediction reads a target cell out of range |
| Losses.CategoricalLoss | src/neuralnetwork/Loss.cpp:82-95 | error exactly when a non-empty prediction reads a target cell out of range |
| Losses.CrossEntropyGradient | src/neuralnetwork/Loss.cpp:67-76 | intended gradient: same error condition, prediction's shape |
| Losses.CategoricalGradient | src/neuralnetwork/Loss.cpp:97-110 | intended gradient: same error condition, prediction's shape |
| Losses.CrossEntropyLossesAgree | src/neuralnetwork/Loss.cpp:55-95 | `CrossEntropyLoss` and `CategoricalCrossEntropyLoss` compute the same loss |
| Losses.CrossEntropyGradientsAgree | src/neuralnetwork/Loss.cpp:67-110 | the two intended cross-entropy gradients are the same matrix (dividing by N is scaling by 1/N) |
| Losses.CrossEntropyGradientBounded | src/neuralnetwork/Loss.cpp:67-76 | for a target cell in [0, 1] the intended gradient cell lies in [-(1/EPSILON)/N, 0] |
| Losses.LogitsLoss | src/neuralnetwork/Loss.cpp:115-147 | error exactly when a row is empty (`prediction(r, 0)` throws) or a target read is out of range; otherwise the log-sum-exp loss summed over rows divided by the row count |
| Losses.LogitsRowTotal | src/neuralnetwork/Loss.cpp:121-143 | one row's max scan, exponential sum and sparse loss loop give that row's loss |
| Losses.LogitsRowScan | src/neuralnetwork/Loss.cpp:136-143 | the sparse loop adds -t log_softmax only for t > 0 |
| Losses.ExpSumScan | src/neuralnetwork/Loss.cpp:129-132 | the loop computes the sum of exp(z - max) over the row |
| Losses.LogitsSparse | src/neuralnetwork/Loss.cpp:138 | a row whose targets are all <= 0 contributes no loss |
| Losses.LogitsOneHot | src/neuralnetwork/Loss.cpp:136-143 | for a one-hot target row, the row loss is minus the log-softmax of the labelled class |
| Losses.LogitsGradient | src/neuralnetwork/Loss.cpp:149-190 | each cell is (softmax(z) - t) / rows, with softmax shifted by the row maximum |
| Losses.LogitsGradientRow | src/neuralnetwork/Loss.cpp:164-188 | one row of the gradient is written; other rows unchanged |
| Losses.WriteGradCell | src/neuralnetwork/Loss.cpp:182-187 | one gradient cell is written; the others are unchanged |
| Losses.LogitsGradientRowSum | src/neuralnetwork/Loss.cpp:149-190 | a row of (softmax - t) sums to 1 minus the row's target sum, so to 0 for a one-hot target |
| Losses.LogitsGradientBounded | src/neuralnetwork/Loss.cpp:151-152 | for targets in [0, 1] every gradient cell lies in [-1/rows, 1/rows], the "always bounded" claim |
| Losses.MseGradientAsWritten | src/neuralnetwork/Loss.cpp:44-47 | as written (`map` hands func a zero cell), the result has the prediction's shape |
| Losses.MseGradientAsWrittenIgnoresPrediction | src/neuralnetwork/Loss.cpp:44-47 | as written the gradient does not depend on the prediction's cells: every cell is -(2/N) t |
| Losses.MseGradientExample | src/neuralnetwork/Loss.cpp:37-48 | for p = [[3]], t = [[1]] the intended gradient is [[4]] while the code as written gives [[-2]] |
| Losses.CrossEntropyGradientAsWritten | src/neuralnetwork/Loss.cpp:71-75 | as written the result has the prediction's shape |
| Losses.CrossEntropyGradientAsWrittenIgnoresPrediction | src/neuralnetwork/Loss.cpp:71-75 | as written every cell is -(t / 1e-7) / rows, whatever the prediction |
| Losses.CategoricalGradientAsWritten | src/neuralnetwork/Loss.cpp:102-109 | as written the result has the prediction's shape |
| Losses.CategoricalGradientAsWrittenIgnoresPrediction | src/neuralnetwork/Loss.cpp:102-109 | as written every cell is -(t / 1e-7) (1 / rows), whatever the prediction |
| Losses.CrossEntropyGradientExample | src/neuralnetwork/Loss.cpp:67-76 | for p = [[0.5]], t = [[1]] the intended gradient is [[-2]] while the code as written gives [[-10000000]] |
| LossKinds.GradientShaped | include/talawa-ai/neuralnetwork/Loss.hpp:18-92 | on a prediction with cells every loss but `EmptyLoss` throws exactly when the target does not cover the prediction; a successful `calculate` is followed by a gradient of the prediction's shape |
| LossKinds.Evaluate | include/talawa-ai/neuralnetwork/Loss.hpp:84-92 | `calculate` then `gradient`: error exactly when `calculate` throws, otherwise the loss value and the gradient, which for MSE, cross-entropy and categorical cross-entropy is the corrected one (see Findings), not Loss.cpp's as-written one; `EmptyLoss` gives 0 and a zero matrix |
| Optimizers.Clipped | src/core/Optimizer.cpp:52 | `std::clamp(g, -1, 1)` lies in [-1, 1] and leaves an in-range gradient alone |
| Optimizers.ClippedStep | src/core/Optimizer.cpp:47-52 | a step of lr times a clipped gradient is at most lr in size |
| Optimizers.SgdMovesAtMostLr | src/core/Optimizer.cpp:37-53 | SGD moves every parameter cell by at most the learning rate |
| Optimizers.SgdDescends | src/core/Optimizer.cpp:47-52 | with lr >= 0, SGD never moves a cell against its gradient's sign |
| Optimizers.SgdMatrix | src/core/Optimizer.cpp:29-53 | one parameter matrix: shape kept, every cell p - lr clamp(g, -1, 1) |
| Optimizers.SgdAll | src/core/Optimizer.cpp:28-54 | every parameter matrix takes its SGD step with its own gradient |
| Optimizers.SGD.constructor | src/core/Optimizer.cpp:11 | the optimizer stores the learning rate |
| Optimizers.SGD.Update | src/core/Optimizer.cpp:13-55 | error exactly when the list lengths differ, changing nothing; otherwise every parameter takes its SGD step |
| Optimizers.Correction | src/core/Optimizer.cpp:82-83 | the bias correction 1/(1 - beta^t) is at least 1 for beta in [0, 1) and t >= 1 |
| Optimizers.FirstMomentBounded | src/core/Optimizer.cpp:146 | the first moment stays in [-1, 1] because the gradient is clipped |
| Optimizers.SecondMomentNonNegative | src/core/Optimizer.cpp:149 | the second moment stays non-negative, so `sqrt(v_hat)` is defined |
| Optimizers.FirstMomentsBounded | src/core/Optimizer.cpp:117-118 | every first-moment cell stays in [-1, 1] |
| Optimizers.SecondMomentsNonNegative | src/core/Optimizer.cpp:121-123 | every second-moment cell stays non-negative |
| Optimizers.AdamMatrix | src/core/Optimizer.cpp:96-157 | one parameter: the moments become beta m + (1 - beta) g and beta v + (1 - beta) g^2 of the clipped gradient, and the parameter takes the bias-corrected Adam step; shapes kept |
| Optimizers.AdamAll | src/core/Optimizer.cpp:96-158 | every parameter and its caches take that step |
| Optimizers.ZeroCaches | src/core/Optimizer.cpp:68-76 | one zero cache per parameter, shaped like it |
| Optimizers.Adam.constructor | src/core/Optimizer.cpp:57-58 | the hyper-parameters are stored, t = 0, no caches yet |
| Optimizers.Adam.Update | src/core/Optimizer.cpp:60-159 | error exactly when the list lengths differ, changing nothing; otherwise zero caches are created on the first call, t grows by 1, and every parameter and cache takes the Adam step with corrections 1/(1 - beta^t) |
| OptimizerKinds.SteppedFits | src/core/Optimizer.cpp:60-159 | a step keeps the number and shapes of the parameters and the optimizer's invariant, and leaves Adam's caches shaped for the next step |
| OptimizerKinds.ReadyFitting | src/core/Optimizer.cpp:68 | caches that fit the parameters also fit any parameter list of the same shapes |
| OptimizerKinds.SgdStepBounded | src/core/Optimizer.cpp:51-53 | through the network's optimizer slot, an SGD step moves a cell by at most lr |
| OptimizerKinds.Step | src/core/Optimizer.cpp:13-159 | `optimizer->update(params, grads)` advances the optimizer's state and returns the stepped parameters |
| OptimizerKinds.AdamUpdate | src/core/Optimizer.cpp:60-159 | Adam's update on wrapped matrices matches the value-level step |
| OptimizerKinds.AdamStepped | src/core/Optimizer.cpp:96-158 | parameters updated cell by cell with the next moments and the t+1 corrections are the stepped parameters |
| Initializers.GlorotLimit | src/core/Initializer.cpp:58-61 | the Glorot limit sqrt(6 / (fan_in + fan_out)) is non-negative |
| Initializers.Initialized | src/core/Initializer.cpp:12-78 | the initialised matrix keeps the receiver's shape |
| Initializers.Apply | src/core/Initializer.cpp:12-33 | `apply` overwrites the matrix in place with the strategy's values and keeps its shape |
| Initializers.ConstantStrategies | src/core/Initializer.cpp:37-39 | ZEROS fills with 0 and ONES with 1 |
| Initializers.SameSeedSameWeights | src/core/Initializer.cpp:43-77 | every strategy is reproducible: the same strategy and seed give the same matrix |
| Initializers.UniformBounded | src/core/Initializer.cpp:41-47 | RANDOM_UNIFORM cells lie in [-0.05, 0.05] |
| Initializers.GlorotBounded | src/core/Initializer.cpp:57-67 | GLOROT_UNIFORM cells lie within sqrt(6 / (rows + cols)) |
| Initializers.HeDeviationFromRows | src/core/Initializer.cpp:69-78 | HE_NORMAL draws with standard deviation sqrt(2 / rows) |
| Shapes.Shape.Empty | include/talawa/core/Shape.hpp:29 | the default shape has rank 0 and uses the inline buffer |
| Shapes.Shape.FromDims | include/talawa/core/Shape.hpp:31-33 | a shape built from dims means exactly those dims, rank included |
| Shapes.Shape.Setup | include/talawa/core/Shape.hpp:35-44 | the shape means the given dims; the heap vector is used exactly when the rank exceeds 6 |
| Shapes.Shape.At | include/talawa/core/Shape.hpp:49-52 | `operator[]` returns dimension `index` whichever storage holds it |
| Shapes.Shape.Size | include/talawa/core/Shape.hpp:55-61 | 0 for rank 0, otherwise the product of the dims |
| Shapes.Shape.Equals | include/talawa/core/Shape.hpp:64-70 | two shapes are equal exactly when their dim sequences are (rank included), whatever their storage |
| Shapes.VolumeZero | include/talawa/core/Shape.hpp:58-60 | a zero dimension makes the volume 0 |
| Shapes.VolumePositive | include/talawa/core/Shape.hpp:58-60 | positive dimensions give a positive volume |
| Shapes.SameDimsEqual | include/talawa/core/Shape.hpp:31-70 | a shape built on the stack and one built on the heap path from the same dims compare equal |
| DenseLayers.PreActivation | src/neuralnetwork/DenseLayer.cpp:37-39 | Z = X W + b has one row per input row and one column per unit |
| DenseLayers.OutputMeans | src/neuralnetwork/DenseLayer.cpp:27-49 | `forward` fails exactly when input.cols != in (dot throws), the batch is empty, there are no units (activation reads `(0, 0)`), or the activation is LogSoftmax; otherwise A(i, j) = f(sum_k x(i, k) w(k, j) + b(j)) |
| DenseLayers.DenseLayer.OutputShape | src/neuralnetwork/DenseLayer.cpp:84-87 | the output shape is (1, 1, units) |
| DenseLayers.DenseLayer.constructor | src/neuralnetwork/DenseLayer.cpp:7-25 | weights are the initializer's in x units matrix, biases zero 1 x units, both gradients zero of the same shapes, caches empty |
| DenseLayers.DenseLayer.Forward | src/neuralnetwork/DenseLayer.cpp:27-49 | the result is the layer output; parameters and gradients are kept; the input and activation caches are stored only when training; the Z cache is resized only on a shape change and holds X W + b |
| DenseLayers.DenseLayer.Backward | src/neuralnetwork/DenseLayer.cpp:51-72 | fails exactly for LogSoftmax or cached shapes that do not chain; otherwise dZ is the activation's VJP, dW = X^T dZ, dB = column sums of dZ, and the result dX = dZ W^T |
| DenseLayers.BackwardPass | src/neuralnetwork/DenseLayer.cpp:51-72 | the value-level backward pass: the same error condition and the same dZ, dW, dB and dX |
| DenseLayers.ForwardPass | src/neuralnetwork/DenseLayer.cpp:27-49 | the value-level forward pass returns the layer output and the Z cache |
| DenseLayers.ForwardProduct | src/neuralnetwork/DenseLayer.cpp:38-39 | `input.dot(weights, z_cache); z_cache += biases` succeeds exactly when input.cols == in and then gives X W + b; on failure z_cache is untouched |
| DenseLayers.WeightGradient | src/neuralnetwork/DenseLayer.cpp:56-57 | the transpose cache holds X^T, and dW = X^T dZ when the batch sizes agree; otherwise dW is untouched |
| DenseLayers.BiasGradient | src/neuralnetwork/DenseLayer.cpp:60-61 | the bias gradient is zeroed and then holds the column sums of dZ |
| DenseLayers.InputGradient | src/neuralnetwork/DenseLayer.cpp:64-69 | the weight transpose is cached, and dX = dZ W^T when dZ has one column per unit; otherwise dX is untouched |
| DenseLayers.TransposedDot | src/neuralnetwork/DenseLayer.cpp:56-57 | a row of X^T dotted with a column of dZ is the sum over the batch of x(b, p) dz(b, f) |
| DenseLayers.GradientsMean | src/neuralnetwork/DenseLayer.cpp:55-69 | dX(i, j) = sum_f dz(i, f) w(j, f) and dW(p, f) = sum_b x(b, p) dz(b, f) |
| Convolutions.Geometry.Pixel | src/neuralnetwork/Conv2DLayer.cpp:61-81 | an in-image tap names a flat input index below depth * height * width; a tap in the padding names none |
| Convolutions.FullWidthRuns | src/neuralnetwork/Conv2DLayer.cpp:75-80 | an input at least as wide as one image never makes `im2col` read past its columns |
| Convolutions.StridedTapsStopShort | src/neuralnetwork/Conv2DLayer.cpp:44-92 | with kernel 1 and stride 2 over a 2m x 1 image, every tap reads a column below 2m - 1, so `im2col` runs on an input one column narrower than the image |
| Convolutions.StridedExtents | src/neuralnetwork/Conv2DLayer.cpp:24-25 | that geometry has m x 1 output pixels |
| Convolutions.StridedPixel | src/neuralnetwork/Conv2DLayer.cpp:61-79 | output row y of that geometry reads input index 2y |
| Convolutions.Im2Col | src/neuralnetwork/Conv2DLayer.cpp:44-49 | the column matrix has batch * OH * OW rows and K * K * D columns |
| Convolutions.Im2ColEntry | src/neuralnetwork/Conv2DLayer.cpp:54-90 | cell (b*OH*OW + y*OW + x, c*K*K + ky*K + kx) holds input cell (b, c*H*W + iy*W + ix) for an in-image tap and 0 in the padding |
| Convolutions.WritePatch | src/neuralnetwork/Conv2DLayer.cpp:64-87 | the tap loops of one output pixel write its row of the column matrix; other rows unchanged |
| Convolutions.WriteTapRow | src/neuralnetwork/Conv2DLayer.cpp:69-85 | the kx loop writes K consecutive cells of the row and advances `col_idx` by K |
| Convolutions.Im2ColLoop | src/neuralnetwork/Conv2DLayer.cpp:44-92 | the loop nest computes the column matrix |
| Convolutions.Im2ColLine | src/neuralnetwork/Conv2DLayer.cpp:56-88 | the x loop writes the rows of one output row of one sample |
| Convolutions.Col2Im | src/neuralnetwork/Conv2DLayer.cpp:96-98 | the image gradient has one row per sample and D * H * W columns |
| Convolutions.ScatterAt | src/neuralnetwork/Conv2DLayer.cpp:113-126 | one tap of `col2im` adds col_matrix(row, col) to the input cell it came from, and nothing for a tap in the padding |
| Convolutions.AccumulatePatch | src/neuralnetwork/Conv2DLayer.cpp:108-130 | the tap loops of one output pixel scatter-add its whole row |
| Convolutions.AccumulateTapRow | src/neuralnetwork/Conv2DLayer.cpp:112-128 | the kx loop scatter-adds K consecutive cells of the row |
| Convolutions.Col2ImLoop | src/neuralnetwork/Conv2DLayer.cpp:96-135 | the loop nest computes `col2im` |
| Convolutions.Col2ImSample | src/neuralnetwork/Conv2DLayer.cpp:103-132 | the y loop scatters the rows of one sample |
| Convolutions.Col2ImLine | src/neuralnetwork/Conv2DLayer.cpp:104-131 | the x loop scatters the rows of one output row |
| Convolutions.Col2ImAdjoint | src/neuralnetwork/Conv2DLayer.cpp:44-135 | `col2im` is the adjoint of `im2col`: <im2col(X), C> = <X, col2im(C)> for every image batch X and column matrix C, so backward sends the gradient to exactly the inputs forward read |
| Convolutions.Samples | src/neuralnetwork/Conv2DLayer.cpp:174-185 | the (batch, filters * pixels) output has one row per sample |
| Convolutions.PixelMajor | src/neuralnetwork/Conv2DLayer.cpp:195-205 | the (batch * pixels, filters) gradient has one row per sample pixel |
| Convolutions.SampleAt | src/neuralnetwork/Conv2DLayer.cpp:181 | output cell (b, f*pixels + p) is a(b*pixels + p, f) |
| Convolutions.PixelAt | src/neuralnetwork/Conv2DLayer.cpp:201 | dZ_flat(b*pixels + p, f) is outputGradients(b, f*pixels + p) |
| Convolutions.PixelMajorOfSamples | src/neuralnetwork/Conv2DLayer.cpp:174-205 | the backward reshape undoes the forward reshape |
| Convolutions.SamplesOfPixelMajor | src/neuralnetwork/Conv2DLayer.cpp:174-205 | the forward reshape undoes the backward reshape |
| Convolutions.WrittenStep | src/neuralnetwork/Conv2DLayer.cpp:178-182 | after filter f of pixel p, the written columns of the row are those before plus f*pixels + p |
| Convolutions.ToSamples | src/neuralnetwork/Conv2DLayer.cpp:174-185 | the forward reshape loops compute the sample-major output |
| Convolutions.ToSamplesRow | src/neuralnetwork/Conv2DLayer.cpp:177-184 | the pixel loop fills row b and advances `flat_row` by pixels |
| Convolutions.ToSamplesPixel | src/neuralnetwork/Conv2DLayer.cpp:178-182 | the filter loop writes the columns of pixel p |
| Convolutions.FromSamples | src/neuralnetwork/Conv2DLayer.cpp:194-205 | the backward reshape fails exactly when a sample's widest read, filters*pixels - 1, is past the gradient's columns; otherwise it computes the pixel-major gradient |
| Convolutions.FromSamplesRow | src/neuralnetwork/Conv2DLayer.cpp:199-204 | the pixel loop of one sample fills its rows or reports the failing read |
| Convolutions.FromSamplesPixel | src/neuralnetwork/Conv2DLayer.cpp:200-202 | the filter loop of one pixel fills its row or reports the failing read |
| Conv2DLayers.PreActivation | src/neuralnetwork/Conv2DLayer.cpp:143-161 | the pre-activation of a batch has one row per output pixel of every sample and one column per filter |
| Conv2DLayers.OutputMeans | src/neuralnetwork/Conv2DLayer.cpp:137-188 | `forward` throws exactly on an input too narrow for a tap, an empty batch, an empty output image, no filters or LOG_SOFTMAX; otherwise its output is batch x (filters * pixels) and reads back, pixel-major, as the activation of the pre-activation |
| Conv2DLayers.OutputCells | src/neuralnetwork/Conv2DLayer.cpp:143-167 | for an element-wise activation, output pixel r of filter f is the activation of im2col row r dotted with kernel column f plus bias f |
| Conv2DLayers.Conv2DLayer.OutputShape | src/neuralnetwork/Conv2DLayer.cpp:241-243 | the output shape has depth `filters` and flat size filters * output pixels |
| Conv2DLayers.Conv2DLayer.constructor | src/neuralnetwork/Conv2DLayer.cpp:11-40 | kernels are fan_in x filters from the initializer, biases and both gradients are zero of their shapes, every cache is empty |
| Conv2DLayers.Conv2DLayer.Forward | src/neuralnetwork/Conv2DLayer.cpp:137-188 | the returned value is the layer's output function; the input, im2col and activation caches change only when training (and only as far as the pass got), `z_cache` whenever im2col ran; parameters and gradients are untouched |
| Conv2DLayers.Conv2DLayer.Backward | src/neuralnetwork/Conv2DLayer.cpp:190-231 | `backward` throws exactly when the reshape, LOG_SOFTMAX, the cached im2col shape or col2im's row bound fails; when the gradient steps ran, dK = col^T dZ and db = column sums of dZ, otherwise the gradients are unchanged; on success it returns col2im(dZ K^T) over the cached batch |
| Conv2DLayers.Convolve | src/neuralnetwork/Conv2DLayer.cpp:150-161 | the GEMM followed by the bias `apply` is the im2col product with bias f added to every cell of column f |
| Conv2DLayers.BackwardPass | src/neuralnetwork/Conv2DLayer.cpp:190-231 | the same pass on values: which condition makes each step throw, what the kernel and bias gradients hold after it, and the col2im of dZ K^T it returns |
| Poolings.PoolGeometry.OutHeight | src/neuralnetwork/Pooling2DLayer.cpp:23 | on a sound geometry (window no larger than the input) the output has at least one row |
| Poolings.PoolGeometry.OutWidth | src/neuralnetwork/Pooling2DLayer.cpp:24 | and at least one column |
| Poolings.PoolGeometry.Reach | src/neuralnetwork/Pooling2DLayer.cpp:48-61 | the furthest input cell any window reads lies inside depth * height * width |
| Poolings.ReadInReach | src/neuralnetwork/Pooling2DLayer.cpp:58-62 | every cell a window of an output pixel reads has a flat index below that reach |
| Poolings.OutPosOf | src/neuralnetwork/Pooling2DLayer.cpp:70-71 | `out_idx` = d * pixels + y * output_width + x is a cell of the output row and decodes back to (d, y, x) |
| Poolings.OutPosBound | src/neuralnetwork/Pooling2DLayer.cpp:70-71 | every output cell is `out_idx` of exactly one in-range (d, y, x) |
| Poolings.InPosOf | src/neuralnetwork/Pooling2DLayer.cpp:60-61 | `flat_idx` of (d, wy, wx) decodes back to (d, wy, wx), and only that index does |
| Poolings.WindowMaxIsFirstMax | src/neuralnetwork/Pooling2DLayer.cpp:55-68 | the row-major scan with strict `>` from -infinity ends on a cell of the window that is at least every cell of it and strictly above every cell scanned before it: the first maximum |
| Poolings.WindowMaxCell | src/neuralnetwork/Pooling2DLayer.cpp:55-68 | that maximum lies inside the pool x pool window |
| Poolings.WindowArgHoldsMax | src/neuralnetwork/Pooling2DLayer.cpp:55-73 | the cached `max_idx` is an input cell within reach, it holds the pooled value, and no cell of the window exceeds that value |
| Poolings.AverageAtMostMax | src/neuralnetwork/Pooling2DLayer.cpp:75-87 | the AVERAGE value of a window (its sum times 1 / pool^2) never exceeds the MAX value of the same window |
| Poolings.MaxWindow | src/neuralnetwork/Pooling2DLayer.cpp:55-68 | the nested scan loops end holding the first maximum of the window and its flat index |
| Poolings.SumWindow | src/neuralnetwork/Pooling2DLayer.cpp:76-83 | the nested sum loops end with the sum of the window's cells |
| Poolings.PoolPixel | src/neuralnetwork/Pooling2DLayer.cpp:48-88 | one output pixel gets its window's maximum (MAX) or scaled sum (AVERAGE), and under MAX the argmax index |
| Poolings.PoolPass | src/neuralnetwork/Pooling2DLayer.cpp:43-92 | the four nested loops fill every output cell with its pooled value, and a training MAX pass leaves every window's argmax in the cache; otherwise the cache is untouched |
| Poolings.PoolOutput | src/neuralnetwork/Pooling2DLayer.cpp:28-94 | `forward` throws exactly when the batch is non-empty and its rows are narrower than the furthest cell a window reads; otherwise it returns the pooled matrix |
| Poolings.Pooled | src/neuralnetwork/Pooling2DLayer.cpp:30-34 | the output has one row per sample and depth * output pixels columns |
| Poolings.SpreadWindow | src/neuralnetwork/Pooling2DLayer.cpp:128-143 | adding the distributed gradient to every cell of a window changes exactly the cells of sample b that the window covers, by that amount |
| Poolings.RoutePixel | src/neuralnetwork/Pooling2DLayer.cpp:114-124 | a MAX gradient is added to the cached argmax cell only, and not at all when the cache holds -1 |
| Poolings.SpreadPixel | src/neuralnetwork/Pooling2DLayer.cpp:126-143 | an AVERAGE gradient times 1 / pool^2 is added to every cell of its window |
| Poolings.BackPass | src/neuralnetwork/Pooling2DLayer.cpp:96-150 | the backward loops build exactly the input gradient in which every input cell holds the sum of the contributions of all output cells that route to it |
| Poolings.BackOutput | src/neuralnetwork/Pooling2DLayer.cpp:96-150 | `backward` throws exactly when the gradient batch is non-empty and narrower than the output row; otherwise it returns that input gradient |
| Poolings.InputGradient | src/neuralnetwork/Pooling2DLayer.cpp:97-99 | the input gradient has one row per gradient row and depth * height * width columns |
| Poolings.RoutedConserved | src/neuralnetwork/Pooling2DLayer.cpp:114-124 | with a cache of in-image indices, MAX routing neither loses nor duplicates gradient: the row of dX sums to the sum of the output gradients it received |
| Poolings.MaxBackwardConserves | src/neuralnetwork/Pooling2DLayer.cpp:36-124 | after a training MAX forward pass, the backward gradient of every sample sums to the sum of its output gradients |
| Poolings.Pooling2DLayer.Parameters | include/talawa-ai/neuralnetwork/Pooling2DLayer.hpp:39 | a pooling layer has no parameters |
| Poolings.Pooling2DLayer.Gradients | include/talawa-ai/neuralnetwork/Pooling2DLayer.hpp:40 | and no parameter gradients |
| Poolings.Pooling2DLayer.OutputShape | src/neuralnetwork/Pooling2DLayer.cpp:152-154 | the output shape has depth `depth` and flat size depth * output pixels |
| Poolings.Pooling2DLayer.constructor | src/neuralnetwork/Pooling2DLayer.cpp:15-26 | the layer keeps its geometry and type and starts with an empty index cache |
| Poolings.Pooling2DLayer.Forward | src/neuralnetwork/Pooling2DLayer.cpp:28-94 | returns `forward`'s outcome; a training MAX pass resets the cache to -1 of batch x output cells and, when it completes, leaves every window's argmax there; other passes leave the cache alone; every cached index stays -1 or an input cell |
| Poolings.Pooling2DLayer.Backward | src/neuralnetwork/Pooling2DLayer.cpp:96-150 | returns `backward`'s outcome over the cached argmax indices |
| Poolings.MaxRow | src/neuralnetwork/Pooling2DLayer.cpp:59-67 | the `wx` loop over one window row extends the running maximum (strict `>`, first index kept) by that row's cells |
| Poolings.SumRowLoop | src/neuralnetwork/Pooling2DLayer.cpp:78-82 | the `wx` loop adds one window row's cells to the running sum |
| Poolings.PoolLine | src/neuralnetwork/Pooling2DLayer.cpp:47-88 | the `x` loop fills the next output_width output cells with their pooled values (and their cached argmax in a training MAX pass), leaving the cache alone otherwise |
| Poolings.PoolChannel | src/neuralnetwork/Pooling2DLayer.cpp:46-89 | the `y` loop fills every output cell of channel d |
| Poolings.PoolSample | src/neuralnetwork/Pooling2DLayer.cpp:45-90 | the `d` loop fills every output cell of sample b |
| Poolings.SpreadRow | src/neuralnetwork/Pooling2DLayer.cpp:135-142 | the `wx` loop adds the distributed gradient to each cell of one window row and changes no other cell |
| Poolings.BackPixel | src/neuralnetwork/Pooling2DLayer.cpp:110-144 | one output pixel's gradient is routed (MAX) or spread (AVERAGE), extending the accumulated input gradient by that pixel |
| Poolings.BackLine | src/neuralnetwork/Pooling2DLayer.cpp:109-145 | the `x` loop accumulates every output pixel of one output row |
| Poolings.BackChannel | src/neuralnetwork/Pooling2DLayer.cpp:108-146 | the `y` loop accumulates every output pixel of channel d |
| Poolings.BackSample | src/neuralnetwork/Pooling2DLayer.cpp:107-147 | the `d` loop accumulates every output pixel of sample b |
| Networks.NextShape | src/neuralnetwork/NeuralNetwork.cpp:15-38 | the shape `LayerFactory::create` passes on is the new layer's output shape, never negative in any extent |
| Networks.ShapeBefore | src/neuralnetwork/NeuralNetwork.cpp:69-78 | the `current_shape` that `build` holds before each layer, defined while every configuration so far fits, is never negative |
| Networks.BuildablePrefix | src/neuralnetwork/NeuralNetwork.cpp:69-78 | in a buildable configuration list every layer's shape is defined, its configuration fits it, and the next shape is the one that layer passes on |
| Networks.LayerState.Output | include/talawa-ai/neuralnetwork/Layer.hpp:24 | a `forward` that returns gives one output row of the layer's output width per input row |
| Networks.Run | src/neuralnetwork/NeuralNetwork.cpp:83-90 | running layers 0 .. n - 1 in order keeps one row per sample and stops at the first layer that throws |
| Networks.RunStaysFailed | src/neuralnetwork/NeuralNetwork.cpp:86-88 | once a layer throws, every longer run throws the same error |
| Networks.RunWidth | src/neuralnetwork/NeuralNetwork.cpp:86-88 | a run that gets through layer n - 1 produces rows of that layer's output width |
| Networks.Layer.Parameters | include/talawa-ai/neuralnetwork/Layer.hpp:26 | the parameter list has the fixed length of the layer's kind (two for dense and conv, none for pooling) |
| Networks.Layer.Gradients | include/talawa-ai/neuralnetwork/Layer.hpp:27 | the gradient list has the same length, in the same order |
| Networks.Layer.State | include/talawa-ai/neuralnetwork/Layer.hpp:24-27 | the layer's value keeps consistent shapes and its parameters are the layer's parameters |
| Networks.Layer.Forward | include/talawa-ai/neuralnetwork/Layer.hpp:24 | `forward` on any kind of layer leaves parameters and gradients alone and returns the layer's function of the input; a training pass that returns leaves the caches `backward` needs |
| Networks.Layer.Backward | include/talawa-ai/neuralnetwork/Layer.hpp:25 | `backward` after a training forward keeps parameters and caches, returns an input gradient shaped like that forward's input, and leaves gradients shaped like their parameters |
| Networks.Layer.Store | src/neuralnetwork/NeuralNetwork.cpp:164-166 | assigning equally shaped matrices through the parameter pointers sets exactly those parameters and nothing else (gradients and caches stay) |
| Networks.Create | src/neuralnetwork/NeuralNetwork.cpp:15-38 | `LayerFactory::create` makes a fresh layer of the configuration's kind sized for the input shape, with its initial parameters, returning the shape that layer passes on |
| Networks.CreateDense | src/neuralnetwork/NeuralNetwork.cpp:24-30 | a dense layer takes the input shape's flat size as its input width |
| Networks.CreateConv | src/neuralnetwork/NeuralNetwork.cpp:15-22 | a conv layer takes the input shape's depth, height and width |
| Networks.CreatePool | src/neuralnetwork/NeuralNetwork.cpp:31-38 | and so does a pooling layer |
| Networks.LayerWidths | src/neuralnetwork/NeuralNetwork.cpp:20-36 | a layer made on shape s reads rows of s's flat size and writes rows of the flat size of the shape it passes on, so consecutive layers agree on widths |
| Networks.InitialShapes | src/neuralnetwork/NeuralNetwork.cpp:15-38 | a layer keeps parameters of the shapes it was created with |
| NeuralNetworks.ParamLists | src/neuralnetwork/NeuralNetwork.cpp:113-118 | `getParameters()` of every layer, in layer order |
| NeuralNetworks.GradLists | src/neuralnetwork/NeuralNetwork.cpp:113-118 | `getParameterGradients()` of every layer, in the same order |
| NeuralNetworks.ConcatFitting | src/neuralnetwork/NeuralNetwork.cpp:110-118 | layer lists whose parameters and gradients pair up shape by shape concatenate into `all_params` and `all_grads` that still pair up |
| NeuralNetworks.GradientsFit | src/neuralnetwork/NeuralNetwork.cpp:110-120 | after a backward pass that fitted every layer's gradients, the lists given to the optimizer are parallel and well formed |
| NeuralNetworks.WidthsAgree | src/neuralnetwork/NeuralNetwork.cpp:69-97 | in a network `build` made, each layer's output has the width the next layer reads |
| NeuralNetworks.ForwardAll | src/neuralnetwork/NeuralNetwork.cpp:84-97 | the forward loop returns the layers' run over the input (or the first error), keeps every layer's parameters, and under training leaves each layer primed with its own input and output |
| NeuralNetworks.BackwardAll | src/neuralnetwork/NeuralNetwork.cpp:104-107 | the reverse loop feeds each layer the gradient the next returned; on success every layer's gradients fit its parameters and the result is one row per sample |
| NeuralNetworks.Split | src/neuralnetwork/NeuralNetwork.cpp:113-118 | the flat list cut back into one piece per layer, as many pieces as layers |
| NeuralNetworks.SplitConcat | src/neuralnetwork/NeuralNetwork.cpp:113-118 | cutting a flat list into per-layer pieces and concatenating them gives the list back, each piece as long as its layer's list |
| NeuralNetworks.SplitFits | src/neuralnetwork/NeuralNetwork.cpp:113-120 | a flat list shaped like `all_params` cuts into pieces shaped like each layer's parameters |
| NeuralNetworks.StoreAll | src/neuralnetwork/NeuralNetwork.cpp:120 | every layer takes its piece of the updated list, keeping its gradients |
| NeuralNetworks.WriteBack | src/neuralnetwork/NeuralNetwork.cpp:110-120 | writing through the pointers in `all_params` leaves the layers' concatenated parameters equal to the optimizer's output and the gradients as they were |
| NeuralNetworks.StepAll | src/neuralnetwork/NeuralNetwork.cpp:120 | `optimizer->update` steps the optimizer's state and produces the stepped parameters the optimizer's own contract defines, leaving the layers alone |
| NeuralNetworks.Learn | src/neuralnetwork/NeuralNetwork.cpp:109-122 | step 4 returns the loss it was given and leaves parameters and optimizer state related by one optimizer update |
| NeuralNetworks.Backpropagate | src/neuralnetwork/NeuralNetwork.cpp:99-107 | steps 2 and 3 keep every layer's state and parameters and, on success, fit every layer's gradients |
| NeuralNetworks.TrainLayers | src/neuralnetwork/NeuralNetwork.cpp:91-123 | `train` returns the loss of the forward output, or the forward error; any failure leaves parameters and optimizer state as they were; success is one optimizer update with the new gradients, which backpropagate the corrected loss gradient (see Findings), not Loss.cpp's as-written one |
| NeuralNetworks.NeuralNetwork.Predict | src/neuralnetwork/NeuralNetwork.cpp:83-90 | `predict` returns the layers' run over the input, stopping at the first layer that throws, and leaves the parameters alone |
| NeuralNetworks.NeuralNetwork.Train | src/neuralnetwork/NeuralNetwork.cpp:91-123 | the same for the network's own layers, optimizer and loss, so it too trains with the corrected loss gradient, not Loss.cpp's as-written one |
| NeuralNetworks.NeuralNetwork.Store | src/neuralnetwork/NeuralNetwork.cpp:164-166 | writing equally shaped values through the parameter pointers sets exactly the parameters, leaving the gradients |
| NeuralNetworks.NeuralNetwork.Assemble | src/neuralnetwork/NeuralNetwork.cpp:62-67 | the network `build` assembles takes the configurations, the input shape, the layers, the optimizer and the loss |
| NeuralNetworks.NeuralNetwork.Clone | src/neuralnetwork/NeuralNetwork.cpp:127-182 | `clone` fails exactly when the input shape has zero depth and zero height; otherwise it returns a fresh network with the same configurations and input shape, a copy of every parameter, mean squared error and a fresh SGD at rate 0.01 |
| NeuralNetworks.CloneOf | src/neuralnetwork/NeuralNetwork.cpp:140-181 | rebuilding from the configurations and copying layer by layer gives a network whose parameters equal the source's |
| NeuralNetworks.Rebuild | src/neuralnetwork/NeuralNetwork.cpp:140-153 | the rebuilt network holds freshly initialised layers for the same configurations |
| NeuralNetworks.CloneBuilder | src/neuralnetwork/NeuralNetwork.cpp:141-149 | the builder `clone` prepares holds the same shape and configurations, mean squared error and SGD at 0.01 |
| NeuralNetworks.Adopt | src/neuralnetwork/NeuralNetwork.cpp:156-167 | after the copy loop, the rebuilt network's parameters are the source's, its optimizer untouched |
| NeuralNetworks.CopyParams | src/neuralnetwork/NeuralNetwork.cpp:156-167 | layer i of the copy takes the parameter values of layer i of the source |
| NeuralNetworks.CreateAll | src/neuralnetwork/NeuralNetwork.cpp:69-78 | the build loop makes one fresh, distinct layer per configuration, each sized for the shape the previous one passes on and holding its initial parameters |
| NeuralNetworks.CreateNext | src/neuralnetwork/NeuralNetwork.cpp:71-77 | one turn of that loop adds the next layer and advances `current_shape` |
| NeuralNetworks.NeuralNetworkBuilder.Create | include/talawa-ai/neuralnetwork/NeuralNetwork.hpp:29-34 | a new builder holds the shape, no configurations, SGD at rate 0.01 and mean squared error |
| NeuralNetworks.NeuralNetworkBuilder.Add | src/neuralnetwork/NeuralNetwork.cpp:47-50 | `add` appends one configuration and changes nothing else |
| NeuralNetworks.NeuralNetworkBuilder.SetOptimizer | src/neuralnetwork/NeuralNetwork.cpp:51-55 | `setOptimizer` replaces the optimizer only |
| NeuralNetworks.NeuralNetworkBuilder.SetLossFunction | src/neuralnetwork/NeuralNetwork.cpp:56-60 | `setLossFunction` replaces the loss only |
| NeuralNetworks.NeuralNetworkBuilder.Build | src/neuralnetwork/NeuralNetwork.cpp:61-81 | `build` moves the configurations, optimizer and loss into a fresh network (leaving the builder without them) whose layers are freshly initialised for each configuration in turn |
| NeuralNetworks.BuildNetwork | src/neuralnetwork/NeuralNetwork.cpp:61-81 | the network `build` returns for given configurations, shape, optimizer and loss |
| NeuralNetworks.ForwardStep | src/neuralnetwork/NeuralNetwork.cpp:86-97 | one turn of the forward loop returns layer i's output for its input and, when training, leaves that layer primed with the pair |
| NeuralNetworks.BackwardStep | src/neuralnetwork/NeuralNetwork.cpp:105-106 | one turn of the reverse loop: a gradient of layer i's output shape yields one of its input shape, keeping the layers before it as they were |
| NeuralNetworks.StorePiece | src/neuralnetwork/NeuralNetwork.cpp:113-120 | writing back through `all_params` hands layer i the next piece of the flat list, starting where the earlier layers' pieces end |
| NeuralNetworks.StoreStep | src/neuralnetwork/NeuralNetwork.cpp:120 | layer i takes its piece and every other layer keeps what it held |
| NeuralNetworks.Appended | src/neuralnetwork/NeuralNetwork.cpp:74 | `push_back` of a freshly created layer keeps the built layers distinct and valid, the new one matching its configuration |
| DQN.ArgMax | src/rl/DQNAgent.cpp:177-184 | the exploit scan over a row's first n cells yields a column inside the row (0 for an empty row) |
| DQN.ArgMaxIsFirstMax | src/rl/DQNAgent.cpp:177-184 | that column holds the row's maximum and every column before it is strictly smaller: the first best action |
| DQN.ValidActions | src/rl/DQNAgent.cpp:147-152 | the list of valid actions holds exactly the columns the mask allows (all of them without a mask), each inside the row |
| DQN.CollectValid | src/rl/DQNAgent.cpp:147-152 | the inner explore loop reads the mask exactly when the row has columns the mask covers, and then returns the valid actions |
| DQN.Explore | src/rl/DQNAgent.cpp:143-161 | the explore branch throws exactly when some row has no valid action (or the mask is too small to read); otherwise every row gets one of its valid actions, chosen by its draw |
| DQN.Masked | src/rl/DQNAgent.cpp:166-172 | masking replaces every cell whose mask entry is 0 by -1e9 and keeps the rest |
| DQN.ApplyMask | src/rl/DQNAgent.cpp:166-172 | the `forEach` throws exactly when a non-empty Q matrix is larger than the mask, and otherwise returns the masked Q |
| DQN.GreedyActions | src/rl/DQNAgent.cpp:174-188 | the exploit loop throws exactly on a row without columns and otherwise gives every row its first best column |
| DQN.Act | src/rl/DQNAgent.cpp:134-189 | `act` returns one action per row: when exploring, a valid action of each row (throwing exactly when a row has none); otherwise the first best column of the masked Q |
| DQN.GreedyPicksAllowed | src/rl/DQNAgent.cpp:166-186 | when a row has an allowed action and all its Q values exceed -1e9, the greedy choice after masking is an allowed action |
| DQN.BestNext | src/rl/DQNAgent.cpp:210-216 | `best_next_actions` holds, for every row, the first column of the row's maximum |
| DQN.ChooseBestNext | src/rl/DQNAgent.cpp:210-216 | the `forEach` that keeps column 0 and then any column beating the one held builds exactly that matrix |
| DQN.Future | src/rl/DQNAgent.cpp:219-224 | `future_values` has one cell per row: the target Q at the chosen column, or 0 when that column is not in the row |
| DQN.FutureValues | src/rl/DQNAgent.cpp:219-224 | the `forEach` throws exactly when the target Q has columns and more rows than the choice matrix; otherwise it returns the future values |
| DQN.Targets | src/rl/DQNAgent.cpp:225-236 | the target `map` succeeds exactly when every cell it reads exists, and then each cell is its target cell |
| DQN.ComputeTargets | src/rl/DQNAgent.cpp:208-236 | the three steps of `update` compute the training targets of the current Q, the next Q and the target network's next Q |
| DQN.FutureAtBest | src/rl/DQNAgent.cpp:210-224 | a row's future value is the target network's Q at the online network's first best next action (Double DQN) |
| DQN.TargetsMeaning | src/rl/DQNAgent.cpp:225-236 | the target equals the current Q off the taken action; at the taken action it is the reward when done > 0.5 and reward + gamma * future otherwise |
| DQN.AtMostOneTraining | src/rl/DQNAgent.cpp:190-243 | with training frequency above 1, the counter as written never exceeds 1: `update` trains at most once ever |
| DQN.TrainsOnceThenStops | src/rl/DQNAgent.cpp:190-243 | with a warm buffer from the first call, it trains on the first call and never again |
| DQN.IntendedTrainsEveryF | src/rl/DQNAgent.cpp:193 | with the gate counting every call, n calls with a warm buffer train n / f times |
| DQN.Agent.constructor | src/rl/DQNAgent.cpp:96-100 | an empty replay buffer of the memory size and a zero step counter |
| DQN.Agent.Update | src/rl/DQNAgent.cpp:190-244 | the transition is always stored; the step trains exactly when the counter is a multiple of the frequency and the buffer holds the warm-up size; only a training step advances the counter, and it asks for a target update when the new counter is a multiple of the interval |
| DQN.Blend | src/rl/DQNAgent.cpp:266-273 | the blend of two parameters keeps the source's shape |
| DQN.Blended | src/rl/DQNAgent.cpp:260-275 | one blend per parameter pair |
| DQN.BlendedMeans | src/rl/DQNAgent.cpp:253-273 | blending keeps every shape; each cell is tau * source + (1 - tau) * target; tau = 1 gives the source, tau = 0 the target, and equal networks stay equal |
| DQN.UpdateTargetNetwork | src/rl/DQNAgent.cpp:245-277 | off the interval nothing changes; HARD replaces the target by the copy of the online network; SOFT fails without a target network, and otherwise blends every target parameter when the shapes pair up; the online network is never changed |
| DQN.SoftUpdate | src/rl/DQNAgent.cpp:251-276 | the soft update succeeds exactly when source and target parameters pair up in shape, then the target's parameters become the blend; on failure they stay; the source is untouched |
| DuelingHeads.RowShareIsMean | src/rl/DQNAgent.cpp:22-25 | adding every cell's value over the column count gives the row's mean |
| DuelingHeads.RowMeans | src/rl/DQNAgent.cpp:22-25 | the accumulated mean column has one entry per row |
| DuelingHeads.RowSums | src/rl/DQNAgent.cpp:38-39 | `reduceToCol` gives one entry per row: the row's sum |
| DuelingHeads.AccumulateMeans | src/rl/DQNAgent.cpp:22-44 | the `forEach` accumulation ends with each row's sum over the column count |
| DuelingHeads.Centered | src/rl/DQNAgent.cpp:28-46 | the centring map subtracts each row's mean entry from every cell of the row |
| DuelingHeads.PlusValue | src/rl/DQNAgent.cpp:31-32 | the value map adds V(i, 0) to every cell of row i |
| DuelingHeads.Dueled | src/rl/DQNAgent.cpp:18-34 | Q has the advantage output's shape |
| DuelingHeads.DueledCells | src/rl/DQNAgent.cpp:18-34 | Q(i, j) = A(i, j) - mean of A's row i + V(i, 0) |
| DuelingHeads.DueledRowMean | src/rl/DQNAgent.cpp:18-34 | every row of Q averages to that row's state value V(i, 0): the advantages are identifiable |
| DuelingHeads.CenteredRowSum | src/rl/DQNAgent.cpp:41-46 | each row of the advantage stream's gradient sums to 0 |
| DuelingHeads.DuelingHead.GradientsFit | src/rl/DQNAgent.cpp:57-70 | the head's parameter list is the value stream's two then the advantage stream's two, and each gradient has its parameter's shape |
| DuelingHeads.DuelingHead.OutputShape | src/rl/DQNAgent.cpp:85-94 | `getOutputShape` throws exactly when the value stream does not yield one value, and otherwise is the advantage stream's shape |
| DuelingHeads.DuelingHead.constructor | src/rl/DQNAgent.cpp:10-14 | two fresh dense streams on the same input width: a value stream of one unit and an advantage stream of num_actions units, with the given activation |
| DuelingHeads.DuelingHead.Forward | src/rl/DQNAgent.cpp:16-35 | the parameters stay; the result is the value stream's error, else the advantage stream's, else Q built from the two outputs |
| DuelingHeads.DuelingHead.Backward | src/rl/DQNAgent.cpp:36-55 | the parameters stay; it throws exactly when either stream's backward throws or the two input gradients cannot be added; the value stream is given the row sums of g, the advantage stream g less its row means, and the result is the sum of the two input gradients |
| Genomes.FlattenLength | include/talawa/evo/NeuralGenome.hpp:27-36 | the flattened genes number exactly the cells of all parameters |
| Genomes.FlattenAppend | include/talawa/evo/NeuralGenome.hpp:27-36 | flattening two runs of parameters is flattening each in turn |
| Genomes.FittingLength | include/talawa/evo/NeuralGenome.hpp:27-36 | parameter lists of the same shapes flatten to equally many genes |
| Genomes.Written | include/talawa/evo/NeuralGenome.hpp:46-62 | the parameters `setGenes` leaves: one matrix per parameter |
| Genomes.WrittenFits | include/talawa/evo/NeuralGenome.hpp:46-62 | writing genes never changes a parameter's shape |
| Genomes.FlattenWritten | include/talawa/evo/NeuralGenome.hpp:46-62 | read back, the written parameters are the old cells with the genes written over them in flattened order, as far as the genes go |
| Genomes.SetOwnGenes | include/talawa/evo/NeuralGenome.hpp:27-62 | `setGenes(getGenes())` on a genome fresh from its network leaves the parameters unchanged |
| Genomes.WrittenOwnGenes | include/talawa/evo/NeuralGenome.hpp:46-62 | genes that begin with the flattened parameters write the parameters over themselves |
| Genomes.GenesRoundTrip | include/talawa/evo/NeuralGenome.hpp:27-62 | after `setGenes(g)` with exactly as many genes as cells, flattening the network gives back g |
| Genomes.PushCells | include/talawa/evo/NeuralGenome.hpp:30-34 | the cell loops append one matrix's cells in row-major order |
| Genomes.FlattenParameters | include/talawa/evo/NeuralGenome.hpp:27-36 | the constructor's loops produce the flattened parameters |
| Genomes.WriteCells | include/talawa/evo/NeuralGenome.hpp:51-60 | one matrix's cells take the next genes while there are any; the loop completes exactly when the genes cover the matrix, and reports where the next matrix starts |
| Genomes.WriteRow | include/talawa/evo/NeuralGenome.hpp:52-59 | one row's cells take the next genes while there are any |
| Genomes.WriteGenes | include/talawa/evo/NeuralGenome.hpp:48-62 | the parameter loop writes every matrix in order, completing exactly when the genes cover every cell, and counts the genes used |
| Genomes.WrittenPastGenes | include/talawa/evo/NeuralGenome.hpp:53-58 | a matrix reached after the genes ran out is left unchanged |
| Genomes.NeuralGenome.constructor | include/talawa/evo/NeuralGenome.hpp:24-37 | the genes are the network's parameters flattened, and the fitness is 0 |
| Genomes.NeuralGenome.Copy | include/talawa/evo/NeuralGenome.hpp:38-41 | the copy takes a copy of the network and the same genes and fitness |
| Genomes.NeuralGenome.Assign | include/talawa/evo/NeuralGenome.hpp:16-23 | self-assignment changes nothing; otherwise the genome takes other's network copy, genes and fitness |
| Genomes.NeuralGenome.Predict | include/talawa/evo/NeuralGenome.hpp:43 | `predict` is the brain's prediction and leaves its parameters alone |
| Genomes.NeuralGenome.SetFitness | include/talawa/evo/NeuralGenome.hpp:45 | only the fitness changes |
| Genomes.NeuralGenome.SetGenes | include/talawa/evo/NeuralGenome.hpp:46-68 | the brain's cells take the genes in flattened order; too few genes throw "Not enough genes" and too many throw "Too many genes" after every cell was written, and only success stores the genes |
| Genomes.GenesOf | include/talawa/evo/NeuralGenome.hpp:27-36 | the genes of a network are its parameters flattened |
| Genomes.WriteAll | include/talawa/evo/NeuralGenome.hpp:48-62 | the network's parameters become the written parameters; completion and genes used as for `WriteGenes` |
| Genomes.GenesWritten | include/talawa/evo/NeuralGenome.hpp:46-62 | the values `setGenes` writes, computed without changing the network: shapes kept, complete exactly when the genes cover every cell |
| Populations.Generated | include/talawa/evo/Population.hpp:57-62 | initialising fills n slots, one per generated genome |
| Populations.GeneratedAt | include/talawa/evo/Population.hpp:58-60 | slot i holds the i-th generated genome |
| Populations.Evaluated | include/talawa/evo/Population.hpp:86-93 | evaluation keeps the number of slots |
| Populations.EvaluatedAt | include/talawa/evo/Population.hpp:86-93 | evaluation keeps null slots null and every genome's genes, and gives each genome the fitness the strategy computes for it |
| Populations.Bred | include/talawa/evo/Population.hpp:95-110 | breeding n slots gives n offspring in slot order |
| Populations.FirstNull | include/talawa/evo/Population.hpp:99-102 | the first slot whose crossover is null: every earlier offspring exists |
| Populations.BredAt | include/talawa/evo/Population.hpp:96-108 | slot i of the new generation is offspring i: two selections, their crossover, the mutation and then the fitness |
| Populations.EvaluateFitness | include/talawa/evo/Population.hpp:86-93 | the loop over the active buffer produces exactly the evaluated buffer |
| Populations.CreateNewGeneration | include/talawa/evo/Population.hpp:95-110 | slots before the first null offspring take their offspring, the rest of the spare buffer is untouched, and the loop succeeds exactly when no offspring is null |
| Populations.NullStops | include/talawa/evo/Population.hpp:99-102 | the first null offspring below n is the same below every larger bound |
| Populations.Population.constructor | include/talawa/evo/Population.hpp:31-34 | two buffers of size null slots, no strategies, not initialized |
| Populations.Population.SetSelectionStrategy | include/talawa/evo/Population.hpp:45-47 | only the selection strategy changes |
| Populations.Population.SetCrossoverStrategy | include/talawa/evo/Population.hpp:48-50 | only the crossover strategy changes |
| Populations.Population.SetMutationStrategy | include/talawa/evo/Population.hpp:51-53 | only the mutation strategy changes |
| Populations.Population.SetFitnessStrategy | include/talawa/evo/Population.hpp:54-56 | only the fitness strategy changes |
| Populations.Population.Initialize | include/talawa/evo/Population.hpp:57-62 | the active buffer takes the generated genomes, the population becomes initialized, nothing else changes |
| Populations.Population.Step | include/talawa/evo/Population.hpp:64-83 | `step` throws before touching anything when uninitialized or a strategy is missing; otherwise it scores the active buffer, breeds into the spare one and swaps them; a null offspring throws after the scoring and the slots bred so far, without the swap |
| Populations.StepFillsGeneration | include/talawa/evo/Population.hpp:64-110 | after a successful step every slot of the active buffer holds a genome carrying the fitness the strategy gives it |
| StringGA.Span | examples/ga.example.cpp:25-28 | a run of n consecutive character codes from lo |
| StringGA.CharsetsAreAlnum | examples/ga.example.cpp:25-29 | the gene charset has 62 characters, all letters or digits; the mutation charset adds a space, 63 in all |
| StringGA.GenerateGene | examples/ga.example.cpp:24-37 | a generated genome has as many characters as the solution, each a letter or digit picked by its draw modulo 62, and fitness 0 |
| StringGA.CalculateFitness | examples/ga.example.cpp:43-56 | the loop's total is the sum of the characters' credits |
| StringGA.CreditBound | examples/ga.example.cpp:48-53 | a character earns at most 1, and exactly 1 when it matches the solution |
| StringGA.ScoreBound | examples/ga.example.cpp:43-56 | the fitness never exceeds the number of characters scored, and reaches it exactly when every one matches |
| StringGA.FullScoreIsSolution | examples/ga.example.cpp:43-56 | a genome scores `strlen(solution)` if and only if it is the solution |
| StringGA.Crossover | examples/ga.example.cpp:62-80 | an empty parent gives the other parent's genes; otherwise the child is parent 1 before the cut and parent 2 from it, and `substr` throws exactly when the cut is past the end of parent 2 |
| StringGA.CrossoverSameLength | examples/ga.example.cpp:72-75 | equally long parents never throw and each child character comes from the same position of one parent |
| StringGA.CrossoverSelf | examples/ga.example.cpp:62-80 | a genome crossed with itself gives itself back |
| StringGA.Mutate | examples/ga.example.cpp:86-97 | mutation keeps the length and the fitness |
| StringGA.MutateChangesOne | examples/ga.example.cpp:86-97 | an empty genome is untouched; otherwise exactly the drawn position may change, to a letter, digit or space |
| StringGA.Select | examples/ga.example.cpp:103-118 | the tournament returns nothing exactly when all five drawn slots are null; otherwise a drawn non-null genome whose fitness is at least every contender's, the first contender of that fitness in draw order |
| XorGA.SquaredDifference | examples/xor_ga.example.cpp:47-50 | the squared error folded by `reduce` is never negative and is 0 exactly when the two matrices are equal |
| XorGA.XorFitnessBound | examples/xor_ga.example.cpp:37-54 | the fitness 4 - squared error is at most 4, and equals 4 exactly when the network's outputs are the XOR table |
| XorGA.ExpectedIsXor | examples/xor_ga.example.cpp:39-41 | the expected column, read against the four inputs, is their exclusive or |
| XorGA.FitnessOf | examples/xor_ga.example.cpp:45-51 | a prediction that throws makes the fitness throw; otherwise the prediction is 4 x 1 (else `operator-` would not apply) and the fitness is at most 4 |
| XorGA.CalculateFitness | examples/xor_ga.example.cpp:37-54 | the fitness is computed from the genome's network's prediction on the four inputs, which leaves its parameters alone |
| XorGA.CrossedAt | examples/xor_ga.example.cpp:77-80 | the child genes keep parent 1's length, take parent 2's genes at positions point .. len - 1 and parent 1's elsewhere |
| XorGA.CrossedSelf | examples/xor_ga.example.cpp:77-80 | a genome crossed with itself keeps its genes |
| XorGA.CrossGenes | examples/xor_ga.example.cpp:69-80 | the copy loop produces the crossed genes with the cut at the draw modulo the shorter length |
| XorGA.Crossover | examples/xor_ga.example.cpp:61-83 | the child is a fresh copy of parent 1 whose network takes the crossed genes; it succeeds exactly when their count matches the network's cells, and a parent whose genes match its network always succeeds and yields a child whose genes match its network |
| XorGA.Amount | examples/xor_ga.example.cpp:95-96 | the nudge lies in [-0.1, 0.1] and is 0 exactly for the draw 0.5 |
| XorGA.NudgedChangesOne | examples/xor_ga.example.cpp:93-97 | a mutation changes only the drawn gene, by at most 0.1, and changes nothing exactly for the draw 0.5 |
| XorGA.MutateAsWritten | examples/xor_ga.example.cpp:90-99 | the gene vector takes the nudge but the network keeps its weights, so a genome whose genes matched its network no longer does after any non-zero nudge |
| XorGA.Mutate | examples/xor_ga.example.cpp:90-99 | with the network-aware `setGenes`, the nudged genes are also written into the network, and a synchronised genome stays synchronised |
| XorGA.BestScanIsFirstMax | examples/xor_ga.example.cpp:167-175 | the per-generation scan from -1 finds the first genome of the largest fitness, or stays at -1 and index 0 when every fitness is at most -1 |
| XorGA.GenerationBest | examples/xor_ga.example.cpp:167-175 | the scan loop computes that best fitness and index |
| XorGA.BestEverMonotone | examples/xor_ga.example.cpp:162-180 | the best fitness ever starts at 0, never decreases, and is at least every generation's best so far |
| XorGA.Evolve | examples/xor_ga.example.cpp:163-188 | the driver runs 1 to 1000 generations, stopping exactly at the first whose best reaches 3.9999; the best-ever fitness is the running maximum, and the genome it records is the first best of the generation that set it |
| QTables.Row | include/talawa-ai/rl/QTable.hpp:55-60 | the row `get_q` returns: the stored row of a seen state, else num_actions zeros |
| QTables.MaxOf | include/talawa-ai/rl/QTable.hpp:67 | `max_element` of a non-empty row is one of its values and no value exceeds it |
| QTables.MaxQ | include/talawa-ai/rl/QTable.hpp:62-68 | `get_max_q` is 0 for an unseen state and otherwise the maximum of its row |
| QTables.FirstArgMax | src/rl/QTable.cpp:38-45 | the exploit scan from -infinity with strict `>` returns the first index of the row's maximum (0 when there are no actions) |
| QTables.Greedy | src/rl/QTable.cpp:38-45 | the scan loop computes that index |
| QTables.QTable.constructor | src/rl/QTable.cpp:13-18 | the table starts empty with no stored transition and the given constants |
| QTables.QTable.GetQ | include/talawa-ai/rl/QTable.hpp:55-60 | `get_q` returns the row and inserts the zero row for an unseen state; a seen state leaves the table unchanged |
| QTables.QTable.GetMaxQ | include/talawa-ai/rl/QTable.hpp:62-68 | `get_max_q` reads the table without changing it |
| QTables.QTable.Act | src/rl/QTable.cpp:20-47 | `act` first creates the zero row of an unseen state; with training and a draw below epsilon it returns the random pick, otherwise the first best action of the row, as a 1 x 1 matrix |
| QTables.QTable.Observe | src/rl/QTable.cpp:104-106 | only the stored transition changes |
| QTables.QTable.ReadyToLearn | src/rl/QTable.cpp:107 | ready exactly when a transition was observed |
| QTables.QTable.Learn | src/rl/QTable.cpp:108-133 | the table becomes the learned table of the stored transition, nothing else changes |
| QTables.LearnTouchesOnlyStateAction | src/rl/QTable.cpp:108-133 | a null state leaves the table alone; otherwise only the state's row may be added or changed, keeping its length, and within it only the taken action's cell |
| QTables.LearnOutOfRangeKeepsValues | src/rl/QTable.cpp:121-128 | an action index outside the row only creates the row (as `get_q` did) and changes no value |
| QTables.LearnMovesTowardTarget | src/rl/QTable.cpp:114-132 | for a learning rate in [0, 1] the new Q(s, a) lies between the old value and the target reward + discount * max Q(s'), and equals the target for rate 1 |
| QTables.LearnFixedPoint | src/rl/QTable.cpp:129-132 | when Q(s, a) already equals the target, learning changes no value |
| QTables.TargetWithoutNext | src/rl/QTable.cpp:115-120 | without a next state the target is the reward alone |
| QTables.UnseenStateActsZero | src/rl/QTable.cpp:26-45 | in an unseen state the greedy action is 0 |
| QTables.QTable.SetEpsilon | include/talawa-ai/rl/QTable.hpp:41-42 | only epsilon changes, and `get_epsilon` reads it back |
| QTables.QTable.Load | src/rl/QTable.cpp:71-102 | a file that does not open leaves the table alone; otherwise the table is cleared and takes every line in order until the first malformed line, which throws with that line |
| QTableText.Decimal | src/rl/QTable.cpp:60 | a hash is written as a non-empty run of decimal digits |
| QTableText.DigitRun | src/rl/QTable.cpp:85 | the longest prefix of digits that `stoull` reads |
| QTableText.ParseHash | src/rl/QTable.cpp:85 | `stoull` of the text before the colon yields a value below 2^64, or throws |
| QTableText.Find | src/rl/QTable.cpp:81-87 | `find(c, from)` is the first position from `from` on holding c, or npos when there is none |
| QTableText.Shown | src/rl/QTable.cpp:62-64 | each value is written by the stream's formatting, in order |
| QTableText.SortedKeys | src/rl/QTable.cpp:59 | `std::map` iterates its keys once each, in increasing order |
| QTableText.SaveLines | src/rl/QTable.cpp:53-69 | `save` writes one line per state |
| QTableText.DigitsOfDecimal | src/rl/QTable.cpp:60-85 | the digits written for a hash read back as that hash |
| QTableText.ParseDecimal | src/rl/QTable.cpp:60-85 | `stoull` of a written hash gives the hash |
| QTableText.TokensOfValues | src/rl/QTable.cpp:62-99 | the space-separated values split back into the words written |
| QTableText.ReadPrinted | src/rl/QTable.cpp:94-99 | reading the words written gives each value as the stream reads it back |
| QTableText.ParseSavedLine | src/rl/QTable.cpp:60-100 | a line `save` writes parses back to its hash and values |
| QTableText.LoadSaved | src/rl/QTable.cpp:53-101 | loading the lines written for any list of keys raises no error and holds exactly those keys, each with its row read back |
| QTableText.SaveLoadRoundTrip | src/rl/QTable.cpp:53-101 | `load` after `save` restores every state of the table and no other, with each value read back as the stream formats it (the exact table when formatting round-trips) |
| QTableText.MissingColonStops | src/rl/QTable.cpp:81-84 | a line without a colon throws "Malformed Q-table line: " with the line, after the lines before it were stored |
| QTableText.ErrorIsFinal | src/rl/QTable.cpp:80-101 | once a line throws, later lines are never read |
| RandomAgents.AllowedBelowMeans | include/talawa-ai/rl/RandomAgent.hpp:27-41 | the list of valid moves holds exactly the actions below action_size that the mask allows (cell above 0.5, or every action without a mask), in increasing order |
| RandomAgents.UnmaskedAllowsAll | include/talawa-ai/rl/RandomAgent.hpp:38-41 | without a mask every action below action_size is valid |
| RandomAgents.Act | include/talawa-ai/rl/RandomAgent.hpp:24-54 | `act` throws when the mask is too small to read and otherwise exactly when no move is valid; the result is a 1 x 1 matrix holding the valid move the draw picks, which the mask allows |
| Replay.ReplayBuffer.constructor | src/rl/ReplayBuffer.cpp:3 | an empty buffer with the cursor at slot 0 |
| Replay.ReplayBuffer.Size | src/rl/ReplayBuffer.cpp:5-10 | the size is the number of transitions added, capped at max_size |
| Replay.ReplayBuffer.Add | src/rl/ReplayBuffer.cpp:4-11 | `add` appends while there is room and otherwise overwrites the slot at the cursor; the cursor advances modulo max_size; the ring invariant is kept |
| Replay.ReplayBuffer.Sample | src/rl/ReplayBuffer.cpp:12-25 | `sample` throws exactly when the batch is larger than the buffer; otherwise it returns batch_size stored transitions, the k-th at the k-th draw modulo the size |
| Replay.RingAdd | src/rl/ReplayBuffer.cpp:4-11 | one `add` keeps the ring invariant with the new transition as the most recent |
| Replay.OldestAfterOverwrite | src/rl/ReplayBuffer.cpp:8-10 | overwriting at the cursor drops the oldest entry and appends the new one, read from the new cursor |
| Replay.RingHoldsMostRecent | src/rl/ReplayBuffer.cpp:4-11 | the buffer holds exactly the most recent min(k, max_size) of the k transitions added |
| Schedulers.EveryNEpisodesDivides | include/talawa-ai/rl/Scheduler.hpp:23-25 | `every_n_episodes(n)` holds exactly when the episode is a multiple of n, under C++'s truncated remainder |
| Schedulers.RewardDecreaseAtZero | include/talawa-ai/rl/Scheduler.hpp:38-44 | `on_reward_decrease(0)` holds exactly when the episode reward is below the last reward |
| Schedulers.RewardIncreaseNeverFires | include/talawa-ai/rl/Scheduler.hpp:38-44 | with a non-negative percent, `on_reward_decrease` never holds when the reward did not go down |
| Schedulers.Step | include/talawa-ai/rl/Scheduler.hpp:79-190 | `step()` of every scheduler kind keeps it well defined (a positive step size, a non-empty chain) |
| Schedulers.Reset | include/talawa-ai/rl/Scheduler.hpp:80-198 | `reset()` keeps the scheduler well defined |
| Schedulers.Clone | include/talawa-ai/rl/Scheduler.hpp:81-206 | `clone()` yields a well-defined scheduler |
| Schedulers.Steps | include/talawa-ai/rl/Scheduler.hpp:68 | any number of `step()` calls keeps the scheduler well defined |
| Schedulers.ConstantNeverChanges | include/talawa-ai/rl/Scheduler.hpp:73-84 | a constant scheduler is unchanged by any number of steps and by reset |
| Schedulers.LinearStep | include/talawa-ai/rl/Scheduler.hpp:96-98 | a linear decay step never goes below the minimum and, with a non-negative decay, never increases the value; reset restores the start value |
| Schedulers.LinearAfter | include/talawa-ai/rl/Scheduler.hpp:85-102 | after n steps a linear decay from `start` holds max(min, start - n * decay) |
| Schedulers.ExponentialStep | include/talawa-ai/rl/Scheduler.hpp:115-117 | an exponential decay step never goes below the minimum and, with a factor in [0, 1], never rises above max(min, current); reset restores the start value |
| Schedulers.CompoundedIsPower | include/talawa-ai/rl/Scheduler.hpp:140 | k decays by the factor multiply the start value by factor^k |
| Schedulers.StepDecayAfter | include/talawa-ai/rl/Scheduler.hpp:125-150 | after n steps a step decay has counted n steps and multiplied its start value by the factor once per full step_size steps: start * factor^(n / step_size) |
| Schedulers.ChainedExhausted | include/talawa-ai/rl/Scheduler.hpp:171-179 | once every phase is used up a chain no longer changes on `step()` and reports its last phase's value |
| Schedulers.ChainedPhaseLength | include/talawa-ai/rl/Scheduler.hpp:178-190 | a phase with a positive duration d stays current for d-1 steps and hands over to the next phase at the d-th; a phase with duration <= 0 never hands over; durations are kept |
| Schedulers.ResetIdempotent | include/talawa-ai/rl/Scheduler.hpp:192-198 | reset returns a chain to phase 0 with no steps taken and resets every phase; resetting twice is resetting once |
| Schedulers.CloneIdempotent | include/talawa-ai/rl/Scheduler.hpp:200-206 | a clone of a non-chain is the same scheduler; a cloned chain restarts at phase 0 with the same durations; cloning a clone changes nothing |
| Schedulers.Advance | include/talawa-ai/rl/Scheduler.hpp:246-251 | `maybe_step` steps the scheduler exactly when the condition holds and keeps the binding's name, event and condition |
| Schedulers.Respond | include/talawa-ai/rl/Scheduler.hpp:281-297 | an event leaves a binding that listens to another event untouched |
| Schedulers.AdvanceAll | include/talawa-ai/rl/Scheduler.hpp:281-297 | after an event each binding, in place, has responded to it |
| Schedulers.Fire | include/talawa-ai/rl/Scheduler.hpp:244-286 | a binding calls its setter at most once per event, exactly when it listens to the event and its condition holds, with its stepped value |
| Schedulers.FiredAtMostOnce | include/talawa-ai/rl/Scheduler.hpp:281-297 | an event makes at most one setter call per binding, and none when no binding listens to it |
| Schedulers.AppliedOnePerBinding | include/talawa-ai/rl/Scheduler.hpp:244-303 | `initialize` calls every binding's setter once, in order, with its scheduler's value |
| Schedulers.MaybeStep | include/talawa-ai/rl/Scheduler.hpp:246-251 | the binding after `maybe_step` and the setter calls it made |
| Schedulers.RespondAll | include/talawa-ai/rl/Scheduler.hpp:281-297 | the loop over the bindings leaves them as AdvanceAll and makes the setter calls of Fired |
| Schedulers.ResetBindings | include/talawa-ai/rl/Scheduler.hpp:253-309 | `reset` resets each binding's scheduler in place and changes nothing else |
| Schedulers.ResetEach | include/talawa-ai/rl/Scheduler.hpp:253-309 | the reset loop leaves the bindings reset and calls each setter once with its reset value |
| Schedulers.SchedulerSet.constructor | include/talawa-ai/rl/Scheduler.hpp:322-324 | a set with no bindings and no setter calls |
| Schedulers.SchedulerSet.Add | include/talawa-ai/rl/Scheduler.hpp:275-277 | `add` appends the binding and calls no setter |
| Schedulers.SchedulerSet.OnEvent | include/talawa-ai/rl/Scheduler.hpp:281-297 | one event: every binding responds to it, and the setter calls are those of Fired |
| Schedulers.SchedulerSet.OnStepEvent | include/talawa-ai/rl/Scheduler.hpp:281-288 | `on_step`: OnEvent for the step event |
| Schedulers.SchedulerSet.OnEpisodeEndEvent | include/talawa-ai/rl/Scheduler.hpp:290-297 | `on_episode_end`: OnEvent for the episode-end event |
| Schedulers.SchedulerSet.Initialize | include/talawa-ai/rl/Scheduler.hpp:299-303 | `initialize` keeps the bindings and calls every setter with its current value |
| Schedulers.SchedulerSet.ResetAll | include/talawa-ai/rl/Scheduler.hpp:305-309 | `reset` resets every binding and calls every setter with its reset value |
| Schedulers.SchedulerSet.Values | include/talawa-ai/rl/Scheduler.hpp:312-318 | `values()` lists each binding's name and current value, in order |
| Trainers.StepContext | src/rl/Trainer.cpp:7-47 | the step context carries the episode, the step and total counts each one higher, the episode reward with this step's reward added, and the previous episode's reward |
| Trainers.Episode | src/rl/Trainer.cpp:33-54 | an episode stops at the first step at which the environment is done or max_steps is reached; it adds one to both counters per step and sums the step rewards; it only appends calls |
| Trainers.StopStepFacts | src/rl/Trainer.cpp:40 | the loop runs only while the environment is not done and fewer than max_steps steps were taken, and ends on done or at max_steps |
| Trainers.StepCounts | src/rl/Trainer.cpp:20-51 | each step calls `on_step` once and `learn` once exactly when the agent is ready |
| Trainers.EpisodeCounts | src/rl/Trainer.cpp:20-54 | an episode calls `on_step` once per step taken and `learn` once per step after which the agent was ready |
| Trainers.StepEndFold | src/rl/Trainer.cpp:48-51 | the calls ending a step move the schedulers exactly as their `on_step` does |
| Trainers.EpisodeEndFold | src/rl/Trainer.cpp:79-82 | the calls ending an episode move the schedulers exactly as their `on_episode_end` does |
| Trainers.EndContext | src/rl/Trainer.cpp:74-78 | as written, the episode-end context's last reward equals its episode reward |
| Trainers.EndContextNeverSeesDecrease | src/rl/Trainer.cpp:74-79 | as written, `on_reward_decrease` with a non-negative percent never holds at the end of an episode |
| Trainers.IntendedEndContext | src/rl/Trainer.cpp:74-78 | the corrected episode-end context: this episode's reward and the previous episode's reward as the last reward |
| Trainers.IntendedEndContextSeesDecrease | src/rl/Trainer.cpp:74-79 | with the corrected context, `on_reward_decrease(0)` holds exactly when the episode reward fell below the previous one |
| Trainers.NextEpisode | src/rl/Trainer.cpp:71-87 | one turn of the loop counts one more episode, keeps its reward as the last reward, adds it to the total, and stops exactly when the threshold is met; the schedulers get the corrected episode-end context (the previous episode's reward as last reward), not the one Trainer.cpp:74-78 builds |
| Trainers.TrainingFacts | src/rl/Trainer.cpp:55-90 | `train` runs at most `episodes` episodes, stops right after the first whose reward meets the threshold and not before, keeps the last episode's reward, and returns the sum of the rewards of the episodes it ran |
| Trainers.Trainer.constructor | src/rl/Trainer.cpp:4-5 | a trainer over the given environment and agent that has made no calls |
| Trainers.Trainer.RunStep | src/rl/Trainer.cpp:20-31 | `run_step` acts, steps the environment, lets the agent observe and learns only when it is ready; it returns the step's reward |
| Trainers.Trainer.StepEnd | src/rl/Trainer.cpp:48-51 | the schedulers' `on_step` then the step callback when set; the schedulers follow the calls |
| Trainers.Trainer.EpisodeEnd | src/rl/Trainer.cpp:79-82 | the schedulers' `on_episode_end` then the episode callback when set; the schedulers follow the calls |
| Trainers.Trainer.StepOn | src/rl/Trainer.cpp:41-51 | one turn of the episode loop: counters, reward and calls as StepContext says |
| Trainers.Trainer.RunEpisode | src/rl/Trainer.cpp:33-54 | `run_episode` resets the environment and returns the steps, reward and total steps of Episode; the schedulers end as the calls drive them, with the corrected episode-end context rather than Trainer.cpp's, so after a reward drop their state can differ from the program's |
| Trainers.Trainer.EpisodeOn | src/rl/Trainer.cpp:72-87 | one turn of the `train` loop, as NextEpisode, with the corrected episode-end context rather than Trainer.cpp's |
| Trainers.Trainer.Train | src/rl/Trainer.cpp:64-90 | `train` initializes the schedulers, then runs episodes as Training does and returns the summed reward; the schedulers end as the calls drive them, with the corrected episode-end context rather than Trainer.cpp's, so after a reward drop their state can differ from the program's |
| Trainers.Trainer.Notify | src/rl/Trainer.cpp:48-82 | the schedulers react to the event and the callback calls are recorded, so the schedulers stay the fold of all calls so far |
| Arenas.MaxOf | include/talawa/rl/Arena.hpp:244 | the running maximum exists exactly when some reward was recorded, and it is the largest recorded reward |
| Arenas.MinOf | include/talawa/rl/Arena.hpp:245 | the running minimum exists exactly when some reward was recorded, and it is the smallest recorded reward |
| Arenas.Count | include/talawa/rl/Arena.hpp:46 | the history's size as a float: zero when empty, at least one otherwise |
| Arenas.CountIsSize | include/talawa/rl/Arena.hpp:46 | the float count is the history's length |
| Arenas.AvgReward | include/talawa/rl/Arena.hpp:42-47 | `avg_reward` is 0 for an empty history and otherwise the value whose product with the count is the sum |
| Arenas.AvgWithinRange | include/talawa/rl/Arena.hpp:42-47 | the average lies between the smallest and the largest recorded reward |
| Arenas.Variance | include/talawa/rl/Arena.hpp:49-57 | `variance` is 0 for fewer than two rewards |
| Arenas.VarianceNonNegative | include/talawa/rl/Arena.hpp:49-57 | the mean of squares minus the squared mean is never negative (in exact arithmetic) |
| Arenas.WinRate | include/talawa/rl/Arena.hpp:59-62 | `win_rate` is 0 with no games, between 0 and 100 when the wins do not exceed the games, and 100 when every game was won |
| Arenas.ConsistentWinRate | include/talawa/rl/Arena.hpp:59-62 | for metrics a tournament keeps, the win rate is a percentage |
| Arenas.Classify | include/talawa/rl/Arena.hpp:248-256 | a score within 0.0001 of the top is a win when it is the only one so close and a draw otherwise; any other score is a loss |
| Arenas.Record | include/talawa/rl/Arena.hpp:239-257 | recording a round appends the score to the history and adds one to exactly the counter of its outcome |
| Arenas.RecordKeepsConsistent | include/talawa/rl/Arena.hpp:239-257 | recording keeps wins + losses + draws equal to the games played and the extremes equal to those of the history |
| Arenas.RoundScores | include/talawa/rl/Arena.hpp:215-220 | `episode_scores` holds exactly the agents of the order, each with its total reward |
| Arenas.HighestUpTo | include/talawa/rl/Arena.hpp:216-225 | after j agents the highest score exists exactly when j > 0 and is the largest of their scores |
| Arenas.VisitFacts | include/talawa/rl/Arena.hpp:239-257 | after visiting the first j agents, exactly those are updated and every other agent's metrics are unchanged |
| Arenas.RoundFacts | include/talawa/rl/Arena.hpp:227-257 | a round updates exactly the agents of the order, with the number of agents close to the top as the winner count |
| Arenas.AtMostOneWin | include/talawa/rl/Arena.hpp:227-256 | at most one agent wins a round |
| Arenas.TopIsClose | include/talawa/rl/Arena.hpp:216-235 | the top scorer is among the agents close to the top, so a round has at least one winner or draw |
| Arenas.PlayedFacts | include/talawa/rl/Arena.hpp:202-260 | after k rounds every agent of the order has k recorded scores and consistent metrics; with no rounds or no agents there are no entries |
| Arenas.PlayedNext | include/talawa/rl/Arena.hpp:208-258 | one more round applies one more PlayedRound to the stats of the rounds before |
| Arenas.CollectScores | include/talawa/rl/Arena.hpp:214-225 | the collection loop yields RoundScores and the highest score |
| Arenas.UpdateStats | include/talawa/rl/Arena.hpp:227-257 | the counting and update loops yield PlayedRound |
| Arenas.PlayRound | include/talawa/rl/Arena.hpp:208-258 | one round turns the stats of the rounds before into those of one more round |
| Arenas.Tournament | include/talawa/rl/Arena.hpp:202-260 | `tournament` reports `rounds` episodes played and the per-agent metrics of Played |
| Spaces.ContinuousSpace | include/talawa/env/types.hpp:20-28 | `Space::Continuous` is a continuous space keeping the given shape and bounds |
| Spaces.DiscreteSpace | include/talawa/env/types.hpp:30-37 | `Space::Discrete(n)` is a discrete space of shape {1} with bounds 0 and n |
| Spaces.BoundAt | include/talawa/env/types.hpp:38-47 | a single stored bound serves every index; otherwise the bound at index i |
| Spaces.N | include/talawa/env/types.hpp:48-51 | `n()` throws exactly on a continuous space, and otherwise is the upper bound truncated to an int |
| Spaces.DiscreteRoundTrip | include/talawa/env/types.hpp:30-51 | `Discrete(n).n()` is n, and its bounds at any index are 0 and n |
| Spaces.ContinuousHasNoSize | include/talawa/env/types.hpp:20-51 | `n()` of any continuous space throws |
| Spaces.NoActionIsEmpty | include/talawa/env/types.hpp:59-64 | `Action::None` is the well-formed empty matrix |
| Environments.Scalar | src/env/FrozenLake.cpp:25-29 | a 1 x 1 observation holding the given value |
| Environments.Cleared | include/talawa/env/interfaces/IEnvironment.hpp:13-25 | resetting the reports keeps exactly the registered agents, their ids and names, each with the empty `StepReport{}` |
| Environments.WithReport | include/talawa/env/interfaces/IEnvironment.hpp:21-34 | writing one agent's report changes that agent's report only |
| Environments.ReportRewrite | include/talawa/env/interfaces/IEnvironment.hpp:21-34 | two report writes for the same agent leave the second |
| Environments.Credited | include/talawa/env/interfaces/IEnvironment.hpp:37-68 | crediting a reward adds it to the agent's total, counting a missing total as 0, and changes no other total |
| Environments.Registry.constructor | include/talawa/env/interfaces/IEnvironment.hpp:33-37 | an environment with the given turn order and no agents, instances or rewards |
| Environments.Registry.TotalReward | include/talawa/env/interfaces/IEnvironment.hpp:62-68 | `get_total_reward` is the stored total, or 0 for an agent that has none |
| Environments.Registry.GetAgent | include/talawa/env/interfaces/IEnvironment.hpp:83-85 | `get_agent` throws exactly for an id with no bound instance and otherwise returns it |
| Environments.Registry.GetAgentName | include/talawa/env/interfaces/IEnvironment.hpp:86-88 | `get_agent_name` throws exactly for an unregistered id and otherwise returns its name |
| Environments.Registry.IsAgentAvailable | include/talawa/env/interfaces/IEnvironment.hpp:90-92 | an agent is available exactly when `get_agent` would find its instance |
| Environments.Registry.DefaultLegalMask | include/talawa/env/interfaces/IEnvironment.hpp:59-61 | the default legal mask is absent |
| Environments.Registry.RegisterAgent | include/talawa/env/interfaces/IEnvironment.hpp:72-81 | `register_agent` rewrites the agent's data with its name and an empty report, binds the instance only when none is bound, and leaves the rewards alone |
| GameStates.OneHot | src/env/LineEnvironment.cpp:19-26 | a 1 x n observation that is 1 exactly at column k, and all zeros when k is not a column |
| GameStates.OneHotInjective | src/env/GraphEnvironment.cpp:138-145 | two one-hot observations are equal exactly when their hot columns are |
| Corridors.NormalizedRange | src/env/Corridor.cpp:16-21 | the observation maps the corridor onto [-1, 1]: position 0 to -1 and the goal to 1 |
| Corridors.Corridor.constructor | src/env/Corridor.cpp:5-7 | agent 0 alone, a start position in the first half of the corridor, not done, and a zero reward total |
| Corridors.Corridor.Reset | src/env/Corridor.cpp:10-14 | `reset` starts at the draw modulo goal/2, so in the first half, clears done and zeroes agent 0's total; reports are kept |
| Corridors.Corridor.Observe | src/env/Corridor.cpp:16-21 | `observe` is a 1 x 1 matrix holding position / goal * 2 - 1 |
| Corridors.Corridor.Step | src/env/Corridor.cpp:23-53 | `step` throws once done and for an unregistered agent without changing anything; otherwise it records the observation and action, throws on an action other than 0 or 1 with only that written, moves left (not below 0) or right (not past the goal), ends the episode at the goal with reward 1 and otherwise costs 0.01, and credits the reward to the agent's total |
| FrozenLakes.RewardAt | src/env/FrozenLake.cpp:39-57 | the reward is 1 exactly at the goal, -1 exactly on a hole, and -0.01 exactly where the episode goes on |
| FrozenLakes.FrozenLake.constructor | src/env/FrozenLake.cpp:8-15 | agent 0 alone at position 0, not done, with a zero reward total |
| FrozenLakes.FrozenLake.Reset | src/env/FrozenLake.cpp:16-24 | `reset` returns to position 0, clears done, zeroes agent 0's total and empties every report |
| FrozenLakes.FrozenLake.Observe | src/env/FrozenLake.cpp:25-29 | `observe` is a 1 x 1 matrix holding the position |
| FrozenLakes.FrozenLake.Last | src/env/FrozenLake.cpp:69-71 | `last` throws exactly when agent 0 is not registered and otherwise returns its report |
| FrozenLakes.FrozenLake.Step | src/env/FrozenLake.cpp:30-68 | `step` throws once done or for a move outside 0..3 without changing anything; otherwise it advances by the move, clamped to the last cell, ends on a hole or the goal, credits the reward of the new cell, and writes the full report, throwing after the move when agent 0 is not registered |
| FrozenLakes.FrozenLake.Snapshot | src/env/FrozenLake.cpp:81-83 | the snapshot is the position |
| FrozenLakes.FrozenLake.Restore | src/env/FrozenLake.cpp:84-93 | `restore` puts the agent at the snapshot, done exactly on a hole or the goal, and empties every report; snapshot after restore gives the state back |
| FrozenLakes.WalkStaysOnLake | src/env/FrozenLake.cpp:40-44 | any sequence of valid moves never moves backwards and never leaves the lake |
| FrozenLakes.WalkStopsAtEnd | src/env/FrozenLake.cpp:31-57 | once a walk reaches a hole or the goal, further moves change nothing |
| LineEnvironments.LineEnvironment.constructor | src/env/LineEnvironment.cpp:11-12 | a line of the given length with the walker at 0 and the episode running |
| LineEnvironments.LineEnvironment.Reset | src/env/LineEnvironment.cpp:13-18 | `reset` puts the walker at the drawn start in [0, length-2] with the episode running, which is on the line |
| LineEnvironments.LineEnvironment.Observe | src/env/LineEnvironment.cpp:19-26 | `observe` is a 1 x length row, 1 exactly at the position and all zeros when the position is off the line |
| LineEnvironments.LineEnvironment.Snapshot | src/env/LineEnvironment.cpp:50-53 | the snapshot is the position and the done flag |
| LineEnvironments.LineEnvironment.Restore | src/env/LineEnvironment.cpp:54-58 | `restore` puts back the snapshot's state: snapshot after restore gives the state back |
| LineEnvironments.LineEnvironment.Step | src/env/LineEnvironment.cpp:27-49 | `step` throws once done; otherwise action 0 moves left and any other right, the episode ends exactly off the left end or at length-1, the reward is 1 at the goal, -1 off the left end and -0.01 otherwise, the transition holds the states before and after, and a walk on the line stays on it |
| GraphEnvironments.ClampAction | src/env/GraphEnvironment.cpp:154-158 | the action index is clamped into [0, max_edges): kept when inside, 0 below, max_edges-1 above |
| GraphEnvironments.GraphEnvironment.constructor | src/env/GraphEnvironment.cpp:8-20 | a graph of num_nodes nodes with max_edges empty slots each, at the start node, not done |
| GraphEnvironments.GraphEnvironment.AddEdge | src/env/GraphEnvironment.cpp:22-31 | `add_edge` throws for a node outside the graph, else for a slot out of range, changing nothing; otherwise it sets exactly that slot to the new edge |
| GraphEnvironments.GraphEnvironment.Reset | src/env/GraphEnvironment.cpp:133-135 | `reset` returns to the start node with the episode running and keeps the edges |
| GraphEnvironments.GraphEnvironment.Observe | src/env/GraphEnvironment.cpp:137-145 | `observe` is a 1 x num_nodes row that is 1 exactly at the current node |
| GraphEnvironments.GraphEnvironment.Snapshot | src/env/GraphEnvironment.cpp:191-194 | the snapshot is the node and the done flag |
| GraphEnvironments.GraphEnvironment.Restore | src/env/GraphEnvironment.cpp:196-200 | `restore` puts back the snapshot's state and keeps the edges |
| GraphEnvironments.GraphEnvironment.Step | src/env/GraphEnvironment.cpp:147-189 | `step` throws once done; otherwise it follows the edge in the clamped slot: an empty slot stays put at -0.1, a trap ends the episode at -1, the goal ends it with the edge's reward, any other edge moves and pays its reward; the transition holds the states before and after |
| GraphEnvironments.GraphEnvironment.LegalMask | src/env/GraphEnvironment.cpp:219-226 | the legal mask is a 1 x max_edges row, 1 exactly at the slots of the current node that hold an edge |
| SticksGame.MaskMatchesAccepts | include/talawa/env/SticksGameEnvironment.hpp:50-110 | the legal mask marks exactly the actions `step` accepts: 1 to 3 sticks and no more than remain |
| SticksGame.StickGame.constructor | include/talawa/env/SticksGameEnvironment.hpp:21-25 | a game of num_sticks sticks between PLAYER_1 and PLAYER_2, PLAYER_1 to move |
| SticksGame.StickGame.Reset | include/talawa/env/SticksGameEnvironment.hpp:28-34 | `reset` puts back 21 sticks whatever the initial count, empties every report, and keeps the turn, done and the totals |
| SticksGame.StickGame.Observe | include/talawa/env/SticksGameEnvironment.hpp:36-41 | `observe` is a 1 x 1 matrix holding the sticks left, for either agent |
| SticksGame.StickGame.Step | include/talawa/env/SticksGameEnvironment.hpp:44-96 | `step` throws for an unregistered mover without changes; it records the observation and action, then throws for a request outside 1..3 or above what remains; otherwise it takes the sticks, and taking the last one costs the mover 1 and pays the other 1 (both Terminated) while any other move reports 0 and Running; the turn passes and done records whether the sticks ran out |
| SticksGame.StickGame.Settle | include/talawa/env/SticksGameEnvironment.hpp:64-95 | the end of `step` once the sticks are taken: rewards, statuses, totals, turn and done as in Step, throwing midway when the other agent is unregistered |
| SticksGame.StickGame.LegalMask | include/talawa/env/SticksGameEnvironment.hpp:99-110 | the mask is a 1 x 3 row whose first min(3, remaining) entries are 1 and the rest 0 |
| SticksGame.StickGame.Snapshot | include/talawa/env/SticksGameEnvironment.hpp:112-115 | the snapshot is the count cast to `uint8_t`: below 256, congruent to it modulo 256, and equal to it when it fits |
| SticksGame.StickGame.Restore | include/talawa/env/SticksGameEnvironment.hpp:116-118 | `restore` sets the count and nothing else |
| TicTacToes.InBoundsExactly | src/env/TicTacToe.cpp:53-58 | the truncating bounds test of `step` lets through exactly the indices 0..8, each on its own row and column |
| TicTacToes.Locate | src/env/TicTacToe.cpp:53-58 | the index names a cell exactly when it is in 0..8, and then the cell (index / 3, index % 3) |
| TicTacToes.WonHasLine | src/env/TicTacToe.cpp:70-82 | a win found by the scan of `step` is one of the eight lines of three |
| TicTacToes.LineIsWon | src/env/TicTacToe.cpp:70-82 | each of the eight lines of three, filled with the mark, is found by the scan |
| TicTacToes.Flat | src/env/TicTacToe.cpp:18-27 | the observation is a 1 x 9 row holding cell (r, c) at column 3r + c |
| TicTacToes.MarkDrawnReports | src/env/TicTacToe.cpp:111-119 | a draw gives every agent of the order reward 0 and Terminated and leaves the other agents' data alone |
| TicTacToes.MarkDrawnStops | src/env/TicTacToe.cpp:114-118 | the draw loop stops, throwing, at the first agent of the order with no data |
| TicTacToes.DrawLoop | src/env/TicTacToe.cpp:111-119 | the draw loop yields MarkDrawn and succeeds exactly when every agent of the order has data |
| TicTacToes.CheckWin | src/env/TicTacToe.cpp:70-82 | the scan reports a win exactly when a row, a column or a diagonal holds the mark three times |
| TicTacToes.IsDraw | src/env/TicTacToe.cpp:100-110 | the scan reports a draw exactly when no cell is empty |
| TicTacToes.TicTacToe.constructor | src/env/TicTacToe.cpp:4-6 | agents 0 and 1, an empty board, agent 0 to move, not done, both totals zero |
| TicTacToes.TicTacToe.Reset | src/env/TicTacToe.cpp:7-17 | `reset` empties the board, gives agent 0 the move, clears done, zeroes both totals and empties every report |
| TicTacToes.TicTacToe.Observe | src/env/TicTacToe.cpp:18-27 | `observe` flattens the board row by row |
| TicTacToes.TicTacToe.LegalMask | src/env/TicTacToe.cpp:29-41 | the legal mask is a 1 x 9 row, 1 exactly at the cells `step` accepts |
| TicTacToes.TicTacToe.Step | src/env/TicTacToe.cpp:43-128 | `step` throws once done or for an unregistered mover without changes; it records the observation and action, throws for an index off the board or on a taken cell; otherwise it places the mover's mark (1 for agent 0, -1 for agent 1), and then a line wins (mover +1, other -1, both Terminated), a full board draws (0 and Terminated for all) and otherwise the mover reports 0, Running, and the turn passes; cells only ever hold 0, 1 or -1 |
| TicTacToes.TicTacToe.Place | src/env/TicTacToe.cpp:53-65 | the checks on the index and the placing of the mark, then the conclusion of Step |
| TicTacToes.TicTacToe.Play | src/env/TicTacToe.cpp:63-67 | the mark is placed on the accepted cell and the move concluded as Step says |
| TicTacToes.TicTacToe.Settle | src/env/TicTacToe.cpp:69-127 | win, draw or continue, with the reports, totals, turn and done of Step |
| TicTacToes.TicTacToe.ConcludeWin | src/env/TicTacToe.cpp:84-98 | a win: the mover +1 and Terminated, the other agent -1 and Terminated, both totals credited, done |
| TicTacToes.TicTacToe.ConcludeDraw | src/env/TicTacToe.cpp:111-119 | a draw: reports as MarkDrawn, totals unchanged, done; it succeeds exactly when every agent has data |
| TicTacToeEnvironments.Perspective | include/talawa-ai/env/TicTacToeEnvironment.hpp:37-40 | the board as seen by the player: '1' at its cells, '0' at empty ones, '2' at the opponent's, one digit per cell |
| TicTacToeEnvironments.DigitsBelow | include/talawa-ai/env/TicTacToeEnvironment.hpp:44-53 | a run of n digits is worth less than 10^n |
| TicTacToeEnvironments.DigitsInjective | include/talawa-ai/env/TicTacToeEnvironment.hpp:44-53 | two digit runs of one length with the same value are equal |
| TicTacToeEnvironments.ParseDigits | include/talawa-ai/env/TicTacToeEnvironment.hpp:46-47 | `stoull` reads a non-empty run of digits as its value when it is in range, so the fallback is not taken |
| TicTacToeEnvironments.HashIsPerspective | include/talawa-ai/env/TicTacToeEnvironment.hpp:32-55 | on a nine-cell board `hash` is the nine-digit perspective number, below 10^9, and two states hash alike exactly when they look the same to the player to move |
| TicTacToeEnvironments.CheckWin | include/talawa-ai/env/TicTacToeEnvironment.hpp:171-184 | `check_win` holds exactly when one of the three rows, three columns or two diagonals is the player's |
| TicTacToeEnvironments.IsBoardFull | include/talawa-ai/env/TicTacToeEnvironment.hpp:186-191 | `is_board_full` holds exactly when no cell is empty |
| TicTacToeEnvironments.OutcomeFor | include/talawa-ai/env/TicTacToeEnvironment.hpp:126-130 | the game is Ongoing exactly while not done, a Draw exactly when done with no winner, a Win exactly when done and won by the player, and a Loss otherwise |
| TicTacToeEnvironments.OutcomesOfAWin | include/talawa-ai/env/TicTacToeEnvironment.hpp:126-130 | a game won by PLAYER_1 is a win for it and a loss for PLAYER_2 |
| TicTacToeEnvironments.TicTacToeEnvironment.constructor | include/talawa-ai/env/TicTacToeEnvironment.hpp:19-60 | a new game: empty board, PLAYER_1 to move, not done, no winner |
| TicTacToeEnvironments.TicTacToeEnvironment.Reset | include/talawa-ai/env/TicTacToeEnvironment.hpp:62 | `reset` returns to the start state |
| TicTacToeEnvironments.TicTacToeEnvironment.Observe | include/talawa-ai/env/TicTacToeEnvironment.hpp:64-72 | `observe` is a 1 x 10 row: the nine cells then the player to move |
| TicTacToeEnvironments.TicTacToeEnvironment.LegalMask | include/talawa-ai/env/TicTacToeEnvironment.hpp:137-143 | the legal mask is a 1 x 9 row, 1 exactly at the empty cells |
| TicTacToeEnvironments.TicTacToeEnvironment.Restore | include/talawa-ai/env/TicTacToeEnvironment.hpp:112-118 | `restore` puts back the snapshot's state: snapshot after restore gives it back |
| TicTacToeEnvironments.TicTacToeEnvironment.Step | include/talawa-ai/env/TicTacToeEnvironment.hpp:74-110 | `step` on a cell outside 0..8 or already taken ends the game at -10 and leaves the board alone; otherwise it writes the mover's id, and a completed line makes the mover the winner at +1, a full board ends the game at +0.01, and otherwise the other player moves at -0.1; the transition holds the states before and after |
| Datasets.FirstBad | src/utils/Dataset.cpp:23-31 | the first batch position whose source row cannot be read from both matrices; every earlier one can |
| Datasets.Dataset.constructor | include/talawa-ai/utils/Dataset.hpp:15-18 | `Dataset() = default`: no indices, two empty matrices, size 0 |
| Datasets.Dataset.Of | src/utils/DataLoader.cpp:102-108 | the loader's dataset: the given matrices and the indices 0 .. rows-1 |
| Datasets.Dataset.Shuffle | src/utils/Dataset.cpp:6-12 | `shuffle` permutes the indices (same length, same multiset) and changes nothing else |
| Datasets.Dataset.Splice | src/utils/Dataset.cpp:14-32 | `splice` throws on bounds outside start < end <= size() before writing anything; otherwise both batches get end-start rows, batch row k copied from row indices[start+k], and an index outside a matrix throws mid-copy with the rows before it copied |
| Datasets.CopiedBatch | src/utils/Dataset.cpp:23-31 | a batch copied in full holds, cell by cell, the source rows named by the indices |
| Datasets.CopyRow | src/utils/Dataset.cpp:25-30 | the column loop copies one source row into the batch row and keeps the rows before it |
| DataLoaders.CommaAt | src/utils/DataLoader.cpp:45 | `getline(ss, cell, ',')` stops at the first comma or the end of the line |
| DataLoaders.CellsHaveNoComma | src/utils/DataLoader.cpp:45 | no cell holds a comma |
| DataLoaders.CellsJoin | src/utils/DataLoader.cpp:45 | the cells joined with commas give back the line, a trailing comma apart (which makes no empty last cell) |
| DataLoaders.StripCR | src/utils/DataLoader.cpp:47-50 | a trailing carriage return is removed, and only that |
| DataLoaders.RowUpToLabel | src/utils/DataLoader.cpp:42-64 | the label row keeps num_classes entries and is one-hot or all zero, and stays zero until the label column is read |
| DataLoaders.NegativeLabelIndexLabelsNothing | src/utils/DataLoader.cpp:54-59 | with a negative label index no cell is the label, so every label row is zero |
| DataLoaders.FeaturesInOrder | src/utils/DataLoader.cpp:45-64 | when every cell parses and none is the label, the features are the cells' values divided by the scale, in order |
| DataLoaders.ParseLine | src/utils/DataLoader.cpp:39-69 | the cell loop of a line yields its features and its label row |
| DataLoaders.Body | src/utils/DataLoader.cpp:27-29 | with skip_header the first line is not read |
| DataLoaders.TableShape | src/utils/DataLoader.cpp:71-88 | every accepted feature row has the first accepted row's non-zero width, each has a one-hot-or-zero label row of num_classes entries |
| DataLoaders.EmptyLineIgnored | src/utils/DataLoader.cpp:37 | an empty line changes nothing |
| DataLoaders.PrefixTable | src/utils/DataLoader.cpp:36-89 | the result after n lines does not depend on the lines after them |
| DataLoaders.LoadCsv | src/utils/DataLoader.cpp:16-111 | `loadCSV` throws for a negative class count and exactly when no row was accepted; otherwise the dataset holds the accepted rows as features and labels of equal row counts, with indices 0 .. n-1, and reports the dropped rows |

## Left out

- IEEE-754 rounding: cells are `real`, so the i-k-j and blocked `dot` paths agree exactly, Adam has no rounding, and `==` on matrices compares exact values. Infinities and NaN do not exist in the model.
- `exp`, `log`, `tanh` and `sqrt` are uninterpreted beyond positivity, so no property depends on their values.
- Integer width: `int` and `size_t` are unbounded. The overflow of `Shape::size` (include/talawa/core/Shape.hpp:59) and of the `r * cols + c` index arithmetic in `Matrix` is not modelled.
- The pseudo-random generators (`rand()`, `std::mt19937`, `std::random_device`, `std::uniform_*`/`std::normal_distribution`) are parameters. Initializer draws are the functions `UniformDraw`/`NormalDraw` of the seed and the cell index, so "the same seed gives the same weights" holds by construction.
- OpenMP `parallel for`, `omp atomic` and AVX intrinsics are sequential loops. Data races and the thread-count choice in `dot` are not modelled.
- Printing and rendering are not modelled, and neither are `Matrix::print`, `Matrix::random`, the profiling counters or the progress logs (`printf` in `Trainer::train`, the DataLoader report).
- File I/O: `QTable::save`/`load` are modelled over the list of lines written or read, with float formatting and parsing as the parameters `show`/`read`. A file that does not open is `None`. `DataLoader::loadCSV` is modelled over the lines of the file, with `std::stof` as the parameter `parse`. Its "Could not open file" error is not modelled.
- `HuberLoss` is only declared (include/talawa-ai/neuralnetwork/Loss.hpp:34) and has no body, so it is not part of this model. `LossKinds` has an `Empty` kind for a network built without a loss.
- The DQN agent's constructor, its network save/load and its `render` are not modelled, and neither is `DuelingHead` as a network layer kind. `DuelingHeads.DuelingHead` is a class on its own, and the agent's networks are `NeuralNetwork`s.
- `DQN.SoftUpdate` checks that every parameter pair has the same shape before writing any of them. The source writes pair by pair, so a mismatch found late leaves the earlier pairs updated, and a target with fewer parameters is read out of range. The model differs from the source only on a target network of a different architecture.
- `DQN.Agent.Update` models the training gate as written: only a training step advances `steps_done`. That is the consequence `DQN.AtMostOneTraining` states. `DQN.IntendedTrainsEveryF` states the behaviour of a counter that advances on every call, for comparison.
- `NeuralGenomeGenerator`, `Matrix::forEach` and the examples' `main` loops are not modelled. Only the XOR driver's best-ever tracking and stopping rule are modelled, in `XorGA.Evolve`, with each generation's fitnesses as a parameter.
- `Arena::match` and the renderer are not modelled. Only the per-agent totals a match leaves enter the tournament round, as a parameter. `TournamentStats` and `MatchResult` printing are not modelled.
- Scheduler `log_callback`/`set_log_callback`, the fluent `SchedulerBuilder`/`ChainedSchedulerBuilder`/`chain()`/`schedule()` construction helpers and `empty()` are not modelled.
- `get_action_space`, `get_observation_space`, `clone`, `render`, `name` and `get_observation_shape` of the environments are not modelled. `GraphEnvironment::create_convoluted_graph` (a fixed sequence of `add_edge` calls) and `get_edges` are not modelled either. `Corridor::last` and `get_active_agent` are declared without a body, and the model reads the active agent as the first registered one (Corridor, FrozenLake) or the one at the active index (sticks, TicTacToe).
- `Convolutions`: col2im(im2col(X)) == X for non-overlapping windows (stride = kernel, padding 0) is not proved. Only the adjointness of the two (`Convolutions.Col2ImAdjoint`) and the two reshape round trips (`Convolutions.PixelMajorOfSamples`, `Convolutions.SamplesOfPixelMajor`) are proved.
- Aliasing: the optimizers receive parameter and gradient matrices that are pairwise distinct objects (`Optimizers.Separate`). An optimizer step where a parameter is also its own gradient is not modelled. Likewise `Matrices.Matrix.DotInto`, `Matrices.Matrix.DotWithBTransposedInto` and `Matrices.Matrix.TransposeInto` require the output matrix to be a different object from their operands; a call that writes into one of its own inputs is not modelled.
- DQN.Targets, DQN.ComputeTargets, DuelingHeads.RowSums, DuelingHeads.Centered, DuelingHeads.PlusValue, DuelingHeads.DuelingHead.Forward and DuelingHeads.DuelingHead.Backward: src/rl/DQNAgent.cpp uses `talawa::core::Matrix` (include/talawa/core/Matrix.hpp), whose header is not part of this model. The model assumes that its `map` applies the function to the receiver's own cells and that `reduceToCol` gives the column of row sums. The `map` of `talawa_ai::core::Matrix` (include/talawa-ai/core/Matrix.hpp:70-74) does not behave that way (see Findings); if the other class's `map` shares that defect, these members are the corrected program.
- Matrices.Matrix.Minus: the source's `operator-` does not check shapes; it reads the other matrix's raw buffer for every cell of the receiver. The model requires that buffer to be at least as long, so a shorter operand is not an error result but a call outside the model, and an operand of another shape with enough cells is subtracted as its buffer reads.
- Characters are `char` values without an encoding. `std::isalnum` is the ASCII letter and digit test.

Preconditions that stand for undefined behaviour, or for an IEEE division by zero the model cannot represent:

- LossKinds.LossValue: requires `Defined`. For every loss that is a non-zero cell or row count to divide by, where the source divides by zero in float and returns inf or NaN. For the with-logits loss `Defined` also demands that a target covering a prediction with columns has exactly the prediction's shape: `gradient` reads the target's raw buffer with the prediction's column count, so a larger target of another shape would be read as if reshaped, which the model does not allow.
- LossKinds.LossGradient: requires `Defined`. For every loss that is a non-zero cell or row count to divide by, where the source divides by zero in float and returns inf or NaN. For the with-logits loss `Defined` also demands that a target covering a prediction with columns has exactly the prediction's shape: `gradient` reads the target's raw buffer with the prediction's column count, so a larger target of another shape would be read as if reshaped, which the model does not allow.
- LossKinds.Evaluate: requires `Defined`. For every loss that is a non-zero cell or row count to divide by, where the source divides by zero in float and returns inf or NaN. For the with-logits loss `Defined` also demands that a target covering a prediction with columns has exactly the prediction's shape: `gradient` reads the target's raw buffer with the prediction's column count, so a larger target of another shape would be read as if reshaped, which the model does not allow.
- NeuralNetworks.NeuralNetwork.Train: requires `Trainable`, which is `Defined` on the output of the forward pass, for the same reason.
- NeuralNetworks.TrainLayers: requires `Trainable`, which is `Defined` on the output of the forward pass, for the same reason.
- DataLoaders.LoadCsv: requires `scale != 0.0`. The source's `val / scale` is inf or NaN.
- DenseLayers.DenseLayer.Backward: requires an upstream gradient of the cached activation's shape. `backprop` reads the gradient's raw buffer for every cell of the activation, so a smaller gradient is read out of bounds. A gradient with as many cells but another shape would be read as if reshaped, which the model does not allow.
- Conv2DLayers.Conv2DLayer.Backward: requires an upstream gradient of the cached activation's shape. `backprop` reads the gradient's raw buffer for every cell of the activation, so a smaller gradient is read out of bounds. A gradient with as many cells but another shape would be read as if reshaped, which the model does not allow.
- DuelingHeads.DuelingHead.Backward: requires an upstream gradient of the cached activation's shape. `backprop` reads the gradient's raw buffer for every cell of the activation, so a smaller gradient is read out of bounds. A gradient with as many cells but another shape would be read as if reshaped, which the model does not allow.
- Activations.Backprop: requires an upstream gradient of the cached activation's shape. `backprop` reads the gradient's raw buffer for every cell of the activation, so a smaller gradient is read out of bounds. A gradient with as many cells but another shape would be read as if reshaped, which the model does not allow.
- Optimizers.Adam.constructor: requires beta1 and beta2 in [0, 1) and epsilon > 0. Otherwise the bias corrections `1 - beta^t` or the denominator `sqrt(v) + eps` can be zero.
- Optimizers.Adam.Update: requires beta1 and beta2 in [0, 1) and epsilon > 0. Otherwise the bias corrections `1 - beta^t` or the denominator `sqrt(v) + eps` can be zero.
- Optimizers.SGD.Update: requires `GradsCover`, that every gradient has at least as many cells as its parameter. The update loops read `G[j]` for every j below the parameter's size.
- Optimizers.Adam.Update: requires `GradsCover`, that every gradient has at least as many cells as its parameter. The update loops read `G[j]` for every j below the parameter's size.
- Poolings.PoolGeometry.OutHeight: requires `Sound`, a positive stride and a window no larger than the input. The source's output extent would be zero or negative, which sizes no matrix. The convolution geometry's `Sound` likewise demands a positive stride and non-negative output extents.
- NeuralNetworks.NeuralNetworkBuilder.Build: requires `Buildable`, every layer configuration fitting the shape before it, and `Unused`, an optimizer that has not stepped yet. The layer factory's shape arithmetic is otherwise meaningless.
- NeuralNetworks.BuildNetwork: requires `Buildable`, every layer configuration fitting the shape before it, and `Unused`, an optimizer that has not stepped yet. The layer factory's shape arithmetic is otherwise meaningless.
- NeuralNetworks.GradientsFit: requires `GradsFit`, a backward pass having filled every gradient buffer.
- NeuralNetworks.Learn: requires `GradsFit`, a backward pass having filled every gradient buffer.
- NeuralNetworks.StepAll: requires `GradsFit`, a backward pass having filled every gradient buffer.
- DuelingHeads.DuelingHead.GradientsFit: requires `GradsFit`, a backward pass having filled every gradient buffer.
- NeuralNetworks.NeuralNetwork.Clone: where the source calls `std::exit` for a zero input shape, the model returns an `Err`.
- QTables.QTable.Learn: requires `Learnable`, a readable action cell and a non-empty stored row for `max_element`, which the source otherwise dereferences.
- QTables.ActionIndex: requires a non-empty action matrix. A negative index from the float cast is treated as out of range, where the source's `size_t` conversion would wrap.
- Corridors.Corridor.Step: requires `|action.data| > 0`, a readable action cell.
- SticksGame.StickGame.Step: requires `|action.data| > 0`, a readable action cell.
- TicTacToes.TicTacToe.Step: requires `|action.data| > 0`, a readable action cell.
- FrozenLakes.FrozenLake.Step: requires a readable `action(0, 0)` (`HasCell`).
- LineEnvironments.LineEnvironment.Step: requires a readable `action(0, 0)` (`HasCell`).
- GraphEnvironments.GraphEnvironment.Step: requires a readable `action(0, 0)` (`HasCell`).
- TicTacToeEnvironments.TicTacToeEnvironment.Step: requires a readable `action(0, 0)` (`HasCell`).
- GraphEnvironments.GraphEnvironment.Step: also requires `max_edges > 0` and a current node inside the graph. The clamp reads `edges_[node][max_edges - 1]`.
- LineEnvironments.LineEnvironment.Reset: takes the draw in [0, length - 2]. A length below 2 makes the source's distribution undefined.
- SticksGame.StickGame.Restore: requires a count below 256, because the snapshot is one `uint8_t`.
- Datasets.Dataset.Splice: requires `end <= |indices|`. The source checks `end` against the row count and reads `indices[i]` unchecked.
- Replay.ReplayBuffer.constructor: requires a capacity above zero. `add` takes the cursor modulo the capacity.
- Poolings.Pooling2DLayer.Backward: for MAX requires a cache of one row per gradient row. The source reads `max_indices_cache[b]` unchecked.
- StringGA.CalculateFitness: requires genes at most one longer than the solution. The source reads `solution[i]`, and the terminating NUL is the last readable character.
- StringGA.Score: requires genes at most one longer than the solution. The source reads `solution[i]`, and the terminating NUL is the last readable character.
- XorGA.Crossover: requires non-empty gene vectors. `rand() % len` divides by zero otherwise.
- Schedulers.Step, Schedulers.Reset, Schedulers.Clone: require `Valid`, which demands a non-empty phase list in every chain (and a non-zero step-decay size, the divisor of its `%`). The source's `step()`, `reset()` and `clone()` accept an empty chain; only its `value()` reads `phases_.back()` of an empty vector. An empty chain is not modelled.
- StringGA.Select: requires a non-empty population. The source draws contenders with `rand() % population.size()`, which divides by zero on an empty one.
- Schedulers.Holds: requires `Defined`, a non-zero divisor in `every_n_episodes`/`every_n_steps`.
- The matrix methods require well-formed operands (`Wf`, `AllWf`): the source's `Matrix` keeps `data.size() == rows * cols` as a class invariant.

Modelled as corrected, not as written (each defect is a row under "## Findings", with its as-written half):

- LossKinds.LossGradient: returns the corrected MSE, cross-entropy and categorical gradients (`Losses.MseGradient`, `Losses.CrossEntropyGradient`, `Losses.CategoricalGradient`), not the as-written ones Loss.cpp computes through the zero-matrix `map`.
- LossKinds.Evaluate: returns the corrected gradient, as `LossKinds.LossGradient` does.
- NeuralNetworks.TrainLayers: backpropagates the corrected loss gradient, so the parameters after a step are not the ones src/neuralnetwork/NeuralNetwork.cpp:91-123 computes with Loss.cpp's gradient.
- NeuralNetworks.NeuralNetwork.Train: trains through `NeuralNetworks.TrainLayers`, with the corrected loss gradient.
- Trainers.NextEpisode: builds the episode-end context with `Trainers.IntendedEndContext`, whose last reward is the previous episode's, not with `Trainers.EndContext`, the context src/rl/Trainer.cpp:74-78 builds after overwriting `last_rewards`.
- Trainers.Trainer.EpisodeOn: passes the schedulers the corrected episode-end context, as `Trainers.NextEpisode` does.
- Trainers.Trainer.Train: drives the schedulers with the corrected episode-end context, so after an episode whose reward dropped, an episode-end binding conditioned on a reward decrease steps where the source's does not, and the schedulers' final state can differ from the program's. The count of episodes, the stopping rule and the returned reward sum are the program's.

Modelled as written, though evidently unintended:

- SticksGame.StickGame.Reset: the reset always restores 21 sticks, whatever count the game was made with, and it does not clear `done`.
- TicTacToeEnvironments.TicTacToeEnvironment.Step: a step does not check `done`.
- Corridors.Corridor.Step: an invalid action fails only after the report's previous state and action are written.

## Findings

| source | as written | input that shows it | evidently intended | confidence | as-written member | corrected member |
|---|---|---|---|---|---|---|
| include/talawa-ai/core/Matrix.hpp:70-74 | `map` builds `Matrix result(rows, cols)` (all zeros) and applies `func` to the result's own cells, so `func` never sees the receiver's values | mapping the identity over [[5]] gives [[0]] | `func` applied to the receiver's cells | high (not executed) | Matrices.Matrix.MapAsWritten, Matrices.MapAsWrittenLosesCells | Matrices.Matrix.Map |
| src/neuralnetwork/Loss.cpp:44-47 | the MSE gradient is built with that `map`, so every cell is (2/N)(0 - t) whatever the prediction | p = [[3]], t = [[1]] gives [[-2]] | (2/N)(p - t), [[4]] for that input | high (not executed) | Losses.MseGradientAsWritten, Losses.MseGradientAsWrittenIgnoresPrediction, Losses.MseGradientExample | Losses.MseGradient, Losses.MseGradientZeroAtTarget |
| src/neuralnetwork/Loss.cpp:71-75, 102-109 | the cross-entropy and categorical gradients go through the same `map`: the clamped prediction is always 1e-7, so every cell is -(t / 1e-7) / rows | p = [[0.5]], t = [[1]] gives [[-10000000]] | -(t / clamp(p)) / rows, [[-2]] for that input | high (not executed) | Losses.CrossEntropyGradientAsWritten, Losses.CrossEntropyGradientAsWrittenIgnoresPrediction, Losses.CategoricalGradientAsWritten, Losses.CategoricalGradientAsWrittenIgnoresPrediction, Losses.CrossEntropyGradientExample | Losses.CrossEntropyGradient, Losses.CategoricalGradient, Losses.CrossEntropyGradientsAgree |
| src/rl/Trainer.cpp:74-78 | `last_rewards` is overwritten with this episode's reward before the episode-end context is made, so the context's last and current rewards are equal and `on_reward_decrease` can never fire at episode end | any episode whose reward is below the previous episode's | the context carries the previous episode's reward as the last reward | medium (not executed) | Trainers.EndContext, Trainers.EndContextNeverSeesDecrease | Trainers.IntendedEndContext, Trainers.IntendedEndContextSeesDecrease |
| examples/xor_ga.example.cpp:98 | `ind.setGenes(genes)` through a `Genome<std::vector<float>>&` calls the base class's non-virtual `setGenes` (include/talawa/evo/Genome.hpp:14), which replaces the gene vector but leaves the network's weights alone | any mutation with a draw other than 0.5 on a genome whose genes match its network | `NeuralGenome::setGenes`, writing the mutated genes into the network | medium (not executed) | XorGA.MutateAsWritten | XorGA.Mutate |

The network's `train` and the trainer's `train` use the corrected halves of the rows for Loss.cpp and Trainer.cpp; "## Left out" lists each member that does so.

