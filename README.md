# VML core, modelled in Dafny

VML ("Visualization Machine Learning") is a browser library of small, from-scratch
learning models, the helpers they share, and the serialisers and data-set editors
the demo pages use. This project models that core and proves properties of the model:

- the learners: k-nearest neighbours (`vml_Knn`), decision tree (`vml_DecisionTree`),
  kernel SVM (`vml_SVM`), LVQ1 (`vml_LVQ`), two-dimensional k-means (`vml_KMeans`),
  perceptron (`vml_Perceptron`), polynomial regression (`vml_PolynomialRegression`),
  softmax regression (`vml_SoftmaxRegression`) and naive Bayes (`vml_NaiveBayes`) with
  its one-dimensional Gaussians (`vml_GaussDist`);
- the helpers `vml_Utils` (`ArgMax`, `FillList`, polynomial features, gradient
  clipping) and `vml_Math` (scaling, outer products, kernels);
- the evaluation metrics `vml_RegressionEvaluation` and `vml_ClassifierEvaluation`;
- the serialisers: the Level 4 MAT-file writer and reader (`vml_MatFileHelper`), the
  Octave text format (`vml_OctaveFileHelper`) and the CSV format (`vml_CsvHelper`);
- the two data-set editors: the two-class generator `vml_DataGen` of the library,
  and the editor of the data-generation page with its undo history.

Each source file is one module. A model whose methods update its fields is a class
with those fields (`seq` values reassigned by its methods), and each method is proved
against a specification function of the old state and its arguments. The functions
are then related by lemmas to what the source promises: sortedness and bounds, the
partition a split makes, the first strict minimum a search keeps, update rules that
change one coefficient only, and round-trip lemmas for every file format, with the
exceptions listed under "## Left out" and "## Findings".

Conventions:

- Numbers are `real`. Integer widths appear only where the source fixes them: the
  MAT-file's 32-bit fields are written modulo 2^32 and read as two's complement.
- `exp`, `log`, `sqrt`, `pi`, the Euclidean distance's square root, a kernel, the
  conversion of numbers to text and back (`show`, `parse`) and the 8-byte encoding of
  doubles (`enc`, `dec`) are function-typed parameters. The properties a proof needs of
  them are stated as predicates over them (`SoundSqrt`, `PositiveExp`, `SoundText`,
  `SoundFloat`, ...) and required by that proof only.
- A JavaScript `NaN` result is `None` of an `Option`, and a thrown exception is `Err`
  of a `Result` carrying its message. `undefined` where a model can meet it is a
  constructor of its own (`Undefined`, "undefined" text).
- Random choices (a sample index, initial weights, centres and prototypes) are
  parameters.

## Model

| member | source | states |
|---|---|---|
| Knn.MyDistanceIsEuclidean | vmljs/knn.js:69-76 | with a sound square root, the 1-D special case of `myDistance` equals the Euclidean distance, so the distance is non-negative and symmetric |
| Knn.MyDistance | vmljs/knn.js:69-76 | definition: `|a[0] − b[0]|` when `a` has one coordinate, the Euclidean distance otherwise |
| Knn.FirstAtLeast | vmljs/knn.js:97-98 | the insertion scan stops at the first entry whose distance is at least the candidate's: every earlier entry is strictly nearer |
| Knn.Inserted | vmljs/knn.js:96-111 | definition of `insert`: the candidate spliced in before the first entry at least as far and the list popped if it grew past `k`; with no such entry, pushed only when the list holds fewer than `k` |
| Knn.InsertedContents | vmljs/knn.js:96-111 | one `insert` adds the candidate and removes exactly what it drops: kept plus dropped is the old list plus the candidate, as multisets |
| Knn.InsertedSortedBounded | vmljs/knn.js:96-111 | inserting into a sorted list of at most `k` entries gives a sorted list of exactly `min(n + 1, k)` entries |
| Knn.InsertedPlacement | vmljs/knn.js:98-102 | the candidate lands at the first index whose entry is at least as far, before equal-distance entries; the entries before it and after it keep their order |
| Knn.InsertedFullFarther | vmljs/knn.js:97-110 | a full list is unchanged by a candidate farther than every entry |
| Knn.DroppedIsFarthest | vmljs/knn.js:99-102 | whatever one insertion drops (the popped last entry or the rejected candidate) is at least as far as every entry it keeps |
| Knn.InsertedNoneNearer | vmljs/knn.js:96-111 | one insertion preserves the invariant that nothing discarded so far is nearer than anything kept |
| Knn.KnnOfShape | vmljs/knn.js:86-94 | feeding `n` candidates to `insert` leaves `min(n, k)` entries, sorted by distance |
| Knn.KnnOf | vmljs/knn.js:86-94 | definition of `FindKnn`'s list: the candidates fed to `insert` in training order, starting from the empty list |
| Knn.KnnOfContents | vmljs/knn.js:86-94 | the kept entries and the discarded ones together are exactly the candidates, as multisets |
| Knn.KnnOfNoneNearer | vmljs/knn.js:86-94 | no discarded candidate is nearer than a kept one |
| Knn.KnnOfNearest | vmljs/knn.js:78-94 | `FindKnn`'s promise on values: `min(n, k)` entries, sorted, drawn from the candidates, and every candidate left out is at least as far as every one kept |
| Knn.Candidates | vmljs/knn.js:89-90 | one candidate per training point, carrying its point, its label and its `myDistance` to the query |
| Knn.LabelSum | vmljs/knn.js:132-135 | the accumulating loop over the neighbours computes the sum of their labels |
| Knn.VoteToProbs | vmljs/knn.js:164-172 | two probabilities summing to 1, each in [0, 1]; the first is larger exactly when the vote is negative and the second exactly when it is positive (`[0.5, 0.5]` at 0) |
| Knn.KnnModel.constructor | vmljs/knn.js:30-35 | a fresh model has `k = 1`, no data, no labels, no predictor and is not ready |
| Knn.KnnModel.Init | vmljs/knn.js:46-58 | `Init` stores the data, the labels and `k`, and makes the model ready |
| Knn.KnnModel.Insert | vmljs/knn.js:96-111 | the splice/pop/push loop returns the list `Inserted` describes, and keeps a sorted list sorted and within capacity |
| Knn.KnnModel.FindKnn | vmljs/knn.js:78-94 | the result is the fold of `insert` over the candidates: `min(n, k)` entries, sorted, drawn from the training set, none farther than a point left out |
| Knn.KnnModel.PredictRegression | vmljs/knn.js:121-139 | the prediction is the neighbours' label sum divided by `k`, not by the number of neighbours found (no value when `k = 0`); the predictor is recorded and nothing else changes |
| Knn.KnnModel.PredictClassification | vmljs/knn.js:149-175 | the result is `VoteToProbs` of the neighbours' label sum; the predictor is recorded and nothing else changes |
| DecisionTree.SideFacts | vmljs/decisionTree.js:217-226 | each side of a split lists, in increasing order, exactly the indices of the points whose feature is at most the threshold (left) or not (right) |
| DecisionTree.SidesCover | vmljs/decisionTree.js:217-226 | the two sides together have as many indices as there are points |
| DecisionTree.SplitOfPartition | vmljs/decisionTree.js:213-229 | `doSplit` returns the points of each side in their original order, each paired with its own label, and the side sizes add up to `n` |
| DecisionTree.SplitStep | vmljs/decisionTree.js:217-226 | one more point is pushed, with its label, onto the side its feature selects and the other side is unchanged |
| DecisionTree.CountsSnoc | vmljs/decisionTree.js:286-288 | counting one more label adds 1 to the entry of its class only |
| DecisionTree.CountsSum | vmljs/decisionTree.js:282-288 | the class counts of in-range labels add up to the number of labels |
| DecisionTree.BestClassFacts | vmljs/decisionTree.js:291-299 | the normalising scan ends with a best value that is 0 or the entry at the class found, and that bounds every entry |
| DecisionTree.ProbsSum | vmljs/decisionTree.js:290-294 | the majority probabilities of a non-empty set of in-range labels add up to 1 |
| DecisionTree.BestClassIsFirstMax | vmljs/decisionTree.js:291-299 | when some entry is positive the scan returns the lowest index of the maximum |
| DecisionTree.ProbsAt | vmljs/decisionTree.js:293 | each probability is its class count divided by the number of labels |
| DecisionTree.MajorityOfFacts | vmljs/decisionTree.js:281-302 | `majorityClassifier`: `numClasses` probabilities summing to 1, `iLabel` the lowest index of the maximum, for non-empty in-range labels; the empty set gives the `NaN`s of `0/0` and class 0 |
| DecisionTree.MajorityErrorPure | vmljs/decisionTree.js:261-265 | the majority error of a set holding one class only is 0 |
| DecisionTree.SumPLogPNegative | vmljs/decisionTree.js:266-269 | with a logarithm negative on (0, 1), terms `p log p` with `0 < p < 1` add up to a negative number |
| DecisionTree.MajorityErrorMixed | vmljs/decisionTree.js:256-273 | with such a logarithm, a set of at least two classes has a strictly positive error |
| DecisionTree.ProbBounds | vmljs/decisionTree.js:287-293 | a class probability is below 1 unless every label is that class, and positive when the class occurs |
| DecisionTree.MajorityErrorZeroIff | vmljs/decisionTree.js:256-273 | with such a logarithm the error is non-negative, and 0 exactly when the label set is empty or holds one class only |
| DecisionTree.SplitKeepsRange | vmljs/decisionTree.js:213-229 | both sides of a split keep one label per point, each in range |
| DecisionTree.SplitKeepsWide | vmljs/decisionTree.js:213-229 | both sides of a split keep points that have every feature |
| DecisionTree.ErrorsAt | vmljs/decisionTree.js:190 | the error tried at pair `(i, j)` is that of the split on feature `i` at point `j`'s value |
| DecisionTree.SearchStep | vmljs/decisionTree.js:193-197 | trying a pair replaces the best split exactly when its error is strictly smaller than the best so far |
| DecisionTree.SearchNone | vmljs/decisionTree.js:183-186 | the scan keeps the default `{0, 0.0}` and the infinite best error until the first pair is tried |
| DecisionTree.SearchAt | vmljs/decisionTree.js:187-199 | once a pair has been tried the scan holds a tried pair, its split and its error |
| DecisionTree.SearchLeast | vmljs/decisionTree.js:187-199 | the error held is at most the error of every pair tried |
| DecisionTree.SearchFirst | vmljs/decisionTree.js:187-199 | every pair tried before the held one has a strictly larger error, so the earliest minimal pair wins |
| DecisionTree.ScanFacts | vmljs/decisionTree.js:182-202 | the finished scan gives `{0, 0.0}` when there is no feature or no point, and otherwise a threshold equal to some point's feature value whose error is minimal, the first such pair in scan order |
| DecisionTree.BestSplitFacts | vmljs/decisionTree.js:182-202 | `findBestSplit` picks an observed feature value of minimal split error, ties going to the earliest (feature, point) pair, default `{0, 0.0}` |
| DecisionTree.TreeOfLeafCase | vmljs/decisionTree.js:146-149 | at depth 0, or when the majority error is 0, `buildTree` returns the leaf of the labels' majority probabilities |
| DecisionTree.TreeOfNodeCase | vmljs/decisionTree.js:151-162 | otherwise it returns a node on the best split whose children are the trees of the two sides at depth − 1 |
| DecisionTree.TreeOfHeight | vmljs/decisionTree.js:145-163 | the tree is never higher than the depth it was built with |
| DecisionTree.TreeOfLeaf | vmljs/decisionTree.js:145-149 | with a logarithm negative on (0, 1), the tree is a leaf exactly when the depth is 0 or the labels are empty or pure |
| DecisionTree.TreeOf | vmljs/decisionTree.js:145-163 | definition of `buildTree`: a leaf at depth 0 or for a zero majority error, otherwise a node on the best split with both sides grown one level less deep |
| DecisionTree.WalkTree | vmljs/decisionTree.js:122-135 | the walk always ends at a leaf of the tree, going left exactly when the point's feature is at most the threshold |
| DecisionTree.DoSplit | vmljs/decisionTree.js:213-229 | the push loop returns `SplitOf`, the order-preserving partition |
| DecisionTree.MajorityClassifier | vmljs/decisionTree.js:281-302 | the counting and normalising loops return `MajorityOf` |
| DecisionTree.ComputeErrorOfMajorityClassifier | vmljs/decisionTree.js:256-273 | the early return on a probability of 1 and the `p log p` loop return `MajorityError` |
| DecisionTree.ComputeErrorOfSplit | vmljs/decisionTree.js:240-248 | the error of a split is the sum of the majority errors of its two sides |
| DecisionTree.FindBestSplit | vmljs/decisionTree.js:182-202 | the nested scan returns `BestSplit` |
| DecisionTree.TrySplit | vmljs/decisionTree.js:190-197 | one inner step of the scan moves the state from pair `(i, j)` to `(i, j + 1)` |
| DecisionTree.CreateLeaf | vmljs/decisionTree.js:171-173 | a leaf holding the majority classifier's probabilities |
| DecisionTree.BuildTree | vmljs/decisionTree.js:145-163 | the recursion returns `TreeOf`, whose height and leaf properties are proved above |
| DecisionTree.BuildNode | vmljs/decisionTree.js:151-162 | the split-and-recurse half of `buildTree` returns `TreeOf` |
| DecisionTree.DecisionTreeModel.constructor | vmljs/decisionTree.js:28-32 | a fresh tree has no classes, no features, no root and is not ready |
| DecisionTree.DecisionTreeModel.Fit | vmljs/decisionTree.js:62-82 | `Fit` stores the class and feature counts, sets the root to the built tree and makes the model ready |
| DecisionTree.DecisionTreeModel.IsReady | vmljs/decisionTree.js:89-91 | the ready flag, which for a valid model holds exactly when there is a tree |
| DecisionTree.DecisionTreeModel.Predict | vmljs/decisionTree.js:99-113 | throws "Tree has no been initialized" exactly when there is no tree; otherwise returns the prediction of the leaf the walk reaches |
| Svm.NonZeroFacts | vmljs/svm.js:99-105 | the support indices are increasing and are exactly the indices whose coefficient is not 0 |
| Svm.NonZeroOfZeros | vmljs/svm.js:83-85 | with every coefficient 0 there is no support vector |
| Svm.KernelsTo | vmljs/svm.js:155 | one kernel value `kernel(x_i, p)` per support vector |
| Svm.KernelsFrom | vmljs/svm.js:186 | one kernel value `kernel(p, x_i)` per training point |
| Svm.ExpansionOverSupport | vmljs/svm.js:153-156 | leaving out the zero coefficients does not change the kernel expansion: the sum over the support vectors equals the sum over all points |
| Svm.ExpansionSnoc | vmljs/svm.js:185-187 | one more term at the end adds `alpha * y * k` to the expansion |
| Svm.ExpansionOfZeros | vmljs/svm.js:184-187 | an expansion whose coefficients are all 0 is 0 |
| Svm.RowSumOfZeros | vmljs/svm.js:122-124 | with every coefficient 0 each row of the double sum is 0 |
| Svm.DoubleSumOfZeros | vmljs/svm.js:119-125 | with every coefficient 0 the double sum is 0 |
| Svm.DualObjectiveOfZeros | vmljs/svm.js:115-130 | right after `Init` the dual objective `sum alpha - 1/2 sum sum alpha_i alpha_j y_i y_j k` is 0 |
| Svm.DualObjective | vmljs/svm.js:115-130 | definition of `ComputeError`: the double sum of `alpha_i alpha_j y_i y_j k(x_i, x_j)` times −0.5, plus the sum of the coefficients |
| Svm.Clamp | vmljs/svm.js:190-191 | `min(C, max(0, a))` lies in `[0, C]` when `C >= 0`, and leaves a value already in that range unchanged |
| Svm.SumExpansion | vmljs/svm.js:184-187 | the accumulating loop computes the kernel expansion |
| Svm.SupportOf | vmljs/svm.js:93-106 | the push loop yields three parallel lists holding exactly the points, labels and coefficients whose coefficient is not 0, in index order |
| Svm.SvmModel.constructor | vmljs/svm.js:28-38 | a fresh machine has every list empty, no `C` (0 here) and is not ready; the kernel is given |
| Svm.SvmModel.Init | vmljs/svm.js:49-64 | stores the data, labels and `C`, sets one coefficient 0 per point (so the dual objective is 0) and makes the machine ready; the support lists are untouched |
| Svm.SvmModel.IsReady | vmljs/svm.js:73-75 | the ready flag |
| Svm.SvmModel.InitAlphas | vmljs/svm.js:83-85 | one coefficient 0 per point, nothing else changes |
| Svm.SvmModel.GetSupportVectors | vmljs/svm.js:93-106 | the support lists are rebuilt from the current coefficients; nothing else changes |
| Svm.SvmModel.ComputeError | vmljs/svm.js:115-130 | the nested loops return the dual objective of the current coefficients |
| Svm.SvmModel.Predict | vmljs/svm.js:141-167 | the support lists are recomputed unless the flag is explicitly `false`; the result is `[1, 0]`, `[0, 1]` or `[0.5, 0.5]` by the sign of the expansion over the support vectors; nothing else changes |
| Svm.SvmModel.FitStep | vmljs/svm.js:176-192 | only the coefficient at the chosen index changes, to `clamp(alpha + lambda (1 - y f), 0, C)`, which lies in `[0, C]` when `C >= 0` |
| Svm.PredictOverSupport | vmljs/svm.js:146-156 | once the support lists are current, the expansion over them equals the expansion over the whole training set |
| Svm.PredictOfZeros | vmljs/svm.js:151-166 | with every coefficient 0 there is no support vector and the prediction is `[0.5, 0.5]` |
| Lvq.ClassBlocksAt | vmljs/lvq.js:85-90 | `Reset` lays out `numClasses * numPrototypes` labels; prototype `j` of class `i` sits at `i * numPrototypes + j` with label `i`, and every label is below `numClasses` |
| Lvq.Dists | vmljs/lvq.js:105-106 | one distance per prototype |
| Lvq.Winner | vmljs/lvq.js:101-115 | the winner is the lowest index of a smallest distance, and 0 when there is no prototype |
| Lvq.Moved | vmljs/lvq.js:135-139 | the moved winner keeps its dimension |
| Lvq.MovedAt | vmljs/lvq.js:135-139 | each coordinate moves by `+lambda (x - w)` when attracted and by `-lambda (x - w)` when repelled |
| Lvq.MovedDistance | vmljs/lvq.js:135-139 | the step scales the squared distance to the sample by `(1 - lambda)^2` when attracted and by `(1 + lambda)^2` when repelled |
| Lvq.MovedOffset | vmljs/lvq.js:135-139 | the moved prototype's offset from the sample is the old offset times `1 - lambda` or `1 + lambda` |
| Lvq.AttractDoesNotMoveAway | vmljs/lvq.js:135-139 | an attracted winner comes no farther from the sample for every step size in `[0, 2]` |
| Lvq.RepelDoesNotMoveCloser | vmljs/lvq.js:136-139 | a repelled winner comes no nearer to the sample for every non-negative step size |
| Lvq.OneHot | vmljs/lvq.js:152-153 | the prediction vector has `numClasses` entries |
| Lvq.OneHotFacts | vmljs/lvq.js:152-153 | it sums to 1 and its first maximum is the marked class |
| Lvq.Layout | vmljs/lvq.js:85-90 | the nested push loops keep the draws in order and label them class after class |
| Lvq.LvqModel.constructor | vmljs/lvq.js:28-37 | a fresh model has no data, no prototypes, zero counts, `iPdist = 2` and is not ready |
| Lvq.LvqModel.Init | vmljs/lvq.js:50-73 | stores the arguments, resets the prototypes and becomes ready |
| Lvq.LvqModel.Reset | vmljs/lvq.js:81-91 | the prototypes become the draws and their labels the class blocks; nothing else changes |
| Lvq.LvqModel.FindWinner | vmljs/lvq.js:101-115 | the loop returns `Winner`: with prototypes, an index of a nearest one, the first on a tie |
| Lvq.LvqModel.FitStep | vmljs/lvq.js:124-140 | only the winner moves, towards the sample when its label matches the sample's and away otherwise; every other prototype, every label and every other field is unchanged |
| Lvq.LvqModel.Predict | vmljs/lvq.js:150-156 | a `numClasses` vector that is 1 at the winner's label and 0 elsewhere (all 0 with no prototype) |
| Lvq.PredictIsWinnerClass | vmljs/lvq.js:150-156 | with prototypes, the prediction sums to 1 and its most likely class is the nearest prototype's label |
| KMeans.Dists | vmljs/kmeans.js:115-116 | one distance per centre, `NaN` for a `NaN` centre |
| KMeans.Scan | vmljs/kmeans.js:112-121 | the scan returns an index below the number of centres, and 0 when there is none |
| KMeans.ScanOfDistances | vmljs/kmeans.js:112-121 | on non-negative distances the `-1` sentinel is replaced by the first distance and the scan returns the lowest index of the minimum |
| KMeans.NearestIsFirstMin | vmljs/kmeans.js:107-124 | with every centre defined and a sound square root, `Predict` returns the lowest index of a nearest centre |
| KMeans.Nearest | vmljs/kmeans.js:107-124 | definition of `Predict`: the index the distance scan ends on |
| KMeans.ScanFromNaN | vmljs/kmeans.js:117 | a `NaN` first distance is never replaced, since no comparison with `NaN` holds |
| KMeans.NaNFirstCentreTakesAll | vmljs/kmeans.js:112-121 | once the first centre is a `NaN` centre every point is assigned to cluster 0 |
| KMeans.ScanSkipsNaN | vmljs/kmeans.js:112-121 | with a defined first centre the scan ends on a defined, non-negative distance |
| KMeans.NearestIsDefined | vmljs/kmeans.js:107-124 | with a defined first centre `Predict` picks a defined centre |
| KMeans.Assign | vmljs/kmeans.js:84-85 | one label per point |
| KMeans.ClusterSum | vmljs/kmeans.js:87 | the accumulated sum of a cluster is two-dimensional |
| KMeans.Lloyd | vmljs/kmeans.js:82-98 | one centre per cluster after the step |
| KMeans.Overwrite | vmljs/kmeans.js:85 | writing the new labels over the front of the label list, the rest kept |
| KMeans.EmptyClusterSum | vmljs/kmeans.js:87 | a cluster without points sums to the zero vector |
| KMeans.LloydUndefinedIff | vmljs/kmeans.js:93 | a centre becomes `NaN` (division by a zero count) exactly when no point is assigned to it |
| KMeans.NewCentreIsMean | vmljs/kmeans.js:93 | with a positive count the new centre times the count is the sum of its points: it is their mean |
| KMeans.ClusterSumSnoc | vmljs/kmeans.js:87-88 | one more assignment to a cluster adds that point to its sum |
| KMeans.NearestCentre | vmljs/kmeans.js:112-123 | the loop of `Predict` returns `Nearest` |
| KMeans.AccumulatePoint | vmljs/kmeans.js:85-88 | one expectation pass stores the point's label and adds the point to its cluster's sum and count, leaving the other accumulators alone |
| KMeans.Expectation | vmljs/kmeans.js:84-89 | after the first loop each label is the nearest centre under the old centres, and each accumulator holds its cluster's sum and count |
| KMeans.Maximization | vmljs/kmeans.js:92-97 | each centre becomes its sum scaled by the reciprocal count and its accumulators are cleared |
| KMeans.KMeansModel.constructor | vmljs/kmeans.js:28-35 | a fresh model has one cluster, no centres, no data and is not ready |
| KMeans.KMeansModel.Init | vmljs/kmeans.js:45-63 | the centres become the `K` draws, a cleared accumulator is appended per cluster without clearing earlier ones, and the model becomes ready |
| KMeans.KMeansModel.IsReady | vmljs/kmeans.js:72-74 | the ready flag |
| KMeans.KMeansModel.Predict | vmljs/kmeans.js:107-124 | the cluster `Nearest` gives, an index below `K` when there are centres |
| KMeans.KMeansModel.FitStep | vmljs/kmeans.js:82-98 | the centres become Lloyd's step from the old centres, the labels are the old centres' assignment, and the accumulators end cleared |
| KMeans.LloydWellShaped | vmljs/kmeans.js:93 | Lloyd's step keeps every defined centre two-dimensional |
| Perceptron.Augment | vmljs/perceptron.js:83 | each sample is `[x, y, 1]`, three entries with the bias input last |
| Perceptron.Samples | vmljs/perceptron.js:75-92 | `convertData` yields `|A| + |B|` samples |
| Perceptron.SampleLabels | vmljs/perceptron.js:84-90 | one label per sample |
| Perceptron.SamplesAt | vmljs/perceptron.js:75-92 | sample `i` is `[x, y, 1]` of the `i`-th point of A with label +1 for `i < |A|`, and of the `(i - |A|)`-th point of B with label −1 after |
| Perceptron.Step | vmljs/perceptron.js:109-116 | the perceptron rule keeps the number of weights |
| Perceptron.StepMargin | vmljs/perceptron.js:110-116 | on a mistake the score `w . x` moves by `+lambda ||x||^2` for label +1 and by `-lambda ||x||^2` for label −1 |
| Perceptron.StepOnMistake | vmljs/perceptron.js:116 | on a mistake the new weights are `w + lambda * label * x` |
| Perceptron.UpdateMargin | vmljs/perceptron.js:116 | adding `lambda * label * x` moves the score by `label * lambda * ||x||^2` |
| Perceptron.ZeroScoreUpdates | vmljs/perceptron.js:110-116 | a zero score always triggers an update, since `sign(0) = 0` matches no label |
| Perceptron.CorrectIsPredicted | vmljs/perceptron.js:125-140 | a correctly classified sample of label +1 is predicted `[1, 0]` and one of label −1 `[0, 1]` |
| Perceptron.AllCorrectNegative | vmljs/perceptron.js:148-157 | when every sample is classified correctly every signed score is positive, so the cost is negative (0 with no sample) |
| Perceptron.Cost | vmljs/perceptron.js:148-157 | definition of `ComputeError`: minus the sum of `(w . x_i) * t_i` |
| Perceptron.PerceptronModel.constructor | vmljs/perceptron.js:28-32 | no weights, no data, not ready |
| Perceptron.PerceptronModel.Init | vmljs/perceptron.js:40-48 | converts the data, takes the three drawn weights and becomes ready |
| Perceptron.PerceptronModel.IsReady | vmljs/perceptron.js:55-57 | the ready flag |
| Perceptron.PerceptronModel.ConvertData | vmljs/perceptron.js:75-92 | the two push loops produce `Samples` and `SampleLabels`; the weights are untouched |
| Perceptron.PerceptronModel.FitStep | vmljs/perceptron.js:99-117 | the weights become `Step` of the old weights on the chosen sample: unchanged when `sign(w . x)` equals the label, `w + lambda * label * x` otherwise |
| Perceptron.PerceptronModel.Predict | vmljs/perceptron.js:125-141 | `[1, 0]` for a positive score, `[0, 1]` for a negative one and `[0.5, 0.5]` for 0 |
| Perceptron.PerceptronModel.ComputeError | vmljs/perceptron.js:148-157 | the loop returns `-sum_i (w . x_i) * t_i` |
| PolynomialRegression.Rows | vmljs/ploynomialRegression.js:87-93 | one feature row `phi(point[0])` per point |
| PolynomialRegression.Targets | vmljs/ploynomialRegression.js:94 | one target `point[1]` per point |
| PolynomialRegression.RssZeroIff | vmljs/ploynomialRegression.js:108-113 | the partial residual sums are non-negative, and 0 exactly when every residual counted is 0 |
| PolynomialRegression.CostZeroIffExact | vmljs/ploynomialRegression.js:104-117 | the cost is non-negative, and 0 exactly when the weights fit every sample |
| PolynomialRegression.Cost | vmljs/ploynomialRegression.js:104-117 | definition of `ComputeError`: half the sum of the squared residuals `(y_i − w . phi_i)^2` |
| PolynomialRegression.GradTerms | vmljs/ploynomialRegression.js:164-168 | one gradient term per sample, of the weights' length |
| PolynomialRegression.DataGradient | vmljs/ploynomialRegression.js:178 | the averaged, negated gradient has the weights' length |
| PolynomialRegression.NewWeights | vmljs/ploynomialRegression.js:162-184 | the step keeps the number of weights |
| PolynomialRegression.ClippedGradientBounded | vmljs/ploynomialRegression.js:181 | the data gradient entering the step never has a norm above the hard-coded 10 |
| PolynomialRegression.ExactFitIsFixedPoint | vmljs/ploynomialRegression.js:162-184 | weights that fit every sample are a fixed point of `UpdateWeights` without regularisation |
| PolynomialRegression.PredictAtZeroIsBias | vmljs/ploynomialRegression.js:193-199 | since `phi(0) = (1, 0, ..., 0)` the prediction at 0 is the bias weight |
| PolynomialRegression.SumGradient | vmljs/ploynomialRegression.js:164-177 | the loop starting from the first term and adding each further one returns the sum of the gradient terms |
| PolynomialRegression.ConvertPoints | vmljs/ploynomialRegression.js:87-95 | the push loop returns the feature rows and the targets |
| PolynomialRegression.PolynomialModel.constructor | vmljs/ploynomialRegression.js:28-34 | not ready, no weights and no data, degree 0 |
| PolynomialRegression.PolynomialModel.Init | vmljs/ploynomialRegression.js:42-55 | stores the degree, converts the data, takes `degree + 1` drawn weights and becomes ready |
| PolynomialRegression.PolynomialModel.IsReady | vmljs/ploynomialRegression.js:62-64 | the ready flag |
| PolynomialRegression.PolynomialModel.ComputePhi | vmljs/ploynomialRegression.js:72-74 | `degree + 1` entries with entry `j` equal to `x^j`, so entry 0 is 1 |
| PolynomialRegression.PolynomialModel.ConvertData | vmljs/ploynomialRegression.js:81-97 | the data and `BigPhi` become the feature rows and the labels the targets; weights and degree unchanged |
| PolynomialRegression.PolynomialModel.ComputeError | vmljs/ploynomialRegression.js:104-117 | half the residual sum of squares, which is non-negative |
| PolynomialRegression.PolynomialModel.UpdateWeights | vmljs/ploynomialRegression.js:150-185 | with data, the weights become `NewWeights`: the gradient clipped to norm 10, plus `|w| * fReg`, times `fLambda`, subtracted; with no data it throws before the weights change |
| PolynomialRegression.PolynomialModel.Predict | vmljs/ploynomialRegression.js:193-199 | `w . phi(x)`, the bias weight at `x = 0` |
| SoftmaxRegression.Scores | vmljs/softmaxRegression.js:195-200 | one score `exp(-1 * (w_i . x))` per weight vector |
| SoftmaxRegression.Prediction | vmljs/softmaxRegression.js:187-214 | `numClasses − 1` entries for several weight vectors (the last class gets none) and 2 entries for one |
| SoftmaxRegression.Normalised | vmljs/softmaxRegression.js:202-207 | the normalised scores keep their number |
| SoftmaxRegression.Logistic | vmljs/softmaxRegression.js:208-211 | the logistic case gives two entries |
| SoftmaxRegression.SumPositive | vmljs/softmaxRegression.js:194-200 | a sum of positive scores is positive, so the normaliser is never 0 |
| SoftmaxRegression.PredictionIsDistribution | vmljs/softmaxRegression.js:187-214 | with a positive exponential and at least one weight vector the prediction is defined, every entry is positive and the entries add up to 1 |
| SoftmaxRegression.NormalisedDistribution | vmljs/softmaxRegression.js:202-207 | positive scores times the reciprocal of their sum are positive and add up to 1 |
| SoftmaxRegression.LogisticDistribution | vmljs/softmaxRegression.js:208-211 | `[1/(1+s), 1 − 1/(1+s)]` for a positive score is positive and adds up to 1 |
| SoftmaxRegression.LogisticHalf | vmljs/softmaxRegression.js:196-211 | with an increasing exponential and `exp(0) = 1`, the first class is more likely than not exactly when `w . x > 0` |
| SoftmaxRegression.SingleScore | vmljs/softmaxRegression.js:208-211 | with one weight vector the prediction is the logistic pair of its score |
| SoftmaxRegression.HalfIff | vmljs/softmaxRegression.js:209 | `1/(1+s) > 0.5` exactly when `s < 1` |
| SoftmaxRegression.Predictions | vmljs/softmaxRegression.js:119-122 | one prediction per sample, all from the same pre-step weights |
| SoftmaxRegression.GradTerms | vmljs/softmaxRegression.js:128-135 | one term `x_j (1[i = t_j] − p_ji)` per sample, of the sample's length |
| SoftmaxRegression.Gradient | vmljs/softmaxRegression.js:137-145 | the summed terms scaled by `−1/n` plus `fL2 * w_i` keep the weight vector's length |
| SoftmaxRegression.Applied | vmljs/softmaxRegression.js:147-149 | the gradient is clipped only when clipping is requested, and left unchanged otherwise |
| SoftmaxRegression.NewParam | vmljs/softmaxRegression.js:124-153 | the updated weight vector keeps its length |
| SoftmaxRegression.Stepped | vmljs/softmaxRegression.js:119-153 | one new weight vector per old one |
| SoftmaxRegression.PredictionsCover | vmljs/softmaxRegression.js:119-122 | with a positive exponential every sample's prediction is defined and has an entry for each weight vector |
| SoftmaxRegression.ClippedStepBounded | vmljs/softmaxRegression.js:147-152 | with clipping on, the gradient applied to each weight vector has norm at most the threshold |
| SoftmaxRegression.LogLikDefined | vmljs/softmaxRegression.js:165-177 | with a positive exponential, at least two weight vectors and every label naming an entry, the log-likelihood neither throws nor is `NaN` |
| SoftmaxRegression.LogLikThrowsIff | vmljs/softmaxRegression.js:165-177 | the log-likelihood throws exactly when some label is at least the number of entries of a prediction, and then with mathjs's `TypeError` for `log(undefined)` |
| SoftmaxRegression.LastClassThrows | vmljs/softmaxRegression.js:165-177 | with several weight vectors, one sample of the last class `numClasses − 1` makes the log-likelihood throw |
| SoftmaxRegression.LogLikErrSticks | vmljs/softmaxRegression.js:166-176 | once a term has thrown, the samples after it leave the throw unchanged: the loop stops there |
| SoftmaxRegression.LogLik | vmljs/softmaxRegression.js:165-177 | definition of the result: the terms `log(Predict(x_i)[t_i])` added from the left over the first `n` samples, starting from 0 |
| SoftmaxRegression.LogStep | vmljs/softmaxRegression.js:170-173 | definition of one term: a throw stays, a label with no entry throws, a `NaN` sum or prediction gives `NaN`, otherwise `log(p[t])` is added |
| SoftmaxRegression.PredictWith | vmljs/softmaxRegression.js:187-214 | the scoring and normalising loops return `Prediction` |
| SoftmaxRegression.ScaleAll | vmljs/softmaxRegression.js:204-206 | the in-place loop multiplies every entry by the normaliser |
| SoftmaxRegression.SumTerms | vmljs/softmaxRegression.js:128-143 | the gradient loop, starting from the first term and adding each further one, returns the sum of the terms |
| SoftmaxRegression.SoftmaxModel.constructor | vmljs/softmaxRegression.js:28-34 | empty, no weights and not ready |
| SoftmaxRegression.SoftmaxModel.Init | vmljs/softmaxRegression.js:46-65 | stores the data, labels, dimension and class count, takes `numClasses − 1` drawn weight vectors and becomes ready |
| SoftmaxRegression.SoftmaxModel.IsReady | vmljs/softmaxRegression.js:74-76 | the ready flag |
| SoftmaxRegression.SoftmaxModel.ResetWeights | vmljs/softmaxRegression.js:84-89 | exactly `numClasses − 1` fresh weight vectors; nothing else changes |
| SoftmaxRegression.SoftmaxModel.Predict | vmljs/softmaxRegression.js:187-214 | the prediction of the current weights |
| SoftmaxRegression.SoftmaxModel.TrainStep | vmljs/softmaxRegression.js:102-156 | every weight vector moves to `NewParam`, computed from the predictions of the pre-step weights; the step returns 0.0; with no samples and some weight vector the `undefined` gradient throws before anything changes |
| SoftmaxRegression.SoftmaxModel.LogLikelihood | vmljs/softmaxRegression.js:165-177 | throws mathjs's `TypeError` exactly when some label has no entry in its prediction; otherwise `sum_i log(Predict(x_i)[t_i])`, neither negated nor averaged, `NaN` once a prediction is |
| SoftmaxRegression.LogLikWith | vmljs/softmaxRegression.js:166-176 | the accumulating loop, which leaves with that `TypeError` at the first label without an entry, returns `LogLik` |
| SoftmaxRegression.ComputePredictions | vmljs/softmaxRegression.js:119-122 | the push loop returns `Predictions` |
| SoftmaxRegression.UpdateAll | vmljs/softmaxRegression.js:124-153 | each weight vector in turn is replaced by `NewParam`, from the predictions fixed before the loop |
| NaiveBayes.Column | vmljs/naivebayes.js:55-62 | the feature list of coordinate `k`: one entry per point, in order |
| NaiveBayes.ScorePositive | vmljs/naivebayes.js:94-100 | a class score `prior * prod_i Prob(x_i)` with a positive prior and positive densities is a positive number |
| NaiveBayes.Normalise | vmljs/naivebayes.js:102-105 | two entries |
| NaiveBayes.NormaliseIsDistribution | vmljs/naivebayes.js:102-105 | two non-negative scores with a positive sum give two values in [0, 1] summing to 1 |
| NaiveBayes.NormaliseOrder | vmljs/naivebayes.js:102-105 | the class with the larger score gets the larger share, and only then |
| NaiveBayes.Densities | vmljs/naivebayes.js:97-100 | one density per fitted distribution, read at the matching coordinate |
| NaiveBayes.PosteriorIsDistribution | vmljs/naivebayes.js:93-106 | with distributions of positive sigma and a sound exponential and square root, `Predict` gives two values in [0, 1] summing to 1 |
| NaiveBayes.Posterior | vmljs/naivebayes.js:93-106 | definition of `Predict` once fitted: the two class scores `0.5 * prod Prob(x_i)`, normalised |
| NaiveBayes.Features | vmljs/naivebayes.js:55-62 | the push loops collect coordinates 0 and 1 of every point |
| NaiveBayes.FitFresh | vmljs/naivebayes.js:66-67 | a fresh distribution fitted to a feature list |
| NaiveBayes.NaiveBayesModel.constructor | vmljs/naivebayes.js:28-37 | not ready, no fitted distribution, priors 0.5 and 0.5 |
| NaiveBayes.NaiveBayesModel.IsReady | vmljs/naivebayes.js:83-85 | the ready flag |
| NaiveBayes.NaiveBayesModel.Fit | vmljs/naivebayes.js:46-76 | exactly two fresh distributions per class, fitted to columns 0 and 1 whatever `iNumFeatures` is; priors unchanged; ready |
| NaiveBayes.NaiveBayesModel.Predict | vmljs/naivebayes.js:93-106 | throws exactly before `Fit` (the distribution list is undefined); otherwise the normalised class scores |
| GaussDist.SqDevNonNeg | vmljs/Utils/gaussDist.js:43-45 | the accumulated squared deviations are non-negative |
| GaussDist.FittedSigma | vmljs/Utils/gaussDist.js:42-46 | with two or more values and a finite old `fSigma` the new one is finite; with one value it is never finite (`±Infinity` or `NaN`) |
| GaussDist.OneValueRefit | vmljs/Utils/gaussDist.js:40-46 | a fit to one value leaves the old `fSigma` times `Infinity`: `+Infinity` when it was positive, `−Infinity` when negative, `NaN` when 0 |
| GaussDist.FreshSigmaIsSampleVariance | vmljs/Utils/gaussDist.js:30-46 | on a fresh instance `fSigma` becomes `sum (x − mean)^2 / (n − 1)`, which is non-negative |
| GaussDist.RefitAccumulates | vmljs/Utils/gaussDist.js:43-46 | refitting adds the old `fSigma` before dividing: `(old + sum (x − mean)^2) / (n − 1)` |
| GaussDist.Density | vmljs/Utils/gaussDist.js:53-55 | the density is a number only for a numeric mean and a positive or infinite sigma |
| GaussDist.DensityDefined | vmljs/Utils/gaussDist.js:53-55 | with a sound exponential and square root the density is a number exactly for a numeric mean and a positive or infinite sigma; it is positive for a finite sigma and 0 for an infinite one |
| GaussDist.DensityPositive | vmljs/Utils/gaussDist.js:53-55 | a density with a positive sigma is positive |
| GaussDist.DensityPeaksAtMean | vmljs/Utils/gaussDist.js:53-55 | the density is largest at the mean |
| GaussDist.DensityAtOneSigma | vmljs/Utils/gaussDist.js:54 | the exponent has no factor 2: one standard deviation from the mean the density is `exp(−1)` times its peak |
| GaussDist.Gauss.constructor | vmljs/Utils/gaussDist.js:28-31 | a fresh distribution has mean 0 and `fSigma` 0 |
| GaussDist.Gauss.Fit | vmljs/Utils/gaussDist.js:38-47 | the mean is `sum / n` (`NaN` for no value) and `fSigma` accumulates onto its old value as `FittedSigma` states |
| GaussDist.Gauss.Prob | vmljs/Utils/gaussDist.js:53-55 | the density at a value: a number exactly for a numeric mean and a positive or infinite sigma, positive for a finite sigma and 0 for `fSigma = Infinity` |
| Utils.MaxIndex | vmljs/Utils/utils.js:219-229 | the index `ArgMax`'s scan settles on is the lowest index of the maximum |
| Utils.FirstMaxUnique | vmljs/Utils/utils.js:219-229 | the lowest index of a maximum is unique, so `ArgMax`'s result is determined |
| Utils.MinIndex | vmljs/lvq.js:101-115 | the lowest index of the minimum, as the nearest-prototype and nearest-centre scans need it |
| Utils.FirstMinUnique | vmljs/lvq.js:101-115 | the lowest index of a minimum is unique |
| Utils.FirstMinExtend | vmljs/lvq.js:105-112 | one more entry in a first-minimum scan takes over only when strictly smaller |
| Utils.ArgMax | vmljs/Utils/utils.js:214-230 | throws "Empty list" exactly for an empty list; otherwise returns the lowest index holding the maximum |
| Utils.SignToProbs | vmljs/svm.js:158-166 | two probabilities summing to 1, each in [0, 1]; `[1, 0]`-leaning exactly for a positive value and `[0, 1]`-leaning exactly for a negative one (`[0.5, 0.5]` at 0) |
| Utils.FillList | vmljs/Utils/utils.js:253-261 | `n` entries, every one equal to the value |
| Utils.Phi | vmljs/Utils/utils.js:112-120 | `d + 1` entries |
| Utils.ComputePolynomPhi | vmljs/Utils/utils.js:112-120 | `d + 1` entries with entry `j` equal to `x^j`, so entry 0 is 1 |
| Utils.FeatureRow | vmljs/Utils/utils.js:94-96 | a feature row has `iDim * (d + 1)` entries |
| Utils.FeatureRowAt | vmljs/Utils/utils.js:94-96 | entry `j * (d + 1) + k` of a feature row is the `k`-th power of coordinate `j`: the rows are `phi(point[j])` concatenated for `j < iDim` |
| Utils.PolynomFeatureTransform | vmljs/Utils/utils.js:86-102 | one feature row per point, each of length `iDim * (d + 1)` |
| Utils.GradientClipping | vmljs/Utils/utils.js:67-75 | the gradient unchanged when its norm is at most the threshold, otherwise scaled by `threshold / norm` |
| Utils.ClippedNorm | vmljs/Utils/utils.js:70-72 | with a sound square root a clipped gradient has norm exactly the threshold |
| VmlMath.Scale | vmljs/Utils/math.js:40-44 | `MultiplyScalar` keeps the shape and multiplies every entry by the scalar |
| VmlMath.Transpose | vmljs/Utils/math.js:60 | the transpose of a rectangular matrix swaps its indices |
| VmlMath.DotMultiply | vmljs/Utils/math.js:62 | the element-wise product is defined exactly for equal shapes and multiplies entry by entry |
| VmlMath.RepeatRow | vmljs/Utils/math.js:56-59 | the `math.concat` loop yields `n` copies of the row |
| VmlMath.Outer | vmljs/Utils/math.js:55-63 | for a row `a` of length `iDim`: an `iDim × iDim` matrix with entry `[i][j] = a_i a_j`, the second argument ignored; a length mismatch throws |
| VmlMath.OuterEx | vmljs/Utils/math.js:75-88 | for rows `a`, `b` of lengths `m`, `n`: an `m × n` matrix with entry `[i][j] = a_i b_j`; a length mismatch throws |
| VmlMath.KernelLinear | vmljs/Utils/math.js:112-114 | the polynomial kernel of degree 1 is `x . y + b` |
| VmlMath.KernelGaussian | vmljs/Utils/math.js:99-101 | `NaN` exactly when `sigma = 0` and the distance is 0 |
| VmlMath.KernelPolynomialSymmetric | vmljs/Utils/math.js:126-128 | `(x . y + b)^d` is symmetric in `x` and `y` |
| VmlMath.KernelPolynomial | vmljs/Utils/math.js:126-128 | definition: `(x . y + b)^d`, `math.pow` of the shifted dot product |
| VmlMath.KernelGaussianIsExpOfSqDist | vmljs/Utils/math.js:99-101 | with a sound square root and `sigma != 0` the kernel is `exp(−|x − y|^2 / sigma^2)` |
| VmlMath.KernelGaussianSymmetric | vmljs/Utils/math.js:99-101 | the Gaussian kernel is symmetric |
| VmlMath.KernelGaussianSelf | vmljs/Utils/math.js:99-101 | the kernel of a point with itself is 1 whenever `sigma != 0` |
| ModelEvaluation.FracBounds | vmljs/Utils/modelEvaluation.js:165 | a count out of a non-zero total is a fraction in [0, 1], and 1 exactly when every sample counts |
| ModelEvaluation.SqErrZeroIff | vmljs/Utils/modelEvaluation.js:57-59 | the squared errors add up to a non-negative number, 0 exactly when every prediction equals its label |
| ModelEvaluation.RmseZeroIff | vmljs/Utils/modelEvaluation.js:54-64 | with a sound square root the RMSE `sqrt(sum (p − l)^2 / n)` of a non-empty set is non-negative, and 0 exactly when every prediction is exact |
| ModelEvaluation.RmseOf | vmljs/Utils/modelEvaluation.js:54-64 | definition of the result: `sqrt` of the squared errors times `1 / n`, `NaN` for an empty data set |
| ModelEvaluation.AbsPercErrNonNeg | vmljs/Utils/modelEvaluation.js:85 | the summed relative errors are non-negative |
| ModelEvaluation.MapeMinusOneIff | vmljs/Utils/modelEvaluation.js:73-90 | `MAPE` is −1 exactly when some label is 0; otherwise, on a non-empty set, it is a non-negative mean |
| ModelEvaluation.AcpCount | vmljs/Utils/modelEvaluation.js:103-110 | at most `n` samples are almost correct |
| ModelEvaluation.AlmostCorrectMeansClose | vmljs/Utils/modelEvaluation.js:107 | an almost correct sample's prediction is within `threshold * |label|` of its label |
| ModelEvaluation.RegressionEvaluation.constructor | vmljs/Utils/modelEvaluation.js:31-34 | stores the data, the labels and the model's predictor |
| ModelEvaluation.RegressionEvaluation.Rmse | vmljs/Utils/modelEvaluation.js:54-64 | the loop returns `RmseOf` |
| ModelEvaluation.RegressionEvaluation.Mape | vmljs/Utils/modelEvaluation.js:73-90 | the loop with its early return returns `MapeOf` |
| ModelEvaluation.RegressionEvaluation.Acp | vmljs/Utils/modelEvaluation.js:100-114 | the fraction of almost correct samples, in [0, 1] on a non-empty set |
| ModelEvaluation.RegressionEvaluation.AllMetrics | vmljs/Utils/modelEvaluation.js:43-45 | RMSE, MAPE and ACP with the fixed threshold 0.1 |
| ModelEvaluation.Hits | vmljs/Utils/modelEvaluation.js:156-164 | at most `n` samples are classified correctly |
| ModelEvaluation.HitsAllIff | vmljs/Utils/modelEvaluation.js:156-164 | every sample is a hit exactly when each label equals `ArgMax` of its prediction |
| ModelEvaluation.AccuracyBounds | vmljs/Utils/modelEvaluation.js:153-168 | on a non-empty scored set the accuracy lies in [0, 1], and is 1 exactly when every sample is classified correctly |
| ModelEvaluation.TallyStep | vmljs/Utils/modelEvaluation.js:205-209 | one more sample increments the correct count and the class count of its own label only |
| ModelEvaluation.CorrectAtMostCount | vmljs/Utils/modelEvaluation.js:200-210 | a class has no more correct samples than samples |
| ModelEvaluation.Reversed | vmljs/Utils/modelEvaluation.js:213 | `reverse()` keeps the length and puts entry `k` at `n − 1 − k` |
| ModelEvaluation.PerClassOf | vmljs/Utils/modelEvaluation.js:196-214 | one accuracy per class |
| ModelEvaluation.PerClassEntry | vmljs/Utils/modelEvaluation.js:196-214 | entry `k` is correct / count of class `numClass − 1 − k` (the list comes back reversed), in [0, 1] when the class has samples |
| ModelEvaluation.SumOfBounds | vmljs/Utils/modelEvaluation.js:181-183 | a sum of `n` fractions lies in `[0, n]` |
| ModelEvaluation.AverageBounds | vmljs/Utils/modelEvaluation.js:177-187 | the mean of per-class accuracies in [0, 1] lies in [0, 1] |
| ModelEvaluation.Tally | vmljs/Utils/modelEvaluation.js:234-249 | each sample adds exactly one to exactly one cell: TP for a hit on label 1, TN for another hit, FN for class 0 predicted on label 1, FP otherwise |
| ModelEvaluation.ConfusionOf | vmljs/Utils/modelEvaluation.js:228-250 | definition of the record: every sample tallied in order from `{TP: 0, FN: 0, FP: 0, TN: 0}`, its predicted class being `ArgMax` of its prediction |
| ModelEvaluation.ConfusionCounts | vmljs/Utils/modelEvaluation.js:230-250 | `TP + TN + FP + FN = n` and `TP + TN` is the number of hits |
| ModelEvaluation.ConfusionPositives | vmljs/Utils/modelEvaluation.js:234-249 | when every predicted class is 0 or 1, `TP + FN` is the number of samples labelled 1 |
| ModelEvaluation.RatesBounds | vmljs/Utils/modelEvaluation.js:283-313 | precision, recall and fall-out lie in [0, 1] whenever they are numbers |
| ModelEvaluation.F1Bounds | vmljs/Utils/modelEvaluation.js:322-327 | the F1 score of a precision and a recall in [0, 1] lies in [0, 1] |
| ModelEvaluation.ProductBound | vmljs/Utils/modelEvaluation.js:326 | `2 p r <= p + r` for `p`, `r` in [0, 1] |
| ModelEvaluation.LogLossOfCertain | vmljs/Utils/modelEvaluation.js:262-274 | the loss is neither negated nor averaged: certain correct predictions give `n * log(1)` |
| ModelEvaluation.LogLossThrowsIff | vmljs/Utils/modelEvaluation.js:262-274 | the loss throws exactly when some label has no entry in its sample's prediction, and then with mathjs's `TypeError` for `log(undefined)` |
| ModelEvaluation.LogLossErrSticks | vmljs/Utils/modelEvaluation.js:265-271 | once a term has thrown, the samples after it leave the throw unchanged: the loop stops there |
| ModelEvaluation.LogLossOf | vmljs/Utils/modelEvaluation.js:262-274 | definition of the result: `log(pred_i[label_i])` added from the left, starting from 0, throwing at the first label without an entry |
| ModelEvaluation.ClassifierEvaluation.constructor | vmljs/Utils/modelEvaluation.js:127-131 | stores the data, the labels, the predictor and the number of classes |
| ModelEvaluation.ClassifierEvaluation.Accuracy | vmljs/Utils/modelEvaluation.js:153-168 | the loop returns `AccuracyOf`: "Empty list" when a prediction has no score, hits / n otherwise |
| ModelEvaluation.ClassifierEvaluation.PerClassAccuracy | vmljs/Utils/modelEvaluation.js:196-214 | the counting loop, the element-wise division and the reversal return `PerClassOf` |
| ModelEvaluation.ClassifierEvaluation.AvgPerClassAccuracy | vmljs/Utils/modelEvaluation.js:177-187 | the mean of the per-class accuracies, or the error they throw |
| ModelEvaluation.ClassifierEvaluation.ConfusionMatrix | vmljs/Utils/modelEvaluation.js:223-253 | throws "Confusion matrix on binary labels only" unless there are two classes; otherwise the tallied record |
| ModelEvaluation.ClassifierEvaluation.LogLoss | vmljs/Utils/modelEvaluation.js:262-274 | throws mathjs's `TypeError` exactly when some label has no entry in its prediction; otherwise `sum_i log pred_i[label_i]`, neither negated nor averaged |
| ModelEvaluation.ClassifierEvaluation.Precision | vmljs/Utils/modelEvaluation.js:283-287 | `TP / (TP + FP)` of the confusion record, or its error |
| ModelEvaluation.ClassifierEvaluation.Recall | vmljs/Utils/modelEvaluation.js:296-300 | `TP / (TP + FN)`, or the error |
| ModelEvaluation.ClassifierEvaluation.FallOut | vmljs/Utils/modelEvaluation.js:309-313 | `FP / (FP + TN)`, or the error |
| ModelEvaluation.ClassifierEvaluation.F1Score | vmljs/Utils/modelEvaluation.js:322-327 | `2 p r / (p + r)` of precision and recall, or the error |
| ModelEvaluation.ClassifierEvaluation.Auroc | vmljs/Utils/modelEvaluation.js:336-344 | the loop has an empty body, so the result is always 0 |
| ModelEvaluation.ClassifierEvaluation.AllMetrics | vmljs/Utils/modelEvaluation.js:140-144 | fails exactly when a prediction has no score ("Empty list", met first), there are not two classes (the confusion matrix's error, met next) or a label has no entry in its prediction (the `TypeError` of `LogLoss`); otherwise every metric of the same model and data |
| MatFile.Int32Bytes | vmljs/Utils/matFileHelper.js:71-75 | `setInt32` writes four bytes |
| MatFile.BigEndian | vmljs/Utils/matFileHelper.js:52-56 | the unsigned value of `k` bytes is below `256^k` |
| MatFile.Int32Of | vmljs/Utils/matFileHelper.js:52-56 | `getInt32` on four bytes gives a 32-bit integer |
| MatFile.Uint32OfBytes | vmljs/Utils/matFileHelper.js:201 | the four stored bytes hold the value modulo 2^32 (`setUint32` and `setInt32` write the same bytes) |
| MatFile.Int32RoundTrip | vmljs/Utils/matFileHelper.js:52-75 | reading back what `setInt32` wrote gives the value exactly when it lies in the 32-bit range |
| MatFile.HeaderBytes | vmljs/Utils/matFileHelper.js:70-78 | a header occupies 20 bytes |
| MatFile.HeaderAt | vmljs/Utils/matFileHelper.js:51-59 | a header is read exactly when its 20 bytes lie inside the buffer |
| MatFile.HeaderRoundTrip | vmljs/Utils/matFileHelper.js:51-78 | a header with 32-bit fields is read back as written, wherever it sits in the buffer |
| MatFile.SpliceTwice | vmljs/Utils/matFileHelper.js:172-181 | two adjacent stores are one store of both byte strings |
| MatFile.SetBytes | vmljs/Utils/matFileHelper.js:181 | a `DataView` store changes exactly the bytes at `pos` and advances past them |
| MatFile.MatrixHeader.constructor | vmljs/Utils/matFileHelper.js:35-40 | all five fields start at 0 |
| MatFile.MatrixHeader.Read | vmljs/Utils/matFileHelper.js:51-59 | succeeds exactly when the header lies in the buffer, then holds its fields and returns `start + 20`; on a `RangeError` the fields read before it are kept assigned |
| MatFile.MatrixHeader.Write | vmljs/Utils/matFileHelper.js:70-78 | stores the header's 20 bytes at `start` and nothing else, and returns `start + 20` |
| MatFile.Column | vmljs/Utils/matFileHelper.js:97-101 | column `j` holds entry `j` of every row, in row order |
| MatFile.ConcatAt | vmljs/Utils/matFileHelper.js:103-106 | in `k` joined blocks of length `r`, entry `j r + i` is entry `i` of block `j` |
| MatFile.FlattenAt | vmljs/Utils/matFileHelper.js:89-109 | flattening is column-major: entry `j * rows + i` is `m[i][j]`, and there are `rows * cols` entries |
| MatFile.Reshape | vmljs/Utils/matFileHelper.js:121-135 | `rows` rows of `cols` entries each |
| MatFile.ReshapeFlatten | vmljs/Utils/matFileHelper.js:89-135 | `reshapeToMatrix(flattenMatrix(m), rows, cols)` is `m` |
| MatFile.FlattenMatrix | vmljs/Utils/matFileHelper.js:89-109 | the two loops compute `Flatten` |
| MatFile.ReshapeToMatrix | vmljs/Utils/matFileHelper.js:121-135 | the two loops compute `Reshape` |
| MatFile.FloatsAt | vmljs/Utils/matFileHelper.js:229-231 | `n` doubles are read exactly when they lie in the buffer, and there are `n` of them |
| MatFile.Int32sAt | vmljs/Utils/matFileHelper.js:242-244 | the same for 32-bit labels |
| MatFile.FloatsRoundTrip | vmljs/Utils/matFileHelper.js:180-231 | with a sound double encoding, stored doubles are read back, wherever they sit |
| MatFile.Int32sRoundTrip | vmljs/Utils/matFileHelper.js:200-244 | stored 32-bit labels are read back, wherever they sit |
| MatFile.ExportFills | vmljs/Utils/matFileHelper.js:152-156 | the writes fill the buffer of `40 + 4 + 4 n_labels + 8 rows cols` bytes exactly |
| MatFile.ExportBytes | vmljs/Utils/matFileHelper.js:146-205 | definition of the buffer: header and name `X`, the entries column by column as doubles, header and name `Y`, the labels as 32-bit words |
| MatFile.ExportImport | vmljs/Utils/matFileHelper.js:146-247 | for a non-empty rectangular data set with 32-bit sizes and labels, `Import(Export(data, labels))` stops and gives back the data and the labels |
| MatFile.Export | vmljs/Utils/matFileHelper.js:146-205 | throws "Empty data" exactly when the data or the labels are empty; otherwise a fresh buffer of `ExportSize` bytes holding `ExportBytes` |
| MatFile.WriteX | vmljs/Utils/matFileHelper.js:165-182 | stores header `X`, the name and the entries column by column from the start of the buffer |
| MatFile.WriteY | vmljs/Utils/matFileHelper.js:186-202 | stores header `Y`, the name and the labels from `start` |
| MatFile.WriteFloats | vmljs/Utils/matFileHelper.js:180-182 | the `setFloat64` loop stores the encodings of the entries, 8 bytes each |
| MatFile.WriteLabels | vmljs/Utils/matFileHelper.js:200-202 | the `setUint32` loop stores the labels, 4 bytes each |
| MatFile.ReadFloats | vmljs/Utils/matFileHelper.js:229-231 | the `getFloat64` loop returns `FloatsAt`; with a negative count `i != n` runs past the buffer and fails with `RangeError` |
| MatFile.ReadLabels | vmljs/Utils/matFileHelper.js:242-244 | the `getInt32` loop returns `Int32sAt`, the same way |
| MatFile.ReadX | vmljs/Utils/matFileHelper.js:220-232 | the first half of `Import` returns `XAt`: "Invalid format" unless type 1000 and real, then the reshaped entries |
| MatFile.ReadY | vmljs/Utils/matFileHelper.js:234-244 | the second half returns `YAt`: "Invalid format" unless type 1020, one column and real, then the labels |
| MatFile.Import | vmljs/Utils/matFileHelper.js:215-247 | returns `ImportOf`, the first error met or both matrices |
| MatFile.ImportOf | vmljs/Utils/matFileHelper.js:215-247 | definition of the result: `X` read from the start, then `Y` from where `X` ends, the first error returned |
| MatFile.XAt | vmljs/Utils/matFileHelper.js:220-232 | definition of the first half: `RangeError` for a read outside the buffer, "Invalid format" unless type 1000 and real, otherwise the entries reshaped to `rows × cols` |
| MatFile.YAt | vmljs/Utils/matFileHelper.js:234-244 | definition of the second half: "Invalid format" unless type 1020, one column and real, otherwise the `rows` 32-bit labels |
| OctaveFile.DataLines | vmljs/Utils/octaveFileHelper.js:50-56 | one line per data row |
| OctaveFile.ExportText | vmljs/Utils/octaveFileHelper.js:37-74 | definition of the export: `TypeError` without data, otherwise the banner, then for `X` and for `Y` the header block, the rows and two empty lines, every line ended by "\n" |
| OctaveFile.LabelLines | vmljs/Utils/octaveFileHelper.js:66-68 | one line per label |
| OctaveFile.Export | vmljs/Utils/octaveFileHelper.js:37-74 | returns `ExportText`: the `TypeError` of `lData[0].length` without data, otherwise the banner, header block, rows and two empty lines of `X` and then of `Y`, each line ending in a line break |
| OctaveFile.WriteHeader | vmljs/Utils/octaveFileHelper.js:45-48 | appends the four header lines of a matrix |
| OctaveFile.WriteBlank | vmljs/Utils/octaveFileHelper.js:58 | appends two empty lines |
| OctaveFile.WriteRows | vmljs/Utils/octaveFileHelper.js:50-56 | appends one line per data row |
| OctaveFile.WriteRow | vmljs/Utils/octaveFileHelper.js:51-54 | entry 0 and then entries 1 to `columns − 1`, each after a space |
| OctaveFile.WriteLabels | vmljs/Utils/octaveFileHelper.js:66-68 | appends one line per label |
| OctaveFile.ParseLine | vmljs/Utils/octaveFileHelper.js:123-132 | the numbers of the non-empty space-separated tokens of the line |
| OctaveFile.Import | vmljs/Utils/octaveFileHelper.js:84-139 | returns `ImportOf`: the lines processed in order from `iIndex` −1 with empty lists, stopping at the first error |
| OctaveFile.ImportOf | vmljs/Utils/octaveFileHelper.js:84-139 | definition of the result: the text split on "\n", the lines run from `iIndex` −1 with two empty lists, the first error thrown or both lists returned |
| OctaveFile.Run | vmljs/Utils/octaveFileHelper.js:91-136 | definition of the loop: the lines processed in order, stopping at the first error |
| OctaveFile.Step | vmljs/Utils/octaveFileHelper.js:92-135 | definition of one line: empty lines and other headers change nothing, `type` other than "matrix" throws, `columns` selects the labels for 1 and the data otherwise, a data line pushes its numbers onto the selected list and throws before any `columns` |
| OctaveFile.RunAppend | vmljs/Utils/octaveFileHelper.js:91-136 | processing two blocks of lines is processing the second from where the first stops, unless the first fails |
| OctaveFile.OtherHeader | vmljs/Utils/octaveFileHelper.js:96-121 | a header starting with neither `t` nor `c` changes nothing |
| OctaveFile.KeyValueHeader | vmljs/Utils/octaveFileHelper.js:96-121 | a `# key: value` header throws "Invalid value of type" for a type that is not "matrix", selects the labels for `columns: 1` and the data for any other `columns`, and otherwise changes nothing |
| OctaveFile.ColumnsHeader | vmljs/Utils/octaveFileHelper.js:111-120 | `# columns: n` selects the labels when `n` is 1 and the data otherwise |
| OctaveFile.RunHeader | vmljs/Utils/octaveFileHelper.js:45-121 | a written header block leaves the lists alone and selects the list its column count names |
| OctaveFile.DataLine | vmljs/Utils/octaveFileHelper.js:122-135 | a line starting with a space pushes its point onto the selected list, and throws before any `columns` header |
| OctaveFile.RunDataLines | vmljs/Utils/octaveFileHelper.js:122-135 | data lines go, in order, to the selected list |
| OctaveFile.ReadRow | vmljs/Utils/octaveFileHelper.js:50-132 | with a sound number text, the numbers on a written row are read back |
| OctaveFile.RunRows | vmljs/Utils/octaveFileHelper.js:50-135 | the rows of a rectangular data set go, in order, to the selected list |
| OctaveFile.LinesWithoutBreak | vmljs/Utils/octaveFileHelper.js:37-74 | no exported line holds a line break, so splitting on "\n" recovers the lines |
| OctaveFile.ExportSplit | vmljs/Utils/octaveFileHelper.js:37-86 | the exported text splits into its lines and the empty piece after the last break |
| OctaveFile.ExportImport | vmljs/Utils/octaveFileHelper.js:37-139 | for a rectangular data set with at least two columns, `Import(Export(data, labels))` gives back the rows and each label as a one-entry list |
| OctaveFile.ExportImportOneColumn | vmljs/Utils/octaveFileHelper.js:48-119 | with one column, the `columns: 1` header of `X` sends its rows to the labels too: the data come back empty |
| CsvFile.Texts | vmljs/Utils/csvHelper.js:74 | the text of every number of the row, in order |
| CsvFile.RowLines | vmljs/Utils/csvHelper.js:73-75 | one line per data row |
| CsvFile.ExportText | vmljs/Utils/csvHelper.js:70-78 | definition of the export: the header `x,t` and a line per row, its first comma replaced by a space and its label after a comma, every line ended by "\r\n" |
| CsvFile.Export | vmljs/Utils/csvHelper.js:70-78 | returns `ExportText`: the header `x,t` and a line per row, each ending in "\r\n" |
| CsvFile.ImportRows | vmljs/Utils/csvHelper.js:43-58 | one point and one label per non-empty line, never more than there are lines |
| CsvFile.ParseTokens | vmljs/Utils/csvHelper.js:52-54 | each token replaced by the number it reads as |
| CsvFile.Import | vmljs/Utils/csvHelper.js:38-61 | returns `ImportOf`: the lines after the first, empty ones skipped |
| CsvFile.ImportOf | vmljs/Utils/csvHelper.js:38-61 | definition of the result: the lines after the first of the text split on "\n", each non-empty one giving a point and a label |
| CsvFile.RowShape | vmljs/Utils/csvHelper.js:74 | replacing only the first comma turns a point of one or two coordinates into one comma field, followed by the label field |
| CsvFile.RowRoundTrip | vmljs/Utils/csvHelper.js:48-74 | with a sound number text, a point of one or two coordinates is read back, and its label as its text with the carriage return left on |
| CsvFile.ThirdCoordinateAsLabel | vmljs/Utils/csvHelper.js:57-74 | with three coordinates the second comma survives, so the first two coordinates are read back and the third is taken for the label |
| CsvFile.LabelsRead | vmljs/Utils/csvHelper.js:57 | the labels come back as their texts followed by "\r" |
| CsvFile.ImportNonEmpty | vmljs/Utils/csvHelper.js:43-58 | non-empty lines each give one point and one label, in order |
| CsvFile.ImportRowLines | vmljs/Utils/csvHelper.js:43-75 | the exported rows are read back in order |
| CsvFile.LinesWithoutBreak | vmljs/Utils/csvHelper.js:71-75 | no exported line holds a line break, so splitting on "\n" recovers the lines |
| CsvFile.ExportImport | vmljs/Utils/csvHelper.js:38-78 | `Import(Export(data, labels))` gives back points of one or two coordinates, in order, and each label as its text followed by "\r" |
| DataGen.RowLines | vmljs/datagen.js:152-157 | one line per point of the class, in order |
| DataGen.ExportText | vmljs/datagen.js:146-160 | definition of the export: the header `x, y, t` and a row `x,y,digit` per point of A with digit 0, then of B with 1, every line ended by "\r\n" |
| DataGen.ReadRows | vmljs/datagen.js:175-190 | each line read on its own, in order |
| DataGen.ReadRow | vmljs/datagen.js:176-189 | definition of one line as written: empty skipped, third comma field exactly "0" to A and exactly "1" to B, the first two fields kept as texts, anything else dropped |
| DataGen.ImportOf | vmljs/datagen.js:167-191 | definition of the import as written: the lines after the first of the text split on "\n" only, each read by `ReadRow` |
| DataGen.Collect | vmljs/datagen.js:175-190 | every line adds at most one point, to A or to B |
| DataGen.ImportStored | vmljs/datagen.js:184-189 | the importer stores each point as the texts of its first two comma fields |
| DataGen.CollectSkipped | vmljs/datagen.js:175-190 | lines that are all dropped leave both classes empty |
| DataGen.CollectSorted | vmljs/datagen.js:184-189 | lines read as points of A and then as points of B give exactly those points, in order |
| DataGen.NumbersPlain | vmljs/datagen.js:96-153 | clicked points of two numbers hold no comma or line feed when numbers are written without them |
| DataGen.RowFields | vmljs/datagen.js:153-181 | an exported line splits at its two commas into the coordinates and the class digit followed by "\r" |
| DataGen.RowsNoBreak | vmljs/datagen.js:152-157 | no exported line of a class holds a line feed |
| DataGen.ExportLines | vmljs/datagen.js:146-173 | the exported text split at its line feeds is the header, the rows of A, the rows of B and an empty last piece |
| DataGen.ExportImportLosesPoints | vmljs/datagen.js:153-188 | as written, `ImportDataFromCSV(ExportDataToCSV())` empties both classes: every third field reads "0\r" or "1\r" |
| DataGen.StripAll | vmljs/datagen.js:173 | every line with its trailing carriage return removed |
| DataGen.ImportFixedOf | vmljs/datagen.js:167-191 | definition of the corrected import: as `ImportOf`, but each line's trailing carriage return dropped before it is read |
| DataGen.AsRead | vmljs/datagen.js:185 | a point as the importer stores it: two texts, unchanged when it already is |
| DataGen.StrippedRow | vmljs/datagen.js:153-188 | an exported line with the carriage return dropped is read as the point's texts, in the class of its digit |
| DataGen.ExportImportFixed | vmljs/datagen.js:146-190 | with carriage returns dropped before the fields are compared, the round trip gives back both classes in order, each point as its texts |
| DataGen.ExportImportFixedStored | vmljs/datagen.js:146-190 | a set that was itself imported survives the corrected round trip unchanged |
| DataGen.Generator.constructor | vmljs/datagen.js:29-30 | both classes start empty |
| DataGen.Generator.InsertNewDataPoint | vmljs/datagen.js:108-116 | appends the point to class A when the flag is set and to class B otherwise, the other class unchanged |
| DataGen.Generator.ExportDataToCsv | vmljs/datagen.js:146-160 | returns `ExportText` of the two classes |
| DataGen.Generator.ImportDataFromCsv | vmljs/datagen.js:167-191 | both classes become what the as-written reader `ImportOf` takes from the text: the lines after the header split on "\n" only, each keeping its carriage return, empty ones skipped, third field exactly "0" to class A and exactly "1" to class B |
| DataGen.Generator.Reset | vmljs/datagen.js:270-277 | both classes become empty |
| DataGen.ReadLine | vmljs/datagen.js:176-189 | the loop body reads one line as `ReadRow` does |
| DataGen.WriteRows | vmljs/datagen.js:152-157 | one export loop appends the lines of one class, each with its line feed |
| ComponentDataGen.Pop | Components/DataGen/dataGen.js:454-459 | `pop` removes the last entry and leaves an empty list alone |
| ComponentDataGen.Insert | Components/DataGen/dataGen.js:146-156 | definition of an insertion: the point appended to A or B and its tag to the history |
| ComponentDataGen.UndoOf | Components/DataGen/dataGen.js:452-460 | definition of `Undo`: nothing with an empty history, otherwise the last tag popped and the last point of its class |
| ComponentDataGen.PartitionOf | Components/DataGen/dataGen.js:190-199 | definition of the importers' loop: the points inserted in order, to A exactly when the label equals 0 |
| ComponentDataGen.Repeat | vmljs/Utils/utils.js:253-261 | `FillList(n, t)`: `n` copies of `t` |
| ComponentDataGen.ExportLabels | Components/DataGen/dataGen.js:167 | one label per point: 0 for each point of A, then 1 for each point of B |
| ComponentDataGen.CountSnoc | Components/DataGen/dataGen.js:150-154 | one more history entry adds one to the count of its own class only |
| ComponentDataGen.InsertConsistent | Components/DataGen/dataGen.js:146-156 | an insertion keeps the history consistent with the classes (one "A" per point of A, one "B" per point of B), and a consistent history stays so |
| ComponentDataGen.UndoInsert | Components/DataGen/dataGen.js:146-460 | `Undo` after `InsertNewDataPoint` restores the state before it, whatever that state |
| ComponentDataGen.UndoConsistent | Components/DataGen/dataGen.js:452-460 | `Undo` keeps a consistent history consistent |
| ComponentDataGen.CountBoth | Components/DataGen/dataGen.js:150-154 | every history entry is "A" or "B" |
| ComponentDataGen.ResetConsistent | Components/DataGen/dataGen.js:472-475 | after `Reset` the history is consistent exactly when it is empty, since `Reset` keeps it |
| ComponentDataGen.PartitionShape | Components/DataGen/dataGen.js:190-199 | every point goes to exactly one class, in order, and the history grows by its class: "A" exactly when its label equals 0 |
| ComponentDataGen.PartitionConsistent | Components/DataGen/dataGen.js:190-199 | the import loop keeps a consistent history consistent |
| ComponentDataGen.PartitionZeros | Components/DataGen/dataGen.js:190-194 | points labelled 0 all go to A, in order |
| ComponentDataGen.LabelsAgree | Components/DataGen/dataGen.js:191 | the loop only asks whether each label equals 0 |
| ComponentDataGen.ExportPartition | Components/DataGen/dataGen.js:165-199 | the loop over what the exporter assembles restores both classes, in order |
| ComponentDataGen.CsvLabels | vmljs/Utils/csvHelper.js:57 | one label per line: its text, or `undefined` without a second field |
| ComponentDataGen.ImportClears | Components/DataGen/dataGen.js:179-204 | the importer keeps the old history as a prefix, and the classes hold exactly the imported points, none when the import throws |
| ComponentDataGen.ImportJsonOf | Components/DataGen/dataGen.js:179-204 | definition of the JSON import: the classes cleared, then, when parsing and scaling succeed, the scaled points partitioned by their labels |
| ComponentDataGen.ImportCsvOf | Components/DataGen/dataGen.js:225-250 | definition of the CSV import: the same with the CSV importer's points and label texts |
| ComponentDataGen.ExportImportJson | Components/DataGen/dataGen.js:165-204 | assuming a scaling step that leaves the points unchanged (which the source's `ScaleData` is not, see "## Left out"): re-importing the exported points and labels restores both classes and appends one entry per point to the history |
| ComponentDataGen.ExportImportCsv | Components/DataGen/dataGen.js:213-250 | under the same assumption on scaling, the same through the CSV text, for points of one or two coordinates whose label texts read back as 0 and 1 |
| ComponentDataGen.DataGen.constructor | Components/DataGen/dataGen.js:32-35 | both classes and the history start empty |
| ComponentDataGen.DataGen.InsertNewDataPoint | Components/DataGen/dataGen.js:146-156 | the state becomes `Insert`: the point appended to its class and its class appended to the history |
| ComponentDataGen.DataGen.Undo | Components/DataGen/dataGen.js:452-460 | the state becomes `UndoOf`: the last history entry popped, and the last point of its class |
| ComponentDataGen.DataGen.Reset | Components/DataGen/dataGen.js:472-479 | the state becomes `Cleared`: both classes empty, the history kept |
| ComponentDataGen.DataGen.ExportData | Components/DataGen/dataGen.js:165-218 | the points of A then of B, with the labels 0 for A and 1 for B |
| ComponentDataGen.DataGen.ExportDataToCsv | Components/DataGen/dataGen.js:213-218 | the CSV text of those points and labels |
| ComponentDataGen.DataGen.Partition | Components/DataGen/dataGen.js:190-199 | the state becomes `PartitionOf` the points and labels |
| ComponentDataGen.DataGen.ImportDataFromJson | Components/DataGen/dataGen.js:179-204 | the classes are cleared first; then, unless parsing or scaling throws, the points are partitioned by their labels |
| ComponentDataGen.DataGen.ImportDataFromCsv | Components/DataGen/dataGen.js:225-250 | the same with the CSV importer's points and label texts |
| Text.SplitOn | vmljs/Utils/octaveFileHelper.js:98 | `split` gives at least one piece |
| Text.SplitJoin | vmljs/Utils/csvHelper.js:42-48 | splitting undoes joining when no piece holds the separator |
| Text.SplitKeyValue | vmljs/Utils/octaveFileHelper.js:97-98 | a `key: value` header of colon-free parts splits into its key and its value |
| Text.SplitTerminated | vmljs/Utils/octaveFileHelper.js:86 | splitting lines that each end in a break gives the lines and an empty last piece |
| Text.ReplaceFirstAt | vmljs/Utils/csvHelper.js:74 | `replace(",", " ")` changes the first comma only |
| Text.ParseIntNatStr | vmljs/Utils/octaveFileHelper.js:112 | `parseInt` reads back the decimal text of a count |
| Text.ParseInt | vmljs/Utils/octaveFileHelper.js:112 | definition of JavaScript's `parseInt` without a radix: leading white space skipped, an optional sign, base 16 after `0x`, the longest run of digits; `NaN` without one |

## Left out

- Everything in the browser: the DOM, dialogs, plotting, event handlers, file reading and writing, `alert` and `console.log`. The UI pages and `Components/Evaluation`, `Components/TrainingCurvePlot`, `vml_FileHelper`, `vml_PlotHelper` and `build.js` are not part of this model.
- `vml_JsonHelper` and the JSON export and import of both editors: JSON text is not modelled. The editor's JSON importer takes what the JSON helper returns (or its throw) as a parameter.
- Gaussian mixtures and Bayesian linear regression are not part of this model.
- `vml_PolynomialRegression.Fit`, the closed-form fit, needs a matrix inverse; it is not modelled. The gradient step `UpdateWeights` is.
- The runtime type checks of the source (`instanceof Array`, `typeof ... != "number"`) and the throws they guard have no counterpart: Dafny's types rule those inputs out.
- Floating point: all arithmetic is exact on `real`. Rounding, overflow to infinity and `NaN` produced by arithmetic other than division by zero are not modelled.
- GaussDist.Density and GaussDist.Gauss.Prob: a negative or `−Infinity` sigma is taken as `NaN`. mathjs's `sqrt` of a negative number is a Complex value, and the arithmetic the source then does with it is not modelled.
- Knn.KnnModel.Init, KMeans.KMeansModel.Init and DecisionTree.DecisionTreeModel.Fit: `k`, `K` and the depth are `nat`. The pages pass what `parseInt` reads from a text field, and a negative, fractional or `NaN` value is not modelled.
- SoftmaxRegression.SoftmaxModel.Init and SoftmaxRegression.SoftmaxModel.ResetWeights: require at least one class. With `iNumClasses` 0 the loop `i != iNumClasses - 1` of `ResetWeights` (vmljs/softmaxRegression.js:86) never stops.
- `exp`, `log`, `sqrt`, `pi`, the kernel, number-to-text conversion and the double encoding are parameters. Only the properties named by the proofs are assumed of them.
- Randomness (`Math.random`) is a parameter: the sample index of each `FitStep`, and the initial weights, centres and prototypes.
- `vml_Utils.ScaleData` reads the undefined names `minVal`/`maxVal` (vmljs/Utils/utils.js:50), so as written it throws; the editor's importers call it. The model takes the scaling step as a parameter that may fail, and the round-trip lemmas assume it leaves the points unchanged.
- The editor's Octave and MAT-file importers and exporters (`ImportOctave`, `ImportMAT`, `ExportOctave`, `ExportMAT`) are file callbacks. Their serialisers are modelled (`OctaveFile`, `MatFile`) and their loop is the same partition loop (`ComponentDataGen.DataGen.Partition`).
- Shape preconditions: members that read field `i` of a point, label `i` of a list or weight `j` of a model require these to exist (one label per point, points of the model's dimension). Where the source would read `undefined` and compute `NaN`, the model requires the shape instead.
- Svm.SvmModel.FitStep, Lvq.LvqModel.FitStep and Perceptron.PerceptronModel.FitStep: require a sample index inside the data; the source draws it at random from the data, and with no data it reads `undefined`.
- Lvq.LvqModel.FitStep: also requires at least one prototype; without one the source dereferences an undefined winner.
- KMeans.KMeansModel.FitStep: requires `numCenter > 0` unless there are no points. With `numCenter` 0 and some points the source does one of two things. When no earlier `Init` had a positive `K`, `lTempMean` is empty and reading `lTempMean[0]` throws. Otherwise `Init` has left the old accumulators in place (vmljs/kmeans.js:55-56 only pushes), `Predict` returns 0 (vmljs/kmeans.js:112-123), and every point is added silently into `lTempMean[0]`, which the empty maximisation loop never clears. Neither case is modelled.
- KMeans: points and centres are two-dimensional, as the source's arithmetic on `[0]` and `[1]` is.
- VmlMath.Outer and VmlMath.OuterEx: require sizes of at least 1; with a size of 0 the source's loop `i != iDim - 1` never ends.
- PolynomialRegression.PolynomialModel.Init, Utils.ComputePolynomPhi, Utils.PolynomFeatureTransform and VmlMath.KernelPolynomial: the polynomial degree is a `nat`. The pages pass what `parseInt` reads from a text field (PolynomialRegression/polynomialRegUI.js:200-206, SVM/svmUI.js:157-163), and vmljs/ploynomialRegression.js:42-55 checks only its type. Negative degrees are not modelled. For degree −1, vmljs/Utils/utils.js:112-120 returns `[]`, so there are no features and `math.random([0])` draws no weights. For degree −2 or lower, the loop `j != iDegree + 1` of vmljs/Utils/utils.js:115 never ends, so `Init` hangs on any non-empty data set. For a negative degree, the kernel's `math.dotPow` at vmljs/Utils/math.js:126-128 computes a reciprocal power.
- SoftmaxRegression.SoftmaxModel.TrainStep, SoftmaxRegression.SoftmaxModel.UpdateAll, SoftmaxRegression.NewParam and SoftmaxRegression.Stepped: require a non-negative clipping threshold when clipping is on. vmljs/softmaxRegression.js:112-114 checks only its type. With a negative threshold, `GradientClipping` (vmljs/Utils/utils.js:67-75) would scale every gradient by a negative factor and so reverse it, and a zero gradient would become `NaN` (`0 * (threshold / 0)`).
- ModelEvaluation.ClassifierEvaluation.PerClassAccuracy and ModelEvaluation.ClassifierEvaluation.AvgPerClassAccuracy: require every label to be below the class count; for a larger label the source grows both lists with `NaN` entries.
- DecisionTree: labels are required to be below the class count, as `majorityClassifier` counts into a list of that length.
- Knn.KnnModel.PredictRegression: with `k = 0` the mean of no neighbours is `NaN` (`None`).
- CsvFile.ExportImport: the round trip is proved for points of one or two coordinates. With three or more the second comma is not replaced and the third coordinate becomes the label (`CsvFile.ThirdCoordinateAsLabel`).
- OctaveFile.ExportImport: proved for data of at least two columns, since one column is routed to the labels (`OctaveFile.ExportImportOneColumn`).
- MatFile.ImportOf, MatFile.ReadX and MatFile.Import: require `!Hangs(b)`, excluding buffers whose header gives a negative element count and whose following reads stay inside the buffer; there the source's `i != n` loop never terminates.
- MatFile.ExportImport: requires 32-bit sizes and labels. Labels are written with `setUint32` and read with `getInt32`, so each label in `[-2^31, 2^31)` comes back unchanged.
- SoftmaxRegression: with several weight vectors the last class gets no probability entry, as in the source, so a label naming it makes `LogLikelihood` throw mathjs's `TypeError` (`SoftmaxRegression.LastClassThrows`). Overflow of `exp` to `Infinity` is not distinguished from `NaN`.

## Findings

| source | as written | input that shows it | evidently intended | confidence | as-written member | corrected member |
|---|---|---|---|---|---|---|
| vmljs/datagen.js:153-188 | `ExportDataToCSV` ends every line in "\r\n", but `ImportDataFromCSV` splits on "\n" only and compares the third field with "0" and "1", which now read "0\r" and "1\r" | any exported text holding at least one point, e.g. class A = `[[1, 2]]`: its line `1,2,0\r` is dropped | re-importing the exporter's own text restores both classes (the carriage return dropped before the fields are compared) | not executed | DataGen.ExportImportLosesPoints | DataGen.ExportImportFixed |

`DataGen.Generator.ImportDataFromCsv` and `DataGen.ImportOf` model the importer as written. `DataGen.ImportFixedOf` is the corrected reader, and `DataGen.ExportImportFixed` proves the intended round trip about it.
