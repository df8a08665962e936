# Step-by-step machine-learning engines, modelled in Dafny

The backend of this teaching application takes an uploaded table and runs one
of several classic algorithms on it, returning every intermediate quantity as
a numbered list of steps that the frontend renders. This project models the
engines' own logic and proves what each step promises:

- **ID3** (`Id3`): the class counts and entropy of S, one information-gain step
  per categorical feature over its group-by partition, the ranking by a stable
  descending sort and the first best split.
- **Naive Bayes**, two engines: the Laplace-smoothed classifier with column
  detection and a default example (`NaiveBayes`), and the `/calculation` route
  that smooths only unseen values and reports every failure as status 500
  (`NaiveBayesCalc`).
- **The main routes** (`MainRoutes`): target-type inference on an upload, the
  suggested algorithms, the stamping of `run_id`/`step_id` onto step lists, and
  the `/naivebayes` route with sorted string classes.
- **Regression engines**: simple linear regression (`LinearRegression`), linear
  SVR's un-scaling and chart (`Svr`), hand-written KNN regression
  (`KnnRegression`), KNN classification's encoding, test vector and vote tally
  (`KnnClassification`), and the comparison of linear and KNN regression ranked
  by R² (`AlgorithmComparison`).
- **Frontend pages**: the ID3 page's target and feature choice (`Id3Page`),
  the linear-regression worked example (`LinearRegressionPage`) and the naive
  Bayes weather example (`NaiveBayesPage`).
- Shared vocabulary: cells, tables, failures, counting, sums, the stable sort
  and first maximum (`Common`); the column-name searches (`Detection`); string
  operations (`Strings`).

Cells are `Num(real) | Str(string) | Null`; a table is its column order plus
rows mapping column names to cells. Every engine failure is a `Failure`: an
HTTP status, a raised Python exception by name, or a column whose cells are
not numbers. Arithmetic is exact over the reals. Library calls the engines
make (scikit-learn fits, scalers, splits, `r2_score`, `log2`, `sqrt`,
pandas' parsing and filling) are parameters of the model.

The simple linear regression page's five points (1..5 against 2, 3, 5, 4, 6)
give x̄ = 3, ȳ = 4, m = 9/10 = 0.9, c = 1.3 and a prediction of 6.7 at x = 6;
`LinearRegressionPage.WorkedExample` proves these values.

## Model

| member | source | states |
|---|---|---|
| Common.Column | backend/id3.py:27 | the column holds one cell per row, each the row's cell |
| Common.RowsWhere | backend/main.py:437 | a boolean mask keeps only rows of the table whose cell equals the value |
| Common.RowsWhereSize | backend/naive_bayes.py:78-79 | the mask keeps as many rows as the column holds the value |
| Common.NonNull | backend/main.py:93 | `dropna()` keeps exactly the non-missing cells |
| Common.DistinctProps | backend/naive_bayes.py:64 | `unique()` keeps exactly the elements, each once |
| Common.RealColumn | backend/linear_regression.py:48-49 | a column reads as numbers exactly when every cell is a number, and then cell by cell |
| Common.NumericColumns | backend/linear_regression.py:23 | `select_dtypes(include=[np.number])` lists exactly the numeric columns |
| Common.FirstMax | backend/naive_bayes.py:121 | Python's `max` with a key returns the first element of maximal key |
| Common.SortDesc | backend/id3.py:186 | `sorted(..., reverse=True)` permutes its input |
| Common.SortDescSorted | backend/id3.py:186 | the result is descending in the key and a permutation of the input |
| Common.SortDescStable | backend/id3.py:186 | elements with equal keys keep their input order |
| Common.SortDescHead | backend/id3.py:186-188 | the first of the sorted list is the input's first maximum |
| Common.Without | frontend/src/pages/Id3.jsx:73 | the filter keeps exactly the elements other than x |
| Detection.FirstMatchIn | backend/naive_bayes.py:16-19 | a match is a column containing the candidate case-insensitively; none exactly when no column does |
| Detection.FirstMatchInIsFirst | backend/naive_bayes.py:16-19 | the inner loop's break gives the earliest matching column |
| Detection.PriorityMatch | backend/naive_bayes.py:15-21 | a match is a column; none exactly when no candidate matches any column |
| Detection.PriorityMatchIsFirst | backend/algorithm_comparison.py:19-25 | the earliest candidate with a match decides |
| Detection.SearchPriorityMatch | backend/algorithm_comparison.py:19-25 | the nested for/break loops give the specified match |
| Detection.FirstPresent | backend/linear_regression.py:16-20 | a hit is a listed name that is a column; none exactly when no listed name is a column |
| Detection.FirstPresentIsFirst | backend/linear_regression.py:17-20 | the earliest listed name that is a column is the hit |
| Detection.SearchFirstPresent | backend/linear_regression.py:17-20 | the for/break loop gives the specified hit |
| Strings.Lower | backend/naive_bayes.py:17 | `lower()` keeps the length of an ASCII string and lower-cases each ASCII letter, leaving every other character as it is |
| Strings.IsSubstringAt | backend/naive_bayes.py:17 | Python's `in` on strings holds exactly when the needle occurs at some offset |
| Strings.Strip | backend/main.py:403 | `strip()` shortens, leaves no whitespace at either end, and leaves a string without outer whitespace unchanged |
| Strings.Sort | backend/main.py:426 | `sorted` permutes its input |
| Strings.SortSorted | backend/main.py:426 | the result is in ascending string order and a permutation of the input |
| Strings.Unique | backend/knn_classification.py:146 | `np.unique` returns no more values than it is given |
| Strings.UniqueProps | backend/knn_classification.py:146 | the unique values are sorted, distinct and exactly the values given |
| Id3.CountsFor | backend/id3.py:25-28 | one entry per listed label, carrying how many cells hold that label |
| Id3.ClassCounts | backend/id3.py:25-28 | `_series_class_counts` lists each non-missing label of the column once, and only those, each with its positive number of occurrences |
| Id3.CountValues | backend/id3.py:13 | the counts of a class-count table, in table order |
| Id3.CountNonNull | backend/id3.py:27 | dropping missing cells does not change the count of any present label |
| Id3.TotalCountsFor | backend/id3.py:13-28 | the counts of the table add up to the number of cells holding one of its labels |
| Id3.CountsOverNonNull | backend/id3.py:27 | counting over present labels is the same before and after `dropna` |
| Id3.ClassCountsProps | backend/id3.py:25-28 | `_series_class_counts` names each distinct non-missing label once, every count is positive, and the counts add up to the number of non-missing cells |
| Id3.EntropyFromCounts | backend/id3.py:11-22 | the accumulation loop computes −Σ p·log2 p over the positive counts with p = c/n, and gives 0 when the counts total at most 0 |
| Id3.TotalAppend | backend/id3.py:13 | the total of two count lists joined is the sum of their totals |
| Id3.EntropyTermsZeroClass | backend/id3.py:17-19 | a zero count inserted anywhere adds no term |
| Id3.EntropyZeroClass | backend/id3.py:17-19 | a class with count 0 leaves the entropy unchanged wherever it is inserted |
| Id3.TotalBound | backend/id3.py:13-20 | each non-negative count is at most the total, so p = c/n ≤ 1 |
| Id3.TotalNonNegative | backend/id3.py:13 | non-negative counts have a non-negative total |
| Id3.EntropyTermsNonNegative | backend/id3.py:16-21 | with a logarithm that is non-positive on (0, 1], every term −p·log2 p is non-negative |
| Id3.EntropyNonNegative | backend/id3.py:11-22 | the entropy of non-negative counts is ≥ 0 for any such logarithm |
| Id3.EntropyTermsSingle | backend/id3.py:16-21 | when one class holds every row, only its term remains |
| Id3.EntropyTermsAllZero | backend/id3.py:13-19 | all-zero counts contribute no term and total 0 |
| Id3.EntropyPure | backend/id3.py:11-22 | a slice in which one class has all the rows has entropy 0 when log2 1 = 0 |
| Id3.ValueLabel | backend/id3.py:31-35 | a missing value is labelled "NaN" (never missing), any other value keeps its own label |
| Id3.Groups | backend/id3.py:57 | the groups of `groupby(feature, dropna=False)` are exactly the values in the column, missing included, each once |
| Id3.PTerms | backend/id3.py:70-74 | every listed share is strictly positive |
| Id3.PTermsProps | backend/id3.py:70-74 | an empty partition lists no term; otherwise a term is listed exactly for each class with a positive count, with p = count/|S_v| |
| Id3.PartsOf | backend/id3.py:57-83 | one part per group, each with the rows of its value, taken in first-appearance order of the values |
| Id3.PTermsLoop | backend/id3.py:70-74 | the `p_terms` loop builds exactly the listed terms of the partition |
| Id3.PartLoopBody | backend/id3.py:58-83 | the body of the group loop builds the part of value v, and that part is non-empty |
| Id3.PartsOfStep | backend/id3.py:57-76 | one more group appends exactly its own part |
| Id3.GroupLoopStep | backend/id3.py:66-76 | one loop step keeps parts and weighted sum equal to their specifications |
| Id3.WeightedSumSnoc | backend/id3.py:66 | the weighted sum grows by weight·H(S_v) of the appended part |
| Id3.GroupLoop | backend/id3.py:57-83 | the group loop appends one part per group and accumulates Σ weight·H(S_v) |
| Id3.GainForCategorical | backend/id3.py:40-96 | `gain_for_categorical` returns the base counts and entropy of S, the parts of the group-by partition, their weighted sum, and Gain = H(S) − Σ (|S_v|/|S|)·H(S_v): the breakdown `Breakdown` specifies |
| Id3.PartSizeWeight | backend/id3.py:59-65 | a part's size is the number of rows with that feature value, and its weight is that size over N (0 when N = 0) |
| Id3.SizesIsCountsOver | backend/id3.py:57-59 | the part sizes add up to the number of rows whose value is one of the groups |
| Id3.WeightsAreShares | backend/id3.py:65 | when N > 0 each weight is n_v/N |
| Id3.WeightsAreSizesOverN | backend/id3.py:65 | the weights add up to the total size over N |
| Id3.PartsOfPositive | backend/id3.py:59-61 | every group that occurs gives a non-empty part, so the `n_v == 0` skip never fires |
| Id3.GroupsCover | backend/id3.py:57 | the groups, the missing value included, account for every row exactly once |
| Id3.PartitionCoversRows | backend/id3.py:57-66 | for N > 0 every row falls in exactly one non-empty partition: the sizes add up to N and the weights to 1 |
| Id3.PSumIsTotalOverSize | backend/id3.py:70-74 | the shares listed for a partition add up to the sum of its class counts over |S_v| |
| Id3.PTermsShare | backend/id3.py:63-74 | the `p_terms` divide by |S_v|, which counts rows whose target is missing, so they add up to the non-missing share of S_v |
| Id3.Candidates | backend/id3.py:115-119 | the candidates exclude the target and are columns; with no list they are the other columns in order; with a list they are the listed names that are columns and not the target |
| Id3.Categorical | backend/id3.py:138-141 | exactly the candidates whose column is boolean or object, in candidate order |
| Id3.SummariesOf | backend/id3.py:144-148 | one (feature, gain) summary for each gain step, in step order |
| Id3.SummariesOfSnoc | backend/id3.py:144 | one more gain step appends its own summary |
| Id3.GainStepsForSnoc | backend/id3.py:151-181 | a gain step numbered |cats| + 2 carrying the feature's gain extends the loop invariant |
| Id3.Breakdown | backend/id3.py:40-96 | the reported gain is the feature's information gain H(S) − Σ (|S_v|/|S|)·H(S_v) |
| Id3.MakeGainStep | backend/id3.py:143-180 | one gain step, numbered `order`, carrying the feature's full breakdown (table size, base counts and entropy, every part's size, weight, class counts, shares and entropy, the weighted sum and the information gain) and the labels of its partitions |
| Id3.GainStepsLoop | backend/id3.py:137-181 | one gain step per categorical candidate, in candidate order, numbered from 2, each carrying that feature's full breakdown, with the matching summaries |
| Id3.ComputeId3RootSteps | backend/id3.py:99-208 | a target that is not a column raises ValueError; otherwise step 1 is H(S), then one gain step per categorical candidate carrying its full breakdown, then the split step with id 2 + #categorical; step ids are 1..len; the candidates are ranked by a stable descending sort on gain; the best is the first candidate of highest gain, or none with gain −1.0 |
| Id3.BaseEntropyStep | backend/id3.py:121-133 | step 1 holds the class counts of the target column, N and H(S) |
| Id3.AssembleRoot | backend/id3.py:183-208 | the entropy step, the gain steps and the split step, numbered consecutively; the ranking is the stable descending sort of the summaries and the best is the first summary of highest gain, or none with gain −1.0 |
| Id3.ValuesOf | backend/id3.py:159 | the "values" context lists each part's label, in part order |
| NaiveBayes.DetectedTarget | backend/naive_bayes.py:12-25 | the detected target is always one of the columns |
| NaiveBayes.DetectColumns | backend/naive_bayes.py:7-30 | the nested for/break search gives the first column matching the earliest priority name (case-insensitive substring), else the last column; the features are the other columns in order; a table without columns raises IndexError |
| NaiveBayes.ChosenColumnsAsWritten | backend/naive_bayes.py:37-53 | the column choice as written: a named target or feature list is kept, a missing target is the detected one, a missing feature list is every column except the *detected* target; the chosen columns exist; IndexError exactly when detection runs on a table without columns; otherwise failures are 400 |
| NaiveBayes.ChosenColumns | backend/naive_bayes.py:37-53 | the corrected column choice: a named target is kept, a missing feature list becomes every column except the target actually used, and the chosen columns exist; failures are IndexError or 400 |
| NaiveBayes.Validated | backend/naive_bayes.py:47-53 | the columns pass exactly when the target and every feature are columns; otherwise 400 |
| NaiveBayes.FeaturesKeepNamedTarget | backend/naive_bayes.py:42-45 | on columns ["class", "x"] with target "x" and no feature list, the code as written uses "x" as its own feature, while the corrected choice uses "class" |
| NaiveBayes.ChosenColumnsExcludeTarget | backend/naive_bayes.py:28-45 | with the feature list missing, the corrected choice never lists the target as a feature |
| NaiveBayes.ChoicesAgree | backend/naive_bayes.py:37-45 | unless a target is named and the feature list is missing, the as-written and corrected choices are the same |
| NaiveBayes.Keys | backend/naive_bayes.py:100 | the feature names of an example, in item order |
| NaiveBayes.DefaultExample | backend/naive_bayes.py:55-61 | the default example holds one entry per distinct feature in order, each the column's mode or first cell; an empty column raises IndexError |
| NaiveBayes.PriorPositive | backend/naive_bayes.py:68-71 | a class present in the target column has a positive prior |
| NaiveBayes.PriorSumIsCountsOver | backend/naive_bayes.py:68-71 | the priors of a list of classes add up to the rows they count over n |
| NaiveBayes.PriorsSumToOne | backend/naive_bayes.py:64-71 | the priors of the distinct target values add up to 1 |
| NaiveBayes.DistinctNonEmpty | backend/naive_bayes.py:64-83 | a non-empty column has at least one distinct value |
| NaiveBayes.LaplacePositive | backend/naive_bayes.py:84-87 | every Laplace likelihood is strictly positive |
| NaiveBayes.SmoothedPositive | backend/naive_bayes.py:87 | (count + 1)/(size + domain) > 0 |
| NaiveBayes.NumeratorSumIsCounts | backend/naive_bayes.py:84-87 | over distinct values the numerators count + 1 add up to the cells counted plus one per value, missing cells left out by `value_counts` |
| NaiveBayes.CountsOverAtLeast | backend/naive_bayes.py:85 | counting over a list of values counts at least the cells equal to any one of them |
| NaiveBayes.SmoothedSumIsNumerators | backend/naive_bayes.py:87 | the smoothed likelihoods of several values add up to their numerators over the common denominator |
| NaiveBayes.SmoothedSumOverDomain | backend/naive_bayes.py:76-88 | over the whole domain the smoothed likelihoods add up to (class size − missing cells + #values)/(class size + #values) |
| NaiveBayes.SmoothedSumOne | backend/naive_bayes.py:76-88 | with no missing cell in the class they add up to exactly 1 |
| NaiveBayes.LikelihoodsSum | backend/naive_bayes.py:76-88 | for one class and feature, the likelihoods over the feature's distinct values add up to 1 when the class has no missing feature cell, and to the stated fraction otherwise |
| NaiveBayes.SubsetInDomain | backend/naive_bayes.py:78-83 | the class subset's feature values all lie in the feature's domain over the whole table |
| NaiveBayes.SubsetColumnIn | backend/naive_bayes.py:78-79 | each cell of the class subset occurs in the whole column |
| NaiveBayes.StoreLaplace | backend/naive_bayes.py:88 | storing a Laplace likelihood under its own key keeps every entry of the table Laplace |
| NaiveBayes.FillValues | backend/naive_bayes.py:83-88 | the innermost loop stores a Laplace likelihood for every distinct value of the feature for one class, and nothing else |
| NaiveBayes.FillClasses | backend/naive_bayes.py:77-88 | the middle loop fills the entries of every class for one feature |
| NaiveBayes.Likelihoods | backend/naive_bayes.py:74-88 | the table holds exactly the (class, feature, value) keys of the classes, the features and each feature's domain, each with its Laplace likelihood |
| NaiveBayes.Likelihood | backend/naive_bayes.py:102 | every likelihood the posterior uses is strictly positive: the smoothed one or 1e-6 |
| NaiveBayes.LookupIsLikelihood | backend/naive_bayes.py:102 | `likelihoods[cls][feature].get(str(value), 1e-6)` on the filled table is the Laplace likelihood for a value of the domain and 1e-6 otherwise |
| NaiveBayes.ExampleProductCongruent | backend/naive_bayes.py:100-103 | two likelihood sources that agree on the features give the same posterior |
| NaiveBayes.ExampleProductPositive | backend/naive_bayes.py:96-103 | a positive prior times positive likelihoods is positive |
| NaiveBayes.ScoreIsPosterior | backend/naive_bayes.py:94-111 | the posterior read from the table is prior × Π likelihood over the example items whose feature is in the feature list |
| NaiveBayes.PosteriorPositive | backend/naive_bayes.py:94-111 | every class of the data has a positive unnormalised posterior |
| NaiveBayes.Posteriors | backend/naive_bayes.py:94-111 | the nested loop computes one posterior per class: its prior times the table's likelihoods of the example's feature items |
| NaiveBayes.Normalize | backend/naive_bayes.py:118 | one normalised posterior per class |
| NaiveBayes.NormalizeAt | backend/naive_bayes.py:118 | each normalised posterior is the posterior over the evidence |
| NaiveBayes.NormalizeSum | backend/naive_bayes.py:118 | the normalised posteriors add up to Σ posteriors over the evidence |
| NaiveBayes.Evidence | backend/naive_bayes.py:114-116 | the evidence is never 0: the sum, or 1e-10 when the sum is 0 |
| NaiveBayes.NormalizedSumToOne | backend/naive_bayes.py:114-118 | whenever the raw evidence is not 0 the normalised posteriors add up to 1 |
| NaiveBayes.MulPositive | backend/naive_bayes.py:103 | a product of positive factors is positive |
| NaiveBayes.SumPositive | backend/naive_bayes.py:114 | positive posteriors have a positive sum |
| NaiveBayes.ComputePriors | backend/naive_bayes.py:68-71 | one count and one prior count/n per class |
| NaiveBayes.DataPosteriors | backend/naive_bayes.py:94-111 | every class's posterior equals its data-level definition and is positive |
| NaiveBayes.Evaluate | backend/naive_bayes.py:64-122 | priors, likelihood table, posteriors, evidence equal to Σ posteriors (> 0), normalised posteriors summing to 1, and the index of the first maximum |
| NaiveBayes.Classify | backend/naive_bayes.py:64-122 | the report states counts, priors, likelihoods and posteriors per class, normalised posteriors summing to 1, and the first class of maximal posterior with its posterior as confidence |
| NaiveBayes.ResolveColumns | backend/naive_bayes.py:37-53 | the detection and checks give the as-written column choice |
| NaiveBayes.ResolveExample | backend/naive_bayes.py:39-61 | a non-empty example is used as given; an empty one becomes the default example, one entry per distinct feature holding that column's mode or first cell; an empty column raises IndexError |
| NaiveBayes.ClassifyTable | backend/naive_bayes.py:55-122 | once the columns are chosen, a report comes exactly when the example resolves, no target cell is missing and the table has rows; otherwise an unresolvable default example raises IndexError, a missing target value (its prior lookup) KeyError, and no rows (max of nothing) ValueError; a report is on the given example, or on the default one whose entries are each feature's mode or first cell, has the distinct target values as classes and holds the full computation |
| NaiveBayes.RunNaiveBayes | backend/naive_bayes.py:32-122 | a failing as-written column choice is returned as it is; with the columns chosen, a report comes exactly when the example resolves, no target cell is missing and the table has rows, and each other case raises its own IndexError, KeyError or ValueError; a report is on the chosen columns, the given example or the default one holding each feature's mode or first cell, and the distinct classes |
| MainRoutes.AtLeastOne | backend/main.py:103-124 | `max(1, size)` is at least 1 and at least the size, and equals a positive size |
| MainRoutes.UniqueRatioBounds | backend/main.py:103-124 | a distinct count never above the size gives a unique ratio in [0, 1] |
| MainRoutes.Coerced | backend/main.py:120 | coercion keeps at most as many numbers as there are cells |
| MainRoutes.InferTargetType | backend/main.py:86-154 | the counts are those of the series; unsupported exactly for a datetime dtype; bool, category and object dtypes are classification; regression exactly when the dtype is other, fewer than 5% of the non-missing cells fail coercion, and both the distinct count and the unique ratio exceed their limits; the failed-coercion reason exactly when the dtype is other and the cells are not mostly numeric, and then the target is classification |
| MainRoutes.InferredCountsBounded | backend/main.py:92-154 | the reported distinct count is at most the non-missing count, which is at most n, and the ratio lies in [0, 1] |
| MainRoutes.LooserThresholdsKeepClassification | backend/main.py:125 | raising `max_class_count` or `max_unique_ratio` never turns a classification into a regression |
| MainRoutes.AllMissingIsClassification | backend/main.py:120-154 | a numeric-dtype series of missing cells only is classification for failed coercion, the mean over nothing being NaN |
| MainRoutes.SuggestedAlgorithms | backend/main.py:286-292 | no suggestion exactly for a datetime target; naive_bayes and id3 exactly for classification; linear_regression exactly for regression |
| MainRoutes.Stamped | backend/main.py:321-324 | stamping keeps the number of steps |
| MainRoutes.StampedAt | backend/main.py:321-324 | every stamped step keeps its fields, carries the one run id and is numbered by its 1-based position (the same stamping recurs at backend/main.py lines 350-353 and 383-386) |
| MainRoutes.StampSteps | backend/main.py:321-324 | the in-place loop leaves the array equal to the stamped list of its old contents (the same loop recurs at backend/main.py lines 350-353 and 383-386) |
| MainRoutes.StringColumn | backend/main.py:423 | one string cell per row, each the row's cell as a string or missing |
| MainRoutes.Present | backend/main.py:426 | `dropna` keeps exactly the strings present in the column |
| MainRoutes.RouteClassesSorted | backend/main.py:426 | the classes are sorted, without duplicates, and are exactly the labels present in the target column |
| MainRoutes.ClassRows | backend/main.py:437 | a class subset has at most as many rows as the table |
| MainRoutes.ClassRowsSize | backend/main.py:432-447 | the class subset has as many rows as the target column has that label |
| MainRoutes.DistinctOrOne | backend/main.py:446 | the `k` of the smoothing is never below 1 |
| MainRoutes.RouteLikelihoodBounds | backend/main.py:444-449 | every route likelihood lies in (0, 1] |
| MainRoutes.TimesPositive | backend/main.py:455-457 | a positive prior times positive factors stays positive |
| MainRoutes.Uniform | backend/main.py:468-470 | the uniform fallback has one share per class |
| MainRoutes.SumConstant | backend/main.py:468-470 | n equal shares x add up to n·x |
| MainRoutes.RouteNormalized | backend/main.py:461-470 | one normalised posterior per class |
| MainRoutes.RouteNormalizedSumToOne | backend/main.py:461-470 | on a non-empty class list both branches, division by a positive evidence or the uniform share, give posteriors adding up to 1 |
| MainRoutes.RoutePosteriorPositive | backend/main.py:429-458 | the posterior of a class present in the table is positive |
| MainRoutes.RouteCheck | backend/main.py:402-420 | the checks pass exactly when a dataset id and a target are given, the stripped lower-cased algorithm is naive_bayes, the dataset exists and has the target column; a failure is 400 or 404, and 404 only for a missing dataset |
| MainRoutes.RoutePriors | backend/main.py:429-432 | one class count and one prior per class: the label's count in the target column, and count/N |
| MainRoutes.RouteLikelihoods | backend/main.py:435-450 | one likelihood row per class, each the example's smoothed likelihood for every feature |
| MainRoutes.RoutePosteriorLoop | backend/main.py:453-458 | one posterior per class: its prior times its likelihood row |
| MainRoutes.RouteNormalize | backend/main.py:461-470 | the loop's normalised posteriors are the specification's: divided by a positive evidence, uniform otherwise |
| MainRoutes.RouteCompute | backend/main.py:422-529 | no class gives 422 and only then; otherwise the features are the other columns, the classes sorted and distinct, and for each class its count, prior, likelihood row and posterior; the evidence is their sum, the normalised posteriors sum to 1, and the prediction is the first class of maximal normalised posterior with that posterior as confidence |
| MainRoutes.NaiveBayesRoute | backend/main.py:399-534 | a failed check is returned with its own status; past the checks the route fails (422) exactly when the target column has no label; every failure is 400, 404 or 422; a report means the checks passed and holds the full computation: every class's count, prior, likelihoods and posterior, the evidence, normalised posteriors summing to 1 and the first maximal prediction |
| MainRoutes.RouteEvidencePositive | backend/main.py:461-465 | with at least one class the evidence is positive, so the uniform fallback is never taken and the normalisation is the plain division |
| NaiveBayesCalc.CheckFailure | backend/naiveBayes.py:11-28 | the checks pass exactly when the algorithm is given and lower-cases to naive_bayes, the dataset file exists and the target is one of its columns; a given algorithm other than naive_bayes is a 400 |
| NaiveBayesCalc.RawPriorIsPrior | backend/naiveBayes.py:36-39 | the prior of a present class is the count/total prior of backend/naive_bayes.py |
| NaiveBayesCalc.PriorList | backend/naiveBayes.py:36-39 | one prior per class |
| NaiveBayesCalc.PriorListSum | backend/naiveBayes.py:36-39 | without the missing class the priors add up like those of backend/naive_bayes.py |
| NaiveBayesCalc.PriorsSumToOne | backend/naiveBayes.py:33-39 | without a missing target cell the priors of the classes add up to 1 |
| NaiveBayesCalc.ComputePriors | backend/naiveBayes.py:36-39 | the loop yields one prior per class, each its rows over the total |
| NaiveBayesCalc.RawLikelihoodBounds | backend/naiveBayes.py:47-53 | a likelihood is missing (ZeroDivisionError) exactly for a class without rows, and lies in (0, 1] otherwise |
| NaiveBayesCalc.PresentClassHasCells | backend/naiveBayes.py:44 | a present class has a non-empty subset |
| NaiveBayesCalc.SeenCountIsCounts | backend/naiveBayes.py:48-52 | the counted cells over distinct values are the cells equal to one of them, missing cells left out |
| NaiveBayesCalc.SeenSumIsCount | backend/naiveBayes.py:52 | the frequencies of several values add up to their counts over the subset size |
| NaiveBayesCalc.SeenCountCover | backend/naiveBayes.py:48-50 | over the distinct cells every non-missing cell is counted once |
| NaiveBayesCalc.SeenFrequenciesSum | backend/naiveBayes.py:48-52 | over the class's distinct cells the frequencies of the seen values add up to its share of non-missing cells |
| NaiveBayesCalc.SeenFrequenciesSumToOne | backend/naiveBayes.py:48-52 | with no missing cell they add up to exactly 1, so the smoothed unseen values make the likelihoods an over-complete distribution |
| NaiveBayesCalc.LikelihoodRow | backend/naiveBayes.py:45-53 | an existing row has one entry per feature |
| NaiveBayesCalc.LikelihoodRowExists | backend/naiveBayes.py:46-53 | the row exists exactly when there is no feature or the class has rows |
| NaiveBayesCalc.LikelihoodRowAt | backend/naiveBayes.py:46-53 | an existing row holds each feature with its likelihood, in column order |
| NaiveBayesCalc.CellsEmptyAlike | backend/naiveBayes.py:44 | whether the subset is empty is the same for every feature |
| NaiveBayesCalc.FeatureLoop | backend/naiveBayes.py:46-53 | the inner loop builds the likelihood row, or raises ZeroDivisionError exactly when the row does not exist |
| NaiveBayesCalc.LikelihoodLoop | backend/naiveBayes.py:42-53 | the outer loop succeeds exactly when every class's row exists, and then holds those rows in class order; it fails with ZeroDivisionError |
| NaiveBayesCalc.ProductPositive | backend/naiveBayes.py:58-60 | a positive prior times positive likelihoods is positive |
| NaiveBayesCalc.PosteriorLoop | backend/naiveBayes.py:56-61 | one posterior per class: its prior times its row's likelihoods |
| NaiveBayesCalc.NormalizeInPlace | backend/naiveBayes.py:64-66 | the in-place update divides every posterior by the total |
| NaiveBayesCalc.Head | backend/naiveBayes.py:73 | `head(5)` is the first min(5, n) rows |
| NaiveBayesCalc.RawPosteriors | backend/naiveBayes.py:56-61 | existing posteriors are one per class |
| NaiveBayesCalc.RawPosteriorsExist | backend/naiveBayes.py:42-61 | the posteriors exist exactly when each class's posterior does |
| NaiveBayesCalc.RawPosteriorsAt | backend/naiveBayes.py:56-61 | each entry is its class's posterior |
| NaiveBayesCalc.PosteriorSteps | backend/naiveBayes.py:35-61 | the priors in class order; the loops fail with ZeroDivisionError exactly when some class lacks a posterior, and otherwise yield every class's likelihood row and its unnormalised posterior |
| NaiveBayesCalc.Compute | backend/naiveBayes.py:30-81 | the computation fails exactly when a numeric target's missing class is lost (a missing cell and no feature column: KeyError at the `priors[c]` lookup), some class has no posterior, or the posteriors total 0, the last two with ZeroDivisionError or ValueError; otherwise the report holds the first five rows, the classes in `unique()` order, their priors and likelihood rows, the normalised posteriors summing to 1, and the first class of maximal posterior |
| NaiveBayesCalc.MissingClassLostExample | backend/naiveBayes.py:33-58 | a lone numeric target with cells 1 and missing loses its missing class to the KeyError, while the same cells as text do not |
| NaiveBayesCalc.DistinctNonEmptyOf | backend/naiveBayes.py:33 | a non-empty column has a class |
| NaiveBayesCalc.PriorListAt | backend/naiveBayes.py:38-39 | entry j of the priors is the prior of class j |
| NaiveBayesCalc.Calculation | backend/naiveBayes.py:8-84 | every failure, the 400 and 404 of the checks included, surfaces as status 500; the route succeeds exactly when the checks pass and the computation can be carried out (so the lost missing class of a numeric target is a 500), and its report is then the full computation on the requested target and example |
| NaiveBayesCalc.NoMissingClassComputes | backend/naiveBayes.py:33-66 | on a non-empty table without missing target cells every posterior exists and their total is positive, so the computation cannot fail |
| NaiveBayesCalc.PosteriorPositive | backend/naiveBayes.py:56-61 | a present class has a positive posterior |
| LinearRegression.DetectFeature | backend/linear_regression.py:13-25 | a given feature is kept; otherwise a detected one is a column, and none is found exactly when no listed name is a column and there are fewer than two numeric columns |
| LinearRegression.DetectTarget | backend/linear_regression.py:27-40 | a given target is kept; otherwise a detected one is a column, and none is found exactly when no listed name is a column and there is no numeric column |
| LinearRegression.ColumnsChosen | backend/linear_regression.py:42-46 | the pair is chosen exactly when both detections give a non-empty name of a column, and then it is that pair; every failure is a 400 |
| LinearRegression.DetectedColumnsExist | backend/linear_regression.py:13-46 | without parameters the choice fails only when a detection finds nothing |
| LinearRegression.ChooseFeature | backend/linear_regression.py:13-25 | the for/break loop finds the specified feature |
| LinearRegression.ChooseTarget | backend/linear_regression.py:27-40 | the for/break loop finds the specified target |
| LinearRegression.ChooseColumns | backend/linear_regression.py:13-46 | the detections and checks give the specified choice |
| LinearRegression.SquareNonNegative | backend/linear_regression.py:58-71 | a square is never negative |
| LinearRegression.SquaresNonNegative | backend/linear_regression.py:58-70 | Σ (a_i − m)² is never negative, so SS_tot and the denominator are not |
| LinearRegression.SquaredResidualsNonNegative | backend/linear_regression.py:71 | SS_res is never negative |
| LinearRegression.ExpandedAdd | backend/linear_regression.py:71 | the expansion of SS_res is additive over the rows |
| LinearRegression.ResidualTerm | backend/linear_regression.py:64-71 | one squared residual about a line through the means expands to its deviation terms |
| LinearRegression.ResidualExpansion | backend/linear_regression.py:57-71 | SS_res of any line through the means is Syy − 2m·Sxy + m²·Sxx |
| LinearRegression.ExpandedAtSlope | backend/linear_regression.py:63 | at the least-squares slope the expansion is at most Syy |
| LinearRegression.LeastSquaresResidual | backend/linear_regression.py:57-71 | the least-squares line's SS_res is at most SS_tot |
| LinearRegression.Predict | backend/linear_regression.py:67 | one prediction per x |
| LinearRegression.FitLine | backend/linear_regression.py:50-72 | the fit fails with 400 exactly when the x column is empty or constant; otherwise n and the means are those of the columns, the numerator and denominator the deviation sums, the slope their ratio, the intercept puts the line through the means, SS_tot, SS_res and R² are those of the predictions, and prediction i is the line at x_i |
| LinearRegression.LineThroughPoint | backend/linear_regression.py:64 | the line with that intercept passes through (x̄, ȳ) |
| LinearRegression.FitPassesThroughMeans | backend/linear_regression.py:63-64 | the fitted line passes through the point of means |
| LinearRegression.FitR2Bounds | backend/linear_regression.py:69-72 | R² of the fit lies in [0, 1], and is 0 when SS_tot is 0 |
| LinearRegression.RSquaredBounds | backend/linear_regression.py:72 | 0 ≤ SS_res ≤ SS_tot gives R² in [0, 1] |
| LinearRegression.KeepBelow | backend/linear_regression.py:76-78 | the kept indices are exactly those of the list below n |
| LinearRegression.SampleIndices | backend/linear_regression.py:75-78 | the sample indices are exactly the candidates 0, 5, 10, 15, 20 below n |
| LinearRegression.KeepBelowAll | backend/linear_regression.py:76 | when every index is below n, all are kept |
| LinearRegression.KeepBelowPrefix | backend/linear_regression.py:76 | on an increasing list the kept indices form a prefix |
| LinearRegression.SampleIndicesPrefix | backend/linear_regression.py:75-78 | the samples are a prefix of 0, 5, 10, 15, 20 |
| LinearRegression.Samples | backend/linear_regression.py:74-78 | one sample per kept index |
| LinearRegression.StepsOf | backend/linear_regression.py:81-149 | six steps numbered 1 to 6 |
| LinearRegression.RunLinearRegression | backend/linear_regression.py:5-150 | a failed column choice is returned as it is; with the columns chosen, a non-numeric feature or target column fails naming that column, and otherwise a report comes exactly when the fit succeeds, a failed fit being a 400; a report names the chosen columns with their fit, samples and six steps |
| Svr.Hyperparameter | backend/svr.py:45-46 | a missing parameter takes its default (ε 0.1, C 1.0), a given one is used as it is |
| Svr.ScaledLineAlgebra | backend/svr.py:74-75 | the un-scaling formulas rearrange into the standardised line |
| Svr.UnscaledLineAgrees | backend/svr.py:64-78 | at every x the un-scaled line gives the solver's standardised prediction mapped back to the target's units |
| Svr.UnscaledLineAtMean | backend/svr.py:74-75 | the un-scaled line passes through (μ_x, μ_y + b_s·σ_y) |
| Svr.ChartData | backend/svr.py:84-96 | one chart row per data point in row order: index i, x_i and y_i, the line's value at x_i, a tube of width 2ε_u around it, and the support flag exactly when i is a support index |
| Svr.FlaggedPrefix | backend/svr.py:85-94 | the flagged rows of a prefix are the support indices below its length |
| Svr.DistinctCardinality | backend/svr.py:85 | a list without repeats has as many distinct elements as entries |
| Svr.FlaggedIsSupportCount | backend/svr.py:85-94 | with distinct, in-range support indices the flagged rows number `len(support_indices)` (the `support_vector_count` of line 175) |
| Svr.StepsOf | backend/svr.py:107-187 | eight steps numbered 1 to 8 |
| Svr.RunSvr | backend/svr.py:8-204 | a failed column choice is a 400; with the columns chosen, a report comes exactly when both columns are numeric and non-empty, the solver fits and the x scale is non-zero, and each other case has its own error (non-numeric column, ValueError, 500, ZeroDivisionError); a report holds ε and C, the un-scaled slope, intercept and tube width, the support count, n > 0, R², the chart rows and the eight steps |
| KnnRegression.TakeTwo | backend/knn_regression.py:25 | `[:2]` keeps the first min(2, n) columns |
| KnnRegression.DefaultFeatures | backend/knn_regression.py:21-25 | the corrected default features: at most the first two numeric columns, all of them columns, never the target actually used |
| KnnRegression.DefaultFeaturesAsWritten | backend/knn_regression.py:21-25 | the default features as written: at most two numeric columns, excluding a target only when one was named |
| KnnRegression.DetectTarget | backend/knn_regression.py:27-38 | a given target is kept; otherwise a detected one is a column, and none is found exactly when no listed name is a column and there is no numeric column |
| KnnRegression.Checked | backend/knn_regression.py:40-48 | the checks pass exactly when there is a feature, a target, the target is a column and so is every feature; each failure is a 400 |
| KnnRegression.ColumnsChosen | backend/knn_regression.py:20-48 | the corrected choice: the target is a column, the features are non-empty columns, a given feature list or target is kept, and default features exclude the target and number at most two; failures are 400 |
| KnnRegression.ColumnsAsWritten | backend/knn_regression.py:20-48 | the choice as written: the target is a column, the features are non-empty columns, a given feature list or target is kept, default features number at most two, are numeric and exclude a named target; failures are 400 |
| KnnRegression.ColumnsAgree | backend/knn_regression.py:20-38 | when a feature list or a target is given, the as-written and corrected choices are the same |
| KnnRegression.DetectedTargetIsFeature | backend/knn_regression.py:21-38 | as written, with no parameters, no target-like name and one or two numeric columns, the detected target (the last numeric column) is also one of the features |
| KnnRegression.ChooseColumns | backend/knn_regression.py:20-48 | the loops yield the as-written column choice |
| KnnRegression.FindTarget | backend/knn_regression.py:27-37 | the for/break search returns the given target, else the first listed name that is a column, else the last numeric column, and nothing only when all three fail |
| KnnRegression.AllColumns | backend/knn_regression.py:46-48 | the feature loop accepts exactly when every feature is a column |
| KnnRegression.TestVector | backend/knn_regression.py:55-65 | one coordinate per feature: the test point's value when given, else the column mean |
| KnnRegression.Coordinates | backend/knn_regression.py:65 | a NaN-free test vector read as numbers, coordinate by coordinate |
| KnnRegression.SquaredDistanceProps | backend/knn_regression.py:6-8 | the squared distance is non-negative and zero between identical points |
| KnnRegression.DistanceProps | backend/knn_regression.py:6-8 | for a square root that is non-negative and zero at zero, distances are non-negative and zero between identical points |
| KnnRegression.PointOf | backend/knn_regression.py:51-70 | row i as a point holds the row's value in each feature |
| KnnRegression.Distances | backend/knn_regression.py:67-77 | one entry per row in row order, with the row's index, point, target and distance to the test point |
| KnnRegression.SortByDistance | backend/knn_regression.py:80 | the sort keeps the entries as a multiset |
| KnnRegression.SortedByDistance | backend/knn_regression.py:80 | the sorted entries are a permutation, non-decreasing in distance, and entries at equal distance keep their row order (stability) |
| KnnRegression.PyPrefix | backend/knn_regression.py:81 | `s[:k]` is a prefix of min(k, n) entries for k ≥ 0, and drops the last −k entries for k < 0 |
| KnnRegression.NeighboursNearest | backend/knn_regression.py:80-81 | every neighbour is at most as far as every entry it leaves out |
| KnnRegression.Indices | backend/knn_regression.py:116 | the neighbours' row indices, in neighbour order |
| KnnRegression.Targets | backend/knn_regression.py:84 | the neighbours' targets, in neighbour order |
| KnnRegression.SumBounds | backend/knn_regression.py:85 | values within [lo, hi] add up to within n·lo and n·hi |
| KnnRegression.AverageBounds | backend/knn_regression.py:85 | a total between n·lo and n·hi averages within [lo, hi] |
| KnnRegression.SimplePredictionBounds | backend/knn_regression.py:84-85 | the plain mean of the neighbours lies between their smallest and largest target |
| KnnRegression.InverseWeights | backend/knn_regression.py:99-108 | one weight entry per neighbour |
| KnnRegression.FirstZero | backend/knn_regression.py:92-98 | the first neighbour at distance zero, if any: none exactly when no distance is zero |
| KnnRegression.WeightingLoop | backend/knn_regression.py:88-111 | the loop with its break computes the specified weighting |
| KnnRegression.ExactMatchShortCut | backend/knn_regression.py:93-98 | a first neighbour at distance zero gives its own target, total weight 1 and a single weight entry |
| KnnRegression.WeightStep | backend/knn_regression.py:100-103 | adding one positive weight keeps the weighted sum between lo and hi times the total |
| KnnRegression.WeightedSumBounds | backend/knn_regression.py:99-103 | with positive distances the total weight is positive and the weighted sum lies between lo and hi times it |
| KnnRegression.WeightedPredictionBounds | backend/knn_regression.py:88-111 | with positive distances the weighted prediction lies between the smallest and largest neighbour target |
| KnnRegression.WeightsAddUp | backend/knn_regression.py:102-108 | the listed weights add up to the reported total weight (the `total_weight` reported at line 180) |
| KnnRegression.WeightColumn | backend/knn_regression.py:106 | the weights of the weight entries, in order |
| KnnRegression.Recommended | backend/knn_regression.py:188 | "weighted" exactly when the plain mean is a number and differs from the weighted one by more than 0.01 |
| KnnRegression.ChartData | backend/knn_regression.py:113-134 | as written, with a single feature the `feature_cols[1]` key raises IndexError, and only then; otherwise the chart is the intended one |
| KnnRegression.IntendedChart | backend/knn_regression.py:113-134 | n data rows then the test point: row i carries its first and second feature (0 without a second one), its target, the neighbour flag and the i-th sorted distance; the test point has index −1, the test coordinates and the plain mean as target |
| KnnRegression.ChartNeighbours | backend/knn_regression.py:116 | a row is flagged exactly when some neighbour is that row |
| KnnRegression.StepsOf | backend/knn_regression.py:137-197 | six steps numbered 1 to 6; step 2 counts every distance and lists the first ten of the sorted distances |
| KnnRegression.DistanceStepNearest | backend/knn_regression.py:80-155 | step 2 lists min(10, n) entries, none farther than any entry it leaves out |
| KnnRegression.FeatureColumnsShape | backend/knn_regression.py:51 | the numeric feature columns are one per feature, each of the table's length |
| KnnRegression.Analyse | backend/knn_regression.py:55-207 | a single feature raises IndexError (the chart), and only then; otherwise the report describes the targets: distances in row order to the test vector, the stable sort, the first k as neighbours, both predictions, the chart and six steps; the test vector takes the given coordinates and the means otherwise |
| KnnRegression.RunKnnRegression | backend/knn_regression.py:10-207 | a failed as-written column choice is a 400; with numeric chosen columns the run succeeds exactly when there are at least two features, and fails with IndexError otherwise; a report uses the chosen columns, describes their targets, takes the given test coordinates and the column mean for every other one, has a finite test vector when there are rows, and lists each row's distance to that vector in row order; any other failure is a non-numeric column |
| KnnClassification.DetectTarget | backend/knn_classification.py:20-29 | a given target is kept; otherwise an empty header raises IndexError, a detected target is a column, and without a priority name it is the last column |
| KnnClassification.DetectsFirstPriorityName | backend/knn_classification.py:22-26 | the earliest priority name among the columns is the target |
| KnnClassification.ChosenColumns | backend/knn_classification.py:20-39 | a chosen target and features are columns; missing features become exactly the columns other than the target; given features are kept; an unknown target is a 400; failures are IndexError, 400 or KeyError |
| KnnClassification.ChooseColumns | backend/knn_classification.py:20-39 | the for/break search gives the specified choice |
| KnnClassification.FindTarget | backend/knn_classification.py:21-29 | the for/break search returns the given target, else the earliest priority name that is a column, else the last column, and raises IndexError only on an empty header |
| KnnClassification.FeatureFrame | backend/knn_classification.py:39-43 | the feature frame has exactly the feature columns |
| KnnClassification.Categorical | backend/knn_classification.py:46 | the categorical columns are exactly the features whose column is of object dtype |
| KnnClassification.Texts | backend/knn_classification.py:50 | `astype(str)` turns each cell into its text, in order |
| KnnClassification.IndexOf | backend/knn_classification.py:50-86 | the first position of a class in the encoder's classes |
| KnnClassification.Encoded | backend/knn_classification.py:50 | one code per cell |
| KnnClassification.EncodingRoundTrip | backend/knn_classification.py:48-51 | decoding an encoded cell gives back its text; the encoder's classes are sorted and distinct |
| KnnClassification.EncodeFeatures | backend/knn_classification.py:46-51 | the loop replaces exactly the categorical columns by their codes, records their encoders, and leaves the other columns unchanged |
| KnnClassification.CodeOrZero | backend/knn_classification.py:84-89 | a known text gets its class position, an unseen one 0 |
| KnnClassification.AsFloat | backend/knn_classification.py:90 | a number is kept, a JSON null raises TypeError |
| KnnClassification.Coordinate | backend/knn_classification.py:81-92 | a feature missing from the example takes the column mean; an encoded one its code; any other `float(value)` |
| KnnClassification.TestVectorAt | backend/knn_classification.py:79-92 | the vector exists exactly when every coordinate does, with one coordinate per feature in feature order |
| KnnClassification.TestVectorErrSticks | backend/knn_classification.py:81-92 | the first failing coordinate fails the whole vector |
| KnnClassification.BuildTestVector | backend/knn_classification.py:80-92 | the appending loop builds the specified vector |
| KnnClassification.ZipMap | backend/knn_classification.py:129 | the example's keys are the features zipped with a value |
| KnnClassification.ZipMapAt | backend/knn_classification.py:129 | with distinct features each gets its own value |
| KnnClassification.NeighbourDetails | backend/knn_classification.py:136-143 | one detail per zipped pair, numbered from 1 with the distance, class and index; too few indices raise IndexError, and only then |
| KnnClassification.VoteCounts | backend/knn_classification.py:146-147 | the votes list exactly the neighbour classes, each with its positive number of neighbours |
| KnnClassification.VotesForIsCount | backend/knn_classification.py:210 | the looked-up votes of any class are its neighbour count, 0 for no neighbour |
| KnnClassification.VoteTotalIsCountsOver | backend/knn_classification.py:210 | the votes looked up for a class list add up to the neighbours of those classes |
| KnnClassification.VotesAddUp | backend/knn_classification.py:146-147 | the votes add up to the number of neighbours, k when the search returns k (the `total_votes` reported at line 205) |
| KnnClassification.PercentageAdd | backend/knn_classification.py:211 | percentages of k add up |
| KnnClassification.Breakdown | backend/knn_classification.py:207-214 | one breakdown entry per class name |
| KnnClassification.BreakdownAt | backend/knn_classification.py:207-214 | entry i is class i with its votes and their share of k as a percentage |
| KnnClassification.BreakdownTotals | backend/knn_classification.py:207-214 | the breakdown's votes and percentages add up to the looked-up total and its share |
| KnnClassification.BreakdownAddsUp | backend/knn_classification.py:207-214 | when the neighbours' classes are among the distinct class names the breakdown counts every neighbour, and with k neighbours the percentages add up to 100 |
| KnnClassification.ProbabilityMap | backend/knn_classification.py:150-152 | the probability table has exactly the class names as keys |
| KnnClassification.ProbabilityMapAt | backend/knn_classification.py:150-152 | with distinct names class i is mapped to probability i |
| KnnClassification.ClassProbabilities | backend/knn_classification.py:150-152 | the loop raises IndexError exactly when there are fewer probabilities than classes, and otherwise builds the table |
| KnnClassification.Max | backend/knn_classification.py:221 | the confidence is a probability and none exceeds it |
| KnnClassification.StepsOf | backend/knn_classification.py:154-226 | six steps numbered 1 to 6 |
| KnnClassification.Tally | backend/knn_classification.py:135-226 | the report tallies the library's answer (numbered details, vote counts, breakdown, probability table, confidence the maximum) and keeps the inputs; it fails exactly when indices or probabilities run short (IndexError), k is 0 with classes to break down (ZeroDivisionError), or there is no probability (ValueError), with the first of these in source order |
| KnnClassification.Prepare | backend/knn_classification.py:39-51 | the categorical columns of the filled frame and one encoder each, holding the column's sorted distinct texts, and nothing else |
| KnnClassification.RunKnnClassification | backend/knn_classification.py:10-259 | a failed column choice passes through and a failed fit is a ValueError; past them a failing test vector passes its failure through, a failing neighbour query is a ValueError, and otherwise the run succeeds exactly when the tally does, failing with the tally's first failure; a report has the chosen columns, k or its default 5, the tallies, six steps, the encoders, the given example's vector or the first test row, and the library's answer for that vector |
| AlgorithmComparison.DetectedColumns | backend/algorithm_comparison.py:9-34 | a detected target is a column and not a feature; none exactly when no candidate matches a column and there is no numeric column; the features are exactly the numeric columns other than the target; without a match the target is the last numeric column |
| AlgorithmComparison.DetectsEarliestCandidate | backend/algorithm_comparison.py:19-25 | the earliest candidate matching some column decides the target, with the first column it matches |
| AlgorithmComparison.DetectFeatureTarget | backend/algorithm_comparison.py:13-34 | the nested loops with their breaks give the specified detection |
| AlgorithmComparison.Divisor | backend/algorithm_comparison.py:47 | the divisor is never 0: the value itself, or 1 for a zero |
| AlgorithmComparison.SquaredErrors | backend/algorithm_comparison.py:42 | one squared error per pair |
| AlgorithmComparison.AbsoluteErrors | backend/algorithm_comparison.py:44 | one absolute error per pair |
| AlgorithmComparison.RelativeErrors | backend/algorithm_comparison.py:47 | one relative error per pair, over the safe divisor |
| AlgorithmComparison.MeanNonNegative | backend/algorithm_comparison.py:42-47 | the mean of non-negative errors is non-negative |
| AlgorithmComparison.SumZero | backend/algorithm_comparison.py:42-47 | zero errors add up to 0 |
| AlgorithmComparison.MetricsBounds | backend/algorithm_comparison.py:36-67 | accuracy lies in [0, 100], is 100 − MAPE when MAPE ≤ 100 and 0 when MAPE ≥ 100; MAPE, MSE and MAE are non-negative; the fallback metrics are used exactly for empty or mismatched inputs |
| AlgorithmComparison.RegressionMetrics | backend/algorithm_comparison.py:36-67 | the fallback metrics are returned exactly when the library raises on empty or mismatched inputs; otherwise R² is the library's score |
| AlgorithmComparison.PerfectPrediction | backend/algorithm_comparison.py:36-57 | predicting the targets exactly gives zero errors and 100 % accuracy |
| AlgorithmComparison.LinearComparison | backend/algorithm_comparison.py:69-95 | the result is "Linear Regression", successful exactly when the fit succeeds, with the fallback metrics otherwise |
| AlgorithmComparison.FitsInit | backend/algorithm_comparison.py:109-115 | a fit for every eligible k of a list gives one for every prefix |
| AlgorithmComparison.FitsSnoc | backend/algorithm_comparison.py:109-115 | and extends by one k that fits or is skipped |
| AlgorithmComparison.BestOfNone | backend/algorithm_comparison.py:102-122 | the search keeps nothing exactly when every k is skipped |
| AlgorithmComparison.BestOfCandidate | backend/algorithm_comparison.py:109-122 | what it keeps is an eligible k at its position, with that k's metrics |
| AlgorithmComparison.BestOfMaximal | backend/algorithm_comparison.py:119-122 | its R² is at least that of every eligible k |
| AlgorithmComparison.BestOfFirst | backend/algorithm_comparison.py:119-122 | and strictly greater than that of every eligible k before it: ties keep the earlier k |
| AlgorithmComparison.BestOfIsFirstMaximum | backend/algorithm_comparison.py:102-122 | the kept k is the first eligible k of maximal R² |
| AlgorithmComparison.KnnComparison | backend/algorithm_comparison.py:97-139 | the result is "KNN Regression", successful exactly when every eligible k fits |
| AlgorithmComparison.KnnComparisonBest | backend/algorithm_comparison.py:102-132 | no k is kept exactly when all are skipped, and then best_k stays 5 with the fallback metrics; otherwise the result carries the first k of maximal R² and its metrics, with the k values 3, 5, 7, 9, 11 |
| AlgorithmComparison.KnnRegressionComparison | backend/algorithm_comparison.py:97-139 | the loop over the k values gives the specified result |
| AlgorithmComparison.Successful | backend/algorithm_comparison.py:190 | exactly the successful results |
| AlgorithmComparison.Failed | backend/algorithm_comparison.py:199 | exactly the failed results |
| AlgorithmComparison.Partition | backend/algorithm_comparison.py:190-199 | successful and failed results together are all results, as a multiset, and their counts add up |
| AlgorithmComparison.ResultsOf | backend/algorithm_comparison.py:204 | the results of the ranked entries, in order |
| AlgorithmComparison.RankingPermutes | backend/algorithm_comparison.py:189-204 | the ranking lists every result exactly once |
| AlgorithmComparison.Ranking | backend/algorithm_comparison.py:189-204 | one ranked entry per result; only the first entry can be best, and it is when some result succeeded |
| AlgorithmComparison.RanksAt | backend/algorithm_comparison.py:189-204 | over the sorted successful results and the failed ones, entry i is the i-th successful result with rank i + 1 and best only at 0, or a failed result with rank s + 1 and not best |
| AlgorithmComparison.RankingOrder | backend/algorithm_comparison.py:194-204 | the s successful results come first ranked 1..s, the failed ones follow ranked s + 1, and only the first entry is best, when some result succeeded |
| AlgorithmComparison.RankingDescends | backend/algorithm_comparison.py:191 | among the successful entries R² never increases |
| AlgorithmComparison.Rank | backend/algorithm_comparison.py:189-204 | the two ranking loops give the specified ranking |
| AlgorithmComparison.BestAlgorithmIsFirstMaximum | backend/algorithm_comparison.py:216 | there is no best algorithm exactly when every result failed; otherwise it is the first successful result of maximal R² |
| AlgorithmComparison.BestAlgorithm | backend/algorithm_comparison.py:216 | no best algorithm exactly when no result succeeded; otherwise it is the first-ranked entry's algorithm |
| AlgorithmComparison.Validated | backend/algorithm_comparison.py:146-172 | the checks in source order: no features or no target is NoColumns, an unknown target TargetNotFound, unknown features FeaturesNotFound listing them in feature order, a non-averageable column NotNumeric, fewer than 10 rows TooSmall, and otherwise the resolved features and target pass |
| AlgorithmComparison.CompareRegressionAlgorithms | backend/algorithm_comparison.py:141-231 | a failed check is the rejection; otherwise the comparison reports the checked columns, the sample counts, the ranking of the two results, the best algorithm, 2 algorithms split into successful and failed |
| Id3Page.FindPreferred | frontend/src/pages/Id3.jsx:29-30 | a found column is a column whose lower-cased name is preferred; nothing is found exactly when no column's lower-cased name is preferred |
| Id3Page.FindPreferredIsFirst | frontend/src/pages/Id3.jsx:30 | the earliest preferred column is the one found |
| Id3Page.FindPreferredOrderFree | frontend/src/pages/Id3.jsx:19-30 | the order of the priority list does not change the result, only which names it holds |
| Id3Page.PickTarget | frontend/src/pages/Id3.jsx:17-32 | null exactly for a non-list or an empty list; otherwise a column, the last one when no name is preferred |
| Id3Page.PickTargetPrefersFirst | frontend/src/pages/Id3.jsx:19-31 | the target is the first column whose lower-cased name is in the priority list |
| Id3Page.PickTargetFallsBack | frontend/src/pages/Id3.jsx:31 | with no preferred name the target is the last column |
| Id3Page.Choose | frontend/src/pages/Id3.jsx:64-74 | the stored target is the picked one; no target means no features; otherwise the features are exactly the columns other than the target |
| Id3Page.WithoutCount | frontend/src/pages/Id3.jsx:73 | the filter drops exactly the occurrences of the target |
| Id3Page.ChooseCounts | frontend/src/pages/Id3.jsx:71-73 | the features and the target's occurrences together account for every column |
| LinearRegressionPage.Walk | frontend/src/pages/simplelinearregression.jsx:7-26 | there is no finite walkthrough exactly for no points or a constant x (NaN or Infinity in the browser); otherwise the means are those of the points |
| LinearRegressionPage.WalkAgreesWithBackend | frontend/src/pages/simplelinearregression.jsx:11-26 | the page's means, numerator, denominator, slope and intercept are the backend fit's, and its prediction lies on the backend's line; the page is defined exactly when the backend fit succeeds |
| LinearRegressionPage.WalkThroughMeans | frontend/src/pages/simplelinearregression.jsx:22 | the page's line passes through the point of means |
| LinearRegressionPage.WorkedExample | frontend/src/pages/simplelinearregression.jsx:7-26 | on the page's five points x̄ = 3, ȳ = 4, numerator 9, denominator 10, m = 0.9, c = 1.3 and the prediction at 6 is 6.7 |
| LinearRegressionPage.SumOfFive | frontend/src/pages/simplelinearregression.jsx:12 | the sum of five values written out |
| LinearRegressionPage.CrossDeviationOfFive | frontend/src/pages/simplelinearregression.jsx:17-18 | the deviation sum over five points written out |
| NaiveBayesPage.YesCount | frontend/src/pages/naiveBayes.jsx:20 | never more Yes days than days |
| NaiveBayesPage.MatchingBound | frontend/src/pages/naiveBayes.jsx:27-45 | a class never has more matching days than days |
| NaiveBayesPage.Likelihood | frontend/src/pages/naiveBayes.jsx:27-45 | every likelihood lies in [0, 1]; an empty class or no matching day gives 0 (`|| 0` included), every day of the class matching gives 1 |
| NaiveBayesPage.Ratio | frontend/src/pages/naiveBayes.jsx:28 | the fraction a/b lies in [0, 1], 0 for 0/0, and times b gives back a |
| NaiveBayesPage.Prior | frontend/src/pages/naiveBayes.jsx:19-24 | each prior lies in [0, 1] and is the class size over the days |
| NaiveBayesPage.PriorsSumToOne | frontend/src/pages/naiveBayes.jsx:21-24 | the two priors add up to 1 |
| NaiveBayesPage.Score | frontend/src/pages/naiveBayes.jsx:48-51 | a class score is never negative |
| NaiveBayesPage.Product | frontend/src/pages/naiveBayes.jsx:48-51 | a product of non-negative factors is non-negative, and 0 when a factor is |
| NaiveBayesPage.Mul | frontend/src/pages/naiveBayes.jsx:49 | the same for two factors |
| NaiveBayesPage.Predicted | frontend/src/pages/naiveBayes.jsx:53 | "Yes" exactly when the Yes score is strictly greater |
| NaiveBayesPage.ZeroYesScorePredictsNo | frontend/src/pages/naiveBayes.jsx:53 | a zero Yes score predicts "No" |
| NaiveBayesPage.UnseenFeatureZeroes | frontend/src/pages/naiveBayes.jsx:27-51 | a feature no day of the class has zeroes that class's score (no smoothing) |
| NaiveBayesPage.YesCountSnoc | frontend/src/pages/naiveBayes.jsx:20 | one more day adds its own Yes to the count |
| NaiveBayesPage.MatchingSnoc | frontend/src/pages/naiveBayes.jsx:27-45 | one more day adds its own match to the count |
| NaiveBayesPage.DataYesCount | frontend/src/pages/naiveBayes.jsx:7-21 | four of the seven days are Yes, three No |
| NaiveBayesPage.DataMatching | frontend/src/pages/naiveBayes.jsx:7-45 | counting the page's days one at a time gives the match count |
| NaiveBayesPage.NoSunnyYes | frontend/src/pages/naiveBayes.jsx:7-28 | no Sunny day is Yes |
| NaiveBayesPage.NoDayCounts | frontend/src/pages/naiveBayes.jsx:7-45 | of the No days two are Sunny, one Cool, two High humidity and two windy |
| NaiveBayesPage.SunnyNo | frontend/src/pages/naiveBayes.jsx:29-30 | two No days are Sunny |
| NaiveBayesPage.CoolNo | frontend/src/pages/naiveBayes.jsx:34-35 | one No day is Cool |
| NaiveBayesPage.HighNo | frontend/src/pages/naiveBayes.jsx:39-40 | two No days have High humidity |
| NaiveBayesPage.WindyNo | frontend/src/pages/naiveBayes.jsx:44-45 | two No days are windy |
| NaiveBayesPage.NoScore | frontend/src/pages/naiveBayes.jsx:50-51 | P(No) = 3/7 and the No score is 8/189 |
| NaiveBayesPage.WorkedExample | frontend/src/pages/naiveBayes.jsx:7-53 | on the page's days P(Yes) = 4/7, P(No) = 3/7, the Yes score is 0, the No score 8/189 and the prediction is "No" |

## Left out

- File upload, dataset lookup, CSV/Excel parsing, encoding detection, JSON responses, routing and CORS: the table a route reads is a parameter (`dataset`), and 404 stands for a missing file.
- Rounding (`round(x, 4)`, `round(x, 6)`, `toFixed`) and every formatted `calculation`/`description` string: the model keeps exact values and omits display text.
- Floating point: all arithmetic is exact real arithmetic, so underflow (the reason for main.py's uniform fallback) is not modelled; `RouteEvidencePositive` shows that with exact arithmetic the fallback is never taken.
- NaN is modelled only where the engine's control flow depends on it: `KnnRegression.Float` for empty means, `MainRoutes.MostlyNumeric` for the mean over nothing, `Recommended` comparing false, `NaiveBayesCalc.MissingClassLost` for the NaN class a float target loses. Elsewhere a missing cell is `Null`.
- Library code is a parameter or an input: scikit-learn's `LinearRegression`, `KNeighborsRegressor`, `KNeighborsClassifier`, `SVR`, `StandardScaler`, `train_test_split`, `r2_score`; `LabelEncoder` is modelled as sorted distinct texts; `np.sqrt` and `math.log2` are function parameters with only the properties the lemmas require.
- pandas parsing: `pd.to_numeric` and `float(str)` are the `parse` parameter; `astype(str)` is the `show` parameter; `fillna(X.mean())`/`mode()` is the `fill` parameter; a column's dtype is derived from its cells (numeric when every cell is a number or missing).
- Numeric engines given a column with a string or missing cell fail with `NonNumericCells`, where NumPy would raise a TypeError, compute on objects, or carry a missing cell through the arithmetic as NaN.
- Duplicate column names and pandas' handling of them are not modelled; columns are distinct names.
- `MainRoutes.InferTargetType`: the dtype is an input (`DType`), since it comes from pandas' upload parsing.
- The UUID `run_id` is a parameter of `MainRoutes.StampSteps`; the file-listing and preview helpers of backend/main.py and its unused stubs are not part of this model.
- `main.py`'s `label_peek` preview and the upload response's other fields besides `suggested_algorithms` are not part of this model.
- `KnnRegression.SquaredDistanceProps`: states only non-negativity and that identical points are at distance 0, not the converse (zero distance implies identical points).
- `KnnRegression.Analyse`: the test point is reported as a vector in feature order, not as the dictionary the source mutates in place.
- `Svr.RunSvr`: the scalers' mean and scale, the solver's coefficients and support indices and R² are inputs; a fitted solver's optimality is not modelled.
- Request parameters arrive already parsed: `KnnClassification.RunKnnClassification` takes `k` as an integer and `Svr.Hyperparameter` takes ε and C as reals, so the ValueError or TypeError that `int(params.get("k", 5))` (backend/knn_classification.py:17) and `float(params.get("epsilon", 0.1))`/`float(params.get("C", 1.0))` (backend/svr.py:45-46) raise on a non-numeric parameter is not modelled.
- `AlgorithmComparison.LinearComparison`: the library's unwrapping of a single coefficient into a float is not modelled; coefficients stay a list.
- `AlgorithmComparison.CompareRegressionAlgorithms`: the split and the mean fill are inputs; the traceback text of the error response is omitted.
- `KnnClassification.RunKnnClassification`: the split, the scaler, the fit, `kneighbors`, `predict` and `predict_proba` are inputs (`fit`, `solve`), and so is `mean`, the column mean `X[col].mean()` of the encoded frame that fills a feature the example lacks (backend/knn_classification.py:92); the dataset preview is omitted; the stringified class names are strings.
- `Strings.Lower`: lower-cases ASCII letters only and keeps every other character; Python's Unicode `str.lower()` (used by backend/naive_bayes.py:17 and backend/algorithm_comparison.py:21) also maps non-ASCII letters and can change the length ('İ' becomes two characters).
- `Strings.Strip`: removes only space, tab, newline, carriage return, vertical tab and form feed; Python's `str.strip()` at backend/main.py:403 removes every Unicode whitespace character.
- `NaiveBayes.LookupIsLikelihood`: the likelihood table is keyed by cell values, not by their `str(value)` text, so an example value `1` matches a stored `1.0`; in the source the keys "1" and "1.0" differ and the lookup falls back to 1e-6.
- `Id3.PartsOf`, `Id3.GroupLoop`, `Id3.GainForCategorical`, `Id3.Breakdown` and `Id3.ValuesOf`: the parts and their "values" labels come in first-appearance order of the feature values, where `groupby` iterates its keys sorted with the missing value last; the gain, entropies, sizes and weights of each part are the same, only the order of the listed parts differs.
- `Id3.MakeGainStep`, `Id3.GainStepsLoop` and `Id3.ComputeId3RootSteps`: each gain step carries `Id3.Breakdown` of its feature, exact except that its parts and class counts follow the first-appearance order admitted on the lines for `Id3.PartsOf` and `Id3.ClassCounts`.
- `Id3.ClassCounts` and `Id3.BaseEntropyStep`: the class counts (and the `p_terms` built from them) come in first-appearance order of the labels, where `value_counts()` orders them by descending count; each label's count is the same. The source also converts labels with `astype("string")` before counting (backend/id3.py:27), so in an object column the number 1 and the text "1" merge into one class; the model keeps `Num(1.0)` and `Str("1")` apart.
- `KnnClassification.RunKnnClassification`: the neighbours' classes come from the `solve` input together with their distances and indices; the model does not look them up as `y_train[neighbor_indices[0]]`, so it neither ties them to the training labels at those indices nor captures that pandas looks a numeric target up by index label rather than by position.
- `KnnClassification.Tally`: keeps the ZeroDivisionError of a percentage over k = 0; the source cannot reach it, because its library fit already rejects `n_neighbors=0` (backend/knn_classification.py:68-69), but the model's `fit` and `solve` inputs are unconstrained.
- The frontend pages' JavaScript numbers are exact reals, `toLowerCase` is ASCII lower-casing, and the naive Bayes page's string values are an enumeration; `NaiveBayesPage.Prior` and `NaiveBayesPage.Score` require at least one day, so the empty-data NaN path of the page is not modelled.
- `Id3Page.PickTarget`: a value that is not an array is modelled as `None`; React state updates are modelled as the returned `Choice`.
- Chatbot, other pages and components of the frontend are not part of this model.

## Findings

| source | as written | input that shows it | evidently intended | confidence | as-written member | corrected member |
|---|---|---|---|---|---|---|
| backend/naive_bayes.py:42-45 | a missing feature list is replaced by the columns other than the *detected* target, even when the caller named a target | columns ["class", "x"], target "x", no features: the features are ["x"], the target itself | the features are every column other than the target actually used | medium, not executed | NaiveBayes.FeaturesKeepNamedTarget | NaiveBayes.ChosenColumnsExcludeTarget |
| backend/knn_regression.py:21-38 | the default features are chosen before the target is detected, so the detected target is not removed from them | no parameters, no column named like a target, numeric columns ["a", "b"]: target "b", features ["a", "b"] | the default features exclude the target actually used | medium, not executed | KnnRegression.DetectedTargetIsFeature | KnnRegression.ColumnsChosen |
| backend/knn_regression.py:113-134 | each chart row and the test point use the key `feature_cols[1]`, which is evaluated even when the `else 0` branch is taken | one feature column ["a"] with a numeric target: building the first chart row raises IndexError, so the request fails | with a single feature the second coordinate is shown as 0 | high, not executed | KnnRegression.ChartData | KnnRegression.IntendedChart |

The engines follow the code as written: `NaiveBayes.RunNaiveBayes` uses `ChosenColumnsAsWritten`, `KnnRegression.RunKnnRegression` uses `ColumnsAsWritten` and the as-written `ChartData`. The corrected definitions are kept beside them with their intended properties proved, and `NaiveBayes.ChoicesAgree` and `KnnRegression.ColumnsAgree` show where the two choices coincide: for naive Bayes unless a target is named without a feature list, for KNN regression whenever a feature list or a target is given.
