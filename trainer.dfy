/**
 * `model_trainer`: the keyword check made before any dataset file is read,
 * the search spaces `__setup_model` chooses, and the untrained/trained gate on
 * `train_model`, `predict` and `generate_error_reports`. The classifier, the
 * label encoder, the search and the metrics are library calls.
 */
module Trainer {
  import opened Wrappers
  import opened PyText
  import opened Values
  import opened Foreign

  datatype Technique = Graph | Gradient | Neural

  datatype ModelKey = Knn | Rf | Ann

  function TechniqueName(t: Technique): string
  {
    match t
    case Graph => "graph"
    case Gradient => "gradient"
    case Neural => "neural"
  }

  function ModelName(m: ModelKey): string
  {
    match m
    case Knn => "knn"
    case Rf => "rf"
    case Ann => "ann"
  }

  function ParseTechnique(s: string): (r: Option<Technique>)
    ensures r.Some? ==> TechniqueName(r.value) == s
    ensures r.None? ==> forall t: Technique :: TechniqueName(t) != s
  {
    if s == "graph" then Some(Graph)
    else if s == "gradient" then Some(Gradient)
    else if s == "neural" then Some(Neural)
    else None
  }

  function ParseModel(s: string): (r: Option<ModelKey>)
    ensures r.Some? ==> ModelName(r.value) == s
    ensures r.None? ==> forall m: ModelKey :: ModelName(m) != s
  {
    if s == "knn" then Some(Knn)
    else if s == "rf" then Some(Rf)
    else if s == "ann" then Some(Ann)
    else None
  }

  const UnknownKeywords := ValueError("Técnica de representación o modelo no identificado.")

  /** `tecnica in ['graph','gradient','neural'] and modelo in ['knn','rf','ann']`,
      else a ValueError. */
  function CheckKeywords(tecnica: string, modelo: string): (r: Result<(Technique, ModelKey)>)
    ensures r.Ok? <==> tecnica in ["graph", "gradient", "neural"] && modelo in ["knn", "rf", "ann"]
    ensures r.Err? ==> r.error == UnknownKeywords
    ensures r.Ok? ==> TechniqueName(r.value.0) == tecnica && ModelName(r.value.1) == modelo
  {
    match (ParseTechnique(tecnica), ParseModel(modelo))
    case (Some(t), Some(m)) => Ok((t, m))
    case _ => Err(UnknownKeywords)
  }

  /** Every keyword the check accepts names exactly one technique and model. */
  lemma KeywordsRoundTrip(t: Technique, m: ModelKey)
    ensures CheckKeywords(TechniqueName(t), ModelName(m)) == Ok((t, m))
  {
  }

  /** `os.path.join(venv, f'{tecnica}-processing\processed_data\<split>.csv')` */
  function DatasetPath(venv: string, technique: Technique, split: string): string
  {
    JoinPath(venv, TechniqueName(technique) + "-processing\\processed_data\\" + split + ".csv")
  }

  /** The dataset files on disk, and the order in which they were read. */
  class DatasetFiles {
    var tables: map<string, Dataset>
    var readLog: seq<string>

    constructor (tables: map<string, Dataset>)
      ensures this.tables == tables && readLog == []
    {
      this.tables := tables;
      readLog := [];
    }

    /** `pd.read_csv(path, ...)` of a file already cleaned. */
    method ReadCsv(path: string) returns (r: Result<Dataset>)
      modifies this`readLog
      ensures readLog == old(readLog) + [path]
      ensures r == if path in tables then Ok(tables[path]) else Err(FileNotFoundError(path))
    {
      readLog := readLog + [path];
      r := if path in tables then Ok(tables[path]) else Err(FileNotFoundError(path));
    }
  }

  // ---------------------------------------------------------------------
  // __setup_model

  /** How many values `np.arange(start, stop, step)` has: the number of steps
      from `start` before `stop` is reached. */
  function StepCount(start: int, stop: int, step: nat): nat
    requires step > 0
  {
    if stop <= start then 0 else (stop - start + step - 1) / step
  }

  lemma StepCountBounds(start: int, stop: int, step: nat)
    requires step > 0
    ensures var n := StepCount(start, stop, step);
      start + n * step >= stop && (n == 0 || start + (n - 1) * step < stop)
  {
    if stop > start {
      var n := StepCount(start, stop, step);
      var rest := (stop - start + step - 1) % step;
      assert stop - start + step - 1 == n * step + rest;
      assert (n - 1) * step == n * step - step;
    }
  }

  lemma MultiplyMonotone(a: int, b: int, c: nat)
    requires a <= b
    ensures a * c <= b * c
  {
  }

  lemma MultiplyCancel(a: int, b: int, c: nat)
    requires c > 0 && a * c < b * c
    ensures a < b
  {
    if a >= b {
      MultiplyMonotone(b, a, c);
    }
  }

  /** `np.arange(start, stop, step)`: `start`, then every `step` after it,
      while below `stop`. */
  function Arange(start: int, stop: int, step: nat): (r: seq<int>)
    requires step > 0
    ensures forall i :: 0 <= i < |r| ==> r[i] == start + i * step && r[i] < stop
    ensures start + |r| * step >= stop
  {
    var n := StepCount(start, stop, step);
    StepCountBounds(start, stop, step);
    assert forall i :: 0 <= i < n ==> i * step <= (n - 1) * step by {
      forall i | 0 <= i < n {
        MultiplyMonotone(i, n - 1, step);
      }
    }
    seq(n, i requires 0 <= i < n => start + i * step)
  }

  /** `np.arange(start, stop, step)` has `n` values when the `n`-th step is the
      first to reach `stop`. */
  lemma ArangeLength(start: int, stop: int, step: nat, n: nat)
    requires step > 0 && n >= 1
    requires start + (n - 1) * step < stop <= start + n * step
    ensures |Arange(start, stop, step)| == n
  {
    var r := Arange(start, stop, step);
    MultiplyCancel(n - 1, |r|, step);
    if |r| > 0 {
      assert r[|r| - 1] < stop;
      MultiplyCancel(|r| - 1, n, step);
    }
  }

  /** With a unit step, `np.arange(start, stop)` has one value per integer
      from `start` up to, not including, `stop`. */
  lemma ArangeUnit(start: int, stop: int)
    requires start < stop
    ensures |Arange(start, stop, 1)| == stop - start
  {
    ArangeLength(start, stop, 1, stop - start);
  }

  const SearchIterations := 100
  const SearchFolds := 5
  const SearchSeed := 42

  function NeighborsParams(): ParamSpace
  {
    NeighborsSpace(Arange(1, 31, 1), ["uniform", "distance"], ["euclidean", "manhattan", "minkowski"])
  }

  /** `[None] + list(values)`: no bound first, then each value in order. */
  function NoneThen(values: seq<int>): (r: seq<Option<int>>)
    ensures |r| == |values| + 1 && r[0] == None
    ensures forall i :: 0 <= i < |values| ==> r[i + 1] == Some(values[i])
  {
    [None] + seq(|values|, i requires 0 <= i < |values| => Some(values[i]))
  }

  function ForestParams(): ParamSpace
  {
    ForestSpace(
      Arange(10, 200, 1),
      ["auto", "sqrt", "log2"],
      NoneThen(Arange(5, 50, 5)),
      Arange(2, 11, 1),
      Arange(1, 11, 1))
  }

  /** The k-NN search tries 1 to 30 neighbours, two weightings and three metrics. */
  lemma NeighborsParamsValues()
    ensures var p := NeighborsParams();
      && |p.nNeighbors| == 30 && (forall i :: 0 <= i < 30 ==> p.nNeighbors[i] == i + 1)
      && p.weights == ["uniform", "distance"]
      && p.metric == ["euclidean", "manhattan", "minkowski"]
  {
    ArangeUnit(1, 31);
  }

  /** The random-forest search tries 10 to 199 trees and the three rules for
      the number of features. */
  lemma ForestTreeParams()
    ensures var p := ForestParams();
      && |p.nEstimators| == 190 && (forall i :: 0 <= i < 190 ==> p.nEstimators[i] == 10 + i)
      && p.maxFeatures == ["auto", "sqrt", "log2"]
  {
    ArangeUnit(10, 200);
  }

  /** It tries unbounded depth and depths 5 to 45 in steps of 5. */
  lemma ForestDepthParams()
    ensures var p := ForestParams();
      && |p.maxDepth| == 10 && p.maxDepth[0] == None
      && (forall i :: 1 <= i < 10 ==> p.maxDepth[i] == Some(5 * i))
  {
    var depths := ForestParams().maxDepth;
    assert depths == NoneThen(Arange(5, 50, 5));
    SteppedBounds(5, 50, 5, 9);
    forall i | 1 <= i < 10
      ensures depths[i] == Some(5 * i)
    {
      assert depths[i] == Some(5 + (i - 1) * 5);
      assert 5 + (i - 1) * 5 == 5 * i;
    }
  }

  /** `[None] + list(np.arange(start, stop, step))` when that range has `n`
      values: no bound, then `n` bounds growing by `step`. */
  lemma SteppedBounds(start: int, stop: int, step: nat, n: nat)
    requires step > 0 && n >= 1
    requires start + (n - 1) * step < stop <= start + n * step
    ensures var bounds := NoneThen(Arange(start, stop, step));
      && |bounds| == n + 1 && bounds[0] == None
      && forall i :: 1 <= i <= n ==> bounds[i] == Some(start + (i - 1) * step)
  {
    ArangeLength(start, stop, step, n);
  }

  /** It tries 2 to 10 samples to split a node and 1 to 10 per leaf. */
  lemma ForestSampleParams()
    ensures var p := ForestParams();
      && |p.minSamplesSplit| == 9 && (forall i :: 0 <= i < 9 ==> p.minSamplesSplit[i] == 2 + i)
      && |p.minSamplesLeaf| == 10 && (forall i :: 0 <= i < 10 ==> p.minSamplesLeaf[i] == 1 + i)
  {
    ArangeUnit(2, 11);
    ArangeUnit(1, 11);
  }

  /** The estimator `__setup_model` creates; none for `ann`. */
  function SetupEstimator(key: ModelKey): Option<Estimator>
  {
    match key
    case Knn => Some(KNeighborsClassifier)
    case Rf => Some(RandomForestClassifier(SearchSeed))
    case Ann => None
  }

  function SetupParams(key: ModelKey): Option<ParamSpace>
  {
    match key
    case Knn => Some(NeighborsParams())
    case Rf => Some(ForestParams())
    case Ann => None
  }

  /** What the randomized search raises when `__setup_model` left no estimator. */
  const NoEstimator := ValueError("RandomizedSearchCV has no estimator to fit")

  // ---------------------------------------------------------------------
  // Reports

  /** `Series.unique()`: each label once, in order of first appearance. */
  function UniqueInOrder(s: seq<string>): (u: seq<string>)
    ensures forall i, j :: 0 <= i < j < |u| ==> u[i] != u[j]
    ensures forall x :: x in u <==> x in s
    decreases |s|
  {
    if s == [] then []
    else
      var rest := UniqueInOrder(s[..|s| - 1]);
      if s[|s| - 1] in rest then rest else rest + [s[|s| - 1]]
  }

  /** Labels seen later never come before labels seen earlier: the unique
      labels of a prefix are a prefix of the unique labels of the whole. */
  lemma {:induction false} UniqueInOrderPrefix(s: seq<string>, t: seq<string>)
    ensures UniqueInOrder(s) <= UniqueInOrder(s + t)
    decreases |t|
  {
    if t == [] {
      assert s + t == s;
    } else {
      var whole := s + t;
      assert whole[..|whole| - 1] == s + t[..|t| - 1];
      UniqueInOrderPrefix(s, t[..|t| - 1]);
    }
  }

  /** Labels that already occurred add nothing to the unique labels. */
  lemma {:induction false} UniqueInOrderCovered(s: seq<string>, t: seq<string>)
    requires forall x :: x in t ==> x in s
    ensures UniqueInOrder(s + t) == UniqueInOrder(s)
    decreases |t|
  {
    if t == [] {
      assert s + t == s;
    } else {
      var whole := s + t;
      assert whole[..|whole| - 1] == s + t[..|t| - 1];
      UniqueInOrderCovered(s, t[..|t| - 1]);
      assert whole[|whole| - 1] == t[|t| - 1];
    }
  }

  /** The unique labels of `s + t` are as many as those of `s` exactly when
      every label of `t` already occurs in `s`: `confusion_matrix`, which sizes
      itself by the labels of both lists, agrees with `Series.unique()` of the
      test labels exactly when every prediction is a test label. */
  lemma UniqueInOrderExtends(s: seq<string>, t: seq<string>)
    ensures |UniqueInOrder(s + t)| == |UniqueInOrder(s)| <==> forall x :: x in t ==> x in s
  {
    if forall x :: x in t ==> x in s {
      UniqueInOrderCovered(s, t);
    } else {
      var u, v := UniqueInOrder(s), UniqueInOrder(s + t);
      UniqueInOrderPrefix(s, t);
      var x :| x in t && x !in s;
      assert x in s + t;
      assert x in v && x !in u;
      assert |u| < |v|;
    }
  }

  /** What `pd.DataFrame` raises when the matrix is `passed` square but the
      index and columns name `implied` labels. */
  function FrameShapeMismatch(passed: nat, implied: nat): Exception
  {
    ValueError("Shape of passed values is (" + NatToString(passed) + ", " + NatToString(passed) +
               "), indices imply (" + NatToString(implied) + ", " + NatToString(implied) + ")")
  }

  const NotTrainedForPredict := ValueError("Modelo no entrenado.")
  const NotTrainedForReports := SystemError("No hay modelo entrenado.")

  class ModelTrainer {
    const representacion: Technique
    const claveModelo: ModelKey
    const trainPath: string
    const testPath: string
    const trainSet: Dataset
    const testSet: Dataset
    var modelo: Option<Estimator>
    var paramDistributions: Option<ParamSpace>
    /** `self.label`: `None` until the encoder has been fitted. */
    var encoder: Option<Encoder>
    var isTrained: bool
    var testReport: Option<string>
    var confusion: Option<ConfusionFrame>
    var auc: Option<AucScores>

    ghost predicate Valid()
      reads this
    {
      isTrained ==> modelo.Some? && encoder.Some?
    }

    /** The part of `model_trainer.__init__` after the keywords are checked
        and both dataset files are read. */
    constructor (technique: Technique, key: ModelKey, trainPath: string, testPath: string, train: Dataset, test: Dataset)
      ensures Valid() && !isTrained
      ensures representacion == technique && claveModelo == key
      ensures this.trainPath == trainPath && this.testPath == testPath && trainSet == train && testSet == test
      ensures modelo == None && paramDistributions == None && encoder == None
      ensures testReport == None && confusion == None && auc == None
    {
      representacion, claveModelo := technique, key;
      this.trainPath, this.testPath := trainPath, testPath;
      trainSet, testSet := train, test;
      modelo, paramDistributions, encoder := None, None, None;
      isTrained := false;
      testReport, confusion, auc := None, None, None;
    }

    /** `train_model`: on an untrained instance, set up the estimator, fit the
        label encoder on the training labels, run the randomized search and
        keep its best estimator; on a trained one, change nothing. */
    method TrainModel(lib: Learning) returns (r: Result<()>)
      requires Valid()
      modifies this
      ensures Valid()
      ensures old(isTrained) ==> r == Ok(()) && unchanged(this)
      ensures !old(isTrained) ==>
        && encoder == Some(lib.fitEncoder(trainSet.labels))
        && testReport == old(testReport) && confusion == old(confusion) && auc == old(auc)
        && match SetupEstimator(claveModelo)
           case None =>
             r == Err(NoEstimator) && !isTrained
             && modelo == old(modelo) && paramDistributions == old(paramDistributions)
           case Some(estimator) =>
             var space := SetupParams(claveModelo).value;
             && r == Ok(()) && isTrained
             && paramDistributions == Some(space)
             && modelo == Some(lib.search(SearchConfig(estimator, space, SearchIterations, SearchFolds, SearchSeed),
                                          trainSet.features, lib.encode(encoder.value, trainSet.labels)))
    {
      if isTrained {
        return Ok(());
      }
      var estimator := SetupEstimator(claveModelo);
      if estimator.Some? {
        modelo := estimator;
        paramDistributions := SetupParams(claveModelo);
      }
      var fitted := lib.fitEncoder(trainSet.labels);
      encoder := Some(fitted);
      var encoded := lib.encode(fitted, trainSet.labels);
      if estimator.None? {
        return Err(NoEstimator);
      }
      var config := SearchConfig(estimator.value, paramDistributions.value, SearchIterations, SearchFolds, SearchSeed);
      modelo := Some(lib.search(config, trainSet.features, encoded));
      isTrained := true;
      r := Ok(());
    }

    /** `predict`: refuses an untrained model, otherwise the classifier's
        codes decoded back to labels. */
    method Predict(features: seq<seq<real>>, lib: Learning) returns (r: Result<seq<string>>)
      requires Valid()
      ensures r.Err? <==> !isTrained
      ensures r.Err? ==> r.error == NotTrainedForPredict
      ensures r.Ok? ==> r.value == lib.decode(encoder.value, lib.predict(modelo.value, features))
    {
      if !isTrained {
        return Err(NotTrainedForPredict);
      }
      r := Ok(lib.decode(encoder.value, lib.predict(modelo.value, features)));
    }

    /** `generate_error_reports`: refuses an untrained model; otherwise the
        classification report, then the confusion matrix labelled by the test
        labels in order of appearance, then the ROC AUC scores. `confusion_matrix`
        has one row per label of the test and predicted labels together, so
        the DataFrame refuses it when a prediction is not a test label; what is
        stored before an exception stays stored. */
    method GenerateErrorReports(lib: Learning) returns (r: Result<()>)
      requires Valid()
      modifies this`testReport, this`confusion, this`auc
      ensures old(isTrained) == isTrained
      ensures !isTrained ==> r == Err(NotTrainedForReports) && unchanged(this)
      ensures isTrained ==>
        var predicted := lib.decode(encoder.value, lib.predict(modelo.value, testSet.features));
        var scores := lib.rocAuc(testSet.labels, lib.predictProba(modelo.value, testSet.features));
        var covered := forall x :: x in predicted ==> x in testSet.labels;
        && testReport == Some(lib.classificationReport(testSet.labels, predicted))
        && (r.Ok? <==> covered && scores.Ok?)
        && (!covered ==>
              && r == Err(FrameShapeMismatch(|UniqueInOrder(testSet.labels + predicted)|, |UniqueInOrder(testSet.labels)|))
              && confusion == old(confusion) && auc == old(auc))
        && (covered ==>
              confusion == Some(ConfusionFrame(UniqueInOrder(testSet.labels), lib.confusionMatrix(testSet.labels, predicted))))
        && (covered && scores.Err? ==> r == Err(scores.error) && auc == old(auc))
        && (r.Ok? ==> r == Ok(()) && auc == Some(scores.value))
    {
      if !isTrained {
        return Err(NotTrainedForReports);
      }
      var predicted := Predict(testSet.features, lib);
      var probabilities := lib.predictProba(modelo.value, testSet.features);
      testReport := Some(lib.classificationReport(testSet.labels, predicted.value));
      var labels := UniqueInOrder(testSet.labels);
      var side := |UniqueInOrder(testSet.labels + predicted.value)|;
      UniqueInOrderExtends(testSet.labels, predicted.value);
      if side != |labels| {
        return Err(FrameShapeMismatch(side, |labels|));
      }
      confusion := Some(ConfusionFrame(labels, lib.confusionMatrix(testSet.labels, predicted.value)));
      var scores := lib.rocAuc(testSet.labels, probabilities);
      if scores.Err? {
        return Err(scores.error);
      }
      auc := Some(scores.value);
      r := Ok(());
    }
  }

  /** `model_trainer(tecnica, modelo)`: unknown keywords are rejected before
      any file is read; then the training and test files are read in that
      order, and a missing one raises. */
  method NewModelTrainer(tecnica: string, modelo: string, venv: string, files: DatasetFiles)
    returns (r: Result<ModelTrainer>)
    modifies files`readLog
    ensures CheckKeywords(tecnica, modelo).Err? ==> r == Err(UnknownKeywords) && files.readLog == old(files.readLog)
    ensures CheckKeywords(tecnica, modelo).Ok? ==>
      var (t, _) := CheckKeywords(tecnica, modelo).value;
      var trainPath, testPath := DatasetPath(venv, t, "Train_Alphabet"), DatasetPath(venv, t, "Test_Alphabet");
      && (trainPath !in files.tables ==> r == Err(FileNotFoundError(trainPath)) && files.readLog == old(files.readLog) + [trainPath])
      && (trainPath in files.tables && testPath !in files.tables ==>
            r == Err(FileNotFoundError(testPath)) && files.readLog == old(files.readLog) + [trainPath, testPath])
      && (trainPath in files.tables && testPath in files.tables ==>
            && files.readLog == old(files.readLog) + [trainPath, testPath]
            && r.Ok? && fresh(r.value) && r.value.Valid() && !r.value.isTrained
            && r.value.representacion == t && ModelName(r.value.claveModelo) == modelo
            && r.value.trainPath == trainPath && r.value.testPath == testPath
            && r.value.modelo == None && r.value.paramDistributions == None && r.value.encoder == None
            && r.value.testReport == None && r.value.confusion == None && r.value.auc == None
            && r.value.trainSet == files.tables[trainPath] && r.value.testSet == files.tables[testPath])
  {
    var keys := CheckKeywords(tecnica, modelo);
    if keys.Err? {
      return Err(keys.error);
    }
    var (technique, key) := keys.value;
    var trainPath := DatasetPath(venv, technique, "Train_Alphabet");
    var testPath := DatasetPath(venv, technique, "Test_Alphabet");
    var train := files.ReadCsv(trainPath);
    if train.Err? {
      return Err(train.error);
    }
    var test := files.ReadCsv(testPath);
    if test.Err? {
      return Err(test.error);
    }
    var trainer := new ModelTrainer(technique, key, trainPath, testPath, train.value, test.value);
    r := Ok(trainer);
  }
}
