/**
 * The trainer's bookkeeping: which models it keeps under which names, the time each
 * training took, the file each model is saved to, and which files loading picks up.
 * Fitting is done by scikit-learn and XGBoost: a fitted model and the time it took
 * are inputs here. Model files on disk are a map from path to the stored object.
 */
module Training {
  import opened Wrappers
  import opened Values
  import opened Strings
  import opened Paths

  const LogisticRegression := "Logistic Regression"
  const RandomForest := "Random Forest"
  const XGBoost := "XGBoost"

  /** The names `train_all_models` trains under, in its order. */
  const TrainedNames := [LogisticRegression, RandomForest, XGBoost]

  /** The files `load_models` looks for, by model name, in its order. */
  const LoadTable := [(LogisticRegression, "logistic_regression.pkl"),
                      (RandomForest, "random_forest.pkl"),
                      (XGBoost, "xgboost.pkl")]

  /** The character a name character becomes in its file name. */
  function FileChar(c: char): char {
    if c == ' ' then '_' else LowerChar(c)
  }

  /** `name.lower().replace(' ', '_')`, one character at a time. */
  function FileStem(name: string): (r: string)
    ensures |r| == |name|
  {
    seq(|name|, i requires 0 <= i < |name| => FileChar(name[i]))
  }

  /** `name.lower().replace(' ', '_') + '.pkl'`. */
  function ModelFileName(name: string): (r: string)
    ensures |r| == |name| + 4 && r[|name|..] == ".pkl"
    ensures forall i :: 0 <= i < |name| ==> r[i] != ' ' && !('A' <= r[i] <= 'Z')
  {
    FileStem(name) + ".pkl"
  }

  /** The per-character stem is exactly lowering followed by replacing spaces. */
  lemma ModelFileNameIsLowerReplace(name: string)
    ensures ModelFileName(name) == ReplaceChar(Lower(name), ' ', '_') + ".pkl"
  {
    LowerAt(name);
    assert FileStem(name) == ReplaceChar(Lower(name), ' ', '_');
  }

  lemma FileStemConcat(a: string, b: string, sa: string, sb: string)
    requires FileStem(a) == sa && FileStem(b) == sb
    ensures FileStem(a + b) == sa + sb
  {
  }

  /** Saving then loading agrees: each trained name is saved to the file loading looks up. */
  lemma FileNamesMatchLoadTable()
    ensures forall i :: 0 <= i < |LoadTable| ==> ModelFileName(LoadTable[i].0) == LoadTable[i].1
    ensures Keys(LoadTable) == TrainedNames
  {
    FileNameOfLogisticRegression();
    FileNameOfRandomForest();
    FileNameOfXGBoost();
  }

  lemma FileNameOfLogisticRegression()
    ensures ModelFileName(LogisticRegression) == "logistic_regression.pkl"
  {
    FileStemConcat("Logistic", " Regression", "logistic", "_regression");
  }

  lemma FileNameOfRandomForest()
    ensures ModelFileName(RandomForest) == "random_forest.pkl"
  {
    FileStemConcat("Random", " Forest", "random", "_forest");
  }

  lemma FileNameOfXGBoost()
    ensures ModelFileName(XGBoost) == "xgboost.pkl"
  {
  }

  /** Where a model is saved. */
  function ModelPath(dir: Path, name: string): Path {
    Child(dir, ModelFileName(name))
  }

  /** `models_dir.parent / 'scalers' / 'scaler.pkl'`. */
  function ScalerPath(dir: Path): (p: Path)
    ensures Parent(Parent(p)) == Parent(dir)
  {
    ParentChild(Parent(dir), "scalers");
    ParentChild(Child(Parent(dir), "scalers"), "scaler.pkl");
    Child(Child(Parent(dir), "scalers"), "scaler.pkl")
  }

  /** The disk after `joblib.dump` of every model, in dictionary order; a later file of the same name wins. */
  function SavedFiles<T>(disk: map<Path, T>, dir: Path, models: Dict<T>): (r: map<Path, T>)
    ensures forall p :: p in disk ==> p in r
    decreases |models|
  {
    if models == [] then disk
    else
      var last := models[|models| - 1];
      SavedFiles(disk, dir, models[..|models| - 1])[ModelPath(dir, last.0) := last.1]
  }

  /** The disk after `save_models`: the models, then the scaler when one is given. */
  function Saved<T>(disk: map<Path, T>, dir: Path, models: Dict<T>, scaler: Option<T>): map<Path, T> {
    var withModels := SavedFiles(disk, dir, models);
    if scaler.Some? then withModels[ScalerPath(dir) := scaler.value] else withModels
  }

  /**
   * What a save leaves on disk: every model at its path, the scaler at its path exactly
   * when one is given, and every other file as it was.
   */
  lemma {:induction false} SavedFilesSpec<T>(disk: map<Path, T>, dir: Path, models: Dict<T>, p: Path)
    ensures p in SavedFiles(disk, dir, models) <==> p in disk || exists k :: 0 <= k < |models| && p == ModelPath(dir, models[k].0)
    ensures (forall k :: 0 <= k < |models| ==> p != ModelPath(dir, models[k].0)) ==>
      p in disk ==> SavedFiles(disk, dir, models)[p] == disk[p]
    decreases |models|
  {
    if models != [] {
      var init := models[..|models| - 1];
      SavedFilesSpec(disk, dir, init, p);
      assert forall k :: 0 <= k < |init| ==> init[k] == models[k];
      if p != ModelPath(dir, models[|models| - 1].0) {
        if exists k :: 0 <= k < |models| && p == ModelPath(dir, models[k].0) {
          var k :| 0 <= k < |models| && p == ModelPath(dir, models[k].0);
          assert k < |init|;
        }
      }
    }
  }

  /** With distinct file names, each saved model sits at its own path. */
  lemma {:induction false} SavedFilesAt<T>(disk: map<Path, T>, dir: Path, models: Dict<T>, k: nat)
    requires k < |models|
    requires forall a, b :: 0 <= a < b < |models| ==> ModelFileName(models[a].0) != ModelFileName(models[b].0)
    ensures ModelPath(dir, models[k].0) in SavedFiles(disk, dir, models)
    ensures SavedFiles(disk, dir, models)[ModelPath(dir, models[k].0)] == models[k].1
    decreases |models|
  {
    var init := models[..|models| - 1];
    if k < |models| - 1 {
      SavedFilesAt(disk, dir, init, k);
      var last := models[|models| - 1].0;
      assert ModelPath(dir, models[k].0) != ModelPath(dir, last) by {
        if ModelPath(dir, models[k].0) == ModelPath(dir, last) {
          ChildInjective(dir, ModelFileName(models[k].0), ModelFileName(last));
        }
      }
    }
  }

  /** `load_models`: the models of the table whose file exists, in table order. */
  function Loaded<T>(dir: Path, disk: map<Path, T>, table: Dict<string>): (r: Dict<T>)
    ensures |r| <= |table|
    decreases |table|
  {
    if table == [] then []
    else
      var init := Loaded(dir, disk, table[..|table| - 1]);
      var (name, file) := table[|table| - 1];
      if Child(dir, file) in disk then init + [(name, disk[Child(dir, file)])] else init
  }

  /** A loaded model is the one stored under its table file; a name whose file is missing is not loaded. */
  lemma {:induction false} LoadedGet<T>(dir: Path, disk: map<Path, T>, table: Dict<string>, k: nat)
    requires Distinct(Keys(table)) && k < |table|
    ensures Get(Loaded(dir, disk, table), table[k].0) ==
      if Child(dir, table[k].1) in disk then Some(disk[Child(dir, table[k].1)]) else None
    decreases |table|
  {
    var init := table[..|table| - 1];
    var (name, file) := table[|table| - 1];
    var rest := Loaded(dir, disk, init);
    LoadedKeys(dir, disk, init);
    assert Distinct(Keys(init)) by {
      assert forall a :: 0 <= a < |init| ==> Keys(init)[a] == Keys(table)[a];
    }
    if k < |table| - 1 {
      LoadedGet(dir, disk, init, k);
      assert table[k].0 != name by {
        assert Keys(table)[k] != Keys(table)[|table| - 1];
      }
      if Child(dir, file) in disk {
        GetAppend(rest, name, disk[Child(dir, file)], table[k].0);
      }
    } else {
      assert name !in Keys(rest) by {
        forall a | 0 <= a < |init|
          ensures Keys(init)[a] != name
        {
          assert Keys(table)[a] != Keys(table)[|table| - 1];
        }
      }
      KeyIndexIn(rest, name);
      if Child(dir, file) in disk {
        PutNew(rest, name, disk[Child(dir, file)]);
      }
    }
  }

  /** The loaded names are table names, in table order. */
  lemma {:induction false} LoadedKeys<T>(dir: Path, disk: map<Path, T>, table: Dict<string>)
    ensures forall n :: n in Keys(Loaded(dir, disk, table)) ==> n in Keys(table)
    decreases |table|
  {
    if table != [] {
      var init := table[..|table| - 1];
      LoadedKeys(dir, disk, init);
      assert forall n :: n in Keys(init) ==> n in Keys(table) by {
        assert forall a :: 0 <= a < |init| ==> Keys(init)[a] == Keys(table)[a];
      }
      var rest := Loaded(dir, disk, init);
      var (name, file) := table[|table| - 1];
      if Child(dir, file) in disk {
        assert Keys(rest + [(name, disk[Child(dir, file)])]) == Keys(rest) + [name];
      }
    }
  }

  /** Appending an entry under a new key leaves the other keys' lookups alone. */
  lemma GetAppend<V>(d: Dict<V>, k: string, v: V, k': string)
    requires k' != k
    ensures Get(d + [(k, v)], k') == Get(d, k')
  {
    var e := d + [(k, v)];
    var i := KeyIndex(d, k');
    KeyIndexUnique(e, k', if i < |d| then i else |e|);
  }

  /** The dictionary `train_all_models` builds: one model per trained name, in training order. */
  function Trained<T>(lr: T, rf: T, xgb: T): (r: Dict<T>)
    ensures Keys(r) == TrainedNames
  {
    var r := [(LogisticRegression, lr), (RandomForest, rf), (XGBoost, xgb)];
    assert Keys(r)[0] == TrainedNames[0] && Keys(r)[1] == TrainedNames[1] && Keys(r)[2] == TrainedNames[2];
    r
  }

  /** The training times after `train_all_models`: one entry per trained name, in training order. */
  function RecordTimes(times: Dict<real>, lrTime: real, rfTime: real, xgbTime: real): Dict<real> {
    Put(Put(Put(times, LogisticRegression, lrTime), RandomForest, rfTime), XGBoost, xgbTime)
  }

  /**
   * Every trained model has its training time under the same name, and the times of
   * other names are kept.
   */
  lemma RecordTimesGet(times: Dict<real>, lrTime: real, rfTime: real, xgbTime: real, name: string)
    ensures Get(RecordTimes(times, lrTime, rfTime, xgbTime), name) ==
      if name == LogisticRegression then Some(lrTime)
      else if name == RandomForest then Some(rfTime)
      else if name == XGBoost then Some(xgbTime)
      else Get(times, name)
  {
    assert LogisticRegression[0] != RandomForest[0] && LogisticRegression[0] != XGBoost[0];
    assert RandomForest[0] != XGBoost[0];
  }

  /** The trainer: the trained models by name and the time each training took. */
  class ModelTrainer<T> {
    var randomState: int
    var models: Dict<T>
    var bestModels: Dict<T>
    var trainingTimes: Dict<real>

    constructor (randomState: int)
      ensures this.randomState == randomState
      ensures models == [] && bestModels == [] && trainingTimes == []
    {
      this.randomState := randomState;
      models := [];
      bestModels := [];
      trainingTimes := [];
    }

    /**
     * One `train_*` method: `fitted` is what the library fitted (with or without the grid
     * search) and `elapsed` the wall-clock time; the time is recorded under `name`.
     */
    method Train(name: string, fitted: T, elapsed: real) returns (m: T)
      modifies this
      ensures m == fitted
      ensures trainingTimes == Put(old(trainingTimes), name, elapsed)
      ensures models == old(models) && bestModels == old(bestModels) && randomState == old(randomState)
    {
      trainingTimes := Put(trainingTimes, name, elapsed);
      m := fitted;
    }

    /** `train_all_models`: the three models under their names, in training order. */
    method TrainAllModels(lr: T, rf: T, xgb: T, lrTime: real, rfTime: real, xgbTime: real) returns (r: Dict<T>)
      modifies this
      ensures r == Trained(lr, rf, xgb) && bestModels == r
      ensures trainingTimes == RecordTimes(old(trainingTimes), lrTime, rfTime, xgbTime)
      ensures models == old(models)
    {
      var a := Train(LogisticRegression, lr, lrTime);
      var b := Train(RandomForest, rf, rfTime);
      var c := Train(XGBoost, xgb, xgbTime);
      bestModels := Trained(a, b, c);
      r := bestModels;
    }

    /** `save_models`: every kept model to its file, then the scaler when one is given. */
    method SaveModels(dir: Path, scaler: Option<T>, disk: map<Path, T>) returns (written: map<Path, T>)
      ensures written == Saved(disk, dir, bestModels, scaler)
    {
      written := disk;
      for i := 0 to |bestModels|
        invariant written == SavedFiles(disk, dir, bestModels[..i])
      {
        assert bestModels[..i + 1][..i] == bestModels[..i];
        written := written[ModelPath(dir, bestModels[i].0) := bestModels[i].1];
      }
      assert bestModels[..|bestModels|] == bestModels;
      if scaler.Some? {
        written := written[ScalerPath(dir) := scaler.value];
      }
    }

    /** `load_models`: the table's models whose file exists; they replace the kept models. */
    method LoadModels(dir: Path, disk: map<Path, T>) returns (r: Dict<T>)
      modifies this
      ensures r == Loaded(dir, disk, LoadTable) && bestModels == r
      ensures models == old(models) && trainingTimes == old(trainingTimes)
    {
      r := [];
      for i := 0 to |LoadTable|
        invariant r == Loaded(dir, disk, LoadTable[..i])
      {
        assert LoadTable[..i + 1][..i] == LoadTable[..i];
        var (name, file) := LoadTable[i];
        if Child(dir, file) in disk {
          r := r + [(name, disk[Child(dir, file)])];
        }
      }
      assert LoadTable[..|LoadTable|] == LoadTable;
      bestModels := r;
    }
  }

  /** When every table file exists, loading takes every table entry, in order. */
  lemma {:induction false} LoadedAllPresent<T>(dir: Path, disk: map<Path, T>, table: Dict<string>)
    requires forall i :: 0 <= i < |table| ==> Child(dir, table[i].1) in disk
    ensures Loaded(dir, disk, table) == seq(|table|, i requires 0 <= i < |table| => (table[i].0, disk[Child(dir, table[i].1)]))
    decreases |table|
  {
    if table != [] {
      LoadedAllPresent(dir, disk, table[..|table| - 1]);
    }
  }

  /**
   * Saving models whose names and file names are those of a load table, then loading
   * with that table, gives back the same models, whether or not a scaler was saved too.
   */
  lemma SaveThenLoadTable<T>(disk: map<Path, T>, dir: Path, table: Dict<string>, models: Dict<T>, scaler: Option<T>)
    requires Keys(models) == Keys(table)
    requires forall i :: 0 <= i < |table| ==> ModelFileName(table[i].0) == table[i].1 && table[i].1 != "scaler.pkl"
    requires forall a, b :: 0 <= a < b < |table| ==> table[a].1 != table[b].1
    ensures Loaded(dir, Saved(disk, dir, models, scaler), table) == models
  {
    SavedTableFiles(disk, dir, table, models, scaler);
    LoadTableFiles(dir, Saved(disk, dir, models, scaler), table, models);
  }

  /** Loading a disk whose table files hold `models`, position by position, gives `models`. */
  lemma LoadTableFiles<T>(dir: Path, disk: map<Path, T>, table: Dict<string>, models: Dict<T>)
    requires Keys(models) == Keys(table)
    requires forall k :: 0 <= k < |table| ==> Child(dir, table[k].1) in disk && disk[Child(dir, table[k].1)] == models[k].1
    ensures Loaded(dir, disk, table) == models
  {
    LoadedAllPresent(dir, disk, table);
    var loaded := Loaded(dir, disk, table);
    forall k | 0 <= k < |table|
      ensures loaded[k] == models[k]
    {
      assert Keys(models)[k] == Keys(table)[k];
    }
  }

  /** After the save, every table file holds the model of the same position. */
  lemma SavedTableFiles<T>(disk: map<Path, T>, dir: Path, table: Dict<string>, models: Dict<T>, scaler: Option<T>)
    requires Keys(models) == Keys(table)
    requires forall i :: 0 <= i < |table| ==> ModelFileName(table[i].0) == table[i].1 && table[i].1 != "scaler.pkl"
    requires forall a, b :: 0 <= a < b < |table| ==> table[a].1 != table[b].1
    ensures forall k :: 0 <= k < |table| ==>
      Child(dir, table[k].1) in Saved(disk, dir, models, scaler) && Saved(disk, dir, models, scaler)[Child(dir, table[k].1)] == models[k].1
  {
    forall a, b | 0 <= a < b < |models|
      ensures ModelFileName(models[a].0) != ModelFileName(models[b].0)
    {
      assert Keys(models)[a] == Keys(table)[a] && Keys(models)[b] == Keys(table)[b];
    }
    forall k | 0 <= k < |table|
      ensures Child(dir, table[k].1) in Saved(disk, dir, models, scaler)
      ensures Saved(disk, dir, models, scaler)[Child(dir, table[k].1)] == models[k].1
    {
      assert Keys(models)[k] == Keys(table)[k];
      SavedFilesAt(disk, dir, models, k);
    }
  }

  /**
   * The round trip: saving the three trained models, with or without a scaler, and
   * loading from the same directory gives back the same models under the same names.
   */
  lemma SaveThenLoad<T>(disk: map<Path, T>, dir: Path, lr: T, rf: T, xgb: T, scaler: Option<T>)
    ensures Loaded(dir, Saved(disk, dir, Trained(lr, rf, xgb), scaler), LoadTable) == Trained(lr, rf, xgb)
  {
    var trained := Trained(lr, rf, xgb);
    FileNamesMatchLoadTable();
    var files := ["logistic_regression.pkl", "random_forest.pkl", "xgboost.pkl"];
    assert files[0][0] != files[1][0] && files[0][0] != files[2][0] && files[1][0] != files[2][0];
    assert "scaler.pkl"[0] != files[0][0] && "scaler.pkl"[0] != files[1][0] && "scaler.pkl"[0] != files[2][0];
    SaveThenLoadTable(disk, dir, LoadTable, trained, scaler);
  }
}
