/**
 * Loading the Telco churn dataset: where the raw file is looked for, what a file
 * that is not there gives, and the structural check on a loaded frame.
 */
module DataLoading {
  import opened Wrappers
  import opened Values
  import opened Frames
  import opened Ranking
  import opened Paths
  import Config

  /** Why loading or validation stops. */
  datatype LoadError =
    | FileNotFound(path: Path)
    | MissingColumns(missing: seq<string>)
    | EmptyDataset

  /** `str(e)` of the exception raised for each error. */
  function ErrorText(e: LoadError): string {
    match e
    case FileNotFound(path) =>
      "Dataset not found at " + Text(path) + ". " +
      "Please place the Telco Customer Churn dataset (WA_Fn-UseC_-Telco-Customer-Churn.csv) " +
      "in the " + Text(Parent(path)) + " directory and rename it to 'telco_churn.csv'"
    case MissingColumns(missing) => "Missing required columns: " + ListText(missing)
    case EmptyDataset => "Dataset is empty"
  }

  /** The `repr` of a list of names none of which holds a quote: `['a', 'b']`. */
  function ListText(names: seq<string>): string {
    "[" + Items(names) + "]"
  }

  function Items(names: seq<string>): string {
    if names == [] then ""
    else if |names| == 1 then "'" + names[0] + "'"
    else "'" + names[0] + "', " + Items(names[1..])
  }

  datatype DataLoader = DataLoader(dataPath: Path, rawDataPath: Path)

  /**
   * A loader for `dataPath`, or for the `data` directory next to the package's own
   * source directory (`packageDir`) when no path is given; raw files are in `raw`.
   */
  function NewDataLoader(dataPath: Option<Path>, packageDir: Path): (l: DataLoader)
    ensures Parent(l.rawDataPath) == l.dataPath && Below(l.rawDataPath, l.dataPath)
    ensures dataPath.Some? ==> l.dataPath == dataPath.value
    ensures dataPath.None? ==> Parent(l.dataPath) == packageDir
  {
    var data := if dataPath.Some? then dataPath.value else Child(packageDir, "data");
    ParentChild(data, "raw");
    ParentChild(packageDir, "data");
    DataLoader(data, Child(data, "raw"))
  }

  /**
   * With no path given, the loader's raw directory is the settings' RAW_DATA_DIR: both
   * sit two levels below the backend directory.
   */
  lemma DefaultRawPathIsSettings(backendDir: Path, corsFromEnv: Option<string>)
    ensures NewDataLoader(None, backendDir).rawDataPath == Config.LoadSettings(corsFromEnv, backendDir).rawDataDir
    ensures NewDataLoader(None, backendDir).dataPath == Config.LoadSettings(corsFromEnv, backendDir).dataDir
  {
  }

  /**
   * `load_telco_churn`: the file `raw/<filename>`, or FileNotFoundError naming that
   * path when it does not exist. `files` stands for the CSV files on disk, already parsed.
   */
  function LoadTelcoChurn(l: DataLoader, filename: string, files: map<Path, Frame>): (r: Result<Frame, LoadError>)
    ensures r.Err? <==> Child(l.rawDataPath, filename) !in files
    ensures r.Err? ==> r.error == FileNotFound(Child(l.rawDataPath, filename))
    ensures r.Ok? ==> r.value == files[Child(l.rawDataPath, filename)]
  {
    var path := Child(l.rawDataPath, filename);
    if path !in files then Err(FileNotFound(path)) else Ok(files[path])
  }

  /** The error for a missing file names the file's path and the raw directory to place it in. */
  lemma MissingFileText(l: DataLoader, filename: string, files: map<Path, Frame>)
    requires Child(l.rawDataPath, filename) !in files
    ensures ErrorText(LoadTelcoChurn(l, filename, files).error) ==
      "Dataset not found at " + Text(Child(l.rawDataPath, filename)) + ". " +
      "Please place the Telco Customer Churn dataset (WA_Fn-UseC_-Telco-Customer-Churn.csv) " +
      "in the " + Text(l.rawDataPath) + " directory and rename it to 'telco_churn.csv'"
  {
    ParentChild(l.rawDataPath, filename);
  }

  const RequiredColumns := ["customerID", "tenure", "MonthlyCharges", "TotalCharges",
                            "Contract", "PaymentMethod", "InternetService"]

  /** The `required` columns not among `columns`, in the order they are required. */
  function MissingFrom(required: seq<string>, columns: seq<string>): seq<string> {
    Filter(required, c => c !in columns)
  }

  /** Exactly the absent required columns are listed, in required order. */
  lemma MissingFromSpec(required: seq<string>, columns: seq<string>)
    ensures forall c :: c in MissingFrom(required, columns) <==> c in required && c !in columns
    ensures Subsequence(MissingFrom(required, columns), required)
  {
    var absent := c => c !in columns;
    forall c | c in required && c !in columns
      ensures c in MissingFrom(required, columns)
    {
      var k :| 0 <= k < |required| && required[k] == c;
      assert absent(required[k]);
    }
    FilterSubsequence(required, absent);
  }

  /** `validate_data`: missing columns first, then an empty frame; otherwise True. */
  function ValidateData(f: Frame): (r: Result<bool, LoadError>)
    ensures r.Ok? ==> r.value
  {
    var missing := MissingFrom(RequiredColumns, f.columns);
    if missing != [] then Err(MissingColumns(missing))
    else if |f.rows| == 0 then Err(EmptyDataset)
    else Ok(true)
  }

  /**
   * A frame passes exactly when it has every required column and a row. Otherwise the
   * error lists precisely the absent required columns, in required order; and an empty
   * frame is only reported once every column is there.
   */
  lemma ValidateDataOutcome(f: Frame)
    ensures ValidateData(f).Ok? <==> (forall c :: c in RequiredColumns ==> c in f.columns) && |f.rows| > 0
    ensures ValidateData(f) == Err(EmptyDataset) <==>
      (forall c :: c in RequiredColumns ==> c in f.columns) && |f.rows| == 0
    ensures ValidateData(f).Err? && ValidateData(f).error.MissingColumns? ==>
      var m := ValidateData(f).error.missing;
      && m != []
      && (forall c :: c in m <==> c in RequiredColumns && c !in f.columns)
      && Subsequence(m, RequiredColumns)
  {
    MissingFromSpec(RequiredColumns, f.columns);
  }

  /** `save_processed_data` as written: the `processed` directory next to the data directory. */
  function ProcessedOutputPath(l: DataLoader, filename: string): (p: Path)
    ensures Parent(p) == Child(Parent(l.dataPath), "processed")
  {
    ParentChild(Child(Parent(l.dataPath), "processed"), filename);
    Child(Child(Parent(l.dataPath), "processed"), filename)
  }

  /**
   * For the default loader, the file does not land in the settings' PROCESSED_DATA_DIR
   * (data/processed) but in a `processed` directory beside `data`.
   */
  lemma ProcessedOutputOutsideDataDir(backendDir: Path, corsFromEnv: Option<string>, filename: string)
    ensures var s := Config.LoadSettings(corsFromEnv, backendDir);
      ProcessedOutputPath(NewDataLoader(None, backendDir), filename) != Child(s.processedDataDir, filename)
  {
    var s := Config.LoadSettings(corsFromEnv, backendDir);
    var p := ProcessedOutputPath(NewDataLoader(None, backendDir), filename);
    assert |p.parts| == |backendDir.parts| + 2;
  }

  /** The intended location: `processed` inside the data directory. */
  function ProcessedOutputPathIntended(l: DataLoader, filename: string): (p: Path)
    ensures Below(p, l.dataPath)
  {
    var dir := Child(l.dataPath, "processed");
    ParentChild(l.dataPath, "processed");
    ParentChild(dir, filename);
    BelowTransitive(Child(dir, filename), dir, l.dataPath);
    Child(dir, filename)
  }

  /** For the default loader the intended location is the settings' PROCESSED_DATA_DIR. */
  lemma ProcessedOutputIntendedIsSettings(backendDir: Path, corsFromEnv: Option<string>, filename: string)
    ensures var s := Config.LoadSettings(corsFromEnv, backendDir);
      ProcessedOutputPathIntended(NewDataLoader(None, backendDir), filename) == Child(s.processedDataDir, filename)
  {
  }
}
