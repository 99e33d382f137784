/**
 * Application settings: the CORS origin list parsed from one comma-separated
 * setting, and the directory layout derived from the backend's base directory.
 */
module Config {
  import opened Wrappers
  import opened Strings
  import opened Values
  import opened Paths

  const DefaultCorsOrigins := "http://localhost:3000" + "," + "http://localhost:5173" + "," + "http://localhost:8080"

  /**
   * The settings the backend reads. Only the fields with logic of their own are
   * kept: the CORS text and the directories.
   */
  datatype Settings = Settings(
    corsOrigins: string,
    baseDir: Path,
    dataDir: Path,
    rawDataDir: Path,
    processedDataDir: Path,
    modelsDir: Path,
    savedModelsDir: Path,
    scalersDir: Path,
    logsDir: Path,
    databaseDir: Path)

  /**
   * The settings object built at import: CORS_ORIGINS from the environment when it is
   * set there, else its default; every directory a fixed name under `baseDir`, the
   * resolved grandparent of the settings module.
   */
  function LoadSettings(corsFromEnv: Option<string>, baseDir: Path): (s: Settings)
    ensures s.corsOrigins == corsFromEnv.GetOr(DefaultCorsOrigins)
    ensures s.baseDir == baseDir
  {
    var data := Child(baseDir, "data");
    var models := Child(baseDir, "models");
    Settings(
      corsFromEnv.GetOr(DefaultCorsOrigins),
      baseDir,
      data,
      Child(data, "raw"),
      Child(data, "processed"),
      models,
      Child(models, "saved_models"),
      Child(models, "scalers"),
      Child(baseDir, "logs"),
      Child(baseDir, "database"))
  }

  /** The directories `create_directories` makes, in its order. */
  function Directories(s: Settings): seq<Path> {
    [s.dataDir, s.rawDataDir, s.processedDataDir, s.modelsDir, s.savedModelsDir,
     s.scalersDir, s.logsDir, s.databaseDir]
  }

  /**
   * The layout: every directory lies below the base directory, raw and processed data
   * sit in the data directory, saved models and scalers in the models directory, and
   * no two directories coincide.
   */
  lemma DirectoryLayout(corsFromEnv: Option<string>, baseDir: Path)
    ensures var s := LoadSettings(corsFromEnv, baseDir);
      && (forall d :: d in Directories(s) ==> Below(d, baseDir))
      && Parent(s.dataDir) == baseDir && Parent(s.modelsDir) == baseDir
      && Parent(s.logsDir) == baseDir && Parent(s.databaseDir) == baseDir
      && Parent(s.rawDataDir) == s.dataDir && Parent(s.processedDataDir) == s.dataDir
      && Parent(s.savedModelsDir) == s.modelsDir && Parent(s.scalersDir) == s.modelsDir
      && Distinct(Directories(s))
  {
    var s := LoadSettings(corsFromEnv, baseDir);
    var data := Child(baseDir, "data");
    var models := Child(baseDir, "models");
    ParentChild(baseDir, "data");
    ParentChild(baseDir, "models");
    ParentChild(baseDir, "logs");
    ParentChild(baseDir, "database");
    ParentChild(data, "raw");
    ParentChild(data, "processed");
    ParentChild(models, "saved_models");
    ParentChild(models, "scalers");
    BelowTransitive(s.rawDataDir, data, baseDir);
    BelowTransitive(s.processedDataDir, data, baseDir);
    BelowTransitive(s.savedModelsDir, models, baseDir);
    BelowTransitive(s.scalersDir, models, baseDir);
    var n := |baseDir.parts|;
    assert "data"[0] != "models"[0] && "data"[0] != "logs"[0] && "models"[0] != "logs"[0];
    assert "raw"[0] != "processed"[0] && "saved_models"[0] != "scalers"[1];
    forall i, j | 0 <= i < j < |Directories(s)|
      ensures Directories(s)[i] != Directories(s)[j]
    {
      var a := Directories(s)[i];
      var b := Directories(s)[j];
      if |a.parts| == |b.parts| {
        assert a.parts[n] != b.parts[n] || a.parts[n + 1] != b.parts[n + 1];
      }
    }
  }

  /**
   * `cors_origins_list`: the setting split at every comma, each piece stripped of
   * surrounding whitespace.
   */
  function CorsOriginsList(corsOrigins: string): (r: seq<string>)
    ensures |r| == |Split(corsOrigins, ',')|
    ensures forall i :: 0 <= i < |r| ==> r[i] == Strip(Split(corsOrigins, ',')[i])
  {
    var pieces := Split(corsOrigins, ',');
    seq(|pieces|, i requires 0 <= i < |pieces| => Strip(pieces[i]))
  }

  /**
   * One origin per comma-separated piece, empty pieces kept as "", none with
   * whitespace at either end, none containing a comma.
   */
  lemma CorsOrigins(corsOrigins: string)
    ensures |CorsOriginsList(corsOrigins)| == Count(corsOrigins, ',') + 1
    ensures forall i :: 0 <= i < |CorsOriginsList(corsOrigins)| ==>
      var o := CorsOriginsList(corsOrigins)[i];
      o == [] || (!IsSpace(o[0]) && !IsSpace(o[|o| - 1]))
    ensures forall i :: 0 <= i < |CorsOriginsList(corsOrigins)| ==> ',' !in CorsOriginsList(corsOrigins)[i]
  {
    SplitCount(corsOrigins, ',');
    SplitPiecesFree(corsOrigins, ',');
    var pieces := Split(corsOrigins, ',');
    forall i | 0 <= i < |pieces|
      ensures ',' !in Strip(pieces[i])
    {
      StripRemovesSpaceOnly(pieces[i]);
    }
  }

  /** Three comma-free origins without surrounding whitespace, joined by commas, parse back. */
  lemma CorsOriginsThree(a: string, b: string, c: string)
    requires ',' !in a && ',' !in b && ',' !in c
    requires a != [] && !IsSpace(a[0]) && !IsSpace(a[|a| - 1])
    requires b != [] && !IsSpace(b[0]) && !IsSpace(b[|b| - 1])
    requires c != [] && !IsSpace(c[0]) && !IsSpace(c[|c| - 1])
    ensures CorsOriginsList(a + "," + b + "," + c) == [a, b, c]
  {
    var tail := b + [','] + c;
    assert a + "," + b + "," + c == a + [','] + tail;
    SplitFirst(a, tail, ',');
    SplitFirst(b, c, ',');
    SplitNoSep(c, ',');
    StripUnchanged(a);
    StripUnchanged(b);
    StripUnchanged(c);
  }

  /** The default setting gives the three local development origins, in order. */
  lemma DefaultCorsOriginsList()
    ensures CorsOriginsList(DefaultCorsOrigins) ==
      ["http://localhost:3000", "http://localhost:5173", "http://localhost:8080"]
  {
    CorsOriginsThree("http://localhost:3000", "http://localhost:5173", "http://localhost:8080");
  }
}
