/**
 * The experiment's files for the adaptive staircase (MR.py:188-208, 318-343):
 * a database file `fileName.db`, a JSON file of stored tells under `Data/`,
 * the rotation of a stale pair left by an interrupted run, and `writeJSON`,
 * which flushes the tells at shutdown. The filesystem is a map from path to
 * content; a path is present exactly when the file exists.
 */
module SessionFiles {
  import opened Wrappers

  /** One stored parameter exchange: the echoed configuration and the observed outcome. */
  datatype Tell = Tell(stimulusDuration: real, disparityAmplitude: real, outcome: int)

  /** What a file holds: the staircase server's database, or a JSON list of tells. */
  datatype FileContent = DatabaseContent | TellLog(tells: seq<Tell>)

  /** The exceptions `loadJSON` can raise. */
  datatype LoadError = FileNotFound(path: string) | MalformedJson(path: string)

  type Files = map<string, FileContent>

  /** Python's slice `s[0:-k]`: all but the last `k` characters, and "" when `s` is shorter. */
  function DropLast(s: string, k: nat): (r: string)
    ensures 0 < k <= |s| ==> s == r + s[|s| - k..]
    ensures (k == 0 || |s| < k) ==> r == ""
  {
    if k == 0 || |s| < k then "" else s[..|s| - k]
  }

  /** `databaseFile = fileName + '.db'` (MR.py:319). */
  function DatabaseName(fileName: string): (r: string)
    ensures |r| >= 3 && r[|r| - 3..] == ".db" && DropLast(r, 3) == fileName
  {
    fileName + ".db"
  }

  /** `tellFilename = dir + 'Data/' + fileName + '.json'` (MR.py:322). */
  function TellFileName(dir: string, fileName: string): (r: string)
    ensures |r| >= 5 && r[|r| - 5..] == ".json" && DropLast(r, 5) == dir + "Data/" + fileName
  {
    dir + "Data/" + fileName + ".json"
  }

  /** `databaseFile[0:-3] + "_" + current_time2 + ".db"` (MR.py:334). */
  function RotatedDatabaseName(databaseFile: string, stamp: string): (r: string)
    ensures |r| >= 3 && r[|r| - 3..] == ".db"
    ensures DropLast(r, 3) == DropLast(databaseFile, 3) + "_" + stamp
  {
    DropLast(databaseFile, 3) + "_" + stamp + ".db"
  }

  /** `tellFilename[0:-5] + "-" + current_time2 + ".json"` (MR.py:338). */
  function RotatedTellName(tellFilename: string, stamp: string): (r: string)
    ensures |r| >= 5 && r[|r| - 5..] == ".json"
    ensures DropLast(r, 5) == DropLast(tellFilename, 5) + "-" + stamp
  {
    DropLast(tellFilename, 5) + "-" + stamp + ".json"
  }

  /** The slice `[0:-3]` removes exactly the ".db" added at MR.py:319, so the stem is kept and the name changes. */
  lemma RotatedDatabaseNameKeepsStem(fileName: string, stamp: string)
    ensures RotatedDatabaseName(DatabaseName(fileName), stamp) == fileName + "_" + stamp + ".db"
    ensures RotatedDatabaseName(DatabaseName(fileName), stamp) != DatabaseName(fileName)
  {
    var db := DatabaseName(fileName);
    assert db[..|db| - 3] == fileName;
    assert |RotatedDatabaseName(db, stamp)| == |db| + 1 + |stamp|;
  }

  /** The slice `[0:-5]` removes exactly the ".json" added at MR.py:322. */
  lemma RotatedTellNameKeepsStem(dir: string, fileName: string, stamp: string)
    ensures RotatedTellName(TellFileName(dir, fileName), stamp) == dir + "Data/" + fileName + "-" + stamp + ".json"
    ensures RotatedTellName(TellFileName(dir, fileName), stamp) != TellFileName(dir, fileName)
  {
    var tf := TellFileName(dir, fileName);
    assert tf == (dir + "Data/" + fileName) + ".json";
    assert tf[..|tf| - 5] == dir + "Data/" + fileName;
    assert |RotatedTellName(tf, stamp)| == |tf| + 1 + |stamp|;
  }

  /** A name ending in ".db" never equals one ending in ".json". */
  lemma DbAndJsonNamesDiffer(a: string, b: string)
    ensures a + ".db" != b + ".json"
  {
    var x, y := a + ".db", b + ".json";
    assert x[|x| - 1] == 'b';
    assert y[|y| - 1] == 'n';
  }

  /** `loadJSON(path)` (MR.py:188-196). */
  function LoadTells(files: Files, path: string): (r: Result<seq<Tell>, LoadError>)
    ensures r.Ok? <==> path in files && files[path].TellLog?
    ensures r.Err? && path !in files ==> r.error == FileNotFound(path)
    ensures r.Ok? ==> r.value == files[path].tells
    ensures path in files && files[path].DatabaseContent? ==> r == Err(MalformedJson(path))
  {
    if path !in files then Err(FileNotFound(path))
    else match files[path]
      case TellLog(tells) => Ok(tells)
      case DatabaseContent => Err(MalformedJson(path))
  }

  /** `writeJSON(dataJSON, fileJSON)` (MR.py:204-208): no write for an empty list, else overwrite. */
  function WriteTells(files: Files, tells: seq<Tell>, path: string): (r: Files)
    ensures |tells| == 0 ==> r == files
    ensures |tells| > 0 ==> LoadTells(r, path) == Ok(tells)
    ensures forall p :: p != path ==> (p in r <==> p in files)
    ensures forall p :: p != path && p in files ==> r[p] == files[p]
  {
    if |tells| > 0 then files[path := TellLog(tells)] else files
  }

  /** `os.rename(src, dst)`: the content moves to `dst`, replacing what was there. */
  function RenameFile(files: Files, src: string, dst: string): (r: Files)
    requires src in files
    ensures dst in r && r[dst] == files[src]
    ensures src != dst ==> src !in r
    ensures forall p :: p != src && p != dst ==> (p in r <==> p in files)
    ensures forall p :: p != src && p != dst && p in files ==> r[p] == files[p]
  {
    (files - {src})[dst := files[src]]
  }

  /** The outcome of the start-up rotation: the new filesystem and `tellContent`. */
  datatype Rotation = Rotation(files: Files, tellContent: seq<Tell>)

  /**
   * Reference definition of MR.py:323-343. `continueIfData` is the flag
   * `continue_if_data == 'yes'`; `stamp` is the formatted wall-clock time.
   */
  function Rotate(files: Files, dir: string, fileName: string, stamp: string, continueIfData: bool): (r: Result<Rotation, LoadError>)
    ensures r.Err? <==> DatabaseName(fileName) in files && continueIfData && LoadTells(files, TellFileName(dir, fileName)).Err?
    ensures r.Err? ==> r.error.path == TellFileName(dir, fileName)
    ensures r.Ok? && r.value.tellContent != [] ==> DatabaseName(fileName) in files && continueIfData
  {
    var db := DatabaseName(fileName);
    var tf := TellFileName(dir, fileName);
    if db !in files then Ok(Rotation(files, []))
    else
      var loaded := if continueIfData then LoadTells(files, tf) else Ok([]);
      if loaded.Err? then Err(loaded.error)
      else
        var moved := RenameFile(files, db, RotatedDatabaseName(db, stamp));
        DbAndJsonNamesDiffer(fileName, dir + "Data/" + fileName);
        RotatedDatabaseNameKeepsStem(fileName, stamp);
        DbAndJsonNamesDiffer(fileName + "_" + stamp, dir + "Data/" + fileName);
        assert tf in files ==> tf in moved;
        var final := if tf in files then RenameFile(moved, tf, RotatedTellName(tf, stamp)) else moved;
        Ok(Rotation(final, loaded.value))
  }

  /** Without a stale database nothing is renamed and no tells are loaded, even when a JSON file exists. */
  lemma RotateWithoutStaleDatabase(files: Files, dir: string, fileName: string, stamp: string, continueIfData: bool)
    requires DatabaseName(fileName) !in files
    ensures Rotate(files, dir, fileName, stamp, continueIfData) == Ok(Rotation(files, []))
  {
  }

  /** `tellContent` is non-empty only if the database file existed, and then it is the stored JSON list. */
  lemma RotateLoadsOnlyWithDatabase(files: Files, dir: string, fileName: string, stamp: string, continueIfData: bool)
    requires Rotate(files, dir, fileName, stamp, continueIfData).Ok?
    requires |Rotate(files, dir, fileName, stamp, continueIfData).value.tellContent| > 0
    ensures DatabaseName(fileName) in files && continueIfData
    ensures LoadTells(files, TellFileName(dir, fileName)) == Ok(Rotate(files, dir, fileName, stamp, continueIfData).value.tellContent)
  {
  }

  /** A stale database without its JSON file makes `loadJSON` raise (MR.py:330-332), and nothing is renamed. */
  lemma RotateMissingJsonFails(files: Files, dir: string, fileName: string, stamp: string)
    requires DatabaseName(fileName) in files && TellFileName(dir, fileName) !in files
    ensures Rotate(files, dir, fileName, stamp, true) == Err(FileNotFound(TellFileName(dir, fileName)))
  {
  }

  /**
   * A successful rotation moves the stale database to its stamped name, moves
   * the JSON file to its stamped name exactly when it existed, and leaves
   * every other file as it was.
   */
  lemma RotateMovesStaleFiles(files: Files, dir: string, fileName: string, stamp: string, continueIfData: bool)
    requires DatabaseName(fileName) in files
    requires Rotate(files, dir, fileName, stamp, continueIfData).Ok?
    ensures var db, tf := DatabaseName(fileName), TellFileName(dir, fileName);
            var rdb, rtf := fileName + "_" + stamp + ".db", dir + "Data/" + fileName + "-" + stamp + ".json";
            var after := Rotate(files, dir, fileName, stamp, continueIfData).value.files;
            db !in after && tf !in after &&
            rdb in after && after[rdb] == files[db] &&
            (tf in files ==> rtf in after && after[rtf] == files[tf]) &&
            (tf !in files ==> (rtf in after <==> rtf in files) && (rtf in files ==> after[rtf] == files[rtf])) &&
            (forall p :: p != db && p != tf && p != rdb && p != rtf ==> (p in after <==> p in files)) &&
            (forall p :: p != db && p != tf && p != rdb && p != rtf && p in files ==> after[p] == files[p])
  {
    var db, tf := DatabaseName(fileName), TellFileName(dir, fileName);
    RotatedDatabaseNameKeepsStem(fileName, stamp);
    RotatedTellNameKeepsStem(dir, fileName, stamp);
    DbAndJsonNamesDiffer(fileName, dir + "Data/" + fileName);
    DbAndJsonNamesDiffer(fileName + "_" + stamp, dir + "Data/" + fileName);
    DbAndJsonNamesDiffer(fileName + "_" + stamp, dir + "Data/" + fileName + "-" + stamp);
    DbAndJsonNamesDiffer(fileName, dir + "Data/" + fileName + "-" + stamp);
  }

  /**
   * Restart scenario: tells flushed by `writeJSON` at the end of a run whose
   * database is still present are exactly the `tellContent` of the next start.
   */
  lemma RestartReloadsFlushedTells(files: Files, dir: string, fileName: string, stamp: string, tells: seq<Tell>)
    requires DatabaseName(fileName) in files && |tells| > 0
    ensures var written := WriteTells(files, tells, TellFileName(dir, fileName));
            Rotate(written, dir, fileName, stamp, true).Ok? &&
            Rotate(written, dir, fileName, stamp, true).value.tellContent == tells
  {
    DbAndJsonNamesDiffer(fileName, dir + "Data/" + fileName);
  }

  /** The files seen by the script, updated in place. */
  class FileSystem {
    var files: Files

    constructor (files: Files)
      ensures this.files == files
    {
      this.files := files;
    }

    /** `os.path.isfile(path)`. */
    function IsFile(path: string): bool
      reads this
    {
      path in files
    }

    /** `os.rename(src, dst)`; the script calls it only after checking that `src` exists. */
    method Rename(src: string, dst: string)
      requires src in files
      modifies this
      ensures files == RenameFile(old(files), src, dst)
    {
      files := (files - {src})[dst := files[src]];
    }

    /** `writeJSON(dataJSON, fileJSON)`. */
    method WriteJson(tells: seq<Tell>, path: string)
      modifies this
      ensures files == WriteTells(old(files), tells, path)
    {
      if |tells| > 0 {
        files := files[path := TellLog(tells)];
      }
    }

    /**
     * MR.py:319-343 as statements: returns `tellContent` and the restart count
     * `number_reduce_trial_runs_bc_restart`, or the error `loadJSON` raises.
     */
    method RotateStaleFiles(dir: string, fileName: string, stamp: string, continueIfData: bool)
      returns (r: Result<seq<Tell>, LoadError>, restarts: nat)
      modifies this
      ensures var spec := Rotate(old(files), dir, fileName, stamp, continueIfData);
              (spec.Err? ==> r == Err(spec.error) && files == old(files)) &&
              (spec.Ok? ==> r == Ok(spec.value.tellContent) && files == spec.value.files)
      ensures restarts == if r.Ok? then |r.value| else 0
    {
      var databaseFile := DatabaseName(fileName);
      var tellFilename := TellFileName(dir, fileName);
      var checkFile := IsFile(databaseFile);
      var checkJson := IsFile(tellFilename);
      var tellContent: seq<Tell> := [];
      if checkFile {
        if continueIfData {
          var loaded := LoadTells(files, tellFilename);
          if loaded.Err? {
            return Err(loaded.error), 0;
          }
          tellContent := loaded.value;
        }
        Rename(databaseFile, RotatedDatabaseName(databaseFile, stamp));
        if checkJson {
          DbAndJsonNamesDiffer(fileName, dir + "Data/" + fileName);
          RotatedDatabaseNameKeepsStem(fileName, stamp);
          DbAndJsonNamesDiffer(fileName + "_" + stamp, dir + "Data/" + fileName);
          Rename(tellFilename, RotatedTellName(tellFilename, stamp));
        }
      }
      r, restarts := Ok(tellContent), |tellContent|;
    }
  }
}
