/**
 * The host machine the echo tester drives: its output volume, set through
 * `osascript` (`set_output_volume`) and read back (`get_current_volume`),
 * and its local `results/` directory, appended to by `save_to_local`.
 *
 * `setCalls` records every volume the tester sets, in order, so that the
 * sweep's visiting order and its final restoration can be stated. A file is
 * the sequence of records written to it, one per line; JSON encoding is not
 * modelled.
 */
module Host {
  import opened ResultSink

  /** Volume `get_current_volume` reports when asking the system fails. */
  const DefaultVolume: int := 50

  /** The results directory: for each path, the records on its lines. */
  type Files = map<string, seq<TrialRecord>>

  /** The lines of a file; a file that does not exist has none. */
  function Lines(files: Files, path: string): seq<TrialRecord>
  {
    if path in files then files[path] else []
  }

  /** Opening `path` in append mode and writing one line: the file is created if absent. */
  function AppendLine(files: Files, path: string, line: TrialRecord): (r: Files)
    ensures r.Keys == files.Keys + {path}
    ensures Lines(r, path) == Lines(files, path) + [line]
    ensures forall p :: p != path ==> Lines(r, p) == Lines(files, p)
  {
    files[path := Lines(files, path) + [line]]
  }

  /** Path of the results file for one volume level. */
  function LevelPath(volumePercent: int): string
  {
    ResultPath(ResultFileName(volumePercent))
  }

  /** The files after saving each record, in order, to the file of its volume level. */
  function SaveAll(files: Files, records: seq<TrialRecord>): Files
  {
    if records == [] then files
    else
      var last := records[|records| - 1];
      AppendLine(SaveAll(files, records[..|records| - 1]), LevelPath(last.volumePercent), last)
  }

  /** A path is a results file after saving exactly when it was one before or some saved record's level maps to it. */
  lemma {:induction false} SaveAllCreatesLevelFiles(files: Files, records: seq<TrialRecord>, path: string)
    ensures path in SaveAll(files, records) <==>
      path in files || exists i :: 0 <= i < |records| && LevelPath(records[i].volumePercent) == path
  {
    if records != [] {
      var n := |records|;
      var front := records[..n - 1];
      SaveAllCreatesLevelFiles(files, front, path);
      if exists i :: 0 <= i < n - 1 && LevelPath(front[i].volumePercent) == path {
        var i :| 0 <= i < n - 1 && LevelPath(front[i].volumePercent) == path;
        assert records[i] == front[i];
      }
      if exists i :: 0 <= i < n && LevelPath(records[i].volumePercent) == path {
        var i :| 0 <= i < n && LevelPath(records[i].volumePercent) == path;
        if i < n - 1 {
          assert records[i] == front[i];
        }
      }
    }
  }

  /** The records measured at volume level `v`, in order. */
  function RecordsAt(records: seq<TrialRecord>, v: int): (r: seq<TrialRecord>)
    ensures forall i :: 0 <= i < |r| ==> r[i].volumePercent == v
    ensures |r| <= |records|
  {
    if records == [] then []
    else
      var last := records[|records| - 1];
      RecordsAt(records[..|records| - 1], v) + (if last.volumePercent == v then [last] else [])
  }

  /**
   * Saving a series of records appends to each level's file exactly that
   * level's records, in order, and keeps its earlier lines.
   */
  lemma {:induction false} SaveAllPerLevel(files: Files, records: seq<TrialRecord>, v: int)
    ensures Lines(SaveAll(files, records), LevelPath(v)) == Lines(files, LevelPath(v)) + RecordsAt(records, v)
  {
    if records != [] {
      var front, last := records[..|records| - 1], records[|records| - 1];
      SaveAllPerLevel(files, front, v);
      AppendToLevel(SaveAll(files, front), last, v);
    }
  }

  /** Saving one record adds it to the file of its own level and to no other level's file. */
  lemma AppendToLevel(files: Files, record: TrialRecord, v: int)
    ensures Lines(AppendLine(files, LevelPath(record.volumePercent), record), LevelPath(v)) ==
      Lines(files, LevelPath(v)) + (if record.volumePercent == v then [record] else [])
  {
    if record.volumePercent != v {
      if LevelPath(record.volumePercent) == LevelPath(v) {
        ResultPathInjective(record.volumePercent, v);
      }
      assert Lines(files, LevelPath(v)) + [] == Lines(files, LevelPath(v));
    }
  }

  /** A file that is not the results file of any saved record keeps its lines. */
  lemma {:induction false} SaveAllOtherFiles(files: Files, records: seq<TrialRecord>, path: string)
    requires forall i :: 0 <= i < |records| ==> path != LevelPath(records[i].volumePercent)
    ensures Lines(SaveAll(files, records), path) == Lines(files, path)
  {
    if records != [] {
      SaveAllOtherFiles(files, records[..|records| - 1], path);
    }
  }

  class Machine {
    /** The device's current output volume, in percent. */
    var volume: int
    /** Every volume set so far, oldest first. */
    var setCalls: seq<int>
    /** The local results directory. */
    var files: Files

    constructor (initialVolume: int, initialFiles: Files)
      ensures volume == initialVolume && setCalls == [] && files == initialFiles
    {
      volume := initialVolume;
      setCalls := [];
      files := initialFiles;
    }

    /** `set_output_volume`. */
    method SetOutputVolume(percent: int)
      modifies this
      ensures volume == percent
      ensures setCalls == old(setCalls) + [percent]
      ensures files == old(files)
    {
      volume := percent;
      setCalls := setCalls + [percent];
    }

    /**
     * `get_current_volume`: the device volume when the system query
     * succeeds (`queryOk`), the default of 50 when it fails.
     */
    method GetCurrentVolume(queryOk: bool) returns (v: int)
      ensures queryOk ==> v == volume
      ensures !queryOk ==> v == DefaultVolume
    {
      if queryOk {
        v := volume;
      } else {
        v := DefaultVolume;
      }
    }

    /**
     * `save_to_local`: appends one line holding `record` to
     * `results/<filename>`; when the file cannot be written (`writable` is
     * false) the error propagates and nothing is written.
     */
    method SaveToLocal(record: TrialRecord, filename: string, writable: bool) returns (saved: bool)
      modifies this
      ensures saved == writable
      ensures saved ==> files == AppendLine(old(files), ResultPath(filename), record)
      ensures !saved ==> files == old(files)
      ensures volume == old(volume) && setCalls == old(setCalls)
    {
      saved := writable;
      if writable {
        files := AppendLine(files, ResultPath(filename), record);
      }
    }
  }
}
