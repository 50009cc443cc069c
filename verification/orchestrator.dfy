/**
 * The volume sweep of the echo tester (`run_test`): a pre-flight sample-rate
 * check, capture of the original volume, one trial per configured level in
 * list order, and restoration of the original volume on every exit from the
 * sweep (the `try`/`finally`).
 *
 * Downloading the reference audio is not modelled: the decoded buffer is an
 * input. What the devices, the clock and the disk do during trial `k` is
 * given by `env.trial(k)`; what the webhook does is given by `system` and
 * `replies`, which no part of the sweep's outcome depends on.
 */
module Orchestrator {
  import opened MetricsEngine
  import opened ResultSink
  import opened Host

  /** The volume levels the script sweeps, in percent. */
  const VolumeLevels: seq<int> := [75, 88, 100]

  /** A decoded reference signal and the sample rate it was recorded at. */
  datatype AudioBuffer = AudioBuffer(samples: seq<real>, sampleRate: int)

  /** How the outside world behaves during one trial. */
  datatype TrialEnv = TrialEnv(
    devices: DeviceInfo,             // `get_device_info`
    recording: Option<seq<real>>,    // `play_and_record`; None when a device fails
    timestamp: string,               // the clock read by `compute_metrics`
    canSave: bool)                   // whether `save_to_local` can write its file

  /** The behaviour of the outside world over a whole run. */
  datatype Environment = Environment(
    volumeQueryOk: bool,             // whether asking the system for its volume works
    trial: nat -> TrialEnv,
    log10: real -> real)

  datatype TrialError = RecordingFailed | MetricsFailed | SaveFailed

  /** How `run_test` ends: the failed assertion, normally, or by a trial's exception. */
  datatype RunOutcome = RateMismatch | Completed | TrialFailed(index: nat, error: TrialError)

  /** What one trial leaves behind: the record it saved, or the error that ended it. */
  datatype TrialResult = Saved(record: TrialRecord) | Failed(error: TrialError)

  function Min(a: int, b: int): int { if a < b then a else b }

  /**
   * One trial at volume `level`: record, compute the metrics on the
   * reference cut to the recording's length, attach the level, save.
   */
  function Trial(audio: seq<real>, sampleRate: nat, level: int, t: TrialEnv, log10: real -> real): (r: TrialResult)
    requires sampleRate > 0
    ensures r.Saved? ==> r.record.volumePercent == level
  {
    match t.recording
    case None => Failed(RecordingFailed)
    case Some(rec) =>
      var playback := audio[..Min(|audio|, |rec|)];
      match ComputeMetrics(playback, rec, sampleRate, t.devices, t.timestamp, log10)
      case None => Failed(MetricsFailed)
      case Some(m) => if t.canSave then Saved(TrialRecord(m, level)) else Failed(SaveFailed)
  }

  /**
   * How a trial ends: it saves exactly when the recording succeeds with at
   * least one sample and the file can be written, and the saved metrics are
   * those of the recording against the reference cut to its length. A failed
   * recording, an empty one (numpy's `argmax` raises) and an unwritable file
   * each give their own error.
   */
  lemma TrialOutcomes(audio: seq<real>, sampleRate: nat, level: int, t: TrialEnv, log10: real -> real)
    requires sampleRate > 0
    ensures var r := Trial(audio, sampleRate, level, t, log10);
      && (r.Saved? <==> t.recording.Some? && |t.recording.value| > 0 && t.canSave)
      && (r == Failed(RecordingFailed) <==> t.recording.None?)
      && (r == Failed(MetricsFailed) <==> t.recording == Some([]))
      && (r == Failed(SaveFailed) <==> t.recording.Some? && |t.recording.value| > 0 && !t.canSave)
      && (r.Saved? ==>
            && r.record.volumePercent == level
            && ComputeMetrics(audio[..Min(|audio|, |t.recording.value|)], t.recording.value, sampleRate,
                              t.devices, t.timestamp, log10) == Some(r.record.metrics))
  {
  }

  /**
   * The sweep as `run_test`'s loop runs it, given the records `saved` by the
   * trials already run: the next trial is the one at index `|saved|`, and
   * the sweep goes on until the levels run out or a trial fails. The result
   * is every record saved and the error of the failed trial, if there is one.
   */
  function Sweep(audio: seq<real>, sampleRate: nat, levels: seq<int>, env: Environment, saved: seq<TrialRecord>)
    : (r: (seq<TrialRecord>, Option<TrialError>))
    requires sampleRate > 0 && |saved| <= |levels|
    ensures |saved| <= |r.0| <= |levels|
    ensures r.1.None? <==> |r.0| == |levels|
    decreases |levels| - |saved|
  {
    var k := |saved|;
    if k == |levels| then (saved, None)
    else
      match Trial(audio, sampleRate, levels[k], env.trial(k), env.log10)
      case Failed(e) => (saved, Some(e))
      case Saved(rec) => Sweep(audio, sampleRate, levels, env, saved + [rec])
  }

  /**
   * The sweep's records are the saved records of consecutive trials, one
   * per level in list order, and it stops at the first trial that fails.
   */
  lemma {:induction false} SweepRunsTrialsInOrder(audio: seq<real>, sampleRate: nat, levels: seq<int>,
                                                  env: Environment, saved: seq<TrialRecord>)
    requires sampleRate > 0 && |saved| <= |levels|
    ensures var r := Sweep(audio, sampleRate, levels, env, saved);
      && (forall j :: |saved| <= j < |r.0| ==>
            Trial(audio, sampleRate, levels[j], env.trial(j), env.log10) == Saved(r.0[j]))
      && (forall j :: |saved| <= j < |r.0| ==> r.0[j].volumePercent == levels[j])
      && (r.1.Some? ==>
            Trial(audio, sampleRate, levels[|r.0|], env.trial(|r.0|), env.log10) == Failed(r.1.value))
    decreases |levels| - |saved|
  {
    var k := |saved|;
    if k < |levels| {
      var t := Trial(audio, sampleRate, levels[k], env.trial(k), env.log10);
      if t.Saved? {
        var next := saved + [t.record];
        SweepRunsTrialsInOrder(audio, sampleRate, levels, env, next);
        SweepKeepsSaved(audio, sampleRate, levels, env, next);
        var r := Sweep(audio, sampleRate, levels, env, saved);
        assert r == Sweep(audio, sampleRate, levels, env, next);
        assert r.0[k] == r.0[..k + 1][k] == next[k] == t.record;
      }
    }
  }

  /** The sweep keeps the records already saved as the start of its records. */
  lemma {:induction false} SweepKeepsSaved(audio: seq<real>, sampleRate: nat, levels: seq<int>,
                                           env: Environment, saved: seq<TrialRecord>)
    requires sampleRate > 0 && |saved| <= |levels|
    ensures Sweep(audio, sampleRate, levels, env, saved).0[..|saved|] == saved
    decreases |levels| - |saved|
  {
    var k := |saved|;
    if k < |levels| {
      var t := Trial(audio, sampleRate, levels[k], env.trial(k), env.log10);
      if t.Saved? {
        var next := saved + [t.record];
        SweepKeepsSaved(audio, sampleRate, levels, env, next);
        var r := Sweep(audio, sampleRate, levels, env, next).0;
        assert r[..k] == r[..k + 1][..k] == next[..k] == saved;
      }
    }
  }


  /** A trial that records something and can write its file saves a record. */
  ghost predicate TrialCanSucceed(t: TrialEnv)
  {
    t.recording.Some? && |t.recording.value| > 0 && t.canSave
  }

  /**
   * When every trial records something and can write its file, the sweep
   * visits every level and saves one record per level.
   */
  lemma {:induction false} SweepCompletes(audio: seq<real>, sampleRate: nat, levels: seq<int>,
                                          env: Environment, saved: seq<TrialRecord>)
    requires sampleRate > 0 && |saved| <= |levels|
    requires forall k :: |saved| <= k < |levels| ==> TrialCanSucceed(env.trial(k))
    ensures Sweep(audio, sampleRate, levels, env, saved).1 == None
    ensures |Sweep(audio, sampleRate, levels, env, saved).0| == |levels|
    decreases |levels| - |saved|
  {
    var k := |saved|;
    if k < |levels| {
      var t := Trial(audio, sampleRate, levels[k], env.trial(k), env.log10);
      TrialOutcomes(audio, sampleRate, levels[k], env.trial(k), env.log10);
      SweepCompletes(audio, sampleRate, levels, env, saved + [t.record]);
    }
  }

  /**
   * With distinct levels, every saved trial adds exactly one line, its own
   * record, to its level's file.
   */
  lemma OneLinePerLevel(files: Files, audio: seq<real>, sampleRate: nat, levels: seq<int>,
                        env: Environment, j: nat)
    requires sampleRate > 0
    requires forall a, b :: 0 <= a < b < |levels| ==> levels[a] != levels[b]
    requires j < |Sweep(audio, sampleRate, levels, env, []).0|
    ensures var records := Sweep(audio, sampleRate, levels, env, []).0;
      Lines(SaveAll(files, records), LevelPath(levels[j])) == Lines(files, LevelPath(levels[j])) + [records[j]]
  {
    var records := Sweep(audio, sampleRate, levels, env, []).0;
    SweepRunsTrialsInOrder(audio, sampleRate, levels, env, []);
    SaveAllPerLevel(files, records, levels[j]);
    RecordsAtSingle(records, levels[j], j);
  }

  /** A level carried by exactly one record selects just that record. */
  lemma {:induction false} RecordsAtSingle(records: seq<TrialRecord>, v: int, j: nat)
    requires j < |records| && records[j].volumePercent == v
    requires forall i :: 0 <= i < |records| && i != j ==> records[i].volumePercent != v
    ensures RecordsAt(records, v) == [records[j]]
  {
    var n := |records|;
    var front := records[..n - 1];
    if j == n - 1 {
      RecordsAtNone(front, v);
    } else {
      RecordsAtSingle(front, v, j);
    }
  }

  lemma {:induction false} RecordsAtNone(records: seq<TrialRecord>, v: int)
    requires forall i :: 0 <= i < |records| ==> records[i].volumePercent != v
    ensures RecordsAt(records, v) == []
  {
    if records != [] {
      RecordsAtNone(records[..|records| - 1], v);
    }
  }

  /**
   * One pass of `run_test`'s loop body at volume `level`: set the volume,
   * record, compute the metrics, save them locally and, once saved, send
   * them to the webhook, whose result does not affect the trial.
   */
  method RunTrial(machine: Machine, audio: seq<real>, sampleRate: nat, level: int, t: TrialEnv,
                  log10: real -> real, system: SystemInfo, reply: nat -> Reply)
    returns (result: TrialResult, delivered: bool)
    requires sampleRate > 0
    modifies machine
    ensures result == Trial(audio, sampleRate, level, t, log10)
    ensures machine.volume == level
    ensures machine.setCalls == old(machine.setCalls) + [level]
    ensures result.Saved? ==>
      && machine.files == AppendLine(old(machine.files), LevelPath(level), result.record)
      && delivered == Delivers(reply, WebhookRetries)
    ensures result.Failed? ==> machine.files == old(machine.files)
  {
    machine.SetOutputVolume(level);
    delivered := false;
    if t.recording.None? {
      return Failed(RecordingFailed), delivered;
    }
    var recorded := t.recording.value;
    var playback := audio[..Min(|audio|, |recorded|)];
    var metrics := ComputeMetrics(playback, recorded, sampleRate, t.devices, t.timestamp, log10);
    if metrics.None? {
      return Failed(MetricsFailed), delivered;
    }
    var record := TrialRecord(metrics.value, level);
    var ok := machine.SaveToLocal(record, ResultFileName(level), t.canSave);
    if !ok {
      return Failed(SaveFailed), delivered;
    }
    var posted, sleeps;
    delivered, posted, sleeps := SendResults(record, system, WebhookRetries, reply);
    result := Saved(record);
  }

  /** Saving one more record appends it to the file of its level. */
  lemma SaveAllSnoc(files: Files, records: seq<TrialRecord>, last: TrialRecord)
    ensures SaveAll(files, records + [last]) == AppendLine(SaveAll(files, records), LevelPath(last.volumePercent), last)
  {
    assert (records + [last])[..|records|] == records;
  }

  /** Setting the volume of one more level extends the volumes set by that level. */
  lemma ExtendVisited(calls: seq<int>, levels: seq<int>, k: nat)
    requires k < |levels|
    ensures calls + levels[..k] + [levels[k]] == calls + levels[..k + 1]
  {
    assert levels[..k + 1] == levels[..k] + [levels[k]];
  }

  /**
   * One pass of the sweep loop at index `k = |saved|`, stated against the
   * sweep: the trace gains `levels[k]`, and the files and the rest of the
   * sweep advance past the trial's result.
   */
  method SweepStep(machine: Machine, audio: seq<real>, sampleRate: nat, levels: seq<int>, env: Environment,
                   system: nat -> SystemInfo, replies: nat -> nat -> Reply, k: nat,
                   ghost saved: seq<TrialRecord>, ghost calls0: seq<int>, ghost files0: Files, ghost volume0: int)
    returns (result: TrialResult)
    requires sampleRate > 0 && k == |saved| < |levels|
    requires machine.setCalls == calls0 + levels[..k]
    requires machine.files == SaveAll(files0, saved)
    modifies machine
    ensures machine.setCalls == calls0 + levels[..k + 1]
    ensures machine.volume == ([volume0] + levels)[k + 1]
    ensures result.Failed? ==>
      && Sweep(audio, sampleRate, levels, env, saved) == (saved, Some(result.error))
      && machine.files == SaveAll(files0, saved)
    ensures result.Saved? ==>
      && Sweep(audio, sampleRate, levels, env, saved) == Sweep(audio, sampleRate, levels, env, saved + [result.record])
      && machine.files == SaveAll(files0, saved + [result.record])
  {
    var delivered;
    result, delivered := RunTrial(machine, audio, sampleRate, levels[k], env.trial(k),
                                  env.log10, system(k), replies(k));
    ExtendVisited(calls0, levels, k);
    if result.Saved? {
      SaveAllSnoc(files0, saved, result.record);
    }
  }

  /**
   * The `try` block of `run_test`: one trial per level, in list order,
   * until a trial fails.
   */
  method SweepLevels(machine: Machine, audio: seq<real>, sampleRate: nat, levels: seq<int>, env: Environment,
                     system: nat -> SystemInfo, replies: nat -> nat -> Reply)
    returns (outcome: RunOutcome)
    requires sampleRate > 0
    modifies machine
    ensures var sweep := Sweep(audio, sampleRate, levels, env, []);
      var visited := if sweep.1.None? then |levels| else |sweep.0| + 1;
      && outcome == (if sweep.1.None? then Completed else TrialFailed(|sweep.0|, sweep.1.value))
      && machine.setCalls == old(machine.setCalls) + levels[..visited]
      && machine.files == SaveAll(old(machine.files), sweep.0)
      // the last level visited, or the volume before the loop when none was
      && machine.volume == ([old(machine.volume)] + levels)[visited]
  {
    ghost var volume0 := machine.volume;
    ghost var calls0, files0 := machine.setCalls, machine.files;
    ghost var sweep := Sweep(audio, sampleRate, levels, env, []);
    ghost var saved: seq<TrialRecord> := [];
    var k := 0;
    while k < |levels|
      invariant k == |saved| <= |levels|
      invariant sweep == Sweep(audio, sampleRate, levels, env, saved)
      invariant machine.setCalls == calls0 + levels[..k]
      invariant machine.files == SaveAll(files0, saved)
      invariant machine.volume == ([volume0] + levels)[k]
    {
      var result := SweepStep(machine, audio, sampleRate, levels, env, system, replies, k,
                              saved, calls0, files0, volume0);
      if result.Failed? {
        return TrialFailed(k, result.error);
      }
      saved := saved + [result.record];
      k := k + 1;
    }
    assert levels[..k] == levels;
    return Completed;
  }

  /**
   * `run_test`: the decoded reference `audio`, the configured `sampleRate`
   * and volume `levels`. A sample-rate mismatch ends the run before the
   * volume is read or set; otherwise the sweep runs and the volume captured
   * before it is set once more at the end, however the sweep ended.
   */
  method RunTest(machine: Machine, audio: AudioBuffer, sampleRate: int, levels: seq<int>, env: Environment,
                 system: nat -> SystemInfo, replies: nat -> nat -> Reply)
    returns (outcome: RunOutcome)
    requires audio.sampleRate > 0
    modifies machine
    ensures audio.sampleRate != sampleRate ==>
      && outcome == RateMismatch
      && machine.volume == old(machine.volume)
      && machine.setCalls == old(machine.setCalls)
      && machine.files == old(machine.files)
    ensures audio.sampleRate == sampleRate ==>
      var original := if env.volumeQueryOk then old(machine.volume) else DefaultVolume;
      var sweep := Sweep(audio.samples, sampleRate, levels, env, []);
      var visited := if sweep.1.None? then |levels| else |sweep.0| + 1;
      && outcome == (if sweep.1.None? then Completed else TrialFailed(|sweep.0|, sweep.1.value))
      && machine.setCalls == old(machine.setCalls) + levels[..visited] + [original]
      && machine.volume == original
      && machine.files == SaveAll(old(machine.files), sweep.0)
  {
    if audio.sampleRate != sampleRate {
      return RateMismatch;
    }
    var original := machine.GetCurrentVolume(env.volumeQueryOk);
    outcome := SweepLevels(machine, audio.samples, sampleRate, levels, env, system, replies);
    machine.SetOutputVolume(original);
  }
}
