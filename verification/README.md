# Echo test: a verified model of its measurement logic

`echo_test.py` measures acoustic echo on a laptop. It plays a reference
signal at a series of output volume levels and records it back. For each
level it computes echo metrics: ERL, ERLE, TCLw, latency and echo-tail
length. It appends the metrics to a per-level file under `results/` and POSTs
them to a webhook. At the end it sets the output volume back to the value it
read before the sweep (50 when that read fails).

This project models four parts of that script in Dafny and proves their
properties.

- `metrics.dfy`, module `MetricsEngine`: `compute_metrics`.
  - Signal energies.
  - The ERL sentinel of 100 for a silent recording.
  - ERLE = ERL + 5 and TCLw = max(0, 30 − ERL).
  - numpy's `argmax` over the threshold masks used for latency (forward scan,
    0.01) and tail length (scan of the reversed recording, 0.001).
- `result_sink.dfy`, module `ResultSink`:
  - the webhook payload and the retry loop of `send_results`;
  - the names of the per-level results files.
- `host.dfy`, module `Host`: the machine the tester drives, as a class
  `Machine`. It holds:
  - the output volume;
  - the trace of every volume set;
  - the `results/` directory, as a map from path to the records on that
    file's lines.

  It also provides `save_to_local`, `set_output_volume` and
  `get_current_volume`.
- `orchestrator.dfy`, module `Orchestrator`: `run_test`, with the volume
  levels as a parameter (the script's own list, `[75, 88, 100]`, is
  `VolumeLevels`). It covers:
  - the sample-rate check;
  - capturing the original volume;
  - one trial per level in list order, stopping at the first trial that fails;
  - the `finally` that restores the volume.

The outside world is passed in as parameters:

- the decoded reference audio;
- for each trial, the devices, the recording (or its failure), the clock
  reading and whether the results file can be written;
- whether the system volume query succeeds;
- for each POST attempt, an exception or a response with its `ok` bit and
  whether its body parses as JSON;
- the base-10 logarithm, as an arbitrary function.

The sweep's outcome is a function of these. `Orchestrator.Sweep` takes no
webhook input, so webhook failures cannot end a sweep.

Two behaviours of the code are worth noting:

- When the volume query fails, `get_current_volume` returns 50. The sweep then
  ends by setting the volume to 50, not to the volume the device had before
  the test.
- `send_results` parses the response body as JSON before it looks at `ok`.
  An ok response whose body is not JSON therefore counts as a failed attempt
  and is retried.

## Model

| member | source | states |
|---|---|---|
| MetricsEngine.Energy | echo_test.py:77-78 | the energy `np.sum(x**2)` of a buffer is never negative |
| MetricsEngine.EnergyZeroIff | echo_test.py:77-80 | a recording has zero energy exactly when every sample is zero |
| MetricsEngine.Erl | echo_test.py:77-80 | ERL is the sentinel 100 when every recorded sample is zero; when some sample is not zero the recorded energy is positive and ERL is 10·log10 of the playback-to-recording energy ratio |
| MetricsEngine.Reverse | echo_test.py:82 | the reversed recording `recorded[::-1]` has the recording's length |
| MetricsEngine.ReverseMirrors | echo_test.py:82 | reversal moves the sample at index i to index n − 1 − i, and reversing twice gives back the recording |
| MetricsEngine.Above | echo_test.py:82-83 | the mask `np.abs(x) > threshold` has one entry per sample |
| MetricsEngine.AboveMarksLoudSamples | echo_test.py:82-83 | a sample is marked exactly when it lies above the threshold or below its negation |
| MetricsEngine.FirstTrue | echo_test.py:82-83 | the scan returns the index of the first true mask entry, with every earlier entry false, or the mask length when no entry is true |
| MetricsEngine.ArgMax | echo_test.py:82-83 | numpy `argmax` on a boolean mask: an error on an empty mask; otherwise an index inside the mask that is the first true entry when one exists and 0 when none does |
| MetricsEngine.LatencyIndex | echo_test.py:83 | the latency search fails exactly on an empty recording and otherwise gives an index inside the recording |
| MetricsEngine.TailIndex | echo_test.py:82 | the tail search fails exactly on an empty recording and otherwise gives an index inside the recording |
| MetricsEngine.LatencyIndexIsFirstLoudSample | echo_test.py:83 | on a non-empty recording the latency index is the first sample with \|x\| > 0.01, every earlier sample being at most 0.01; it is 0 when no sample is that loud |
| MetricsEngine.TailIndexCountsQuietEnd | echo_test.py:82 | on a non-empty recording the tail index counts the samples after the last one with \|x\| > 0.001, all of which are at most 0.001; it is 0 when no sample is that loud |
| MetricsEngine.ComputeMetrics | echo_test.py:76-95 | the metrics exist exactly when the recording is non-empty (numpy `argmax` raises on an empty array) |
| MetricsEngine.MetricRules | echo_test.py:77-93 | ERL is 100 for a silent recording, with TCLw then 0, and 10·log10 of the energy ratio otherwise; ERLE = ERL + 5; TCLw is at least 0 and at least 30 − ERL, and equals one of them; latency and tail are their indexes divided by the sample rate; devices and timestamp are copied through |
| MetricsEngine.SilentRecording | echo_test.py:77-84 | an all-zero recording gives ERL 100, ERLE 105, TCLw 0, latency 0 and tail length 0 |
| MetricsEngine.WorkedExample | echo_test.py:77-84 | playback [3, 1] against recording [0.3, 0.1] gives ERL 20, ERLE 25 and TCLw 10 when log10(100) = 2 |
| ResultSink.WebhookPayload | echo_test.py:122-126 | the POST body is an `echo_test` event carrying the host metadata and the record unchanged |
| ResultSink.Accepted | echo_test.py:128-133 | an attempt is accepted only for an ok response, and an ok response whose body is not JSON is rejected, because `response.json()` runs before `ok` is checked |
| ResultSink.SendResults | echo_test.py:119-137 | reports delivery exactly when one of the first `retries` attempts gets an ok response with a JSON body; posts the same payload each time; stops at the first accepted attempt, with every earlier attempt rejected; makes exactly `retries` attempts (none if `retries` ≤ 0) when nothing is accepted; sleeps once after each failed attempt |
| ResultSink.NatToString | echo_test.py:166 | the text of a level is a non-empty string of decimal digits, with a leading 0 only for 0 itself |
| ResultSink.NatToStringValue | echo_test.py:166 | the digits `str` writes for a natural number spell that number in decimal |
| ResultSink.IntToStringValue | echo_test.py:166 | the text of an integer reads back as that integer: a minus sign exactly for a negative one, then the decimal digits of its magnitude |
| ResultSink.ResultPathParts | echo_test.py:139-141 | the results file of level v (`ResultFileName`, joined under `results/` by `ResultPath`) is `results/volume_`, then the text of v, then `_result.json` |
| ResultSink.ResultPathInjective | echo_test.py:139-141 | two volume levels share a results file only when they are equal |
| Host.AppendLine | echo_test.py:139-145 | appending creates the file if needed, adds exactly one line at the end of that file, and leaves every other file unchanged |
| Host.SaveAllCreatesLevelFiles | echo_test.py:154-166 | after the successive `save_to_local` calls of a sweep (`SaveAll`), a path is a file exactly when it was one before or is the results file of some saved record's level |
| Host.RecordsAt | echo_test.py:154-166 | the records selected for a level all carry that level |
| Host.AppendToLevel | echo_test.py:139-145 | saving one record adds it to its own level's file and to no other level's file |
| Host.SaveAllPerLevel | echo_test.py:154-166 | after a series of saves, each level's file holds its earlier lines followed by exactly that level's records, in order |
| Host.SaveAllOtherFiles | echo_test.py:139-145 | a file that no saved record maps to keeps its lines |
| Host.Machine.SetOutputVolume | echo_test.py:72-74 | the volume becomes the requested percentage and the set is appended to the trace; files are unchanged |
| Host.Machine.GetCurrentVolume | echo_test.py:62-70 | the device volume when the system query succeeds, 50 when it fails |
| Host.Machine.SaveToLocal | echo_test.py:139-145 | when the file is writable, exactly one line holding the record is appended to `results/<filename>` and nothing else changes; otherwise the error propagates and nothing changes |
| Orchestrator.Trial | echo_test.py:157-166 | a saved record carries the trial's volume level |
| Orchestrator.TrialOutcomes | echo_test.py:157-166 | a trial saves exactly when the recording succeeds with at least one sample and the file is writable, and the saved metrics are `compute_metrics` of the recording against the reference cut to its length; a failed recording, an empty recording and an unwritable file each give their own error, and only in that case |
| Orchestrator.Sweep | echo_test.py:154-167 | the sweep saves at most one record per level and ends without error exactly when every level was saved |
| Orchestrator.SweepKeepsSaved | echo_test.py:154-167 | the records already saved stay, in order, at the start of the sweep's records |
| Orchestrator.SweepRunsTrialsInOrder | echo_test.py:154-167 | the j-th saved record is the result of trial j at `levels[j]`, so records carry their levels in list order; a failed sweep's error is that of the trial right after the last saved one |
| Orchestrator.SweepCompletes | echo_test.py:154-167 | when every trial records at least one sample and can write its file, the sweep ends without error with one record per level |
| Orchestrator.OneLinePerLevel | echo_test.py:155-166 | with distinct levels, each saved trial adds exactly its own record as the one new line of its level's file |
| Orchestrator.RunTrial | echo_test.py:155-170 | one loop pass sets the trial's level, yields the result `Trial` specifies, and appends the record to its level's file only when the trial saved it; a saved record is then sent, and delivery is as `send_results` decides, without affecting the trial |
| Orchestrator.SweepStep | echo_test.py:155-170 | one loop pass extends the trace by the level and, when the trial fails, ends the sweep there with the files unchanged; otherwise it adds the record to the files and the sweep goes on from the next level |
| Orchestrator.SweepLevels | echo_test.py:154-170 | the loop sets the levels in order up to and including the first failing trial, and no level after it; it reports how the sweep ended; the files hold exactly the saved records; the volume is the last level set, or unchanged when no level was set |
| Orchestrator.RunTest | echo_test.py:147-174 | on a sample-rate mismatch nothing is read, set or written. Otherwise the trace is the visited levels followed by one final set of the original volume (the device volume, or 50 when the query fails), which is the final volume on every path. The outcome names the failing trial and its error, or completion |

## Left out

- `download_audio`, `play_and_record`, `record_input`, `play_audio`: fetching and decoding the reference audio and the threaded playback/recording are not modelled. The decoded buffer is an input, and each trial's recording is a given sample sequence or a failure.
- `get_device_info`, `get_system_info`: their results are given values (`DeviceInfo`, `SystemInfo`).
- `set_output_volume` and `get_current_volume` run `osascript`; the commands themselves and the volume range the system accepts are not modelled.
- Host.Machine.SetOutputVolume always takes effect and never raises. In the script, `subprocess.run` without `check` ignores a failing `osascript`, and a missing `osascript` raises `FileNotFoundError`, also inside the `finally` (echo_test.py:174). RunTest's guarantee that the final volume is the original one rests on this.
- HTTP, the webhook URL and headers, JSON encoding of the payload and of each file line, and logging are not modelled. A file line is the record itself.
- `time.sleep` calls are no-ops. Only `send_results` counts its sleeps.
- MetricsEngine.ComputeMetrics: `round(..., 2)` and `round(..., 3)` are not applied, and the timestamp is a given string rather than `time.strftime` of the clock. Metrics are exact reals.
- MetricsEngine.ComputeMetrics: `np.log10` is an arbitrary function. IEEE special values (a zero playback energy giving −inf ERL and +inf TCLw) are not modelled.
- MetricsEngine.ComputeMetrics: the two-dimensional `(n, 1)` shape of the recording is not modelled. `argmax` flattens it, so a sequence of samples is equivalent.
- Orchestrator.RunTest requires a positive sample rate for the decoded audio; dividing indexes by a zero rate is not modelled.
- ResultSink.SendResults: the `ok` bit of a response is a given; how `requests` derives it from the status code is not modelled.
- Errors raised by `send_results` itself (for example while gathering system information) are not modelled; only the POST attempts can fail.
- Writing a file either fully succeeds or raises before writing; a partially written line is not modelled.
- The command-line entry point (`__main__`, argument parsing) is not modelled. With an empty token its headers are `None`, and adding the content type to them raises (echo_test.py:186).
