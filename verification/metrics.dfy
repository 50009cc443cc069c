/**
 * The echo-metric computation of the echo tester (`compute_metrics`).
 *
 * Samples are real numbers; the base-10 logarithm is not modelled and is
 * passed in as an arbitrary function `log10`. numpy's `argmax` over a boolean
 * mask is modelled exactly: the first index holding the maximum, which is the
 * first `true` when there is one and index 0 otherwise, and an error on an
 * empty array.
 */
module MetricsEngine {

  datatype Option<+T> = None | Some(value: T)

  /** Amplitude a recorded sample must exceed to mark the start of the echo. */
  const LatencyThreshold: real := 0.01
  /** Amplitude a recorded sample must exceed to count as echo tail. */
  const TailThreshold: real := 0.001
  /** ERL reported when the recording carries no energy at all. */
  const ErlSentinel: real := 100.0
  /** Fixed offset from ERL to ERLE. */
  const ErleOffset: real := 5.0
  /** TCLw is this reference minus ERL, clamped at zero. */
  const TclwReference: real := 30.0

  /** Names of the audio devices in use during one trial. */
  datatype DeviceInfo = DeviceInfo(outputDevice: string, inputDevice: string)

  /** One trial's metrics, before the volume level is attached. */
  datatype Metrics = Metrics(
    timestamp: string,
    erl: real,
    erle: real,
    tclw: real,
    tailSeconds: real,
    latencySeconds: real,
    outputDevice: string,
    inputDevice: string)

  function Abs(x: real): real { if x < 0.0 then -x else x }

  function Max(a: real, b: real): real { if a < b then b else a }

  /** Sum of the squared samples (`np.sum(x**2)`); never negative. */
  function Energy(s: seq<real>): (e: real)
    ensures e >= 0.0
  {
    if |s| == 0 then 0.0 else Square(s[0]) + Energy(s[1..])
  }

  function Square(x: real): (y: real)
    ensures y >= 0.0
    ensures x == 0.0 ==> y == 0.0
  {
    x * x
  }

  lemma ProductOfNonzero(x: real)
    requires x != 0.0
    ensures x * x > 0.0
  {
    if x > 0.0 { } else { }
  }

  lemma SquareOfNonzero(x: real)
    requires x != 0.0
    ensures Square(x) > 0.0
  {
    calc {
      Square(x);
    ==
      x * x;
    > { ProductOfNonzero(x); }
      0.0;
    }
  }

  /** A buffer has zero energy exactly when every sample is zero. */
  lemma {:induction false} EnergyZeroIff(s: seq<real>)
    ensures Energy(s) == 0.0 <==> forall i :: 0 <= i < |s| ==> s[i] == 0.0
  {
    if |s| > 0 {
      EnergyZeroIff(s[1..]);
      if forall i :: 0 <= i < |s| ==> s[i] == 0.0 {
        forall i | 0 <= i < |s| - 1 ensures s[1..][i] == 0.0 { assert s[1..][i] == s[i + 1]; }
      } else {
        var i :| 0 <= i < |s| && s[i] != 0.0;
        if i > 0 {
          assert s[1..][i - 1] != 0.0;
        } else {
          SquareOfNonzero(s[0]);
        }
      }
    }
  }

  /** The buffer reversed (`x[::-1]`). */
  function Reverse(s: seq<real>): (r: seq<real>)
    ensures |r| == |s|
  {
    seq(|s|, i requires 0 <= i < |s| => s[|s| - 1 - i])
  }

  /** Reversing moves the sample at index `i` to the mirrored index, and reversing twice gives back the buffer. */
  lemma ReverseMirrors(s: seq<real>)
    ensures forall i :: 0 <= i < |s| ==> Reverse(s)[|s| - 1 - i] == s[i]
    ensures Reverse(Reverse(s)) == s
  {
    var r := Reverse(s);
    forall i | 0 <= i < |s| ensures Reverse(r)[i] == s[i] {
      assert Reverse(r)[i] == r[|s| - 1 - i];
    }
  }

  /** The boolean mask `np.abs(x) > threshold`. */
  function Above(s: seq<real>, threshold: real): (m: seq<bool>)
    ensures |m| == |s|
  {
    seq(|s|, i requires 0 <= i < |s| => Abs(s[i]) > threshold)
  }

  /** A sample is marked exactly when it lies above the threshold or below its negation. */
  lemma AboveMarksLoudSamples(s: seq<real>, threshold: real)
    ensures forall i :: 0 <= i < |s| ==> (Above(s, threshold)[i] <==> s[i] > threshold || s[i] < -threshold)
  {
  }

  /** Index of the first `true` in the mask, or its length when there is none. */
  function FirstTrue(m: seq<bool>): (r: nat)
    ensures r <= |m|
    ensures r < |m| ==> m[r]
    ensures forall j :: 0 <= j < r ==> !m[j]
  {
    if |m| == 0 || m[0] then 0 else 1 + FirstTrue(m[1..])
  }

  /**
   * numpy's `argmax` on a boolean array: the first index of the largest
   * value, so the first `true` if any, else 0; an empty array is an error.
   */
  function ArgMax(m: seq<bool>): (r: Option<nat>)
    ensures r.None? <==> |m| == 0
    ensures r.Some? ==> r.value < |m|
    ensures r.Some? && (exists k :: 0 <= k < |m| && m[k]) ==>
              m[r.value] && forall j :: 0 <= j < r.value ==> !m[j]
    ensures r.Some? && (forall k :: 0 <= k < |m| ==> !m[k]) ==> r.value == 0
  {
    if |m| == 0 then None
    else
      var i := FirstTrue(m);
      if i < |m| then Some(i) else Some(0)
  }

  /** Sample index used for the latency (`np.argmax(np.abs(recorded) > 0.01)`). */
  function LatencyIndex(recorded: seq<real>): (r: Option<nat>)
    ensures r.None? <==> |recorded| == 0
    ensures r.Some? ==> r.value < |recorded|
  {
    ArgMax(Above(recorded, LatencyThreshold))
  }

  /** Index in the reversed recording used for the tail length. */
  function TailIndex(recorded: seq<real>): (r: Option<nat>)
    ensures r.None? <==> |recorded| == 0
    ensures r.Some? ==> r.value < |recorded|
  {
    ArgMax(Above(Reverse(recorded), TailThreshold))
  }

  /** The latency index is the first sample louder than the threshold, or 0 if none is. */
  lemma LatencyIndexIsFirstLoudSample(recorded: seq<real>)
    requires |recorded| > 0
    ensures LatencyIndex(recorded).Some?
    ensures var i := LatencyIndex(recorded).value;
      && i < |recorded|
      && ((exists k :: 0 <= k < |recorded| && Abs(recorded[k]) > LatencyThreshold) ==>
            Abs(recorded[i]) > LatencyThreshold &&
            forall j :: 0 <= j < i ==> Abs(recorded[j]) <= LatencyThreshold)
      && ((forall k :: 0 <= k < |recorded| ==> Abs(recorded[k]) <= LatencyThreshold) ==> i == 0)
  {
    var m := Above(recorded, LatencyThreshold);
    if exists k :: 0 <= k < |recorded| && Abs(recorded[k]) > LatencyThreshold {
      var k :| 0 <= k < |recorded| && Abs(recorded[k]) > LatencyThreshold;
      assert m[k];
      var i := LatencyIndex(recorded).value;
      forall j | 0 <= j < i ensures Abs(recorded[j]) <= LatencyThreshold {
        assert !m[j];
      }
    }
  }

  /**
   * The tail index counts the samples after the last one louder than the
   * tail threshold (all of them quiet), or is 0 if no sample is that loud.
   */
  lemma TailIndexCountsQuietEnd(recorded: seq<real>)
    requires |recorded| > 0
    ensures TailIndex(recorded).Some?
    ensures var n, t := |recorded|, TailIndex(recorded).value;
      && t < n
      && ((exists k :: 0 <= k < n && Abs(recorded[k]) > TailThreshold) ==>
            Abs(recorded[n - 1 - t]) > TailThreshold &&
            forall j :: n - 1 - t < j < n ==> Abs(recorded[j]) <= TailThreshold)
      && ((forall k :: 0 <= k < n ==> Abs(recorded[k]) <= TailThreshold) ==> t == 0)
  {
    var n := |recorded|;
    var m := Above(Reverse(recorded), TailThreshold);
    var t := TailIndex(recorded).value;
    if exists k :: 0 <= k < n && Abs(recorded[k]) > TailThreshold {
      var k :| 0 <= k < n && Abs(recorded[k]) > TailThreshold;
      assert m[n - 1 - k];
      assert m[t];
      forall j | n - 1 - t < j < n ensures Abs(recorded[j]) <= TailThreshold {
        assert !m[n - 1 - j];
      }
    } else {
      forall k | 0 <= k < n ensures !m[k] {
        assert Abs(recorded[n - 1 - k]) <= TailThreshold;
      }
    }
  }

  /**
   * Echo return loss in dB: the energy ratio of playback to recording in
   * decibels, or the sentinel when the recording is all zeros.
   */
  function Erl(playback: seq<real>, recorded: seq<real>, log10: real -> real): (erl: real)
    ensures (forall i :: 0 <= i < |recorded| ==> recorded[i] == 0.0) ==> erl == ErlSentinel
    ensures (exists i :: 0 <= i < |recorded| && recorded[i] != 0.0) ==>
              Energy(recorded) > 0.0 && erl == 10.0 * log10(Energy(playback) / Energy(recorded))
  {
    EnergyZeroIff(recorded);
    var recordedEnergy := Energy(recorded);
    if recordedEnergy != 0.0 then 10.0 * log10(Energy(playback) / recordedEnergy) else ErlSentinel
  }

  /**
   * `compute_metrics`: None stands for the ValueError numpy raises when
   * `argmax` is asked about an empty recording.
   */
  function ComputeMetrics(playback: seq<real>, recorded: seq<real>, sampleRate: nat,
                          devices: DeviceInfo, timestamp: string, log10: real -> real): (r: Option<Metrics>)
    requires sampleRate > 0
    ensures r.None? <==> |recorded| == 0
  {
    var erl := Erl(playback, recorded, log10);
    var erle := erl + ErleOffset;
    var tail := TailIndex(recorded);
    var latency := LatencyIndex(recorded);
    var tclw := Max(0.0, TclwReference - erl);
    if tail.None? || latency.None? then None
    else
      Some(Metrics(timestamp, erl, erle, tclw,
                   (tail.value as real) / (sampleRate as real),
                   (latency.value as real) / (sampleRate as real),
                   devices.outputDevice, devices.inputDevice))
  }

  /**
   * The metric rules: the ERL sentinel for a silent recording and the
   * energy ratio in dB otherwise, ERLE a fixed 5 dB above ERL, TCLw the
   * non-negative clamp of 30 - ERL (0 at the sentinel), and latency and
   * tail length as sample indexes divided by the sample rate.
   */
  lemma MetricRules(playback: seq<real>, recorded: seq<real>, sampleRate: nat,
                    devices: DeviceInfo, timestamp: string, log10: real -> real)
    requires sampleRate > 0 && |recorded| > 0
    ensures var r := ComputeMetrics(playback, recorded, sampleRate, devices, timestamp, log10);
      && r.Some?
      && (Energy(recorded) == 0.0 ==> r.value.erl == ErlSentinel && r.value.tclw == 0.0)
      && (Energy(recorded) != 0.0 ==>
            r.value.erl == 10.0 * log10(Energy(playback) / Energy(recorded)))
      && r.value.erle == r.value.erl + ErleOffset
      && r.value.tclw >= 0.0
      && r.value.tclw >= TclwReference - r.value.erl
      && (r.value.tclw == 0.0 || r.value.tclw == TclwReference - r.value.erl)
      && r.value.latencySeconds == (LatencyIndex(recorded).value as real) / (sampleRate as real)
      && r.value.tailSeconds == (TailIndex(recorded).value as real) / (sampleRate as real)
      && r.value.outputDevice == devices.outputDevice
      && r.value.inputDevice == devices.inputDevice
      && r.value.timestamp == timestamp
  {
  }

  /** An all-zero recording gives the sentinel ERL, no TCLw, and zero latency and tail. */
  lemma SilentRecording(playback: seq<real>, recorded: seq<real>, sampleRate: nat,
                        devices: DeviceInfo, timestamp: string, log10: real -> real)
    requires sampleRate > 0 && |recorded| > 0
    requires forall i :: 0 <= i < |recorded| ==> recorded[i] == 0.0
    ensures var m := ComputeMetrics(playback, recorded, sampleRate, devices, timestamp, log10);
      && m.Some?
      && m.value.erl == ErlSentinel && m.value.erle == ErlSentinel + ErleOffset
      && m.value.tclw == 0.0
      && m.value.latencySeconds == 0.0 && m.value.tailSeconds == 0.0
  {
    MetricRules(playback, recorded, sampleRate, devices, timestamp, log10);
    assert Erl(playback, recorded, log10) == ErlSentinel;
    LatencyIndexIsFirstLoudSample(recorded);
    TailIndexCountsQuietEnd(recorded);
  }

  /**
   * The worked example: playback energy 10 and recorded energy 0.1 give
   * ERL 20 dB, ERLE 25 dB and TCLw 10 dB, given that log10(100) is 2.
   */
  lemma WorkedExample(log10: real -> real)
    requires log10(100.0) == 2.0
    ensures var m := ComputeMetrics([3.0, 1.0], [0.3, 0.1], 24000, DeviceInfo("out", "in"), "t", log10);
      && m.Some?
      && m.value.erl == 20.0 && m.value.erle == 25.0 && m.value.tclw == 10.0
  {
    assert Energy([3.0, 1.0]) == 10.0 by {
      assert [3.0, 1.0][1..] == [1.0];
      assert [1.0][1..] == [];
    }
    assert Energy([0.3, 0.1]) == 0.1 by {
      assert [0.3, 0.1][1..] == [0.1];
      assert [0.1][1..] == [];
    }
    assert 10.0 / 0.1 == 100.0;
  }
}
