/**
 * Result reporting of the echo tester: the webhook payload and the retrying
 * delivery loop (`send_results`), and the naming of the per-level local
 * results files.
 *
 * The HTTP exchange is not modelled: what the `attempt`-th POST produces is
 * given by the function `reply`. Host metadata (`get_system_info`) is a given
 * value. Sleeping between attempts is only counted.
 */
module ResultSink {
  import opened MetricsEngine

  /** Host metadata sent along with every result. */
  datatype SystemInfo = SystemInfo(
    hostname: string,
    serialNumber: string,
    os: string,
    osVersion: string,
    platform: string,
    machine: string,
    processor: string,
    pythonVersion: string,
    user: string)

  /** One trial's metrics with the volume level it was measured at. */
  datatype TrialRecord = TrialRecord(metrics: Metrics, volumePercent: int)

  /** The JSON body of a webhook POST. */
  datatype Payload = Payload(event: string, system: SystemInfo, data: TrialRecord)

  /** What one POST produced: an exception, or a response whose body may or may not be JSON. */
  datatype Reply = PostRaised | Response(ok: bool, bodyIsJson: bool)

  /** Number of POST attempts `run_test` allows each result. */
  const WebhookRetries: int := 3

  /** The body of every POST: an `echo_test` event carrying the host metadata and the record unchanged. */
  function WebhookPayload(system: SystemInfo, data: TrialRecord): (p: Payload)
    ensures p.event == "echo_test" && p.system == system && p.data == data
  {
    Payload("echo_test", system, data)
  }

  /**
   * An attempt succeeds only for an ok response whose body parses as JSON:
   * the body is parsed before `ok` is looked at, and a parse error is caught
   * like any other exception.
   */
  predicate Accepted(r: Reply)
    ensures Accepted(r) ==> r.Response? && r.ok
    ensures r.Response? && r.ok && !r.bodyIsJson ==> !Accepted(r)
  {
    r.Response? && r.bodyIsJson && r.ok
  }

  /** Whether some attempt among the first `retries` is accepted. */
  ghost predicate Delivers(reply: nat -> Reply, retries: int)
  {
    exists k: nat :: k < retries && Accepted(reply(k))
  }

  /**
   * `send_results`: POSTs the payload up to `retries` times, stopping at the
   * first accepted attempt, and sleeps once after every failed attempt.
   */
  method SendResults(data: TrialRecord, system: SystemInfo, retries: int, reply: nat -> Reply)
    returns (delivered: bool, posted: seq<Payload>, sleeps: nat)
    ensures delivered <==> Delivers(reply, retries)
    ensures forall i :: 0 <= i < |posted| ==> posted[i] == WebhookPayload(system, data)
    ensures delivered ==>
      && 0 < |posted| <= retries
      && Accepted(reply(|posted| - 1))
      && (forall j: nat :: j < |posted| - 1 ==> !Accepted(reply(j)))
    ensures !delivered ==> |posted| == (if retries > 0 then retries else 0)
    ensures sleeps == (if delivered then |posted| - 1 else |posted|)
  {
    var payload := WebhookPayload(system, data);
    posted, sleeps := [], 0;
    var attempt: nat := 0;
    while attempt < retries
      invariant attempt == |posted| == sleeps
      invariant retries > 0 ==> attempt <= retries
      invariant retries <= 0 ==> attempt == 0
      invariant forall i :: 0 <= i < |posted| ==> posted[i] == payload
      invariant forall j: nat :: j < attempt ==> !Accepted(reply(j))
    {
      posted := posted + [payload];
      var r := reply(attempt);
      if r.Response? && r.bodyIsJson && r.ok {
        return true, posted, sleeps;
      }
      sleeps := sleeps + 1;
      attempt := attempt + 1;
    }
    delivered := false;
  }

  /** The decimal digit for `d`. */
  function DigitChar(d: nat): char
    requires d < 10
  {
    (48 + d) as char
  }

  predicate IsDigit(c: char)
  {
    '0' <= c <= '9'
  }

  predicate AllDigits(s: string)
  {
    forall i :: 0 <= i < |s| ==> IsDigit(s[i])
  }

  /** The number a string of decimal digits spells, most significant digit first. */
  function DecimalValue(s: string): nat
    requires AllDigits(s)
  {
    if s == [] then 0 else DecimalValue(s[..|s| - 1]) * 10 + (s[|s| - 1] as int - 48)
  }

  /** Decimal representation of a natural number (Python's `str`), without leading zeros. */
  function NatToString(n: nat): (s: string)
    ensures |s| >= 1 && AllDigits(s)
    ensures s[0] == '0' <==> n == 0
  {
    if n < 10 then [DigitChar(n)] else NatToString(n / 10) + [DigitChar(n % 10)]
  }

  /** The digits of `n` spell `n`. */
  lemma {:induction false} NatToStringValue(n: nat)
    ensures DecimalValue(NatToString(n)) == n
  {
    var s := NatToString(n);
    if n >= 10 {
      var p := NatToString(n / 10);
      NatToStringValue(n / 10);
      assert s[..|s| - 1] == p;
      assert s[|s| - 1] as int - 48 == n % 10;
    }
  }

  lemma NatToStringInjective(a: nat, b: nat)
    requires NatToString(a) == NatToString(b)
    ensures a == b
  {
    NatToStringValue(a);
    NatToStringValue(b);
  }

  /** Python's `str` of an integer: a minus sign before the digits of a negative number. */
  function IntToString(v: int): string
  {
    if v < 0 then "-" + NatToString(-v) else NatToString(v)
  }

  /** The text of an integer reads back as that integer: its sign, then the digits of its magnitude. */
  lemma IntToStringValue(v: int)
    ensures var s := IntToString(v);
      && |s| >= 1
      && (v >= 0 ==> AllDigits(s) && DecimalValue(s) == v)
      && (v < 0 ==> s[0] == '-' && AllDigits(s[1..]) && DecimalValue(s[1..]) == -v)
  {
    if v < 0 {
      NatToStringValue(-v);
      assert IntToString(v)[1..] == NatToString(-v);
    } else {
      NatToStringValue(v);
    }
  }

  /** Name of the local results file for a volume level (`volume_<percent>_result.json`). */
  function ResultFileName(volumePercent: int): string
  {
    "volume_" + IntToString(volumePercent) + "_result.json"
  }

  /** Path, under the results directory, at which `save_to_local` writes a file. */
  function ResultPath(filename: string): string
  {
    "results/" + filename
  }

  /**
   * The path of a level's results file is `results/volume_`, the level's
   * text, then `_result.json`, so the level can be read back from it.
   */
  lemma ResultPathParts(v: int)
    ensures var path, text := ResultPath(ResultFileName(v)), IntToString(v);
      && |path| == 27 + |text|
      && path[..15] == "results/volume_"
      && path[15..15 + |text|] == text
      && path[15 + |text|..] == "_result.json"
  {
  }

  lemma IntToStringInjective(a: int, b: int)
    requires IntToString(a) == IntToString(b)
    ensures a == b
  {
    IntToStringValue(a);
    IntToStringValue(b);
    var s := IntToString(a);
    if s[0] == '-' {
      assert a < 0 && b < 0;
    } else {
      assert a >= 0 && b >= 0;
    }
  }

  /** Distinct volume levels are written to distinct files. */
  lemma ResultPathInjective(a: int, b: int)
    requires ResultPath(ResultFileName(a)) == ResultPath(ResultFileName(b))
    ensures a == b
  {
    var path := ResultPath(ResultFileName(a));
    ResultPathParts(a);
    ResultPathParts(b);
    var ta, tb := IntToString(a), IntToString(b);
    assert |ta| == |tb|;
    assert ta == path[15..15 + |ta|] == tb;
    IntToStringInjective(a, b);
  }
}
