/** Sampling and classifying one path: the body of the monitoring loop.

    The disk-usage query is an oracle answer (`Probe`): either the byte triple
    the filesystem reports or the exception the query raised. Every failure of
    one path, including the division by a zero total, becomes an `Error` line;
    nothing here can abort the batch.
 */
module Sampler {

  /** One gibibyte, the unit of the reported capacity figures. */
  const GiB: nat := 0x4000_0000

  /** What the disk-usage query answers for one path. */
  datatype Probe =
    | Usage(total: nat, used: nat, free: nat)
    | QueryFailed(description: string)

  /** Why a path yielded an error line. */
  datatype Fault =
    | QueryError(description: string)  // the disk-usage query raised
    | DivisionByZero                   // the filesystem reported a total of 0 bytes

  datatype Status = Ok | Alert

  /** One report line, before the timestamp is put in front of it. */
  datatype Line =
    | Report(status: Status, host: string, path: string, usedPercent: real,
             totalGiB: nat, freeGiB: nat, threshold: real)
    | Error(path: string, fault: Fault)

  /** Whole gibibytes in `bytes`, rounded down. */
  function ToGiB(bytes: nat): (g: nat)
    ensures g * GiB <= bytes < (g + 1) * GiB
  {
    bytes / GiB
  }

  /** The share of the filesystem in use, in percent (exact, not a float). */
  function UsedPercent(used: nat, total: nat): (pct: real)
    requires total > 0
    ensures pct * (total as real) == (used as real) * 100.0
    ensures 0.0 <= pct
    ensures used <= total ==> pct <= 100.0
  {
    (used as real) / (total as real) * 100.0
  }

  /** Status of a path: `Alert` from the threshold upwards. */
  function Classify(pct: real, threshold: real): (s: Status)
    ensures s == Ok <==> pct < threshold
  {
    if pct >= threshold then Alert else Ok
  }

  /** The line one path contributes to a run. */
  function Sample(threshold: real, host: string, path: string, probe: Probe): (line: Line)
    ensures line.path == path
    ensures line.Error? <==> probe.QueryFailed? || probe.total == 0
    ensures probe.QueryFailed? ==> line == Error(path, QueryError(probe.description))
    ensures probe.Usage? && probe.total == 0 ==> line == Error(path, DivisionByZero)
    ensures probe.Usage? && probe.total > 0 ==>
      && line.Report?
      && line.host == host
      && line.threshold == threshold
      && line.usedPercent * (probe.total as real) == (probe.used as real) * 100.0
      && (line.status == Alert <==> line.usedPercent >= threshold)
      && line.totalGiB * GiB <= probe.total < (line.totalGiB + 1) * GiB
      && line.freeGiB * GiB <= probe.free < (line.freeGiB + 1) * GiB
  {
    match probe
    case QueryFailed(description) => Error(path, QueryError(description))
    case Usage(total, used, free) =>
      if total == 0 then
        Error(path, DivisionByZero)
      else
        var pct := UsedPercent(used, total);
        Report(Classify(pct, threshold), host, path, pct, ToGiB(total), ToGiB(free), threshold)
  }

  /** The floored figure is the only whole number of gibibytes that brackets `bytes`. */
  lemma GiBIsUnique(bytes: nat, g: nat)
    requires g * GiB <= bytes < (g + 1) * GiB
    ensures g == ToGiB(bytes)
  {
  }

  /** A filesystem of one and a half gibibytes is reported as 1 GB. */
  lemma OneAndAHalfGiBReportsOne()
    ensures ToGiB(3 * GiB / 2) == 1
  {
  }

  /** Usage exactly at the threshold is an alert. */
  lemma BoundaryIsAlert(host: string, path: string, total: nat, used: nat, free: nat)
    requires total > 0
    ensures Sample(UsedPercent(used, total), host, path, Usage(total, used, free)).status == Alert
  {
  }

  /** The alert test without division: `used * 100 >= threshold * total`. */
  lemma AlertIffCrossMultiplied(threshold: real, host: string, path: string, total: nat, used: nat, free: nat)
    requires total > 0
    ensures Sample(threshold, host, path, Usage(total, used, free)).status == Alert
        <==> (used as real) * 100.0 >= threshold * (total as real)
  {
    var t := total as real;
    var pct := UsedPercent(used, total);
    assert pct * t == (used as real) * 100.0;
    if pct >= threshold {
      assert pct * t >= threshold * t;
    } else {
      assert pct * t < threshold * t;
    }
  }

  /** Lowering the threshold never turns an alert into anything else. */
  lemma AlertIsMonotone(t: real, t': real, host: string, path: string, probe: Probe)
    requires t' <= t
    requires Sample(t, host, path, probe).Report?
    requires Sample(t, host, path, probe).status == Alert
    ensures Sample(t', host, path, probe).Report?
    ensures Sample(t', host, path, probe).status == Alert
  {
  }

  /** A disk used at 45 % against the default threshold of 80 % is reported OK. */
  lemma FortyFivePercentIsOk(host: string)
    ensures Sample(80.0, host, "/", Usage(100 * GiB, 45 * GiB, 55 * GiB))
         == Report(Ok, host, "/", 45.0, 100, 55, 80.0)
  {
  }
}
