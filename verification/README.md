# disk_monitor, modelled in Dafny

`disk_monitor.py` is a run-once disk-space monitor. It reads a configuration with
a threshold in percent, a list of mount paths and a log file name. Absent keys
fall back to defaults. For every path, in order, it queries the filesystem's
total, used and free bytes and computes the used percentage. The path is
classified `ALERT` when that percentage is at or above the threshold and `OK`
otherwise. The monitor then appends one timestamped line to the log file and
prints the same line. If anything fails for one path, that path gets an
`[ERROR]` line and the loop moves on to the next path. A filesystem that
reports a total of 0 bytes fails this way, through a division by zero.

The model keeps that loop as pure functions over immutable data:

- `config.dfy` (module `Config`): the parsed configuration as optional fields,
  and `Load`, which fills in the defaults.
- `sampler.dfy` (module `Sampler`): the per-path step. The disk-usage query is
  an oracle answer `Probe`. `Sample` turns it into a `Line`: either a `Report`
  (with status `Ok` or `Alert`) or an `Error` that names the path and the
  `Fault`. Exceptions become this result datatype.
- `journal.dfy` (module `Journal`): files as contents by name, plus standard
  output. `LogLine` appends one timestamped entry to a file and to standard
  output. `Replay` does this for a sequence of entries.
- `monitor.dfy` (module `Monitor`): `Batch`, which maps the paths to lines in
  order, and `Run`, the loop of `main` written as a method. `Run` is proved to
  append exactly the stamped `Batch` lines.

The environment is passed in as a parameter (`Env`). The loop asks the machine
again for every element of the path list, so each answer is indexed by the
position i being handled: the host name `host(i)`, the disk-usage answer
`probe(i)(p)` for path `p`, and the timestamp `clock(i)` of the line written
for it. A path listed twice is therefore queried twice and may get two
different answers.

The source does not special-case a total of 0: the `ZeroDivisionError` raised
at disk_monitor.py:47 is caught by the per-path `except` at line 60 and logged
as an `[ERROR]` line (line 61). The model gives that line the fault
`DivisionByZero`.

## Model

| member | source | states |
|---|---|---|
| Config.Load | disk_monitor.py:36-38 | each absent key takes its default (threshold 80, paths `["/"]`, log file `logs/disk_monitor.log`); each present key is used exactly as given, an empty path list included |
| Config.LoadSpelledIsIdentity | disk_monitor.py:36-38 | a configuration that gives every key loads back to exactly those settings |
| Config.LoadEmptyIsDefaults | disk_monitor.py:36-38 | a configuration with no recognised key yields the three defaults |
| Sampler.Classify | disk_monitor.py:49-51 | the inclusive threshold test itself: Ok exactly when the percentage is below the threshold, Alert otherwise, so equality alerts (a definitional helper; its consequences are stated by BoundaryIsAlert and AlertIsMonotone) |
| Sampler.ToGiB | disk_monitor.py:56-57 | the GB figure g is the floor of bytes / 2^30: g*2^30 <= bytes < (g+1)*2^30 |
| Sampler.GiBIsUnique | disk_monitor.py:56-57 | any whole number of GiB that brackets the byte count is the reported figure, so the floor is the only candidate |
| Sampler.OneAndAHalfGiBReportsOne | disk_monitor.py:56 | 1.5 GiB is reported as 1 GB: the figure is truncated, not rounded |
| Sampler.UsedPercent | disk_monitor.py:47 | for a positive total, pct * total == used * 100; the value is non-negative and at most 100 when used <= total |
| Sampler.Sample | disk_monitor.py:43-61 | a failed query gives an Error line with the query's failure and the path; a zero total gives an Error line with DivisionByZero; otherwise a Report carrying the host, path and configured threshold, with pct * total == used * 100, Alert iff pct >= threshold, and floored GiB figures for total and free; the line is an Error exactly in those two failure cases |
| Sampler.BoundaryIsAlert | disk_monitor.py:49-51 | a usage exactly equal to the threshold is classified Alert |
| Sampler.AlertIffCrossMultiplied | disk_monitor.py:47-51 | for a positive total, the status is Alert iff used * 100 >= threshold * total, an equivalent test without division |
| Sampler.AlertIsMonotone | disk_monitor.py:50 | a path that alerts at threshold t also alerts at every threshold t' <= t |
| Sampler.FortyFivePercentIsOk | disk_monitor.py:47-58 | a disk 45% full at threshold 80 is reported Ok with used 45%, total and free in whole GiB, and threshold 80 |
| Journal.Contents | disk_monitor.py:20 | a file that does not exist reads as empty, which is what opening it in append mode starts from |
| Journal.Messages | disk_monitor.py:19 | stripping the timestamp prefix from each logged entry recovers its message, one per entry and in order |
| Journal.LogLine | disk_monitor.py:17-22 | one log call appends the entry to the named file, creating it when absent; it leaves every other file unchanged and prints the same entry |
| Journal.Replay | disk_monitor.py:17-22 | logging a sequence of entries appends exactly those entries, in order, to the file and to standard output; other files stay unchanged, and the file is created only when at least one entry is written |
| Journal.ReplayConcat | disk_monitor.py:20-21 | logging a and then b leaves the same world as logging a + b |
| Journal.EarlierEntriesStay | disk_monitor.py:20-22 | the earlier log and the earlier standard output are prefixes of the later ones: nothing is truncated or rewritten |
| Monitor.Batch | disk_monitor.py:42-61 | one line per configured path; line i is the sample of path i under the host name and disk-usage answer obtained while handling position i, so order is kept and a failing path never shortens the output |
| Monitor.Stamp | disk_monitor.py:18-19 | stamping is undone by stripping: the messages of the stamped entries are exactly the run's lines, and entry i carries the clock reading taken for the i-th line |
| Monitor.Entries | disk_monitor.py:42-61 | a run with these settings logs exactly as many entries as there are configured paths |
| Monitor.Run | disk_monitor.py:35-61 | the loop over the loaded settings leaves the world as if the stamped Batch lines were appended, in order, to the configured log file and to standard output |
| Monitor.RunLogsOneLinePerPath | disk_monitor.py:42-61 | after a run the log is the previous log followed by exactly one entry per path, entry i names path i; standard output receives the same entries |
| Monitor.BatchPrefix | disk_monitor.py:42 | the lines of the first paths of a list are the lines of those paths alone: later paths never change earlier lines |
| Monitor.FailureIsIsolated | disk_monitor.py:43-61 | the line at position i depends only on the host name and query answer obtained at position i; a change to any other position's answer, such as a failure, leaves it unchanged |
| Monitor.RepeatedPathIsQueriedAgain | disk_monitor.py:42-46 | a path listed twice is queried once per listing: the first listing can be reported while the second, whose query fails, gets an Error line |
| Monitor.ErrorLineForFailingPath | disk_monitor.py:43-61 | a path whose query fails or whose total is 0 still gets exactly one line at its own position, an Error naming that path |
| Monitor.BatchAlertIsMonotone | disk_monitor.py:50 | a line that alerts at threshold t also alerts at every lower threshold |
| Monitor.SecondRunAppends | disk_monitor.py:20-21 | two runs on the same log leave the earlier contents, then the first run's entries, then the second run's entries |
| Monitor.NoPathsNoLog | disk_monitor.py:42 | with an empty path list nothing is written, and the log file is not created |

## Left out

- Reading and JSON-parsing the configuration file, the default `config.json` argument and the exit with status 1 when the file is missing (disk_monitor.py:8-10, 29-33). These are process and library plumbing. The model starts from the parsed keys.
- Config.Load: a value of the wrong type is not modelled. Examples are a threshold given as text or `null`, or paths given as a string. The source would convert the text, fail, or iterate over the characters. The model types each key as a number, a list of strings or a string.
- Creating the log directory, `ensure_log_dir` (disk_monitor.py:12-15). It is filesystem plumbing with no effect on the lines.
- The unused helper `disk_usage_percent` (disk_monitor.py:24-26). It repeats the computation at line 47.
- Sampler.UsedPercent: the percentage is an exact real, `used / total * 100`, not a double. Float rounding near the threshold is idealised away.
- Sampler.Sample: the `:.2f` rendering, the `[OK]`/`[ALERT]`/`[ERROR]` text, the timestamp format and `repr` of the exception are not modelled. Lines are datatypes, and the fault carries the query's failure description.
- A failure of the host-name lookup inside the `try` (disk_monitor.py:44) is not modelled. The host name is an opaque string per position, `Env.host`.
- A failure while writing the log inside the `try` is not modelled. In the source it would trigger a second, `[ERROR]`, log call. File I/O is treated as always succeeding.
- The wall clock is a parameter (`Env.clock`), read once per logged line.
