/** One invocation of the monitor: load the configuration, then sample every
    configured path once, in order, logging one line per path.

    The environment is an input. Everything the loop asks of the machine is
    indexed by the position of the path being handled, because the loop asks
    again for every list element: the host name, the disk-usage query (so a
    path listed twice may get two different answers) and the clock.
 */
module Monitor {
  import opened Config
  import opened Sampler
  import opened Journal

  /** The machine a run sees while it handles the path at position i:
      `host(i)` is the host name, `probe(i)(p)` the disk-usage answer for `p`,
      and `clock(i)` the time at which the line for that path is written. */
  datatype Env = Env(host: nat -> string, probe: nat -> string -> Probe, clock: nat -> string)

  /** The lines of a run, one per path, in the order of `paths`. */
  function Batch(threshold: real, paths: seq<string>, env: Env): (lines: seq<Line>)
    ensures |lines| == |paths|
    ensures forall i :: 0 <= i < |paths| ==>
      lines[i] == Sample(threshold, env.host(i), paths[i], env.probe(i)(paths[i]))
    decreases |paths|
  {
    if paths == [] then []
    else
      var last := |paths| - 1;
      Batch(threshold, paths[..last], env)
        + [Sample(threshold, env.host(last), paths[last], env.probe(last)(paths[last]))]
  }

  /** The lines of a run with the timestamps the clock gives them. */
  function Stamp(lines: seq<Line>, clock: nat -> string): (es: seq<Entry>)
    ensures Messages(es) == lines
    ensures forall i :: 0 <= i < |es| ==> es[i].stamp == clock(i)
  {
    seq(|lines|, i requires 0 <= i < |lines| => Entry(clock(i), lines[i]))
  }

  /** What a run with these settings logs. */
  function Entries(s: Settings, env: Env): (es: seq<Entry>)
    ensures |es| == |s.paths|
  {
    Stamp(Batch(s.threshold, s.paths, env), env.clock)
  }

  /** One invocation: defaults filled in, then each path sampled and logged in turn. */
  method Run(raw: RawConfig, env: Env, w: World) returns (w': World)
    ensures w' == Replay(w, Load(raw).logFile, Entries(Load(raw), env))
  {
    var s := Load(raw);
    ghost var es := Entries(s, env);
    w' := w;
    var i := 0;
    while i < |s.paths|
      invariant 0 <= i <= |s.paths|
      invariant w' == Replay(w, s.logFile, es[..i])
    {
      var p := s.paths[i];
      var line := Sample(s.threshold, env.host(i), p, env.probe(i)(p));
      assert es[i] == Entry(env.clock(i), line);
      ReplayStep(w, s.logFile, es, i);
      w' := LogLine(w', s.logFile, Entry(env.clock(i), line));
      i := i + 1;
    }
    assert es[..i] == es;
  }

  /** A run logs exactly one line per configured path, in the configured order,
      each naming its path; earlier contents and other files are untouched. */
  lemma RunLogsOneLinePerPath(s: Settings, env: Env, w: World)
    ensures Contents(Replay(w, s.logFile, Entries(s, env)), s.logFile)
         == Contents(w, s.logFile) + Entries(s, env)
    ensures Replay(w, s.logFile, Entries(s, env)).stdout == w.stdout + Entries(s, env)
    ensures |Entries(s, env)| == |s.paths|
    ensures forall i :: 0 <= i < |s.paths| ==>
      Entries(s, env)[i].message.path == s.paths[i]
  {
    var es := Entries(s, env);
    assert Messages(es) == Batch(s.threshold, s.paths, env);
    forall i | 0 <= i < |s.paths|
      ensures es[i].message.path == s.paths[i]
    {
      assert es[i].message == Messages(es)[i];
    }
  }

  /** The lines of the first paths do not depend on the paths listed after them. */
  lemma {:induction false} BatchPrefix(threshold: real, ps: seq<string>, qs: seq<string>, env: Env)
    ensures Batch(threshold, ps + qs, env)[..|ps|] == Batch(threshold, ps, env)
    decreases |qs|
  {
    if qs != [] {
      var last := |ps + qs| - 1;
      assert (ps + qs)[..last] == ps + qs[..|qs| - 1];
      BatchPrefix(threshold, ps, qs[..|qs| - 1], env);
      assert Batch(threshold, ps + qs, env)[..last] == Batch(threshold, ps + qs[..|qs| - 1], env);
    }
  }

  /** Failure isolation: the line of a path depends on what the machine
      answered for that path only, so a failing path changes no other line. */
  lemma FailureIsIsolated(threshold: real, paths: seq<string>, env: Env, env': Env, i: nat)
    requires i < |paths|
    requires env.host(i) == env'.host(i)
    requires env.probe(i)(paths[i]) == env'.probe(i)(paths[i])
    ensures Batch(threshold, paths, env)[i] == Batch(threshold, paths, env')[i]
  {
  }

  /** A path listed twice is queried twice, and the two answers may differ. */
  lemma RepeatedPathIsQueriedAgain(threshold: real)
    ensures
      var env := Env(
        (i: nat) => "host",
        (i: nat) => (p: string) => if i == 0 then Usage(GiB, 0, GiB) else QueryFailed("gone"),
        (i: nat) => "");
      var lines := Batch(threshold, ["/mnt", "/mnt"], env);
      lines[0].Report? && lines[1] == Error("/mnt", QueryError("gone"))
  {
  }

  /** A path whose query fails, or whose filesystem reports no capacity, gets
      exactly one line: an error naming that path, at that path's position. */
  lemma ErrorLineForFailingPath(threshold: real, paths: seq<string>, env: Env, i: nat)
    requires i < |paths|
    requires env.probe(i)(paths[i]).QueryFailed? || env.probe(i)(paths[i]).total == 0
    ensures |Batch(threshold, paths, env)| == |paths|
    ensures Batch(threshold, paths, env)[i].Error?
    ensures Batch(threshold, paths, env)[i].path == paths[i]
  {
  }

  /** Lowering the threshold keeps every alert of a run an alert. */
  lemma BatchAlertIsMonotone(t: real, t': real, paths: seq<string>, env: Env, i: nat)
    requires t' <= t
    requires i < |paths|
    requires Batch(t, paths, env)[i].Report?
    requires Batch(t, paths, env)[i].status == Alert
    ensures Batch(t', paths, env)[i].Report?
    ensures Batch(t', paths, env)[i].status == Alert
  {
    AlertIsMonotone(t, t', env.host(i), paths[i], env.probe(i)(paths[i]));
  }

  /** Two runs one after another leave the first run's lines in place and
      append the second run's after them. */
  lemma SecondRunAppends(s1: Settings, env1: Env, s2: Settings, env2: Env, w: World)
    requires s1.logFile == s2.logFile
    ensures Contents(Replay(Replay(w, s1.logFile, Entries(s1, env1)), s2.logFile, Entries(s2, env2)), s1.logFile)
         == Contents(w, s1.logFile) + Entries(s1, env1) + Entries(s2, env2)
  {
  }

  /** With no paths nothing is logged and the log file is not even created. */
  lemma NoPathsNoLog(s: Settings, env: Env, w: World)
    requires s.paths == []
    ensures Replay(w, s.logFile, Entries(s, env)) == w
  {
  }
}
