/** The append-only log and the standard output it is mirrored to.

    Files are contents by name; a file that does not exist reads as empty and
    is created by the first append (the log is opened in append mode). Each
    logged line carries the wall-clock reading taken when it was written.
 */
module Journal {
  import opened Sampler

  /** A logged line: the timestamp put in front of the message. */
  datatype Entry = Entry(stamp: string, message: Line)

  /** What a run can observe and change: the files and standard output. */
  datatype World = World(files: map<string, seq<Entry>>, stdout: seq<Entry>)

  /** The contents of `file`, empty when it does not exist. */
  function Contents(w: World, file: string): (es: seq<Entry>)
    ensures file !in w.files ==> es == []
  {
    if file in w.files then w.files[file] else []
  }

  /** The messages of `es` with their timestamps stripped, as a reader of the
      log recovers them. */
  function Messages(es: seq<Entry>): (ms: seq<Line>)
    ensures |ms| == |es|
    ensures forall i :: 0 <= i < |es| ==> ms[i] == es[i].message
    decreases |es|
  {
    if es == [] then [] else Messages(es[..|es| - 1]) + [es[|es| - 1].message]
  }

  /** Appends one entry to `file` and prints the same entry. */
  function LogLine(w: World, file: string, e: Entry): (w': World)
    ensures w'.files.Keys == w.files.Keys + {file}
    ensures Contents(w', file) == Contents(w, file) + [e]
    ensures forall f :: f in w.files && f != file ==> w'.files[f] == w.files[f]
    ensures w'.stdout == w.stdout + [e]
  {
    World(w.files[file := Contents(w, file) + [e]], w.stdout + [e])
  }

  /** Logs `es` one after another, in order. */
  function Replay(w: World, file: string, es: seq<Entry>): (w': World)
    ensures w'.files.Keys == if es == [] then w.files.Keys else w.files.Keys + {file}
    ensures Contents(w', file) == Contents(w, file) + es
    ensures forall f :: f in w.files && f != file ==> w'.files[f] == w.files[f]
    ensures w'.stdout == w.stdout + es
    decreases |es|
  {
    if es == [] then w
    else LogLine(Replay(w, file, es[..|es| - 1]), file, es[|es| - 1])
  }

  /** Logging one more entry extends the replay of the entries before it. */
  lemma ReplayStep(w: World, file: string, es: seq<Entry>, i: nat)
    requires i < |es|
    ensures Replay(w, file, es[..i + 1]) == LogLine(Replay(w, file, es[..i]), file, es[i])
  {
    assert es[..i + 1][..i] == es[..i];
  }

  /** Logging `a` and then `b` is logging `a + b`. */
  lemma {:induction false} ReplayConcat(w: World, file: string, a: seq<Entry>, b: seq<Entry>)
    ensures Replay(Replay(w, file, a), file, b) == Replay(w, file, a + b)
    decreases |b|
  {
    if b == [] {
      assert a + b == a;
    } else {
      var b0 := b[..|b| - 1];
      ReplayConcat(w, file, a, b0);
      assert (a + b)[..|a + b| - 1] == a + b0;
      assert (a + b)[|a + b| - 1] == b[|b| - 1];
    }
  }

  /** Whatever was in the log before stays in place, whatever is logged next. */
  lemma EarlierEntriesStay(w: World, file: string, es: seq<Entry>)
    ensures Contents(w, file) <= Contents(Replay(w, file, es), file)
    ensures w.stdout <= Replay(w, file, es).stdout
  {
  }
}
