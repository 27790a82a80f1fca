/**
 * `executeScriptsInDirectory`: every entry of a directory listing is looked at with
 * `lstat`; regular files are executed, and each entry yields one result slot. Failures
 * are turned into strings, so the fan-out itself never raises. The executions run one
 * after the other, in listing order.
 */
module DirectoryFanOut {
  import opened Counters
  import opened LogFile
  import opened Executor

  /** What `lstat` reports for a path: a regular file, a directory with its listing, or anything else. */
  datatype Entry = File | Dir(children: seq<string>) | Other

  /** The scripts tree, keyed by full path; a path that is not a key does not exist. */
  type FileSystem = map<string, Entry>

  /**
   * One element of the fan-out's result: `undefined` (a success, or an entry that is not a
   * regular file), the text of a caught failure, or the rejection a failing `lstat` leaves.
   */
  datatype Slot = Undefined | ErrorText(text: string) | StatFailed(path: string)

  /** `path.join(dir, name)` for a plain name. */
  function Child(dir: string, name: string): string {
    dir + "/" + name
  }

  /** The string the fan-out returns for a failed file. */
  function FailureText(file: string, reason: string): string {
    "Error executing " + file + ": " + reason
  }

  /** The callback `files.map` runs for one entry, awaited to the end. */
  function FanOutStep(st: State, fs: FileSystem, dir: string, file: string, body: Body,
                      query: string, run: Oracle, now: string): (State, Slot)
  {
    var filePath := Child(dir, file);
    if filePath !in fs then (st, StatFailed(filePath))
    else if fs[filePath].File? then
      var (after, outcome) := RunScript(st, filePath, body, query, file, run, now);
      (after, if outcome.Raised? then ErrorText(FailureText(file, outcome.reason)) else Undefined)
    else (st, Undefined)
  }

  /**
   * The whole fan-out over a listing: one slot per entry, the group counters untouched.
   */
  function FanOut(st: State, fs: FileSystem, dir: string, files: seq<string>, body: Body,
                  query: string, run: Oracle, now: string): (r: (State, seq<Slot>))
    ensures |r.1| == |files|
    ensures r.0.groupCounts == st.groupCounts
    decreases |files|
  {
    if files == [] then (st, [])
    else
      var (before, slots) := FanOut(st, fs, dir, files[..|files| - 1], body, query, run, now);
      var (after, slot) := FanOutStep(before, fs, dir, files[|files| - 1], body, query, run, now);
      (after, slots + [slot])
  }

  /** The slot an entry yields, read off the filesystem and the process outcome alone. */
  function ExpectedSlot(fs: FileSystem, dir: string, file: string, body: Body, query: string,
                        run: Oracle): Slot
  {
    var filePath := Child(dir, file);
    if filePath !in fs then StatFailed(filePath)
    else if fs[filePath].File? && run(Launch(filePath, query, body)).Failed? then
      ErrorText(FailureText(file, run(Launch(filePath, query, body)).stderr))
    else Undefined
  }

  /** Is `file` a regular file of the directory whose execution succeeds? */
  predicate Succeeds(fs: FileSystem, dir: string, file: string, body: Body, query: string, run: Oracle) {
    Child(dir, file) in fs && fs[Child(dir, file)].File?
    && run(Launch(Child(dir, file), query, body)).Exited?
  }

  /** Is `file` a regular file of the directory whose execution fails? */
  predicate Fails(fs: FileSystem, dir: string, file: string, body: Body, query: string, run: Oracle) {
    Child(dir, file) in fs && fs[Child(dir, file)].File?
    && run(Launch(Child(dir, file), query, body)).Failed?
  }

  /** The entries whose execution succeeds, in listing order. */
  function Succeeded(fs: FileSystem, dir: string, files: seq<string>, body: Body, query: string,
                     run: Oracle): seq<string>
    decreases |files|
  {
    if files == [] then []
    else
      var init := Succeeded(fs, dir, files[..|files| - 1], body, query, run);
      if Succeeds(fs, dir, files[|files| - 1], body, query, run) then init + [files[|files| - 1]] else init
  }

  /** The failure lines the executions log, in listing order. */
  function FailureLines(fs: FileSystem, dir: string, files: seq<string>, body: Body, query: string,
                        run: Oracle, now: string): seq<string>
    decreases |files|
  {
    if files == [] then []
    else
      var init := FailureLines(fs, dir, files[..|files| - 1], body, query, run, now);
      var file := files[|files| - 1];
      if Fails(fs, dir, file, body, query, run) then init + [ScriptErrorLine(now, file)] else init
  }

  /**
   * Each slot depends only on its own entry: the i-th slot is the one the i-th entry yields,
   * whatever ran before it. A failure never stops the entries after it.
   */
  lemma {:induction false} FanOutSlots(st: State, fs: FileSystem, dir: string, files: seq<string>,
                                       body: Body, query: string, run: Oracle, now: string)
    ensures forall i :: 0 <= i < |files| ==>
      FanOut(st, fs, dir, files, body, query, run, now).1[i] == ExpectedSlot(fs, dir, files[i], body, query, run)
    decreases |files|
  {
    if files != [] {
      var init := files[..|files| - 1];
      FanOutSlots(st, fs, dir, init, body, query, run, now);
      forall i | 0 <= i < |init| ensures init[i] == files[i] {}
    }
  }

  /**
   * Each executed file is counted under its own name: the script counters end up bumped
   * once per succeeding file, in listing order, and nowhere else.
   */
  lemma {:induction false} FanOutCounts(st: State, fs: FileSystem, dir: string, files: seq<string>,
                                        body: Body, query: string, run: Oracle, now: string)
    ensures FanOut(st, fs, dir, files, body, query, run, now).0.scriptCounts
         == BumpEach(st.scriptCounts, Succeeded(fs, dir, files, body, query, run))
    decreases |files|
  {
    if files != [] {
      var init := files[..|files| - 1];
      var last := files[|files| - 1];
      var before := FanOut(st, fs, dir, init, body, query, run, now).0;
      FanOutCounts(st, fs, dir, init, body, query, run, now);
      FanOutStepCounts(before, fs, dir, last, body, query, run, now);
      var names := Succeeded(fs, dir, init, body, query, run);
      assert (names + [last])[..|names|] == names;
    }
  }

  /** One step of the fan-out bumps the entry's own counter exactly when it succeeds. */
  lemma FanOutStepCounts(st: State, fs: FileSystem, dir: string, file: string, body: Body,
                         query: string, run: Oracle, now: string)
    ensures FanOutStep(st, fs, dir, file, body, query, run, now).0.scriptCounts
         == if Succeeds(fs, dir, file, body, query, run) then Bump(st.scriptCounts, file) else st.scriptCounts
  {
  }

  /** The log receives exactly one failure line per failing file, in listing order. */
  lemma {:induction false} FanOutLog(st: State, fs: FileSystem, dir: string, files: seq<string>,
                                     body: Body, query: string, run: Oracle, now: string)
    ensures FanOut(st, fs, dir, files, body, query, run, now).0.log
         == AppendLines(st.log, FailureLines(fs, dir, files, body, query, run, now))
    decreases |files|
  {
    if files != [] {
      var init := files[..|files| - 1];
      FanOutLog(st, fs, dir, init, body, query, run, now);
      var lines := FailureLines(fs, dir, init, body, query, run, now);
      assert (lines + [ScriptErrorLine(now, files[|files| - 1])])[..|lines|] == lines;
    }
  }

  /**
   * Since a listing names each entry once, every succeeding file's counter rises by exactly
   * one and every other counter keeps its value.
   */
  lemma FanOutCountsDistinct(st: State, fs: FileSystem, dir: string, files: seq<string>,
                             body: Body, query: string, run: Oracle, now: string, name: string)
    requires forall i, j :: 0 <= i < j < |files| ==> files[i] != files[j]
    ensures Get(FanOut(st, fs, dir, files, body, query, run, now).0.scriptCounts, name)
         == Get(st.scriptCounts, name) + (if name in files && Succeeds(fs, dir, name, body, query, run) then 1 else 0)
  {
    FanOutCounts(st, fs, dir, files, body, query, run, now);
    var names := Succeeded(fs, dir, files, body, query, run);
    BumpEachCounts(st.scriptCounts, names);
    SucceededMultiplicity(fs, dir, files, body, query, run, name);
  }

  /** In a listing without repeats a name is among the succeeded ones at most once. */
  lemma {:induction false} SucceededMultiplicity(fs: FileSystem, dir: string, files: seq<string>,
                                                 body: Body, query: string, run: Oracle, name: string)
    requires forall i, j :: 0 <= i < j < |files| ==> files[i] != files[j]
    ensures multiset(Succeeded(fs, dir, files, body, query, run))[name]
         == if name in files && Succeeds(fs, dir, name, body, query, run) then 1 else 0
    decreases |files|
  {
    if files != [] {
      var init := files[..|files| - 1];
      var last := files[|files| - 1];
      SucceededMultiplicity(fs, dir, init, body, query, run, name);
      assert files == init + [last];
      assert name in files <==> name in init || name == last;
      assert last !in init by {
        forall i | 0 <= i < |init| ensures init[i] != last {
          assert init[i] == files[i];
        }
      }
    }
  }
}
