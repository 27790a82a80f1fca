/**
 * The `/:shortlinkOrScript*` handler: resolve the identifier through the shortlink table,
 * look the path up under `scripts`, run a script, a directory's `index.sh` or the whole
 * directory, keep the counters and the log, catch whatever an execution re-raises, and
 * always answer with a redirect to `/`.
 */
module Dispatcher {
  import opened Counters
  import opened LogFile
  import opened Executor
  import opened DirectoryFanOut

  /** The only answer the handler gives. */
  datatype Response = Redirect(location: string)

  /** What the routing layer hands over: the path segment, the query pairs in key order, the body. */
  datatype Request = Request(identifier: string, query: seq<(string, string)>, body: Body)

  /** The directory all scripts live under. */
  const ScriptsRoot: string := "scripts"

  /** The script a directory runs instead of fanning out. */
  const IndexScript: string := "index.sh"

  /** `shortlinks[id] || id`: the alias when there is a non-empty one, the identifier otherwise. */
  function Resolve(shortlinks: map<string, string>, id: string): string {
    if id in shortlinks && shortlinks[id] != "" then shortlinks[id] else id
  }

  /** `path.join(..., "scripts", shortlinks[id] || id)`. */
  function ScriptPath(shortlinks: map<string, string>, id: string): string {
    Child(ScriptsRoot, Resolve(shortlinks, id))
  }

  /** `config.excludeScripts.includes(id)`, an absent list being empty. */
  predicate Excluded(excludeScripts: seq<string>, id: string) {
    id in excludeScripts
  }

  function Stamped(stamp: string, text: string): string {
    "[" + stamp + "] " + text
  }

  function ExecutingScriptLine(stamp: string, id: string): string {
    Stamped(stamp, "Executing script: " + id)
  }

  function ExcludedLine(stamp: string, id: string): string {
    Stamped(stamp, "Script " + id + " is excluded from execution.")
  }

  function ExecutingDirectoryLine(stamp: string, id: string): string {
    Stamped(stamp, "Executing scripts in directory: " + id)
  }

  function ExecutingDirectlyLine(stamp: string, id: string): string {
    Stamped(stamp, "Executing script directly: " + id)
  }

  function ExecutedGroupLine(stamp: string, id: string): string {
    Stamped(stamp, "Executed group: " + id)
  }

  function HandlerErrorLine(stamp: string, id: string): string {
    Stamped(stamp, "Error executing " + id + ":")
  }

  /** The line the request-logging middleware writes before any route runs. */
  function RequestLine(stamp: string, url: string): string {
    Stamped(stamp, "Request URL: " + url)
  }

  /** The state after one `writeToLogFile(line)`. */
  function Logged(st: State, line: string): State {
    st.(log := AppendLog(st.log, line))
  }

  /** `updateGroupExecutionCounts(id)` followed by the "Executed group" line. */
  function Grouped(st: State, id: string, stamp: string): State {
    Logged(st.(groupCounts := Bump(st.groupCounts, id)), ExecutedGroupLine(stamp, id))
  }

  /** Does the directory at `scriptPath` hold an `index.sh` that is a regular file? */
  predicate HasIndex(fs: FileSystem, scriptPath: string) {
    Child(scriptPath, IndexScript) in fs && fs[Child(scriptPath, IndexScript)].File?
  }

  /**
   * The `catch` of the handler: an error that an awaited execution re-raises is logged
   * once more, under the identifier, and ends the `try` block.
   */
  function Caught(after: State, outcome: Outcome, id: string, stamp: string): State {
    if outcome.Raised? then Logged(after, HandlerErrorLine(stamp, id)) else after
  }

  /** The `isFile()` branch of the handler, its `catch` included. */
  function RunFile(st: State, excludeScripts: seq<string>, scriptPath: string, id: string, query: string,
                   body: Body, run: Oracle, stamp: string, now: string): State
  {
    var announced := Logged(st, ExecutingScriptLine(stamp, id));
    if !Excluded(excludeScripts, id) then
      var (after, outcome) := RunScript(announced, scriptPath, body, query, id, run, now);
      Caught(after, outcome, id, stamp)
    else Logged(announced, ExcludedLine(stamp, id))
  }

  /**
   * The `index.sh` sub-branch of a directory, from the "Executing script directly" line on:
   * the group is counted unless the index script ran and re-raised.
   */
  function RunIndex(st: State, excludeScripts: seq<string>, scriptPath: string, id: string, query: string,
                    body: Body, run: Oracle, stamp: string, now: string): State
  {
    var direct := Logged(st, ExecutingDirectlyLine(stamp, id));
    if !Excluded(excludeScripts, id) then
      var (after, outcome) := RunScript(direct, Child(scriptPath, IndexScript), body, query, id, run, now);
      if outcome.Raised? then Caught(after, outcome, id, stamp) else Grouped(after, id, stamp)
    else Grouped(Logged(direct, ExcludedLine(stamp, id)), id, stamp)
  }

  /** The `isDirectory()` branch of the handler, its `catch` included. */
  function RunDirectory(st: State, fs: FileSystem, excludeScripts: seq<string>, scriptPath: string,
                        files: seq<string>, id: string, query: string, body: Body, run: Oracle,
                        stamp: string, now: string): State
  {
    var announced := Logged(st, ExecutingDirectoryLine(stamp, id));
    if HasIndex(fs, scriptPath) then RunIndex(announced, excludeScripts, scriptPath, id, query, body, run, stamp, now)
    else
      var (after, _) := FanOut(announced, fs, scriptPath, files, body, query, run, now);
      Grouped(after, id, stamp)
  }

  /** The body of the handler's `try` block, with its `catch`, for an existing path. */
  function RunTarget(st: State, fs: FileSystem, excludeScripts: seq<string>, scriptPath: string,
                     id: string, query: string, body: Body, run: Oracle, stamp: string, now: string): State
    requires scriptPath in fs
  {
    match fs[scriptPath]
    case File => RunFile(st, excludeScripts, scriptPath, id, query, body, run, stamp, now)
    case Dir(files) => RunDirectory(st, fs, excludeScripts, scriptPath, files, id, query, body, run, stamp, now)
    case Other => st
  }

  /**
   * The handler for one request. Every branch answers with a redirect to `/`; an empty
   * identifier and a path that does not exist leave counters and log as they were.
   */
  function Dispatch(st: State, shortlinks: map<string, string>, excludeScripts: seq<string>,
                    fs: FileSystem, req: Request, run: Oracle, stamp: string, now: string): (r: (State, Response))
    ensures r.1 == Redirect("/")
    ensures req.identifier == "" ==> r.0 == st
    ensures req.identifier != "" && ScriptPath(shortlinks, req.identifier) !in fs ==> r.0 == st
  {
    var id := req.identifier;
    if id == "" then (st, Redirect("/"))
    else
      var scriptPath := ScriptPath(shortlinks, id);
      var query := QueryString(req.query);
      if scriptPath in fs then
        (RunTarget(st, fs, excludeScripts, scriptPath, id, query, req.body, run, stamp, now), Redirect("/"))
      else (st, Redirect("/"))
  }

  /** The lines the `isFile()` branch writes, in order. */
  function FileLines(excludeScripts: seq<string>, scriptPath: string, id: string, query: string,
                     body: Body, run: Oracle, stamp: string, now: string): seq<string>
  {
    if Excluded(excludeScripts, id) then [ExecutingScriptLine(stamp, id), ExcludedLine(stamp, id)]
    else if run(Launch(scriptPath, query, body)).Exited? then [ExecutingScriptLine(stamp, id)]
    else [ExecutingScriptLine(stamp, id), ScriptErrorLine(now, id), HandlerErrorLine(stamp, id)]
  }

  /** The lines the `index.sh` sub-branch writes after "Executing scripts in directory", in order. */
  function IndexLines(excludeScripts: seq<string>, scriptPath: string, id: string, query: string,
                      body: Body, run: Oracle, stamp: string, now: string): seq<string>
  {
    if Excluded(excludeScripts, id) then
      [ExecutingDirectlyLine(stamp, id), ExcludedLine(stamp, id), ExecutedGroupLine(stamp, id)]
    else if run(Launch(Child(scriptPath, IndexScript), query, body)).Exited? then
      [ExecutingDirectlyLine(stamp, id), ExecutedGroupLine(stamp, id)]
    else [ExecutingDirectlyLine(stamp, id), ScriptErrorLine(now, id), HandlerErrorLine(stamp, id)]
  }

  /** The lines a directory writes: its own, then those of `index.sh` or of the fan-out and the group. */
  function DirectoryLines(fs: FileSystem, excludeScripts: seq<string>, scriptPath: string, files: seq<string>,
                          id: string, query: string, body: Body, run: Oracle, stamp: string, now: string): seq<string>
  {
    [ExecutingDirectoryLine(stamp, id)]
    + if HasIndex(fs, scriptPath) then IndexLines(excludeScripts, scriptPath, id, query, body, run, stamp, now)
      else FailureLines(fs, scriptPath, files, body, query, run, now) + [ExecutedGroupLine(stamp, id)]
  }

  /** Every line one request appends to the log (after the middleware's request line), in order. */
  function HandlerLines(shortlinks: map<string, string>, excludeScripts: seq<string>, fs: FileSystem,
                        req: Request, run: Oracle, stamp: string, now: string): seq<string>
  {
    var id := req.identifier;
    var scriptPath := ScriptPath(shortlinks, id);
    var query := QueryString(req.query);
    if id == "" || scriptPath !in fs then []
    else match fs[scriptPath]
      case File => FileLines(excludeScripts, scriptPath, id, query, req.body, run, stamp, now)
      case Dir(files) => DirectoryLines(fs, excludeScripts, scriptPath, files, id, query, req.body, run, stamp, now)
      case Other => []
  }

  /**
   * The names whose script counter one request bumps, in order: the identifier once for a
   * single script or an `index.sh` that runs and succeeds, each succeeding file of a fan-out.
   */
  function CountedScripts(shortlinks: map<string, string>, excludeScripts: seq<string>, fs: FileSystem,
                          req: Request, run: Oracle): seq<string>
  {
    var id := req.identifier;
    var scriptPath := ScriptPath(shortlinks, id);
    var query := QueryString(req.query);
    if id == "" || scriptPath !in fs then []
    else match fs[scriptPath]
      case File =>
        if !Excluded(excludeScripts, id) && run(Launch(scriptPath, query, req.body)).Exited? then [id] else []
      case Dir(files) =>
        if !HasIndex(fs, scriptPath) then Succeeded(fs, scriptPath, files, req.body, query, run)
        else if !Excluded(excludeScripts, id) && run(Launch(Child(scriptPath, IndexScript), query, req.body)).Exited?
        then [id] else []
      case Other => []
  }

  /**
   * When the group counter of the identifier is bumped: the path is a directory, and it is
   * not the case that its `index.sh` ran and failed (that error skips the bump).
   */
  predicate GroupCounted(shortlinks: map<string, string>, excludeScripts: seq<string>, fs: FileSystem,
                         req: Request, run: Oracle)
  {
    var id := req.identifier;
    var scriptPath := ScriptPath(shortlinks, id);
    && id != ""
    && scriptPath in fs && fs[scriptPath].Dir?
    && !(HasIndex(fs, scriptPath) && !Excluded(excludeScripts, id)
         && run(Launch(Child(scriptPath, IndexScript), QueryString(req.query), req.body)).Failed?)
  }

  /** The three-message case of `AppendLines`, spelt out. */
  lemma AppendThree(log: string, a: string, b: string, c: string)
    ensures AppendLines(log, [a, b, c]) == AppendLog(AppendLog(AppendLog(log, a), b), c)
  {
    assert [a, b, c] == [a, b] + [c];
    assert [a, b] == [a] + [b];
    assert [a] == [] + [a];
    AppendLinesSnoc(log, [a, b], c);
    AppendLinesSnoc(log, [a], b);
    AppendLinesSnoc(log, [], a);
  }

  /** The two-message case of `AppendLines`, spelt out. */
  lemma AppendTwo(log: string, a: string, b: string)
    ensures AppendLines(log, [a, b]) == AppendLog(AppendLog(log, a), b)
  {
    assert [a, b] == [a] + [b];
    assert [a] == [] + [a];
    AppendLinesSnoc(log, [a], b);
    AppendLinesSnoc(log, [], a);
  }

  /** The `isFile()` branch: no group counter moves; the log and the script counter as listed. */
  lemma RunFileEffect(st: State, excludeScripts: seq<string>, scriptPath: string, id: string, query: string,
                      body: Body, run: Oracle, stamp: string, now: string)
    ensures var r := RunFile(st, excludeScripts, scriptPath, id, query, body, run, stamp, now);
      && r.groupCounts == st.groupCounts
      && r.scriptCounts
         == (if !Excluded(excludeScripts, id) && run(Launch(scriptPath, query, body)).Exited? then Bump(st.scriptCounts, id)
             else st.scriptCounts)
      && r.log == AppendLines(st.log, FileLines(excludeScripts, scriptPath, id, query, body, run, stamp, now))
  {
    var announced := Logged(st, ExecutingScriptLine(stamp, id));
    var lines := FileLines(excludeScripts, scriptPath, id, query, body, run, stamp, now);
    if Excluded(excludeScripts, id) {
      AppendTwo(st.log, ExecutingScriptLine(stamp, id), ExcludedLine(stamp, id));
    } else if run(Launch(scriptPath, query, body)).Exited? {
      assert [ExecutingScriptLine(stamp, id)] == [] + [ExecutingScriptLine(stamp, id)];
      AppendLinesSnoc(st.log, [], ExecutingScriptLine(stamp, id));
    } else {
      AppendThree(st.log, ExecutingScriptLine(stamp, id), ScriptErrorLine(now, id), HandlerErrorLine(stamp, id));
    }
  }

  /**
   * The `index.sh` sub-branch: the group counter rises unless the index script ran and failed;
   * the script counter rises when it ran and succeeded; the log as listed.
   */
  lemma RunIndexEffect(st: State, excludeScripts: seq<string>, scriptPath: string, id: string, query: string,
                       body: Body, run: Oracle, stamp: string, now: string)
    ensures var r := RunIndex(st, excludeScripts, scriptPath, id, query, body, run, stamp, now);
      var ran := !Excluded(excludeScripts, id);
      var outcome := run(Launch(Child(scriptPath, IndexScript), query, body));
      && r.groupCounts == (if ran && outcome.Failed? then st.groupCounts else Bump(st.groupCounts, id))
      && r.scriptCounts == (if ran && outcome.Exited? then Bump(st.scriptCounts, id) else st.scriptCounts)
      && r.log == AppendLines(st.log, IndexLines(excludeScripts, scriptPath, id, query, body, run, stamp, now))
  {
    if Excluded(excludeScripts, id) {
      AppendThree(st.log, ExecutingDirectlyLine(stamp, id), ExcludedLine(stamp, id), ExecutedGroupLine(stamp, id));
    } else if run(Launch(Child(scriptPath, IndexScript), query, body)).Exited? {
      AppendTwo(st.log, ExecutingDirectlyLine(stamp, id), ExecutedGroupLine(stamp, id));
    } else {
      AppendThree(st.log, ExecutingDirectlyLine(stamp, id), ScriptErrorLine(now, id), HandlerErrorLine(stamp, id));
    }
  }

  /** The fan-out sub-branch: the group counter rises once; files counted and logged as the fan-out says. */
  lemma FanOutBranchEffect(st: State, fs: FileSystem, excludeScripts: seq<string>, scriptPath: string,
                           files: seq<string>, id: string, query: string, body: Body, run: Oracle,
                           stamp: string, now: string)
    requires !HasIndex(fs, scriptPath)
    ensures var r := RunDirectory(st, fs, excludeScripts, scriptPath, files, id, query, body, run, stamp, now);
      && r.groupCounts == Bump(st.groupCounts, id)
      && r.scriptCounts == BumpEach(st.scriptCounts, Succeeded(fs, scriptPath, files, body, query, run))
      && r.log == AppendLines(st.log, DirectoryLines(fs, excludeScripts, scriptPath, files, id, query, body, run, stamp, now))
  {
    var announced := Logged(st, ExecutingDirectoryLine(stamp, id));
    FanOutCounts(announced, fs, scriptPath, files, body, query, run, now);
    FanOutLog(announced, fs, scriptPath, files, body, query, run, now);
    var failures := FailureLines(fs, scriptPath, files, body, query, run, now);
    var head := [ExecutingDirectoryLine(stamp, id)];
    assert head == [] + head;
    AppendLinesSnoc(st.log, [], ExecutingDirectoryLine(stamp, id));
    AppendLinesConcat(st.log, head, failures);
    AppendLinesSnoc(st.log, head + failures, ExecutedGroupLine(stamp, id));
    assert head + (failures + [ExecutedGroupLine(stamp, id)]) == (head + failures) + [ExecutedGroupLine(stamp, id)];
  }

  /** The `isDirectory()` branch with `index.sh`: its own line, then the index sub-branch. */
  lemma IndexBranchEffect(st: State, fs: FileSystem, excludeScripts: seq<string>, scriptPath: string,
                          files: seq<string>, id: string, query: string, body: Body, run: Oracle,
                          stamp: string, now: string)
    requires HasIndex(fs, scriptPath)
    ensures var r := RunDirectory(st, fs, excludeScripts, scriptPath, files, id, query, body, run, stamp, now);
      var ran := !Excluded(excludeScripts, id);
      var outcome := run(Launch(Child(scriptPath, IndexScript), query, body));
      && r.groupCounts == (if ran && outcome.Failed? then st.groupCounts else Bump(st.groupCounts, id))
      && r.scriptCounts == (if ran && outcome.Exited? then Bump(st.scriptCounts, id) else st.scriptCounts)
      && r.log == AppendLines(st.log, DirectoryLines(fs, excludeScripts, scriptPath, files, id, query, body, run, stamp, now))
  {
    var announced := Logged(st, ExecutingDirectoryLine(stamp, id));
    RunIndexEffect(announced, excludeScripts, scriptPath, id, query, body, run, stamp, now);
    var head := [ExecutingDirectoryLine(stamp, id)];
    assert head == [] + head;
    AppendLinesSnoc(st.log, [], ExecutingDirectoryLine(stamp, id));
    AppendLinesConcat(st.log, head, IndexLines(excludeScripts, scriptPath, id, query, body, run, stamp, now));
  }

  /**
   * The whole effect of one request on the log: exactly the lines `HandlerLines` lists,
   * each appended as one `writeToLogFile`, in order.
   */
  lemma DispatchLog(st: State, shortlinks: map<string, string>, excludeScripts: seq<string>,
                    fs: FileSystem, req: Request, run: Oracle, stamp: string, now: string)
    ensures Dispatch(st, shortlinks, excludeScripts, fs, req, run, stamp, now).0.log
         == AppendLines(st.log, HandlerLines(shortlinks, excludeScripts, fs, req, run, stamp, now))
  {
    BranchEffect(st, shortlinks, excludeScripts, fs, req, run, stamp, now);
  }

  /**
   * The whole effect of one request on the script counters: one increment per name
   * `CountedScripts` lists, in order, and nothing else.
   */
  lemma DispatchScriptCounts(st: State, shortlinks: map<string, string>, excludeScripts: seq<string>,
                             fs: FileSystem, req: Request, run: Oracle, stamp: string, now: string)
    ensures Dispatch(st, shortlinks, excludeScripts, fs, req, run, stamp, now).0.scriptCounts
         == BumpEach(st.scriptCounts, CountedScripts(shortlinks, excludeScripts, fs, req, run))
  {
    BranchEffect(st, shortlinks, excludeScripts, fs, req, run, stamp, now);
  }

  /**
   * The group counter rises by exactly one, under the raw identifier, when `GroupCounted`
   * holds (an index run that succeeds or is excluded, or any fan-out, an empty one
   * included) and is untouched otherwise.
   */
  lemma DispatchGroupCounter(st: State, shortlinks: map<string, string>, excludeScripts: seq<string>,
                             fs: FileSystem, req: Request, run: Oracle, stamp: string, now: string)
    ensures Dispatch(st, shortlinks, excludeScripts, fs, req, run, stamp, now).0.groupCounts
         == if GroupCounted(shortlinks, excludeScripts, fs, req, run) then Bump(st.groupCounts, req.identifier)
            else st.groupCounts
  {
    BranchEffect(st, shortlinks, excludeScripts, fs, req, run, stamp, now);
  }

  /** The three effects of one request at once, read off the branch the path selects. */
  lemma BranchEffect(st: State, shortlinks: map<string, string>, excludeScripts: seq<string>,
                     fs: FileSystem, req: Request, run: Oracle, stamp: string, now: string)
    ensures var r := Dispatch(st, shortlinks, excludeScripts, fs, req, run, stamp, now).0;
      && r.log == AppendLines(st.log, HandlerLines(shortlinks, excludeScripts, fs, req, run, stamp, now))
      && r.scriptCounts == BumpEach(st.scriptCounts, CountedScripts(shortlinks, excludeScripts, fs, req, run))
      && r.groupCounts
         == (if GroupCounted(shortlinks, excludeScripts, fs, req, run) then Bump(st.groupCounts, req.identifier)
             else st.groupCounts)
  {
    var id := req.identifier;
    var p := ScriptPath(shortlinks, id);
    var q := QueryString(req.query);
    var r := Dispatch(st, shortlinks, excludeScripts, fs, req, run, stamp, now).0;
    var names := CountedScripts(shortlinks, excludeScripts, fs, req, run);
    if id == "" || p !in fs {
      assert r == st && names == [] && HandlerLines(shortlinks, excludeScripts, fs, req, run, stamp, now) == [];
    } else {
      assert r == RunTarget(st, fs, excludeScripts, p, id, q, req.body, run, stamp, now);
      match fs[p]
      case File =>
        RunFileEffect(st, excludeScripts, p, id, q, req.body, run, stamp, now);
        assert names == [] || names == [id];
        assert [id][..0] == [];
      case Dir(files) =>
        if HasIndex(fs, p) {
          IndexBranchEffect(st, fs, excludeScripts, p, files, id, q, req.body, run, stamp, now);
          assert names == [] || names == [id];
          assert [id][..0] == [];
        } else {
          FanOutBranchEffect(st, fs, excludeScripts, p, files, id, q, req.body, run, stamp, now);
        }
      case Other =>
        assert r == st && names == [];
    }
  }

  /** Whenever the group is counted, the "Executed group" line is the last line of the request. */
  lemma GroupLineLast(shortlinks: map<string, string>, excludeScripts: seq<string>, fs: FileSystem,
                      req: Request, run: Oracle, stamp: string, now: string)
    requires GroupCounted(shortlinks, excludeScripts, fs, req, run)
    ensures var lines := HandlerLines(shortlinks, excludeScripts, fs, req, run, stamp, now);
      lines != [] && lines[|lines| - 1] == ExecutedGroupLine(stamp, req.identifier)
  {
  }

  /** A path that is neither a regular file nor a directory (a symbolic link, say) is passed over. */
  lemma DispatchOtherEntry(st: State, shortlinks: map<string, string>, excludeScripts: seq<string>,
                           fs: FileSystem, req: Request, run: Oracle, stamp: string, now: string)
    requires req.identifier != ""
    requires ScriptPath(shortlinks, req.identifier) in fs && fs[ScriptPath(shortlinks, req.identifier)].Other?
    ensures Dispatch(st, shortlinks, excludeScripts, fs, req, run, stamp, now).0 == st
  {
  }

  /**
   * A single script that runs and succeeds is counted once, under the raw identifier (not
   * under the resolved file name); no group counter moves, and only the "Executing script"
   * line is logged.
   */
  lemma SingleScriptSucceeds(st: State, shortlinks: map<string, string>, excludeScripts: seq<string>,
                             fs: FileSystem, req: Request, run: Oracle, stamp: string, now: string)
    requires req.identifier != "" && !Excluded(excludeScripts, req.identifier)
    requires ScriptPath(shortlinks, req.identifier) in fs && fs[ScriptPath(shortlinks, req.identifier)].File?
    requires run(Launch(ScriptPath(shortlinks, req.identifier), QueryString(req.query), req.body)).Exited?
    ensures var r := Dispatch(st, shortlinks, excludeScripts, fs, req, run, stamp, now).0;
      && Get(r.scriptCounts, req.identifier) == Get(st.scriptCounts, req.identifier) + 1
      && (forall k :: k != req.identifier ==> Get(r.scriptCounts, k) == Get(st.scriptCounts, k))
      && r.groupCounts == st.groupCounts
      && r.log == AppendLines(st.log, [ExecutingScriptLine(stamp, req.identifier)])
  {
    var id := req.identifier;
    var p := ScriptPath(shortlinks, id);
    var q := QueryString(req.query);
    assert Dispatch(st, shortlinks, excludeScripts, fs, req, run, stamp, now).0
        == RunFile(st, excludeScripts, p, id, q, req.body, run, stamp, now);
    RunFileEffect(st, excludeScripts, p, id, q, req.body, run, stamp, now);
  }

  /**
   * A single script that runs and fails is not counted; the log receives the
   * "Executing script" line, the executor's failure line and the handler's error line.
   */
  lemma SingleScriptFails(st: State, shortlinks: map<string, string>, excludeScripts: seq<string>,
                          fs: FileSystem, req: Request, run: Oracle, stamp: string, now: string)
    requires req.identifier != "" && !Excluded(excludeScripts, req.identifier)
    requires ScriptPath(shortlinks, req.identifier) in fs && fs[ScriptPath(shortlinks, req.identifier)].File?
    requires run(Launch(ScriptPath(shortlinks, req.identifier), QueryString(req.query), req.body)).Failed?
    ensures var r := Dispatch(st, shortlinks, excludeScripts, fs, req, run, stamp, now).0;
      && r.scriptCounts == st.scriptCounts
      && r.groupCounts == st.groupCounts
      && r.log == AppendLines(st.log, [ExecutingScriptLine(stamp, req.identifier),
                                       ScriptErrorLine(now, req.identifier),
                                       HandlerErrorLine(stamp, req.identifier)])
  {
    var id := req.identifier;
    var p := ScriptPath(shortlinks, id);
    var q := QueryString(req.query);
    assert Dispatch(st, shortlinks, excludeScripts, fs, req, run, stamp, now).0
        == RunFile(st, excludeScripts, p, id, q, req.body, run, stamp, now);
    RunFileEffect(st, excludeScripts, p, id, q, req.body, run, stamp, now);
  }

  /**
   * An excluded single script or excluded `index.sh` is not run: no script counter moves
   * and the "is excluded" line is logged; a single script moves no group counter, an
   * excluded `index.sh` still counts its group.
   */
  lemma ExcludedScriptNotRun(st: State, shortlinks: map<string, string>, excludeScripts: seq<string>,
                             fs: FileSystem, req: Request, run: Oracle, stamp: string, now: string)
    requires req.identifier != "" && Excluded(excludeScripts, req.identifier)
    requires var p := ScriptPath(shortlinks, req.identifier);
      p in fs && (fs[p].File? || (fs[p].Dir? && HasIndex(fs, p)))
    ensures var r := Dispatch(st, shortlinks, excludeScripts, fs, req, run, stamp, now).0;
      var p := ScriptPath(shortlinks, req.identifier);
      && r.scriptCounts == st.scriptCounts
      && ExcludedLine(stamp, req.identifier) in HandlerLines(shortlinks, excludeScripts, fs, req, run, stamp, now)
      && (fs[p].File? ==> r.groupCounts == st.groupCounts)
      && (fs[p].Dir? ==> r.groupCounts == Bump(st.groupCounts, req.identifier))
  {
    BranchEffect(st, shortlinks, excludeScripts, fs, req, run, stamp, now);
  }

  /**
   * A directory without `index.sh` fans out over its whole listing: each succeeding file
   * is counted under its own name, one failure line is logged per failing file, and the
   * group counter of the identifier rises once, after all of them.
   */
  lemma DirectoryFansOut(st: State, shortlinks: map<string, string>, excludeScripts: seq<string>,
                         fs: FileSystem, req: Request, run: Oracle, stamp: string, now: string)
    requires req.identifier != ""
    requires var p := ScriptPath(shortlinks, req.identifier);
      p in fs && fs[p].Dir? && !HasIndex(fs, p)
    ensures var r := Dispatch(st, shortlinks, excludeScripts, fs, req, run, stamp, now).0;
      var p := ScriptPath(shortlinks, req.identifier);
      var q := QueryString(req.query);
      && r.scriptCounts == BumpEach(st.scriptCounts, Succeeded(fs, p, fs[p].children, req.body, q, run))
      && r.groupCounts == Bump(st.groupCounts, req.identifier)
      && r.log == AppendLines(st.log, [ExecutingDirectoryLine(stamp, req.identifier)]
                                      + FailureLines(fs, p, fs[p].children, req.body, q, run, now)
                                      + [ExecutedGroupLine(stamp, req.identifier)])
  {
    var id := req.identifier;
    var p := ScriptPath(shortlinks, id);
    var q := QueryString(req.query);
    var files := fs[p].children;
    assert Dispatch(st, shortlinks, excludeScripts, fs, req, run, stamp, now).0
        == RunDirectory(st, fs, excludeScripts, p, files, id, q, req.body, run, stamp, now);
    FanOutBranchEffect(st, fs, excludeScripts, p, files, id, q, req.body, run, stamp, now);
    var failures := FailureLines(fs, p, files, req.body, q, run, now);
    assert [ExecutingDirectoryLine(stamp, id)] + (failures + [ExecutedGroupLine(stamp, id)])
        == [ExecutingDirectoryLine(stamp, id)] + failures + [ExecutedGroupLine(stamp, id)];
  }

  /**
   * Exclusion is a test on the raw identifier: two exclusion lists that agree on it give
   * the same result, whatever they say about the alias target or the files of a directory.
   */
  lemma ExclusionByIdentifier(st: State, shortlinks: map<string, string>, ex1: seq<string>, ex2: seq<string>,
                              fs: FileSystem, req: Request, run: Oracle, stamp: string, now: string)
    requires Excluded(ex1, req.identifier) <==> Excluded(ex2, req.identifier)
    ensures Dispatch(st, shortlinks, ex1, fs, req, run, stamp, now) == Dispatch(st, shortlinks, ex2, fs, req, run, stamp, now)
  {
  }

  /** A directory that fans out runs its files even when its identifier is excluded. */
  lemma FanOutIgnoresExclusion(st: State, shortlinks: map<string, string>, excludeScripts: seq<string>,
                               fs: FileSystem, req: Request, run: Oracle, stamp: string, now: string)
    requires req.identifier != ""
    requires var p := ScriptPath(shortlinks, req.identifier);
      p in fs && fs[p].Dir? && !HasIndex(fs, p)
    ensures Dispatch(st, shortlinks, excludeScripts, fs, req, run, stamp, now) == Dispatch(st, shortlinks, [], fs, req, run, stamp, now)
  {
  }

  /** An empty alias is falsy in `shortlinks[id] || id`: it behaves as no alias at all. */
  lemma EmptyAliasFallsBack(st: State, shortlinks: map<string, string>, excludeScripts: seq<string>,
                            fs: FileSystem, req: Request, run: Oracle, stamp: string, now: string)
    requires req.identifier in shortlinks && shortlinks[req.identifier] == ""
    ensures Dispatch(st, shortlinks, excludeScripts, fs, req, run, stamp, now)
         == Dispatch(st, shortlinks - {req.identifier}, excludeScripts, fs, req, run, stamp, now)
  {
    assert ScriptPath(shortlinks, req.identifier) == ScriptPath(shortlinks - {req.identifier}, req.identifier);
  }

  /**
   * An aliased script runs at `scripts/<alias>` with the query forwarded on its command
   * line, and its success is counted under the identifier, not under the alias target.
   */
  lemma AliasedScriptCountsUnderIdentifier(st: State, shortlinks: map<string, string>, excludeScripts: seq<string>,
                                           fs: FileSystem, req: Request, run: Oracle, stamp: string, now: string)
    requires req.identifier != "" && !Excluded(excludeScripts, req.identifier)
    requires req.identifier in shortlinks && shortlinks[req.identifier] != ""
    requires var target := shortlinks[req.identifier];
      && target != req.identifier
      && Child(ScriptsRoot, target) in fs && fs[Child(ScriptsRoot, target)].File?
      && run(Invocation("sh scripts/" + target + " " + QueryString(req.query),
                        Launch(Child(ScriptsRoot, target), QueryString(req.query), req.body).stdin)).Exited?
    ensures var r := Dispatch(st, shortlinks, excludeScripts, fs, req, run, stamp, now).0;
      var target := shortlinks[req.identifier];
      && Get(r.scriptCounts, req.identifier) == Get(st.scriptCounts, req.identifier) + 1
      && Get(r.scriptCounts, target) == Get(st.scriptCounts, target)
  {
    var target := shortlinks[req.identifier];
    assert "sh " + Child(ScriptsRoot, target) + " " + QueryString(req.query)
        == "sh scripts/" + target + " " + QueryString(req.query);
    SingleScriptSucceeds(st, shortlinks, excludeScripts, fs, req, run, stamp, now);
  }

  /** `n` requests in a row, each handled on the state the one before it left. */
  function Repeat(step: State -> State, st: State, n: nat): State {
    if n == 0 then st else step(Repeat(step, st, n - 1))
  }

  /** A step that bumps one counter by one bumps it by `n` over `n` steps. */
  lemma {:induction false} RepeatBumps(step: State -> State, st: State, n: nat, id: string)
    requires forall s :: Get(step(s).scriptCounts, id) == Get(s.scriptCounts, id) + 1
    ensures Get(Repeat(step, st, n).scriptCounts, id) == Get(st.scriptCounts, id) + n
  {
    if n > 0 {
      RepeatBumps(step, st, n - 1, id);
    }
  }

  /** A step that keeps both counter maps keeps them over any number of steps. */
  lemma {:induction false} RepeatKeeps(step: State -> State, st: State, n: nat)
    requires forall s :: step(s).scriptCounts == s.scriptCounts && step(s).groupCounts == s.groupCounts
    ensures Repeat(step, st, n).scriptCounts == st.scriptCounts
    ensures Repeat(step, st, n).groupCounts == st.groupCounts
  {
    if n > 0 {
      RepeatKeeps(step, st, n - 1);
    }
  }

  /** Repeated successful requests for a script raise its counter by one each time. */
  lemma RepeatedSuccesses(step: State -> State, st: State, n: nat, shortlinks: map<string, string>,
                          excludeScripts: seq<string>, fs: FileSystem, req: Request,
                          run: Oracle, stamp: string, now: string)
    requires forall s :: step(s) == Dispatch(s, shortlinks, excludeScripts, fs, req, run, stamp, now).0
    requires req.identifier != "" && !Excluded(excludeScripts, req.identifier)
    requires ScriptPath(shortlinks, req.identifier) in fs && fs[ScriptPath(shortlinks, req.identifier)].File?
    requires run(Launch(ScriptPath(shortlinks, req.identifier), QueryString(req.query), req.body)).Exited?
    ensures Get(Repeat(step, st, n).scriptCounts, req.identifier) == Get(st.scriptCounts, req.identifier) + n
  {
    forall s ensures Get(step(s).scriptCounts, req.identifier) == Get(s.scriptCounts, req.identifier) + 1 {
      SingleScriptSucceeds(s, shortlinks, excludeScripts, fs, req, run, stamp, now);
    }
    RepeatBumps(step, st, n, req.identifier);
  }

  /** Repeated failing requests for a script never touch any counter. */
  lemma RepeatedFailures(step: State -> State, st: State, n: nat, shortlinks: map<string, string>,
                         excludeScripts: seq<string>, fs: FileSystem, req: Request,
                         run: Oracle, stamp: string, now: string)
    requires forall s :: step(s) == Dispatch(s, shortlinks, excludeScripts, fs, req, run, stamp, now).0
    requires req.identifier != "" && !Excluded(excludeScripts, req.identifier)
    requires ScriptPath(shortlinks, req.identifier) in fs && fs[ScriptPath(shortlinks, req.identifier)].File?
    requires run(Launch(ScriptPath(shortlinks, req.identifier), QueryString(req.query), req.body)).Failed?
    ensures Repeat(step, st, n).scriptCounts == st.scriptCounts
    ensures Repeat(step, st, n).groupCounts == st.groupCounts
  {
    forall s ensures step(s).scriptCounts == s.scriptCounts && step(s).groupCounts == s.groupCounts {
      SingleScriptFails(s, shortlinks, excludeScripts, fs, req, run, stamp, now);
    }
    RepeatKeeps(step, st, n);
  }
}
