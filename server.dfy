/**
 * The running server's persisted state and the operations of `src/index.ts` that change it,
 * written as the source writes them: step by step, on the two count files and the log.
 * Each method is proved to leave exactly the state its specification function in the
 * modules above describes; the properties of the server are proved about those functions.
 */
module Server {
  import opened Text
  import opened Counters
  import opened LogFile
  import opened Executor
  import opened DirectoryFanOut
  import opened Dispatcher

  class App {
    /** The contents of `executionCounts.json`. */
    var scriptCounts: map<string, nat>
    /** The contents of `groupExecutionCounts.json`. */
    var groupCounts: map<string, nat>
    /** The contents of `log.txt`. */
    var log: string
    /** The alias table read from `config.yaml` once, at startup. */
    const shortlinks: map<string, string>

    /** The persisted state as one value. */
    function Snapshot(): State
      reads this
    {
      State(scriptCounts, groupCounts, log)
    }

    /** A server over the files as they are on disk and the alias table of its configuration. */
    constructor(persisted: State, shortlinks: map<string, string>)
      ensures Snapshot() == persisted && this.shortlinks == shortlinks
    {
      scriptCounts := persisted.scriptCounts;
      groupCounts := persisted.groupCounts;
      log := persisted.log;
      this.shortlinks := shortlinks;
    }

    /** `updateExecutionCounts(scriptName)`: read the map, bump one key, write it back. */
    method UpdateExecutionCounts(scriptName: string)
      modifies this
      ensures scriptCounts == Bump(old(scriptCounts), scriptName)
      ensures groupCounts == old(groupCounts) && log == old(log)
    {
      var executionCounts := scriptCounts;
      executionCounts := executionCounts[scriptName := Get(executionCounts, scriptName) + 1];
      scriptCounts := executionCounts;
    }

    /** `updateGroupExecutionCounts(groupName)`: the same on the group counts. */
    method UpdateGroupExecutionCounts(groupName: string)
      modifies this
      ensures groupCounts == Bump(old(groupCounts), groupName)
      ensures scriptCounts == old(scriptCounts) && log == old(log)
    {
      var groupExecutionCounts := groupCounts;
      groupExecutionCounts := groupExecutionCounts[groupName := Get(groupExecutionCounts, groupName) + 1];
      groupCounts := groupExecutionCounts;
    }

    /** `limitLogFileSize(log.txt, maxSizeInBytes)`: cut an oversized log to its last lines. */
    method LimitLogFileSize(maxSizeInBytes: nat)
      modifies this
      ensures log == Rotated(old(log), maxSizeInBytes)
      ensures scriptCounts == old(scriptCounts) && groupCounts == old(groupCounts)
    {
      var fileSizeInBytes := Utf8Size(log);
      if fileSizeInBytes > maxSizeInBytes {
        var lines := Split(log, '\n');
        var truncatedContent := Join(LastN(lines, KeptLines), '\n');
        log := truncatedContent;
      }
    }

    /** `writeToLogFile(message)`: rotate against 1 MiB, then append the message and a line break. */
    method WriteToLogFile(message: string)
      modifies this
      ensures log == AppendLog(old(log), message)
      ensures scriptCounts == old(scriptCounts) && groupCounts == old(groupCounts)
    {
      LimitLogFileSize(MaxLogBytes);
      log := log + message + "\n";
    }

    /** The request-logging middleware: one "Request URL" line before any route runs. */
    method LogRequest(stamp: string, url: string)
      modifies this
      ensures log == AppendLog(old(log), RequestLine(stamp, url))
      ensures scriptCounts == old(scriptCounts) && groupCounts == old(groupCounts)
    {
      WriteToLogFile(RequestLine(stamp, url));
    }

    /**
     * `executeScript(scriptPath, body, query, scriptName)`, awaited: launch the process,
     * then count the success or log the failure and re-raise it.
     */
    method ExecuteScript(scriptPath: string, body: Body, query: string, scriptName: string,
                         run: Oracle, now: string) returns (outcome: Outcome)
      modifies this
      ensures (Snapshot(), outcome) == RunScript(old(Snapshot()), scriptPath, body, query, scriptName, run, now)
    {
      var process := Launch(scriptPath, query, body);
      match run(process)
      case Exited(_) =>
        UpdateExecutionCounts(scriptName);
        outcome := Done;
      case Failed(stderr) =>
        WriteToLogFile(ScriptErrorLine(now, scriptName));
        outcome := Raised(stderr);
    }

    /**
     * `executeScriptsInDirectory(directoryPath, body, query)`: one slot per entry of the
     * listing, in listing order, failures caught as strings; it never raises.
     */
    method ExecuteScriptsInDirectory(fs: FileSystem, directoryPath: string, body: Body, query: string,
                                     run: Oracle, now: string) returns (results: seq<Slot>)
      requires directoryPath in fs && fs[directoryPath].Dir?
      modifies this
      ensures (Snapshot(), results)
           == FanOut(old(Snapshot()), fs, directoryPath, fs[directoryPath].children, body, query, run, now)
    {
      var files := fs[directoryPath].children;
      var scriptResults: seq<Slot> := [];
      var i := 0;
      while i < |files|
        invariant 0 <= i <= |files|
        invariant (Snapshot(), scriptResults) == FanOut(old(Snapshot()), fs, directoryPath, files[..i], body, query, run, now)
      {
        var file := files[i];
        var filePath := Child(directoryPath, file);
        var slot: Slot;
        if filePath !in fs {
          slot := StatFailed(filePath);
        } else if fs[filePath].File? {
          var outcome := ExecuteScript(filePath, body, query, file, run, now);
          slot := if outcome.Raised? then ErrorText(FailureText(file, outcome.reason)) else Undefined;
        } else {
          slot := Undefined;
        }
        scriptResults := scriptResults + [slot];
        assert files[..i + 1][..i] == files[..i];
        i := i + 1;
      }
      assert files[..|files|] == files;
      results := scriptResults;
    }

    /** The `isFile()` branch of the handler's `try` block, with its `catch`. */
    method HandleFile(excludeScripts: seq<string>, scriptPath: string, id: string, query: string,
                      body: Body, run: Oracle, stamp: string, now: string)
      modifies this
      ensures Snapshot() == RunFile(old(Snapshot()), excludeScripts, scriptPath, id, query, body, run, stamp, now)
    {
      WriteToLogFile(ExecutingScriptLine(stamp, id));
      if !Excluded(excludeScripts, id) {
        var outcome := ExecuteScript(scriptPath, body, query, id, run, now);
        if outcome.Raised? {
          WriteToLogFile(HandlerErrorLine(stamp, id));
        }
      } else {
        WriteToLogFile(ExcludedLine(stamp, id));
      }
    }

    /** The `isDirectory()` branch of the handler's `try` block, with its `catch`. */
    method HandleDirectory(fs: FileSystem, excludeScripts: seq<string>, scriptPath: string, id: string,
                           query: string, body: Body, run: Oracle, stamp: string, now: string)
      requires scriptPath in fs && fs[scriptPath].Dir?
      modifies this
      ensures Snapshot()
           == RunDirectory(old(Snapshot()), fs, excludeScripts, scriptPath, fs[scriptPath].children, id, query,
                           body, run, stamp, now)
    {
      WriteToLogFile(ExecutingDirectoryLine(stamp, id));
      var requestedScriptPath := Child(scriptPath, IndexScript);
      var raised := false;
      if requestedScriptPath in fs && fs[requestedScriptPath].File? {
        WriteToLogFile(ExecutingDirectlyLine(stamp, id));
        if !Excluded(excludeScripts, id) {
          var outcome := ExecuteScript(requestedScriptPath, body, query, id, run, now);
          raised := outcome.Raised?;
        } else {
          WriteToLogFile(ExcludedLine(stamp, id));
        }
      } else {
        var _ := ExecuteScriptsInDirectory(fs, scriptPath, body, query, run, now);
      }
      if raised {
        WriteToLogFile(HandlerErrorLine(stamp, id));
      } else {
        UpdateGroupExecutionCounts(id);
        WriteToLogFile(ExecutedGroupLine(stamp, id));
      }
    }

    /** The `/:shortlinkOrScript*` handler: run what the identifier names, then redirect to `/`. */
    method HandleShortlinkOrScript(fs: FileSystem, excludeScripts: seq<string>, req: Request,
                                   run: Oracle, stamp: string, now: string) returns (response: Response)
      modifies this
      ensures (Snapshot(), response) == Dispatch(old(Snapshot()), shortlinks, excludeScripts, fs, req, run, stamp, now)
    {
      var shortlinkOrScript := req.identifier;
      if shortlinkOrScript == "" {
        return Redirect("/");
      }
      var scriptPath := ScriptPath(shortlinks, shortlinkOrScript);
      var query := QueryString(req.query);
      if scriptPath in fs {
        match fs[scriptPath]
        case File =>
          HandleFile(excludeScripts, scriptPath, shortlinkOrScript, query, req.body, run, stamp, now);
        case Dir(_) =>
          HandleDirectory(fs, excludeScripts, scriptPath, shortlinkOrScript, query, req.body, run, stamp, now);
        case Other =>
      }
      response := Redirect("/");
    }

    /** The `/logs` view: the log split at line breaks and joined again, which is the log itself. */
    method AllLogs() returns (text: string)
      ensures text == log
    {
      var lines := Split(log, '\n');
      text := Join(lines, '\n');
      JoinSplit(log, '\n');
    }

    /** The `/100-logs` view: a suffix of the log made of exactly its last 100 pieces. */
    method LastHundredLogs() returns (text: string)
      ensures IsSuffix(text, log)
      ensures Split(text, '\n') == LastN(Split(log, '\n'), KeptLines)
    {
      var lines := Split(log, '\n');
      var lastLines := LastN(lines, KeptLines);
      text := Join(lastLines, '\n');
      LastLinesTail(log);
    }
  }
}
