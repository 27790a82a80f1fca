# Screb shortlink dispatcher, modelled in Dafny

Screb is a small Express server. One catch-all route, `/:shortlinkOrScript*`, turns an
identifier into a shell script under `scripts/`. The identifier is resolved through the
shortlink table. The route runs either a script, a directory's `index.sh`, or every file of a
directory. It tallies the executions in two JSON count files and writes every step to
`log.txt`. Once that log passes 1 MiB it is cut back to its last 100 lines.

This project models:

- the counter store: `updateExecutionCounts` and `updateGroupExecutionCounts`;
- the log writer with its rotation: `limitLogFileSize` and `writeToLogFile`;
- the script executor: `executeScript`;
- the directory fan-out: `executeScriptsInDirectory`;
- the dispatcher route with its query serialisation;
- the `/logs` and `/100-logs` views of the log.

The modules follow the program's structure:

- `Text` (text.dfy): JavaScript's `split`, `join` and `slice(-n)` on strings, and the UTF-8
  byte size that `fs.statSync` reports for a file written as `utf8`.
- `Counters` (counters.dfy): the `name -> count` maps and their increment.
- `LogFile` (logfile.dfy): rotation, append, and the last-100-lines tail.
- `Executor` (executor.dfy):
  - the request body;
  - the query string and its inverse;
  - what is handed to `exec`;
  - one script execution, as a function of the persisted state.
- `DirectoryFanOut` (fanout.dfy): the fan-out over a directory listing.
- `Dispatcher` (dispatcher.dfy):
  - the route as a function of the persisted state;
  - the lines it logs and the names it counts;
  - its properties.
- `Server` (server.dfy): class `App`. It holds the count files and the log as fields. Its
  methods perform the source's operations step by step, and each method is proved to leave
  exactly the state that the functions above describe.

Modelling choices:

- **State.** The persisted state is the two count maps and the log text. The alias table is
  read once, at startup, so it is a constant of `App`. The exclusion list is read from
  `config.yaml` on every request, so it is a parameter of the route; an absent list is the
  empty list.
- **Filesystem.** The filesystem is a map from path to `File`, `Dir(listing)` or `Other`.
  `Other` is what `lstat` reports as neither a file nor a directory, for instance a
  symbolic link. A path that is not a key does not exist.
- **Process.** A child process is an oracle from the invocation (command line and stdin
  payload) to its verdict: an exit with stdout, or an error with stderr.
- **Timestamps.** Both are parameters. `stamp` is the route's `"<ISO time> - IP: <ip>"`.
  `now` is the ISO time at which `executeScript` logs a failure.
- **Failures.** A failing awaited execution re-raises. The model carries this as an
  `Outcome` (`Done` or `Raised(stderr)`), which the route's `catch` consumes.

Where the code does something other than what one might expect from its comments or its
documentation, the model follows the code:

- A single script, or a directory's `index.sh`, is counted under the raw identifier, not
  under the alias target or the file name (src/index.ts:506, 525-530).
- Exclusion is tested on the raw identifier only. It is not consulted for a directory that
  fans out (src/index.ts:502-505, 535-537).
- An excluded `index.sh` still counts its group. A failing `index.sh` does not: the
  re-raised error jumps to the `catch` and skips lines 539-541.
- Rotation keeps the last 100 pieces of the `"\n"`-split log. The log always ends in a
  line break, so the last piece is empty. A rotated log that had at least 100 pieces
  therefore holds 99 complete lines and still ends in a line break
  (`LogFile.LastLinesOfTerminatedLog`). A log over 1 MiB with fewer than 100 pieces is kept
  whole (`LogFile.LastLinesOfShortLog`). It is cut again, to itself, on every write, and it
  stays over the limit.
- A malformed count file makes `JSON.parse` throw. It is not read as an empty map, and
  that path is not part of this model (see below).

## Model

| member | source | states |
|---|---|---|
| Text.Join | src/index.ts:70 | `pieces.join(sep)`; its contract is stated by `Text.JoinSplit`, `Text.SplitJoin` and `Text.JoinConcat` |
| Text.LastN | src/index.ts:70 | `slice(-n)` for a positive `n`, also used at line 219; its contract is stated by `Text.LastPieces` and `LogFile.LastLinesTail` |
| Text.Split | src/index.ts:67 | `s.split(sep)` always yields at least one piece, and no piece contains the separator |
| Text.JoinSplit | src/index.ts:197-199 | joining the pieces of a split with the same separator gives the string back |
| Text.SplitJoin | src/index.ts:493-495 | splitting a join of separator-free pieces (at least one) gives the pieces back |
| Text.SplitCount | src/index.ts:67 | a split has exactly one more piece than the string has separators |
| Text.SplitTrailingSeparator | src/index.ts:81 | a string ending in the separator splits into the pieces of the rest plus one empty piece |
| Text.LastPieces | src/index.ts:70 | the join of the last `n` pieces is a suffix of the string, and splitting it gives exactly those pieces back |
| Text.Utf8Size | src/index.ts:59-60 | the UTF-8 size of a string lies between its length and four times its length |
| Text.Utf8SizeConcat | src/index.ts:81 | the UTF-8 size of a concatenation is the sum of the sizes |
| Text.Utf8SizeAscii | src/index.ts:59-60 | an ASCII-only string has as many bytes as characters |
| Text.Utf8SizeSuffix | src/index.ts:62-73 | a suffix is never larger in bytes than the string it ends |
| Counters.Get | src/index.ts:48 | `counts[name] \|\| 0`: the stored count, 0 for an absent name; its use is stated by `Counters.Bump` and `Counters.GetBump` |
| Counters.BumpEach | src/index.ts:35-55 | successive increments, one per name in order; its contract is stated by `Counters.BumpEachCounts` |
| Counters.Bump | src/index.ts:48 | after an increment of `name`, its count is the old count (0 if absent) plus 1; no other key is added, removed or changed |
| Counters.BumpEachCounts | src/index.ts:35-55 | after a run of increments every count rose by the number of times its name occurs, and the keys are the old keys plus the names |
| Counters.BumpEachGet | src/index.ts:35-55 | the count of one key after a run of increments is its old count plus its multiplicity |
| Counters.BumpEachKeys | src/index.ts:35-55 | the keys after a run of increments are exactly the old keys plus the names |
| LogFile.LastLines | src/index.ts:70 | `split("\n").slice(-100).join("\n")`, the same tail the `/100-logs` view shows at line 219; its contract is stated by `LogFile.LastLinesTail` |
| LogFile.Rotated | src/index.ts:58-75 | what `limitLogFileSize` leaves in the file; its contract is stated by `LogFile.RotatedKeeps` |
| LogFile.AppendLog | src/index.ts:78-82 | `writeToLogFile`: rotate, then append the message and a line break; its contract is stated by `LogFile.AppendLogShape` |
| LogFile.AppendLines | src/index.ts:78-82 | successive `writeToLogFile` calls, one per message in order; its contract is stated by `LogFile.AppendLinesConcat` |
| LogFile.LastLinesTail | src/index.ts:219 | the `slice(-100).join("\n")` tail is a suffix of the log whose pieces are exactly the log's last 100 pieces |
| LogFile.LastLinesOfShortLog | src/index.ts:67-70 | a log of at most 100 pieces is its own tail |
| LogFile.LastLinesBreaks | src/index.ts:67-70 | the tail holds fewer than 100 line breaks |
| LogFile.LastLinesOfTerminatedLog | src/index.ts:67-81 | a log ending in a line break with at least 100 pieces keeps a tail that ends in a line break and holds exactly 99 line breaks |
| LogFile.RotatedKeeps | src/index.ts:58-75 | rotation keeps a suffix no larger in bytes; within the limit (a strict `>` test) it keeps the log unchanged; over it, the kept text splits into exactly the log's last 100 pieces (all of them when there are fewer) |
| LogFile.AppendLogShape | src/index.ts:78-82 | after `writeToLogFile(m)` the log ends with `m + "\n"`; the prefix is a suffix of the old log, the old log itself while it was at most 1048576 bytes, and exactly the old log's last 100 pieces when it was over |
| LogFile.AppendLogSize | src/index.ts:78-82 | without rotation, an append grows the file by the message's bytes plus one |
| LogFile.AppendLinesConcat | src/index.ts:78-82 | two runs of appends in a row equal one run over both lists of messages |
| Executor.QueryString | src/index.ts:493-495 | the items joined with `&`; its contract is stated by `Executor.QueryStringEmpty` and `Executor.QueryRoundTrip` |
| Executor.ParseQuery | src/index.ts:493-495 | the inverse of the query serialisation; stated by `Executor.QueryRoundTrip` |
| Executor.QueryItems | src/index.ts:493-494 | there are as many items as query keys; their `key=value` contents are fixed by `Executor.QueryRoundTrip` |
| Executor.QueryStringEmpty | src/index.ts:493-495 | the query string is empty exactly when there are no query keys |
| Executor.QueryRoundTrip | src/index.ts:493-495 | if no key holds `&` or `=` and no value holds `&`, splitting the query string at `&` and cutting each item at its first `=` gives back the pairs, in key order |
| Executor.Launch | src/index.ts:119-136 | stdin is written exactly when the body is an object with at least one key, and then it holds the body's JSON text |
| Executor.LaunchCommandWords | src/index.ts:120 | for a path without spaces, the command is the word `sh`, then the script path, then the query string |
| Executor.ScriptErrorLine | src/index.ts:144-145 | the `[<time>] Error executing <name>:` line; it appears in the contract of `Executor.RunScript` |
| Executor.RunScript | src/index.ts:111-148 | on success the counter of `scriptName` rises by exactly 1 and nothing is logged; on failure no counter changes, exactly one `Error executing <name>:` line is appended, and stderr is re-raised; group counts never change |
| DirectoryFanOut.Child | src/index.ts:160 | `path.join(directoryPath, file)` for a plain name; its use is stated by `DirectoryFanOut.FanOutSlots` |
| DirectoryFanOut.FailureText | src/index.ts:168 | the `Error executing <file>: <error>` string a caught failure leaves in its slot; stated by `DirectoryFanOut.FanOutSlots` |
| DirectoryFanOut.FanOutStep | src/index.ts:159-171 | the callback for one entry; its effect is stated by `DirectoryFanOut.FanOutSlots`, `DirectoryFanOut.FanOutStepCounts` and `DirectoryFanOut.FanOutLog` |
| DirectoryFanOut.FanOut | src/index.ts:151-182 | there is one result slot per directory entry, and the group counts are untouched |
| DirectoryFanOut.FanOutSlots | src/index.ts:156-181 | slot `i` is what entry `i` yields on its own: `undefined` for a success or a non-file, `Error executing <file>: <stderr>` for a failure, the rejection for an entry `lstat` cannot find; a failure never stops later entries |
| DirectoryFanOut.FanOutCounts | src/index.ts:159-165 | the script counters are bumped once per succeeding file, under its own name, in listing order, and nowhere else |
| DirectoryFanOut.FanOutLog | src/index.ts:159-169 | the log receives exactly one failure line per failing file, in listing order |
| DirectoryFanOut.FanOutCountsDistinct | src/index.ts:156-166 | for a listing without repeats, each succeeding file's counter rises by exactly one and every other counter keeps its value |
| DirectoryFanOut.SucceededMultiplicity | src/index.ts:156-166 | in a listing without repeats, a name is among the succeeding files at most once, and exactly when it is a succeeding entry |
| Dispatcher.Resolve | src/index.ts:491 | `shortlinks[id] \|\| id`; stated by `Dispatcher.EmptyAliasFallsBack` and `Dispatcher.AliasedScriptCountsUnderIdentifier` |
| Dispatcher.ScriptPath | src/index.ts:487-492 | `scripts/` plus the resolved name; stated by `Dispatcher.AliasedScriptCountsUnderIdentifier` |
| Dispatcher.Excluded | src/index.ts:502-504 | `config.excludeScripts.includes(id)`, an absent list being empty; stated by `Dispatcher.ExclusionByIdentifier` |
| Dispatcher.Stamped | src/index.ts:20 | the `[<stamp>] <text>` form every route line takes; the lines below are built on it |
| Dispatcher.RequestLine | src/index.ts:20 | the middleware's `Request URL: <url>` line; stated by `Server.App.LogRequest` |
| Dispatcher.ExecutingScriptLine | src/index.ts:501 | the `Executing script: <id>` line; its place in the log is stated by `Dispatcher.RunFileEffect`, `Dispatcher.SingleScriptSucceeds` and `Dispatcher.SingleScriptFails` |
| Dispatcher.ExcludedLine | src/index.ts:509 | the `Script <id> is excluded from execution.` line, written at 509 and 533; stated by `Dispatcher.RunFileEffect`, `Dispatcher.RunIndexEffect` and `Dispatcher.ExcludedScriptNotRun` |
| Dispatcher.ExecutingDirectoryLine | src/index.ts:513 | the `Executing scripts in directory: <id>` line; stated by `Dispatcher.IndexBranchEffect` and `Dispatcher.FanOutBranchEffect` |
| Dispatcher.ExecutingDirectlyLine | src/index.ts:520 | the `Executing script directly: <id>` line; stated by `Dispatcher.RunIndexEffect` |
| Dispatcher.ExecutedGroupLine | src/index.ts:541 | the `Executed group: <id>` line; stated by `Dispatcher.FanOutBranchEffect`, `Dispatcher.RunIndexEffect` and `Dispatcher.GroupLineLast` |
| Dispatcher.HandlerErrorLine | src/index.ts:549 | the route catch's `Error executing <id>:` line; stated by `Dispatcher.RunFileEffect`, `Dispatcher.RunIndexEffect` and `Dispatcher.SingleScriptFails` |
| Dispatcher.Logged | src/index.ts:78-82 | the state after one `writeToLogFile(line)`: only the log changes, by `LogFile.AppendLog`; stated by `Dispatcher.DispatchLog` |
| Dispatcher.HasIndex | src/index.ts:514-518 | the `existsSync && lstatSync(...).isFile()` test that lets `index.sh` win over the fan-out; stated by `Dispatcher.IndexBranchEffect` and `Dispatcher.FanOutBranchEffect` |
| Dispatcher.Grouped | src/index.ts:539-541 | the group bump followed by the `Executed group` line; stated by `Dispatcher.DispatchGroupCounter` and `Dispatcher.GroupLineLast` |
| Dispatcher.Caught | src/index.ts:547-551 | the route's `catch`: one more error line when an execution re-raised; stated by `Dispatcher.RunFileEffect` and `Dispatcher.RunIndexEffect` |
| Dispatcher.RunFile | src/index.ts:499-511 | the file branch; its contract is stated by `Dispatcher.RunFileEffect` |
| Dispatcher.RunIndex | src/index.ts:515-534 | the `index.sh` sub-branch; its contract is stated by `Dispatcher.RunIndexEffect` |
| Dispatcher.RunDirectory | src/index.ts:511-541 | the directory branch; its contract is stated by `Dispatcher.IndexBranchEffect` and `Dispatcher.FanOutBranchEffect` |
| Dispatcher.RunTarget | src/index.ts:497-551 | the `try` block with its `catch` for an existing path; stated by `Dispatcher.BranchEffect` |
| Dispatcher.Dispatch | src/index.ts:476-553 | every request answers with a redirect to `/`; an empty identifier, or a path that does not exist, leaves counters and log unchanged |
| Dispatcher.RunFileEffect | src/index.ts:499-511 | the file branch moves no group counter; it bumps the identifier's counter exactly when the file is not excluded and runs successfully; the log receives exactly the lines `FileLines` lists |
| Dispatcher.RunIndexEffect | src/index.ts:515-541 | the `index.sh` branch bumps the group counter unless the index ran and failed, and bumps the identifier's script counter exactly when it ran and succeeded; the log gets exactly the `IndexLines` lines |
| Dispatcher.IndexBranchEffect | src/index.ts:511-541 | a directory with `index.sh` logs its own line, then behaves as the index branch |
| Dispatcher.FanOutBranchEffect | src/index.ts:511-541 | a directory without `index.sh` bumps its group counter once and counts each succeeding file under its own name; the log gets the directory line, the failure lines, then the group line |
| Dispatcher.BranchEffect | src/index.ts:476-553 | one request's whole effect: log, script counters and group counter, as `HandlerLines`, `CountedScripts` and `GroupCounted` give them |
| Dispatcher.DispatchLog | src/index.ts:497-551 | the log after a request is the old log with exactly the `HandlerLines` lines appended, one `writeToLogFile` each, in order |
| Dispatcher.DispatchScriptCounts | src/index.ts:497-551 | the script counters after a request are the old ones bumped once for each name in `CountedScripts`, and nowhere else |
| Dispatcher.DispatchGroupCounter | src/index.ts:511-547 | the group counter of the identifier rises by exactly 1 after an index run that succeeds or is excluded, or after any fan-out (an empty one included); it is untouched otherwise, including when the index fails |
| Dispatcher.GroupLineLast | src/index.ts:536-541 | when the group is counted, `Executed group` is the last line of the request, after all executions |
| Dispatcher.DispatchOtherEntry | src/index.ts:498-511 | an existing path that is neither a file nor a directory changes nothing |
| Dispatcher.SingleScriptSucceeds | src/index.ts:499-506 | a run single script that succeeds is counted once under the identifier; no other counter, no group counter, and only the `Executing script` line is logged |
| Dispatcher.SingleScriptFails | src/index.ts:499-506 | a run single script that fails is not counted; the log gets `Executing script`, then the executor's error line, then the handler's error line |
| Dispatcher.ExcludedScriptNotRun | src/index.ts:502-510 | an excluded file or excluded `index.sh` is not run: no script counter moves and the `is excluded` line is logged; the file moves no group counter, the directory still counts its group |
| Dispatcher.DirectoryFansOut | src/index.ts:535-541 | a fan-out counts each succeeding file under its own name, logs the directory line, one failure line per failing file and the group line, and bumps the group once |
| Dispatcher.ExclusionByIdentifier | src/index.ts:502-505 | exclusion depends only on whether the raw identifier is listed, not on the alias target or the files of a directory |
| Dispatcher.FanOutIgnoresExclusion | src/index.ts:535-537 | a directory that fans out behaves the same whatever the exclusion list says |
| Dispatcher.EmptyAliasFallsBack | src/index.ts:491 | an empty alias is falsy in `shortlinks[id] \|\| id`, so it behaves as no alias at all |
| Dispatcher.AliasedScriptCountsUnderIdentifier | src/index.ts:487-506 | an aliased script runs as `sh scripts/<alias> <query>` (`scripts` standing for the absolute scripts directory), and its success is counted under the identifier, not under the alias target |
| Dispatcher.RepeatBumps | src/index.ts:48 | a step that bumps one counter by one bumps it by `n` over `n` steps |
| Dispatcher.RepeatKeeps | src/index.ts:48 | a step that keeps both counter maps keeps them over any number of steps |
| Dispatcher.RepeatedSuccesses | src/index.ts:499-506 | `n` successful requests for a script raise its counter by exactly `n` |
| Dispatcher.RepeatedFailures | src/index.ts:499-506 | repeated failing requests for a script never touch any counter |
| Server.App.constructor | src/index.ts:25-32 | the server starts from the persisted files and the configured alias table |
| Server.App.UpdateExecutionCounts | src/index.ts:35-55 | the script counts become `Bump` of the old ones at `scriptName`; the group counts and the log are unchanged |
| Server.App.UpdateGroupExecutionCounts | src/index.ts:85-108 | the group counts become `Bump` of the old ones at `groupName`; the script counts and the log are unchanged |
| Server.App.LimitLogFileSize | src/index.ts:58-75 | the log becomes `Rotated` of the old log at the given threshold; nothing else changes |
| Server.App.WriteToLogFile | src/index.ts:78-82 | the log becomes `AppendLog` of the old log and the message; nothing else changes |
| Server.App.LogRequest | src/index.ts:17-22 | the middleware appends exactly one `Request URL` line; nothing else changes |
| Server.App.ExecuteScript | src/index.ts:111-148 | the new state and the outcome are those `RunScript` gives for the old state |
| Server.App.ExecuteScriptsInDirectory | src/index.ts:151-182 | the loop over the listing leaves the state and the result slots that `FanOut` gives |
| Server.App.HandleFile | src/index.ts:499-511 | the file branch leaves the state that `RunFile` gives |
| Server.App.HandleDirectory | src/index.ts:511-541 | the directory branch leaves the state that `RunDirectory` gives |
| Server.App.HandleShortlinkOrScript | src/index.ts:476-553 | the route leaves the state and the response that `Dispatch` gives for the old state |
| Server.App.AllLogs | src/index.ts:185-203 | the `/logs` view is the whole log |
| Server.App.LastHundredLogs | src/index.ts:205-222 | the `/100-logs` view is a suffix of the log made of exactly its last 100 pieces |

## Left out

- I/O: reading and writing the files, `console` output, and the HTTP layer beyond the
  route's redirect. The model keeps the contents of the files, not the files.
- The request-logging middleware's URL and IP strings are parameters (`stamp`, `url`).
  Body parsing is modelled only as its result, `Body`.
- Startup: loading the alias table from `config.yaml`, and the two log lines written
  once the server listens. These are framework plumbing; the constructor takes the loaded
  state.
- YAML and JSON parsing and printing are library calls, and the counts are always a map.
  A malformed count file is not modelled. In the source the script count file is parsed
  inside the `.then` of `executeScript` (src/index.ts:138-141), so a parse error there is
  handled like a failed process: the `.catch` logs `Error executing <name>:` and re-raises
  (142-147), and then either the route's `catch` logs and redirects (547-551) or the fan-out
  turns it into its error text (166-169). A script that succeeded is thus reported as
  failed. The group count file is parsed at line 539, inside the route's `try`, so its
  parse error also ends in the route's `catch` and a redirect, without the
  `Executed group` line.
- `limitLogFileSize` calls `statSync`, which throws when `log.txt` does not exist yet. The
  model assumes the log file exists; an empty log stands for an empty file.
- Process spawning through `child_process.exec` is an oracle from the command string and
  the stdin payload to a verdict. `Executor.LaunchCommandWords` states only how that string
  is laid out, not how `/bin/sh` parses it. The shell's parsing is not modelled: the query is
  inserted unquoted (src/index.ts:120). With two or more query keys, the `&` that joins the
  items (line 495) is a shell control operator. `sh <path> a=1&b=2` then runs the script in
  the background with only the first item as its argument and `/dev/null` as its stdin, not
  the pipe written at line 134. `exec` then reports the exit status of the trailing
  assignment `b=2`, which succeeds, so a failing script is counted as a success. A value
  holding a space splits into further words. The oracle's verdict for such a command stands
  for whatever the shell reports.
- `path.join` normalisation (`..`, doubled slashes, an identifier with a slash) is written
  as plain `dir + "/" + name`. The model's root `"scripts"` stands for the absolute
  directory `path.join(__dirname, "..", "scripts")` (src/index.ts:487-492), so the real
  command line carries the absolute install path where the model has `scripts/`.
- Prototype keys of plain JavaScript objects are not modelled. The alias table is a plain
  map, so an identifier such as `constructor` is not looked up through the prototype (in
  the source it makes `path.join` throw at line 487, outside the `try`; see the
  `Dispatcher.Dispatch` lines below). The two count objects are plain maps
  too: `Counters.Bump` gives 1 for a first-time key, while in the source a fan-out file named
  `toString` or `constructor` reads a function at line 48, so `(fn || 0) + 1` concatenates
  strings, and a file named `__proto__` is not stored at all.
- Query values that are arrays or nested objects, which Express prints with their own
  `toString`, and the `Object.keys` order of integer-like keys: the query is given as the
  pairs, in the order the keys enumerate.
- Concurrency. The real fan-out starts all executions at once and completes them in any
  order. Each count update and each log write is synchronous and runs to completion, but two
  requests interleave as wholes at their `await`s (src/index.ts:506, 525-530, 536), so the
  log lines and counter bumps of concurrent requests mix. The model runs the fan-out
  sequentially, in listing order, and handles each request atomically. The final counts do
  not depend on that order (`Counters.BumpEachCounts`), but the order of the lines in the
  log does.
- DirectoryFanOut.FanOut: all failure lines of one fan-out carry the same `now`. In the
  source each failing `executeScript` takes a fresh `new Date()` in its `catch`
  (src/index.ts:144), so their times can differ.
- Dispatcher.Dispatch: assumes that `config.yaml` exists and parses to an object. The route
  re-reads it at src/index.ts:478-479, outside the `try`. If the file is missing or
  malformed, the handler's promise rejects without a redirect. Startup tolerates a missing
  file (line 28), but the route does not. The route is registered with Express 4 path
  syntax, and Express 4 does not catch a rejected `async` handler. The rejection is therefore
  unhandled: from Node 15 on the default is to end the process, so every later request
  fails too; earlier Node versions only warn, and this request hangs.
- Dispatcher.Dispatch: its redirect promise holds only for processes that exit. The oracle is
  total, but `exec` (src/index.ts:119-130) has no timeout and waits for the child. When the
  body is missing or has no keys, stdin is neither written nor ended (133-136), so a script
  that reads stdin never sees end of input and never exits. The `await` at 506, 525-530 or
  536 then never resumes: no count, no group bump, no further log line and no redirect. In a
  fan-out, `Promise.allSettled` (174) never settles, so the group is not counted either.
- Dispatcher.Dispatch: its redirect promise also holds only because the alias table is a plain
  map. An identifier naming an `Object.prototype` member (`constructor`, `toString`,
  `__proto__`, `hasOwnProperty`, ...) makes `shortlinks[id] || id` (line 491) a function or an
  object. `path.join` then throws a TypeError at line 487, before the `try` that opens at
  line 497. No `catch` handles it: the request gets no redirect and no `Error executing` line,
  and the rejection goes unhandled with the consequences described above.
- JavaScript numbers are unbounded counts (`nat`) in the model; counts beyond 2^53 lose
  precision in the source.
- Server.App.ExecuteScriptsInDirectory: requires that the path is a directory. `readdirSync`
  throws otherwise, but the route only calls it on a path `lstat` reported as a directory.
- The HTML and chart pages for `/` and `/stats`, and the duplicate `/stats` route, are
  presentation without logic.
