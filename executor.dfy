/**
 * The script executor: `executeScript` launches `sh <path> <query>`, feeds a non-empty
 * request body to the process's standard input, and on the process's verdict either
 * bumps the script counter or logs one failure line and re-raises the process's stderr.
 * The process is an oracle from the launched invocation to its outcome.
 */
module Executor {
  import opened Text
  import opened Counters
  import opened LogFile

  datatype Option<T> = None | Some(value: T)

  /**
   * The parsed request body: `null`, or an object with its own enumerable keys (in
   * `Object.keys` order) and the text `JSON.stringify` gives for it.
   */
  datatype Body = Null | Object(keys: seq<string>, json: string)

  /** What is handed to the shell: the command line and, when written, the stdin payload. */
  datatype Invocation = Invocation(command: string, stdin: Option<string>)

  /** The `exec` callback's verdict: no error (with stdout), or an error (with stderr). */
  datatype ProcessOutcome = Exited(stdout: string) | Failed(stderr: string)

  /** The process itself, abstracted as the outcome of each invocation. */
  type Oracle = Invocation -> ProcessOutcome

  /** The persisted state a request can change: both count files and the log file. */
  datatype State = State(scriptCounts: map<string, nat>, groupCounts: map<string, nat>, log: string)

  /** How an awaited execution ends: normally, or by the re-raised process error. */
  datatype Outcome = Done | Raised(reason: string)

  /** The `key=value` items of the query, one per key, in key order. */
  function QueryItems(query: seq<(string, string)>): (items: seq<string>)
    ensures |items| == |query|
  {
    seq(|query|, i requires 0 <= i < |query| => query[i].0 + "=" + query[i].1)
  }

  /** `Object.keys(req.query).map((key) => `${key}=${req.query[key]}`).join("&")`. */
  function QueryString(query: seq<(string, string)>): string {
    Join(QueryItems(query), '&')
  }

  /** Cut `s` at the first `c`: what stands before it and what follows it. */
  function Cut(s: string, c: char): (string, string) {
    if s == [] then ("", "")
    else if s[0] == c then ("", s[1..])
    else
      var (before, after) := Cut(s[1..], c);
      ([s[0]] + before, after)
  }

  /** Reads a query string back into its pairs: the inverse of `QueryString`. */
  function ParseQuery(s: string): seq<(string, string)> {
    if s == [] then []
    else
      var items := Split(s, '&');
      seq(|items|, i requires 0 <= i < |items| => Cut(items[i], '='))
  }

  lemma {:induction false} CutAtFirst(before: string, after: string, c: char)
    requires c !in before
    ensures Cut(before + [c] + after, c) == (before, after)
  {
    if before == [] {
      assert before + [c] + after == [c] + after;
    } else {
      CutAtFirst(before[1..], after, c);
      assert (before + [c] + after)[1..] == before[1..] + [c] + after;
      assert [before[0]] + before[1..] == before;
    }
  }

  /** The query string is empty exactly when there are no query keys. */
  lemma QueryStringEmpty(query: seq<(string, string)>)
    ensures QueryString(query) == "" <==> query == []
  {
    if query != [] {
      var items := QueryItems(query);
      assert |items[0]| > 0;
      assert |items| == 1 || QueryString(query) == items[0] + ['&'] + Join(items[1..], '&');
    }
  }

  /**
   * Query strings round-trip: when no key holds `&` or `=` and no value holds `&`,
   * splitting at `&` and cutting each item at its first `=` gives the pairs back.
   */
  lemma QueryRoundTrip(query: seq<(string, string)>)
    requires forall i :: 0 <= i < |query| ==> '&' !in query[i].0 && '=' !in query[i].0 && '&' !in query[i].1
    ensures ParseQuery(QueryString(query)) == query
  {
    QueryStringEmpty(query);
    if query != [] {
      var items := QueryItems(query);
      forall i | 0 <= i < |items|
        ensures '&' !in items[i] && Cut(items[i], '=') == query[i]
      {
        assert items[i] == query[i].0 + ['='] + query[i].1;
        CutAtFirst(query[i].0, query[i].1, '=');
      }
      SplitJoin(items, '&');
    }
  }

  /**
   * What `executeScript` hands to `exec`: the command `sh <scriptPath> <query>`, and the
   * JSON text of the body on stdin exactly when the body is an object with at least one key.
   */
  function Launch(scriptPath: string, query: string, body: Body): (inv: Invocation)
    ensures inv.stdin.Some? <==> body.Object? && |body.keys| > 0
    ensures inv.stdin.Some? ==> inv.stdin.value == body.json
  {
    var stdin := if body.Object? && |body.keys| > 0 then Some(body.json) else None;
    Invocation("sh " + scriptPath + " " + query, stdin)
  }

  /**
   * The command string's layout: for a script path without spaces, cutting the command at
   * its first two spaces gives `sh`, the script path and the query text. This is a fact
   * about the string only; it says nothing about how a shell parses it.
   */
  lemma LaunchCommandWords(scriptPath: string, query: string, body: Body)
    requires ' ' !in scriptPath
    ensures Cut(Launch(scriptPath, query, body).command, ' ') == ("sh", scriptPath + " " + query)
    ensures Cut(scriptPath + " " + query, ' ') == (scriptPath, query)
  {
    assert "sh " + scriptPath + " " + query == "sh" + [' '] + (scriptPath + " " + query);
    CutAtFirst("sh", scriptPath + " " + query, ' ');
    assert scriptPath + " " + query == scriptPath + [' '] + query;
    CutAtFirst(scriptPath, query, ' ');
  }

  /** The failure line `executeScript` logs, stamped with the time of the failure. */
  function ScriptErrorLine(now: string, scriptName: string): string {
    "[" + now + "] Error executing " + scriptName + ":"
  }

  /**
   * One `executeScript(scriptPath, body, query, scriptName)`: on success the counter of
   * `scriptName` rises by exactly one and nothing is logged; on failure no counter changes,
   * the log receives exactly the one failure line, and the process's stderr is re-raised.
   */
  function RunScript(st: State, scriptPath: string, body: Body, query: string, scriptName: string,
                     run: Oracle, now: string): (r: (State, Outcome))
    ensures r.0.groupCounts == st.groupCounts
    ensures run(Launch(scriptPath, query, body)).Exited? ==>
      && r.1 == Done
      && r.0.log == st.log
      && Get(r.0.scriptCounts, scriptName) == Get(st.scriptCounts, scriptName) + 1
      && (forall k :: k != scriptName ==> Get(r.0.scriptCounts, k) == Get(st.scriptCounts, k))
      && r.0.scriptCounts.Keys == st.scriptCounts.Keys + {scriptName}
    ensures run(Launch(scriptPath, query, body)).Failed? ==>
      && r.1 == Raised(run(Launch(scriptPath, query, body)).stderr)
      && r.0.scriptCounts == st.scriptCounts
      && r.0.log == AppendLog(st.log, ScriptErrorLine(now, scriptName))
  {
    match run(Launch(scriptPath, query, body))
    case Exited(_) => (st.(scriptCounts := Bump(st.scriptCounts, scriptName)), Done)
    case Failed(stderr) => (st.(log := AppendLog(st.log, ScriptErrorLine(now, scriptName))), Raised(stderr))
  }
}
