/**
 * The shared text log `log.txt`: `writeToLogFile` first lets `limitLogFileSize` cut an
 * oversized log down to its last lines, then appends the message and a line break.
 * The `/100-logs` view shows the same tail that the rotation keeps, `/logs` the whole log.
 */
module LogFile {
  import opened Text

  /** The size threshold, in bytes, that `writeToLogFile` passes to `limitLogFileSize`. */
  const MaxLogBytes: nat := 1048576

  /** How many `"\n"`-separated pieces the rotation and the `/100-logs` view keep. */
  const KeptLines: nat := 100

  /** `data.split("\n").slice(-100).join("\n")`. */
  function LastLines(log: string): string {
    Join(LastN(Split(log, '\n'), KeptLines), '\n')
  }

  /**
   * The tail is a suffix of the log whose pieces are exactly the log's last 100 pieces
   * (all of them when there are fewer).
   */
  lemma LastLinesTail(log: string)
    ensures IsSuffix(LastLines(log), log)
    ensures Split(LastLines(log), '\n') == LastN(Split(log, '\n'), KeptLines)
  {
    LastPieces(log, '\n', KeptLines);
  }

  /** A log of at most 100 pieces is its own tail. */
  lemma LastLinesOfShortLog(log: string)
    requires |Split(log, '\n')| <= KeptLines
    ensures LastLines(log) == log
  {
    JoinSplit(log, '\n');
  }

  /** The tail holds fewer than 100 line breaks. */
  lemma LastLinesBreaks(log: string)
    ensures multiset(LastLines(log))['\n'] < KeptLines
  {
    LastLinesTail(log);
    SplitCount(LastLines(log), '\n');
  }

  /**
   * A log that ends in a line break splits into a trailing empty piece, which the tail
   * keeps: the tail of such a log of at least 100 pieces ends in a line break and holds
   * exactly 99 complete lines.
   */
  lemma {:induction false} LastLinesOfTerminatedLog(log: string)
    requires log != [] && log[|log| - 1] == '\n'
    requires |Split(log, '\n')| >= KeptLines
    ensures LastLines(log) != [] && LastLines(log)[|LastLines(log)| - 1] == '\n'
    ensures multiset(LastLines(log))['\n'] == KeptLines - 1
  {
    var body := log[..|log| - 1];
    assert log == body + ['\n'];
    SplitTrailingSeparator(body, '\n');
    var pieces := Split(log, '\n');
    var kept := LastN(pieces, KeptLines);
    assert |kept| == KeptLines && kept[KeptLines - 1] == "";
    assert kept == kept[..KeptLines - 1] + [""];
    JoinConcat(kept[..KeptLines - 1], [""], '\n');
    LastLinesTail(log);
    SplitCount(LastLines(log), '\n');
  }

  /**
   * What `limitLogFileSize(path, maxBytes)` leaves in the file: the log itself while its
   * UTF-8 size is at most `maxBytes` (the test is a strict `>`), its last-lines tail after.
   */
  function Rotated(log: string, maxBytes: nat): string {
    if Utf8Size(log) > maxBytes then LastLines(log) else log
  }

  /**
   * Rotation only ever drops a prefix: it keeps a suffix no larger than the log, the log
   * itself within the limit, and over it exactly the log's last 100 pieces.
   */
  lemma RotatedKeeps(log: string, maxBytes: nat)
    ensures IsSuffix(Rotated(log, maxBytes), log) && Utf8Size(Rotated(log, maxBytes)) <= Utf8Size(log)
    ensures Utf8Size(log) <= maxBytes ==> Rotated(log, maxBytes) == log
    ensures Utf8Size(log) > maxBytes ==> Split(Rotated(log, maxBytes), '\n') == LastN(Split(log, '\n'), KeptLines)
    ensures Utf8Size(log) > maxBytes ==> |Split(Rotated(log, maxBytes), '\n')| <= KeptLines
  {
    LastLinesTail(log);
    if Utf8Size(log) > maxBytes {
      Utf8SizeSuffix(LastLines(log), log);
    }
  }

  /** `writeToLogFile(message)`: rotate against the 1 MiB threshold, then append the line. */
  function AppendLog(log: string, message: string): string {
    Rotated(log, MaxLogBytes) + message + "\n"
  }

  /**
   * The new log ends with the message and a line break; what precedes them is a suffix of
   * the old log, the old log itself while it is within the threshold, and exactly the old
   * log's last 100 pieces once it was over.
   */
  lemma AppendLogShape(log: string, message: string)
    ensures var after := AppendLog(log, message);
      && |after| > |message|
      && after[|after| - |message| - 1..] == message + "\n"
      && IsSuffix(after[..|after| - |message| - 1], log)
      && (Utf8Size(log) <= MaxLogBytes ==> after == log + message + "\n")
      && (Utf8Size(log) > MaxLogBytes ==> Split(after[..|after| - |message| - 1], '\n') == LastN(Split(log, '\n'), KeptLines))
      && (Utf8Size(log) > MaxLogBytes ==> |Split(after[..|after| - |message| - 1], '\n')| <= KeptLines)
  {
    var kept := Rotated(log, MaxLogBytes);
    var after := AppendLog(log, message);
    RotatedKeeps(log, MaxLogBytes);
    assert after == kept + (message + "\n");
    assert |after| - |message| - 1 == |kept|;
    assert after[|kept|..] == message + "\n";
    assert after[..|kept|] == kept;
  }

  /** Successive `writeToLogFile` calls, one per message, in order. */
  function AppendLines(log: string, messages: seq<string>): string
    decreases |messages|
  {
    if messages == [] then log
    else AppendLog(AppendLines(log, messages[..|messages| - 1]), messages[|messages| - 1])
  }

  /** Appending one more message after a run of appends. */
  lemma AppendLinesSnoc(log: string, messages: seq<string>, message: string)
    ensures AppendLines(log, messages + [message]) == AppendLog(AppendLines(log, messages), message)
  {
    assert (messages + [message])[..|messages|] == messages;
  }

  /** Two runs of appends in a row are one run over both lists of messages. */
  lemma {:induction false} AppendLinesConcat(log: string, first: seq<string>, second: seq<string>)
    ensures AppendLines(log, first + second) == AppendLines(AppendLines(log, first), second)
    decreases |second|
  {
    if second == [] {
      assert first + second == first;
    } else {
      var init := second[..|second| - 1];
      var last := second[|second| - 1];
      calc {
        AppendLines(log, first + second);
        { assert first + second == (first + init) + [last]; }
        AppendLines(log, (first + init) + [last]);
        { AppendLinesSnoc(log, first + init, last); }
        AppendLog(AppendLines(log, first + init), last);
        { AppendLinesConcat(log, first, init); }
        AppendLog(AppendLines(AppendLines(log, first), init), last);
        { AppendLinesSnoc(AppendLines(log, first), init, last); }
        AppendLines(AppendLines(log, first), init + [last]);
        { assert second == init + [last]; }
        AppendLines(AppendLines(log, first), second);
      }
    }
  }

  /** Without rotation an append grows the file by the message's bytes plus one. */
  lemma AppendLogSize(log: string, message: string)
    requires Utf8Size(log) <= MaxLogBytes
    ensures Utf8Size(AppendLog(log, message)) == Utf8Size(log) + Utf8Size(message) + 1
  {
    RotatedKeeps(log, MaxLogBytes);
    Utf8SizeConcat(log, message);
    Utf8SizeConcat(log + message, "\n");
  }
}
