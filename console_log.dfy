/**
 * The application console: a log that keeps only the latest 50 entries,
 * and the hook that gives a component access to it.
 */
module ConsoleLog {
  import opened Wrappers

  datatype LogType = EmotionLog | SentimentLog | TranscriptionLog | InfoLog | ErrorLog

  datatype LogEntry = LogEntry(message: string, logType: Option<LogType>)

  /** What the provider hands to its consumers: the current log. */
  datatype ConsoleLogContext = ConsoleLogContext(logs: seq<LogEntry>)

  const MaxLogs: nat := 50

  const MissingProvider: string := "useLog must be used within a ConsoleLogProvider"

  ghost predicate IsSuffix<T>(s: seq<T>, t: seq<T>)
  {
    |s| <= |t| && s == t[|t| - |s|..]
  }

  /** Append one entry and keep the last MaxLogs entries (`slice(-50)`). */
  function AddLog(prev: seq<LogEntry>, entry: LogEntry): (logs: seq<LogEntry>)
    ensures |logs| == if |prev| + 1 < MaxLogs then |prev| + 1 else MaxLogs
    ensures logs[|logs| - 1] == entry
    ensures IsSuffix(logs, prev + [entry])
    ensures |prev| < MaxLogs ==> logs == prev + [entry]
  {
    var all := prev + [entry];
    var start := if |all| < MaxLogs then 0 else |all| - MaxLogs;
    all[start..]
  }

  /** The log after adding `entries` one by one, oldest first. */
  function AddAll(prev: seq<LogEntry>, entries: seq<LogEntry>): seq<LogEntry>
    decreases |entries|
  {
    if entries == [] then prev
    else AddAll(AddLog(prev, entries[0]), entries[1..])
  }

  /** The last `n` elements of `s`, or all of `s` when it is shorter. */
  function LastN<T>(s: seq<T>, n: nat): seq<T>
  {
    if |s| <= n then s else s[|s| - n..]
  }

  /** Trimming to the last `n` before appending changes nothing once trimmed again. */
  lemma LastNOfAppend<T>(a: seq<T>, b: seq<T>, n: nat)
    ensures LastN(LastN(a, n) + b, n) == LastN(a + b, n)
  {
    if |a| > n {
      var t := a + b;
      var s := a[|a| - n..] + b;
      assert s == t[|a| - n..];
    }
  }

  /**
   * However many entries arrive, the log is the latest MaxLogs of
   * everything logged, in arrival order.
   */
  lemma {:induction false} AddAllKeepsLatest(prev: seq<LogEntry>, entries: seq<LogEntry>)
    requires |prev| <= MaxLogs
    ensures AddAll(prev, entries) == LastN(prev + entries, MaxLogs)
    decreases |entries|
  {
    if entries != [] {
      var first, rest := entries[0], entries[1..];
      var next := AddLog(prev, first);
      assert next == LastN(prev + [first], MaxLogs);
      AddAllKeepsLatest(next, rest);
      LastNOfAppend(prev + [first], rest, MaxLogs);
      assert prev + [first] + rest == prev + entries;
    }
  }

  /** The hook's result: the context, or an error when no provider is mounted. */
  function UseLog(context: Option<ConsoleLogContext>): (r: Result<ConsoleLogContext, string>)
    ensures r.Failure? <==> context.None?
    ensures r.Failure? ==> r.error == MissingProvider
    ensures r.Success? ==> Some(r.value) == context
  {
    match context
    case None => Failure(MissingProvider)
    case Some(c) => Success(c)
  }
}
