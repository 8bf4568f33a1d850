/**
 * The log history of the logs view: the module-level `flowOutputs` list and
 * the `logs` list, which starts out as twenty sample entries. Adding the
 * outputs of a run puts them in front of the output history, keeps the
 * first hundred, and puts at the front of the log a summary entry and then,
 * one by one, an error entry for every output that reports an error.
 * `new Date().toISOString()`, `Date.now()` and `JSON.stringify` are the
 * parameters `isoNow`, `now` and `stringify`.
 */
module LogData {
  import opened JsValues

  /** A node's record from a run; the fields the history does not read are left out. */
  datatype FlowOutput = FlowOutput(nodeId: string, nodeName: string, nodeType: string, timestamp: string, output: Json)

  /** One entry of the logs view. */
  datatype LogEntry = LogEntry(id: string, timestamp: string, agentName: string, eventType: string, details: string)

  /** How many outputs the history keeps. */
  const HistoryLimit: nat := 100

  /** `xs.slice(0, 100)` */
  function Recent<T>(xs: seq<T>): (r: seq<T>)
    ensures |r| <= HistoryLimit
    ensures |xs| <= HistoryLimit ==> r == xs
    ensures |xs| > HistoryLimit ==> |r| == HistoryLimit
    ensures r == xs[..|r|]
  {
    if |xs| <= HistoryLimit then xs else xs[..HistoryLimit]
  }

  /** Two additions keep the same history as one addition of both batches, newer batch first. */
  lemma RecentTwice<T>(earlier: seq<T>, later: seq<T>, history: seq<T>)
    ensures Recent(later + Recent(earlier + history)) == Recent(later + earlier + history)
  {
    var x := earlier + history;
    assert later + earlier + history == later + x;
    if |later| < HistoryLimit && |later + x| > HistoryLimit {
      var n := HistoryLimit - |later|;
      assert Recent(later + Recent(x)) == later + Recent(x)[..n];
      assert Recent(later + x) == later + x[..n];
    }
  }

  /** The position of the first `c` in `s`. */
  function FirstIndex(s: string, c: char): (i: Option<nat>)
    ensures i.Some? ==> i.value < |s| && s[i.value] == c && forall j :: 0 <= j < i.value ==> s[j] != c
    ensures i.None? ==> forall j :: 0 <= j < |s| ==> s[j] != c
  {
    if s == [] then None
    else if s[0] == c then Some(0)
    else
      match FirstIndex(s[1..], c)
      case None => None
      case Some(i) => Some(i + 1)
  }

  /** `s.replace(c, d)` with a one-character pattern: only the first occurrence is replaced. */
  function ReplaceFirst(s: string, c: char, d: char): (r: string)
    ensures |r| == |s|
    ensures forall i :: 0 <= i < |s| ==> r[i] == if FirstIndex(s, c) == Some(i) then d else s[i]
  {
    match FirstIndex(s, c)
    case None => s
    case Some(i) => s[i := d]
  }

  /** `timestamp.replace('T', ' ').substring(0, 19)` */
  function FormatTimestamp(s: string): string {
    var r := ReplaceFirst(s, 'T', ' ');
    if |r| <= 19 then r else r[..19]
  }

  /**
   * An ISO-8601 instant `YYYY-MM-DDTHH:MM:SS...` is shown as its date and
   * its time to the second, separated by a space.
   */
  lemma IsoTimestampShown(s: string)
    requires |s| >= 19 && s[10] == 'T'
    requires forall j :: 0 <= j < 10 ==> s[j] != 'T'
    ensures FormatTimestamp(s) == s[..10] + " " + s[11..19]
  {
    assert FirstIndex(s, 'T') == Some(10);
  }

  /** The timestamp keeps at most nineteen characters, with a `T` only after a first one. */
  lemma FormattedTimestampShape(s: string)
    ensures |FormatTimestamp(s)| == if |s| <= 19 then |s| else 19
    ensures forall i :: 0 <= i < |FormatTimestamp(s)| && FormatTimestamp(s)[i] == 'T' ==>
              exists j :: 0 <= j < i && s[j] == 'T'
  {
    var t := FormatTimestamp(s);
    forall i | 0 <= i < |t| && t[i] == 'T' ensures exists j :: 0 <= j < i && s[j] == 'T' {
      var k := FirstIndex(s, 'T').value;
      assert k < i;
    }
  }

  /** The decimal digits of `n`, as a template literal renders a number. */
  function Decimal(n: nat): (d: string)
    ensures d != []
    ensures forall i :: 0 <= i < |d| ==> '0' <= d[i] <= '9'
  {
    var digit := ['0' + (n % 10) as char];
    if n < 10 then digit else Decimal(n / 10) + digit
  }

  /**
   * `output.nodeType === 'error' || output.output.toString().toLowerCase().includes('error')`;
   * reading `toString` of a nullish output throws unless the first test already held.
   */
  function IsErrorOutput(o: FlowOutput): (r: Result<bool>)
    ensures r.Throw? <==> o.nodeType != "error" && (o.output == Undefined || o.output == Null)
    ensures o.nodeType == "error" ==> r == Ok(true)
    ensures o.nodeType != "error" && r.Ok? ==> (r.value <==> Contains(ToLower(ToText(o.output)), "error"))
  {
    if o.nodeType == "error" then Ok(true)
    else
      var _ :- Member(o.output, "toString");
      Ok(Contains(ToLower(ToText(o.output)), "error"))
  }

  /** The text test ignores case: an output that says "ERROR" or "Error" reports an error whatever its type. */
  lemma CapitalisedErrorReported(o: FlowOutput)
    requires o.output.Str? && (Contains(o.output.s, "ERROR") || Contains(o.output.s, "Error"))
    ensures IsErrorOutput(o) == Ok(true)
  {
    if o.nodeType != "error" {
      assert ToLower("ERROR") == "error" && ToLower("Error") == "error";
      if Contains(o.output.s, "ERROR") {
        ContainsToLower(o.output.s, "ERROR");
      } else {
        ContainsToLower(o.output.s, "Error");
      }
    }
  }

  /** The entry logged for an output that reports an error. */
  function ErrorEntry(o: FlowOutput, now: nat, stringify: Json -> string): (e: LogEntry)
    ensures e.eventType == "error" && e.agentName == o.nodeName && e.timestamp == FormatTimestamp(o.timestamp)
  {
    var shown := if TypeOf(o.output) == "object" then stringify(o.output) else ToText(o.output);
    LogEntry("node-" + o.nodeId + "-" + Decimal(now), FormatTimestamp(o.timestamp), o.nodeName, "error",
             "Error in node execution: " + shown)
  }

  /** The entry that sums up a run of `count` outputs. */
  function Summary(isoNow: string, now: nat, count: nat): (e: LogEntry)
    ensures e.eventType == "info" && e.agentName == "Flow Engine"
    ensures e.details == "Completed flow execution with " + Decimal(count) + " node outputs"
  {
    LogEntry("flow-run-" + Decimal(now), FormatTimestamp(isoNow), "Flow Engine", "info",
             "Completed flow execution with " + Decimal(count) + " node outputs")
  }

  /** Where the pass over the outputs stands: the entries unshifted so far, newest first, and the error that stopped it. */
  datatype Scanned = Scanned(entries: seq<LogEntry>, failure: Option<string>)

  /** The `forEach` over the outputs, each error entry put at the front. */
  function Scan(outputs: seq<FlowOutput>, now: nat, stringify: Json -> string): Scanned
    decreases |outputs|
  {
    if outputs == [] then Scanned([], None)
    else
      var before := Scan(outputs[..|outputs| - 1], now, stringify);
      var last := outputs[|outputs| - 1];
      if before.failure.Some? then before
      else match IsErrorOutput(last)
        case Throw(message) => Scanned(before.entries, Some(message))
        case Ok(isError) => Scanned(if isError then [ErrorEntry(last, now, stringify)] + before.entries else before.entries, None)
  }

  /** The error entries in output order: one for each output that reports an error, none for the others. */
  function ErrorEntries(outputs: seq<FlowOutput>, now: nat, stringify: Json -> string): seq<LogEntry>
    decreases |outputs|
  {
    if outputs == [] then []
    else
      var last := outputs[|outputs| - 1];
      ErrorEntries(outputs[..|outputs| - 1], now, stringify) +
      (if IsErrorOutput(last) == Ok(true) then [ErrorEntry(last, now, stringify)] else [])
  }

  function Reverse<T>(s: seq<T>): (r: seq<T>)
    ensures |r| == |s|
    decreases |s|
  {
    if s == [] then [] else [s[|s| - 1]] + Reverse(s[..|s| - 1])
  }

  lemma ReverseSnoc<T>(s: seq<T>, x: T)
    ensures Reverse(s + [x]) == [x] + Reverse(s)
  {
    assert (s + [x])[..|s|] == s;
  }

  ghost predicate Unreadable(outputs: seq<FlowOutput>) {
    exists i :: 0 <= i < |outputs| && IsErrorOutput(outputs[i]).Throw?
  }

  /** The pass stops exactly when some output that is not of type `error` has a nullish output. */
  lemma {:induction false} ScanFailsIff(outputs: seq<FlowOutput>, now: nat, stringify: Json -> string)
    ensures Scan(outputs, now, stringify).failure.Some? <==> Unreadable(outputs)
    decreases |outputs|
  {
    if outputs != [] {
      var init := outputs[..|outputs| - 1];
      ScanFailsIff(init, now, stringify);
      if Unreadable(init) {
        var i :| 0 <= i < |init| && IsErrorOutput(init[i]).Throw?;
        assert outputs[i] == init[i];
      }
      if Unreadable(outputs) && !IsErrorOutput(outputs[|outputs| - 1]).Throw? {
        var i :| 0 <= i < |outputs| && IsErrorOutput(outputs[i]).Throw?;
        assert init[i] == outputs[i];
      }
    }
  }

  /** A pass that completes leaves the error entries in reverse output order. */
  lemma {:induction false} ScanReversesErrors(outputs: seq<FlowOutput>, now: nat, stringify: Json -> string)
    requires Scan(outputs, now, stringify).failure.None?
    ensures Scan(outputs, now, stringify).entries == Reverse(ErrorEntries(outputs, now, stringify))
    decreases |outputs|
  {
    if outputs != [] {
      var init := outputs[..|outputs| - 1];
      var last := outputs[|outputs| - 1];
      ScanReversesErrors(init, now, stringify);
      if IsErrorOutput(last) == Ok(true) {
        ReverseSnoc(ErrorEntries(init, now, stringify), ErrorEntry(last, now, stringify));
        assert ErrorEntries(outputs, now, stringify) == ErrorEntries(init, now, stringify) + [ErrorEntry(last, now, stringify)];
        assert Scan(outputs, now, stringify).entries == [ErrorEntry(last, now, stringify)] + Scan(init, now, stringify).entries;
      } else {
        assert ErrorEntries(outputs, now, stringify) == ErrorEntries(init, now, stringify);
        assert Scan(outputs, now, stringify).entries == Scan(init, now, stringify).entries;
      }
    }
  }

  /** Once the pass has stopped, the later outputs change nothing. */
  lemma {:induction false} ScanStops(outputs: seq<FlowOutput>, k: nat, now: nat, stringify: Json -> string)
    requires k <= |outputs|
    requires Scan(outputs[..k], now, stringify).failure.Some?
    ensures Scan(outputs, now, stringify) == Scan(outputs[..k], now, stringify)
    decreases |outputs| - k
  {
    if k < |outputs| {
      var init := outputs[..|outputs| - 1];
      assert init[..k] == outputs[..k];
      ScanStops(init, k, now, stringify);
    } else {
      assert outputs[..k] == outputs;
    }
  }

  /** One more output in a pass that has not stopped. */
  lemma ScanStep(outputs: seq<FlowOutput>, i: nat, now: nat, stringify: Json -> string)
    requires i < |outputs|
    requires Scan(outputs[..i], now, stringify).failure.None?
    ensures IsErrorOutput(outputs[i]).Throw? ==>
              Scan(outputs[..i + 1], now, stringify) ==
              Scanned(Scan(outputs[..i], now, stringify).entries, Some(IsErrorOutput(outputs[i]).message))
    ensures IsErrorOutput(outputs[i]) == Ok(true) ==>
              Scan(outputs[..i + 1], now, stringify) ==
              Scanned([ErrorEntry(outputs[i], now, stringify)] + Scan(outputs[..i], now, stringify).entries, None)
    ensures IsErrorOutput(outputs[i]) == Ok(false) ==>
              Scan(outputs[..i + 1], now, stringify) == Scan(outputs[..i], now, stringify)
  {
    assert outputs[..i + 1][..i] == outputs[..i];
  }

  /**
   * One step of the pass over a log `rest` that already carries the entries
   * of the first `i` outputs: the log and the thrown error after the
   * callback on output `i` are those of the pass over `i + 1` outputs.
   */
  lemma ScanAdvance(outputs: seq<FlowOutput>, i: nat, now: nat, stringify: Json -> string,
                    rest: seq<LogEntry>, logs: seq<LogEntry>, thrown: Option<string>)
    requires i < |outputs|
    requires Scan(outputs[..i], now, stringify).failure.None?
    requires IsErrorOutput(outputs[i]).Throw? ==>
               thrown == Some(IsErrorOutput(outputs[i]).message) && logs == Scan(outputs[..i], now, stringify).entries + rest
    requires IsErrorOutput(outputs[i]) == Ok(true) ==>
               thrown == None && logs == [ErrorEntry(outputs[i], now, stringify)] + (Scan(outputs[..i], now, stringify).entries + rest)
    requires IsErrorOutput(outputs[i]) == Ok(false) ==>
               thrown == None && logs == Scan(outputs[..i], now, stringify).entries + rest
    ensures Scan(outputs[..i + 1], now, stringify).failure == thrown
    ensures logs == Scan(outputs[..i + 1], now, stringify).entries + rest
  {
    ScanStep(outputs, i, now, stringify);
    PrependAssociates(ErrorEntry(outputs[i], now, stringify), Scan(outputs[..i], now, stringify).entries, rest);
  }

  lemma PrependAssociates<T>(x: T, a: seq<T>, b: seq<T>)
    ensures [x] + (a + b) == ([x] + a) + b
  {
  }

  /** The entries of the logs view before any run. */
  const SampleLogs: seq<LogEntry> := [
    LogEntry("1", "2023-04-22 08:02:13", "User Input", "info",
             "Received new user query: \"How can I optimize my ML pipeline for better performance?\""),
    LogEntry("2", "2023-04-22 08:02:14", "Query Parser", "info",
             "Parsed user query, identified main topic: ML pipeline optimization"),
    LogEntry("3", "2023-04-22 08:02:17", "Context Retriever", "info",
             "Retrieved 15 relevant documents from knowledge base"),
    LogEntry("4", "2023-04-22 08:02:22", "Reasoning Agent", "error",
             "Failed to process query with error: API rate limit exceeded"),
    LogEntry("5", "2023-04-22 08:02:23", "Reasoning Agent", "warning",
             "Retrying query processing with reduced context window"),
    LogEntry("6", "2023-04-22 08:02:28", "Reasoning Agent", "info",
             "Successfully processed query on second attempt"),
    LogEntry("7", "2023-04-22 08:02:36", "Content Generator", "info",
             "Generated response with 3 optimization strategies"),
    LogEntry("8", "2023-04-22 08:02:40", "Response Formatter", "info",
             "Formatted response with markdown and code snippets"),
    LogEntry("9", "2023-04-22 08:05:21", "User Input", "info",
             "Received follow-up query: \"Can you provide code examples for the batch processing optimization?\""),
    LogEntry("10", "2023-04-22 08:05:24", "Query Parser", "info",
             "Parsed follow-up query, maintaining conversation context"),
    LogEntry("11", "2023-04-22 08:05:30", "Context Retriever", "warning",
             "Limited context retrieval due to high token usage"),
    LogEntry("12", "2023-04-22 08:05:37", "Reasoning Agent", "error",
             "Timeout error while processing query"),
    LogEntry("13", "2023-04-22 08:05:38", "System", "error",
             "Agent flow execution incomplete, fallback to direct model query"),
    LogEntry("14", "2023-04-22 08:05:45", "Content Generator", "info",
             "Used simplified model to generate response with code examples"),
    LogEntry("15", "2023-04-22 08:05:52", "Response Formatter", "info",
             "Added disclaimer about potential limitations in the generated code"),
    LogEntry("16", "2023-04-22 08:10:03", "System", "info",
             "Flow execution completed successfully"),
    LogEntry("17", "2023-04-22 08:15:42", "Reasoning Agent", "error",
             "LLM hallucination detected: provided incorrect information about PyTorch API"),
    LogEntry("18", "2023-04-22 08:15:47", "Content Generator", "warning",
             "Content filtered due to potential inaccuracy"),
    LogEntry("19", "2023-04-22 08:20:13", "System", "info",
             "Agent flow reconfigured with updated prompt"),
    LogEntry("20", "2023-04-22 08:25:01", "User Input", "info",
             "New session started with query: \"What are the benefits of using multiple specialized agents instead of a single large model?\"")
  ]

  /** The module state of the log history. */
  class LogStore {
    var flowOutputs: seq<FlowOutput>
    var logs: seq<LogEntry>

    /** The state when the module is loaded. */
    constructor ()
      ensures flowOutputs == [] && logs == SampleLogs
    {
      flowOutputs := [];
      logs := SampleLogs;
    }

    /**
     * `addFlowOutputsToHistory(outputs)`. The history becomes the new
     * outputs followed by the old history, cut to its first hundred; the
     * log gains the summary and, in front of it, the error entries the pass
     * got through. A thrown error is returned as `failure`, with the state
     * as the throw left it.
     */
    method AddFlowOutputsToHistory(outputs: seq<FlowOutput>, isoNow: string, now: nat, stringify: Json -> string)
      returns (failure: Option<string>)
      modifies this
      ensures flowOutputs == Recent(outputs + old(flowOutputs))
      ensures logs == Scan(outputs, now, stringify).entries + [Summary(isoNow, now, |outputs|)] + old(logs)
      ensures failure == Scan(outputs, now, stringify).failure
    {
      var all := outputs + flowOutputs;
      flowOutputs := if |all| <= HistoryLimit then all else all[..HistoryLimit];
      logs := [Summary(isoNow, now, |outputs|)] + logs;
      failure := UnshiftErrorEntries(outputs, now, stringify);
    }

    /**
     * The `forEach` callback: an output that reports an error puts its entry
     * at the front of the log; a thrown error is returned and changes nothing.
     */
    method LogIfError(output: FlowOutput, now: nat, stringify: Json -> string) returns (thrown: Option<string>)
      modifies this
      ensures flowOutputs == old(flowOutputs)
      ensures IsErrorOutput(output).Throw? ==> thrown == Some(IsErrorOutput(output).message) && logs == old(logs)
      ensures IsErrorOutput(output) == Ok(true) ==> thrown == None && logs == [ErrorEntry(output, now, stringify)] + old(logs)
      ensures IsErrorOutput(output) == Ok(false) ==> thrown == None && logs == old(logs)
    {
      var isError := IsErrorOutput(output);
      if isError.Throw? {
        return Some(isError.message);
      }
      if isError.value {
        logs := [ErrorEntry(output, now, stringify)] + logs;
      }
      thrown := None;
    }

    /** `outputs.forEach(...)`: an error entry is put at the front of the log for every output that reports an error. */
    method UnshiftErrorEntries(outputs: seq<FlowOutput>, now: nat, stringify: Json -> string)
      returns (failure: Option<string>)
      modifies this
      ensures flowOutputs == old(flowOutputs)
      ensures logs == Scan(outputs, now, stringify).entries + old(logs)
      ensures failure == Scan(outputs, now, stringify).failure
    {
      for i := 0 to |outputs|
        invariant flowOutputs == old(flowOutputs)
        invariant Scan(outputs[..i], now, stringify).failure.None?
        invariant logs == Scan(outputs[..i], now, stringify).entries + old(logs)
      {
        var thrown := LogIfError(outputs[i], now, stringify);
        ScanAdvance(outputs, i, now, stringify, old(logs), logs, thrown);
        if thrown.Some? {
          ScanStops(outputs, i + 1, now, stringify);
          return thrown;
        }
      }
      assert outputs[..|outputs|] == outputs;
      failure := None;
    }
  }

  /** The history never holds more than a hundred outputs, and the newest come first. */
  lemma HistoryBounded(outputs: seq<FlowOutput>, history: seq<FlowOutput>)
    ensures |Recent(outputs + history)| <= HistoryLimit
    ensures |outputs| <= HistoryLimit ==> Recent(outputs + history)[..|outputs|] == outputs
    ensures |outputs| >= HistoryLimit ==> Recent(outputs + history) == outputs[..HistoryLimit]
  {
    var r := Recent(outputs + history);
    if |outputs| <= HistoryLimit {
      if |outputs + history| > HistoryLimit {
        assert r[..|outputs|] == (outputs + history)[..HistoryLimit][..|outputs|];
      }
    }
  }

  /** Every entry of a pass is an error entry, so the summary is the one `info` entry a run adds. */
  lemma {:induction false} ScanEntriesAreErrors(outputs: seq<FlowOutput>, now: nat, stringify: Json -> string)
    ensures forall e :: e in Scan(outputs, now, stringify).entries ==> e.eventType == "error"
    decreases |outputs|
  {
    if outputs != [] {
      ScanEntriesAreErrors(outputs[..|outputs| - 1], now, stringify);
    }
  }
}
