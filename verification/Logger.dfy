/** Buffered logging: the bounded buffer of src/logger/console_logger.cpp and the message stream of
    src/logger/logger.cpp and include/logger/logger.h. Timestamps are texts handed in by the caller. */
module Logger {

  datatype LogLevel = INFO | WARNING | ERROR | EXCEPTION

  function LogLevelToString(level: LogLevel): string {
    match level
    case INFO => "INFO"
    case WARNING => "WARNING"
    case ERROR => "ERROR"
    case EXCEPTION => "EXCEPTION"
  }

  function LogEntry(stamp: string, level: LogLevel, message: string): string {
    stamp + LogLevelToString(level) + ": " + message
  }

  /** Level names are told apart by their first letter, so an entry determines its level and its message. */
  lemma EntryIsReadable(stamp: string, level: LogLevel, message: string, level': LogLevel, message': string)
    ensures LogEntry(stamp, level, message) == LogEntry(stamp, level', message') <==>
      level == level' && message == message'
  {
    var entry, entry' := LogEntry(stamp, level, message), LogEntry(stamp, level', message');
    var n := |stamp|;
    assert entry[n] == LogLevelToString(level)[0] && entry'[n] == LogLevelToString(level')[0];
    if |entry| > n + 1 && |entry'| > n + 1 {
      assert entry[n + 1] == (LogLevelToString(level) + ": ")[1];
      assert entry'[n + 1] == (LogLevelToString(level') + ": ")[1];
    }
    var head := n + |LogLevelToString(level)| + 2;
    assert entry[head..] == message;
    if level == level' {
      assert entry'[head..] == message';
    }
  }

  class BufferedConsoleLogger {
    var buffer: seq<string>
    const bufferLimit: nat
    /** Everything written to standard output, in order. */
    var printed: seq<string>

    constructor (limit: nat)
      ensures buffer == [] && printed == [] && bufferLimit == limit
    {
      buffer, printed, bufferLimit := [], [], limit;
    }

    /** Printed lines, then those still buffered. */
    function Lines(): seq<string>
      reads this
    {
      printed + buffer
    }

    /** Fewer than bufferLimit lines wait, and none for a limit of 0 or 1. */
    predicate Bounded()
      reads this
    {
      |buffer| < if bufferLimit < 1 then 1 else bufferLimit
    }

    method Log(message: string)
      modifies this
      ensures Bounded()
      ensures Lines() == old(Lines()) + [message]
      ensures old(|buffer|) + 1 < bufferLimit ==> buffer == old(buffer) + [message] && printed == old(printed)
      ensures old(|buffer|) + 1 >= bufferLimit ==> buffer == []
    {
      buffer := buffer + [message];
      if |buffer| >= bufferLimit {
        Flush();
      }
    }

    method Flush()
      modifies this
      ensures buffer == [] && printed == old(Lines())
    {
      for i := 0 to |buffer|
        invariant buffer == old(buffer)
        invariant printed == old(printed) + buffer[..i]
      {
        printed := printed + [buffer[i]];
      }
      assert buffer[..|buffer|] == buffer;
      buffer := [];
    }
  }

  // ---------- sequences of calls ----------

  /** Calls on a logger. `stamp` is what TimeStamp::get() returns if the call logs. */
  datatype Call =
    | Append(text: string)
    | Log(level: LogLevel, message: string, stamp: string)
    | Flush(level: LogLevel, stamp: string)

  /** Text streamed since the latest flush. */
  function Streaming(calls: seq<Call>): string {
    if calls == [] then "" else Waiting(Streaming(calls[..|calls| - 1]), calls[|calls| - 1])
  }

  function Waiting(before: string, call: Call): string {
    match call
    case Append(text) => before + text
    case Log(_, _, _) => before
    case Flush(_, _) => ""
  }

  /** An entry, and whether its message came through the stream. */
  datatype Submission = Submission(line: string, message: string, streamed: bool)

  /** What a call submits: a log its message, a flush what is waiting in the stream unless that is empty. */
  function Submits(waiting: string, call: Call): seq<Submission> {
    match call
    case Append(_) => []
    case Log(level, message, stamp) => [Submission(LogEntry(stamp, level, message), message, false)]
    case Flush(level, stamp) =>
      if waiting == "" then [] else [Submission(LogEntry(stamp, level, waiting), waiting, true)]
  }

  function Submitted(calls: seq<Call>): seq<Submission> {
    if calls == [] then []
    else Submitted(calls[..|calls| - 1]) + Submits(Streaming(calls[..|calls| - 1]), calls[|calls| - 1])
  }

  function LinesOf(entries: seq<Submission>): seq<string> {
    seq(|entries|, i requires 0 <= i < |entries| => entries[i].line)
  }

  /** The messages that came through the stream, one after the other. */
  function StreamedText(entries: seq<Submission>): string {
    if entries == [] then ""
    else if entries[|entries| - 1].streamed
    then StreamedText(entries[..|entries| - 1]) + entries[|entries| - 1].message
    else StreamedText(entries[..|entries| - 1])
  }

  function AppendedText(calls: seq<Call>): string {
    if calls == [] then ""
    else if calls[|calls| - 1].Append? then AppendedText(calls[..|calls| - 1]) + calls[|calls| - 1].text
    else AppendedText(calls[..|calls| - 1])
  }

  lemma StreamedTextAfter(entries: seq<Submission>, waiting: string, call: Call)
    ensures StreamedText(entries + Submits(waiting, call))
         == if call.Flush? then StreamedText(entries) + waiting else StreamedText(entries)
  {
    hide LogEntry;
    var more := Submits(waiting, call);
    if more == [] {
      assert entries + more == entries;
      assert StreamedText(entries) + "" == StreamedText(entries);
    } else {
      assert (entries + more)[..|entries|] == entries;
    }
  }

  /** Streamed text is neither lost nor duplicated nor reordered: what has been submitted and what still waits in the
      stream are everything that was appended, and no streamed entry is empty. */
  lemma {:induction false} StreamIsConserved(calls: seq<Call>)
    ensures StreamedText(Submitted(calls)) + Streaming(calls) == AppendedText(calls)
    ensures forall i :: 0 <= i < |Submitted(calls)| && Submitted(calls)[i].streamed ==>
      Submitted(calls)[i].message != ""
  {
    hide StreamedText, LogEntry;
    if calls == [] {
      NoEntries();
    } else {
      var before, last := calls[..|calls| - 1], calls[|calls| - 1];
      StreamIsConserved(before);
      StreamedTextAfter(Submitted(before), Streaming(before), last);
      if last.Append? {
        assert StreamedText(Submitted(before)) + (Streaming(before) + last.text) == AppendedText(before) + last.text;
      }
    }
  }

  lemma NoEntries()
    ensures StreamedText([]) == ""
  {
  }

  class ConsoleLogger {
    const console: BufferedConsoleLogger
    var currentMessageStream: string

    constructor (console: BufferedConsoleLogger)
      ensures this.console == console && currentMessageStream == ""
    {
      this.console, currentMessageStream := console, "";
    }

    method Append(text: string)
      modifies this
      ensures currentMessageStream == old(currentMessageStream) + text
    {
      currentMessageStream := currentMessageStream + text;
    }

    method Log(level: LogLevel, message: string, stamp: string)
      modifies console
      ensures console.Bounded()
      ensures console.Lines() == old(console.Lines()) + [LogEntry(stamp, level, message)]
    {
      var logEntry := stamp + LogLevelToString(level) + ": " + message;
      console.Log(logEntry);
    }

    method Flush(level: LogLevel, stamp: string)
      modifies this, console
      ensures currentMessageStream == ""
      ensures old(console.Bounded()) ==> console.Bounded()
      ensures console.Lines() == old(console.Lines()) +
        if old(currentMessageStream) == "" then [] else [LogEntry(stamp, level, old(currentMessageStream))]
    {
      var message := currentMessageStream;
      if message != "" {
        Log(level, message, stamp);
        currentMessageStream := "";
      }
    }

    method LogInfo(message: string, stamp: string)
      modifies console
      ensures console.Bounded() && console.Lines() == old(console.Lines()) + [stamp + "INFO: " + message]
    {
      assert LogEntry(stamp, LogLevel.INFO, message) == stamp + "INFO: " + message;
      Log(LogLevel.INFO, message, stamp);
    }

    method LogWarning(message: string, stamp: string)
      modifies console
      ensures console.Bounded() && console.Lines() == old(console.Lines()) + [stamp + "WARNING: " + message]
    {
      assert LogEntry(stamp, LogLevel.WARNING, message) == stamp + "WARNING: " + message;
      Log(LogLevel.WARNING, message, stamp);
    }

    method LogError(message: string, stamp: string)
      modifies console
      ensures console.Bounded() && console.Lines() == old(console.Lines()) + [stamp + "ERROR: " + message]
    {
      assert LogEntry(stamp, LogLevel.ERROR, message) == stamp + "ERROR: " + message;
      Log(LogLevel.ERROR, message, stamp);
    }

    method LogException(message: string, stamp: string)
      modifies console
      ensures console.Bounded() && console.Lines() == old(console.Lines()) + [stamp + "EXCEPTION: " + message]
    {
      assert LogEntry(stamp, LogLevel.EXCEPTION, message) == stamp + "EXCEPTION: " + message;
      Log(LogLevel.EXCEPTION, message, stamp);
    }

    method Make(call: Call)
      modifies this, console
      ensures old(console.Bounded()) ==> console.Bounded()
      ensures console.Lines() == old(console.Lines()) + LinesOf(Submits(old(currentMessageStream), call))
      ensures currentMessageStream == Waiting(old(currentMessageStream), call)
    {
      match call
      case Append(text) => Append(text);
      case Log(level, message, stamp) => Log(level, message, stamp);
      case Flush(level, stamp) => Flush(level, stamp);
    }

    /** Whatever calls are made, printed lines followed by buffered ones are the submitted entries in order. */
    method Perform(calls: seq<Call>)
      requires console.Bounded() && currentMessageStream == ""
      modifies this, console
      ensures console.Bounded()
      ensures console.Lines() == old(console.Lines()) + LinesOf(Submitted(calls))
      ensures currentMessageStream == Streaming(calls)
    {
      hide Submits, Waiting;
      for i := 0 to |calls|
        invariant console.Bounded()
        invariant console.Lines() == old(console.Lines()) + LinesOf(Submitted(calls[..i]))
        invariant currentMessageStream == Streaming(calls[..i])
      {
        assert calls[..i + 1][..i] == calls[..i];
        Make(calls[i]);
      }
      assert calls[..|calls|] == calls;
    }
  }
}
