/** The harness's own `print`: every message goes to standard output and is appended to a log
    file whose name is fixed by the first call. */
module Logging {
  import opened Wrappers
  import opened Text

  /** The text one `print(*args, sep=sep, end=end)` call produces. */
  function Message(args: seq<string>, sep: string, end: string): string
  {
    JoinWith(sep, args) + end
  }

  /** Every message ends with its `end`. */
  lemma MessageEndsWith(args: seq<string>, sep: string, end: string)
    ensures EndsWith(Message(args, sep, end), end)
  {
    var m := Message(args, sep, end);
    assert m[|m| - |end|..] == end;
  }

  /** With a one-character separator that no argument contains, the arguments can be recovered
      from the message. */
  lemma MessageRoundTrip(args: seq<string>, c: char, end: string)
    requires |args| >= 1
    requires forall i :: 0 <= i < |args| ==> c !in args[i]
    ensures var m := Message(args, [c], end);
      SplitOn(c, m[..|m| - |end|]) == args
  {
    var m := Message(args, [c], end);
    assert m[..|m| - |end|] == JoinWith([c], args);
    SplitJoinRoundTrip(c, args);
  }

  /** Python's `stamp[:-3]`: the last three characters dropped, nothing left of a shorter
      string. */
  function DropLastThree(stamp: string): (r: string)
    ensures |stamp| >= 3 ==> |r| == |stamp| - 3
    ensures |stamp| < 3 ==> r == ""
    ensures StartsWith(stamp, r)
  {
    if |stamp| >= 3 then stamp[..|stamp| - 3] else ""
  }

  /** `strftime('%Y%m%d%H%M%S%f')` has 20 digits, six of them microseconds; cutting three leaves
      a 17-character name: the time to the millisecond. */
  lemma LogNameKeepsMilliseconds(stamp: string)
    requires |stamp| == 20
    ensures |DropLastThree(stamp)| == 17 && DropLastThree(stamp) == stamp[..17]
  {
  }

  /** The log file's name after a call made at `stamp`: the first call decides it. */
  function NextLogFile(current: Option<string>, stamp: string): (r: Option<string>)
    ensures r.Some?
    ensures current.Some? ==> r == current
  {
    if current.None? then Some(DropLastThree(stamp)) else current
  }

  /** The log file's name after calls made at each of `stamps` in turn. */
  function Settle(current: Option<string>, stamps: seq<string>): Option<string>
    decreases |stamps|
  {
    if |stamps| == 0 then current else Settle(NextLogFile(current, stamps[0]), stamps[1..])
  }

  /** Once the name is set, no later call changes it, whatever its time. */
  lemma {:induction false} LogFileSetOnce(name: string, later: seq<string>)
    ensures Settle(Some(name), later) == Some(name)
  {
    if |later| > 0 {
      LogFileSetOnce(name, later[1..]);
    }
  }

  /** A run of calls names the log after the first of them. */
  lemma LogFileNamedByFirstCall(stamps: seq<string>)
    requires |stamps| >= 1
    ensures Settle(None, stamps) == Some(DropLastThree(stamps[0]))
  {
    LogFileSetOnce(DropLastThree(stamps[0]), stamps[1..]);
  }

  /** A piece of output: `Printed` text goes to standard output and to the log file, `Written`
      text (the escape sequences) to standard output only. */
  datatype Chunk = Printed(text: string) | Written(text: string)

  function Stdout(cs: seq<Chunk>): string
  {
    if |cs| == 0 then "" else Stdout(cs[..|cs| - 1]) + cs[|cs| - 1].text
  }

  function Logged(cs: seq<Chunk>): string
  {
    if |cs| == 0 then ""
    else Logged(cs[..|cs| - 1]) + (if cs[|cs| - 1].Printed? then cs[|cs| - 1].text else "")
  }

  /** Output without escape sequences reaches the log file exactly as it reaches the terminal. */
  lemma {:induction false} PlainOutputLoggedVerbatim(cs: seq<Chunk>)
    requires forall i :: 0 <= i < |cs| ==> cs[i].Printed?
    ensures Logged(cs) == Stdout(cs)
  {
    if |cs| > 0 {
      PlainOutputLoggedVerbatim(cs[..|cs| - 1]);
    }
  }

  /** The log never holds more than the terminal. */
  lemma {:induction false} LoggedNoLonger(cs: seq<Chunk>)
    ensures |Logged(cs)| <= |Stdout(cs)|
  {
    if |cs| > 0 {
      LoggedNoLonger(cs[..|cs| - 1]);
    }
  }

  /** Standard output and the log file: the name of the log file, and everything output so far,
      piece by piece, each piece marked with where it went. */
  class Logger {
    var logFile: Option<string>
    var output: seq<Chunk>

    /** What the terminal has shown. */
    function Terminal(): string
      reads this
    {
      Stdout(output)
    }

    /** What the log file holds. */
    function LogText(): string
      reads this
    {
      Logged(output)
    }

    /** The state before the first `print`: `LOG_FILE = None`, nothing output. */
    constructor ()
      ensures logFile == None && output == []
    {
      logFile := None;
      output := [];
    }

    /** `print(*args, sep=sep, end=end)` called at time `stamp`: the message is appended to the
        log file and to the terminal, and the log file's name is fixed if it was not yet. */
    method Print(args: seq<string>, sep: string, end: string, stamp: string)
      modifies this
      ensures logFile == NextLogFile(old(logFile), stamp)
      ensures output == old(output) + [Printed(Message(args, sep, end))]
      ensures Terminal() == old(Terminal()) + Message(args, sep, end)
      ensures LogText() == old(LogText()) + Message(args, sep, end)
    {
      var message := JoinWith(sep, args) + end;
      if logFile.None? {
        logFile := Some(DropLastThree(stamp));
      }
      output := output + [Printed(message)];
      assert output[..|output| - 1] == old(output);
    }

    /** `sys.stdout.write(s)`: the terminal only. */
    method Write(s: string)
      modifies this
      ensures logFile == old(logFile)
      ensures output == old(output) + [Written(s)]
      ensures Terminal() == old(Terminal()) + s
      ensures LogText() == old(LogText())
    {
      output := output + [Written(s)];
      assert output[..|output| - 1] == old(output);
    }
  }
}
