/** The level-filtered logger and the console line format. */
module Logging {

  import Vk

  /** LogLevel is a C++ `enum class` over int: the four named levels are
      0..3, and a cast can produce any other int. */
  newtype LogLevel = x: int | -0x8000_0000 <= x < 0x8000_0000

  const Trace: LogLevel := 0
  const Info: LogLevel := 1
  const Warn: LogLevel := 2
  const Error: LogLevel := 3

  predicate IsNamed(level: LogLevel) {
    Trace <= level <= Error
  }

  const ESC: char := 27 as char
  const TRACE_COLOUR: string := [ESC] + "[0;90m"
  const INFO_COLOUR: string := [ESC] + "[0;37m"
  const WARN_COLOUR: string := [ESC] + "[0;33m"
  const ERROR_COLOUR: string := [ESC] + "[0;31m"
  const UNKNOWN_COLOUR: string := [ESC] + "[0;36m"
  const RESET: string := [ESC] + "[0m"

  /** The ANSI colour escape that starts a line of the given level. */
  function ValueOf(level: LogLevel): (colour: string)
    ensures |colour| == 7 && colour[0] == ESC && colour[6] == 'm'
    ensures IsNamed(level) <==> colour[5] != '6'
  {
    if level == Trace then TRACE_COLOUR
    else if level == Info then INFO_COLOUR
    else if level == Warn then WARN_COLOUR
    else if level == Error then ERROR_COLOUR
    else UNKNOWN_COLOUR
  }

  /** The fixed-width label of a level. */
  function StringOf(level: LogLevel): (text: string)
    ensures |text| == 7
    ensures text[0] == '(' && (text[6] == ')' || text[5] == ')')
    ensures IsNamed(level) <==> text != "(unkwn)"
  {
    if level == Trace then "(trace)"
    else if level == Info then "(info) "
    else if level == Warn then "(warn) "
    else if level == Error then "(error)"
    else "(unkwn)"
  }

  /** Distinct named levels get distinct colours and distinct labels. */
  lemma LevelEncodingInjective(a: LogLevel, b: LogLevel)
    requires IsNamed(a) && IsNamed(b) && a != b
    ensures ValueOf(a) != ValueOf(b) && StringOf(a) != StringOf(b)
  {
    assert ValueOf(a)[5] != ValueOf(b)[5];
    assert StringOf(a)[1] != StringOf(b)[1];
  }

  /** Whether a logger with threshold `threshold` forwards a message of `level`. */
  predicate Passes(threshold: LogLevel, level: LogLevel) {
    level as int >= threshold as int
  }

  /** The line ConsoleLogger writes (std::endl excluded). */
  function ConsoleLine(name: string, level: LogLevel, message: string): string
  {
    ValueOf(level) + StringOf(level) + " [" + name + "] " + message + RESET
  }

  /** A console line is the level's colour, its seven-character tag, the
      logger's name in brackets, the message and the colour reset. */
  lemma ConsoleLineLayout(name: string, level: LogLevel, message: string)
    ensures var line := ConsoleLine(name, level, message);
            && |line| == 18 + |name| + |message| + |RESET|
            && line[..7] == ValueOf(level) && line[7..14] == StringOf(level)
            && line[14..16] == " [" && line[16..16 + |name|] == name
            && line[16 + |name|..18 + |name|] == "] "
            && line[18 + |name|..18 + |name| + |message|] == message
            && line[18 + |name| + |message|..] == RESET
  {
    FieldsAt(ValueOf(level), StringOf(level), name, message, RESET);
  }

  /** Where each field of a concatenated console line starts. */
  lemma FieldsAt(colour: string, text: string, name: string, message: string, reset: string)
    requires |colour| == 7 && |text| == 7
    ensures var line := colour + text + " [" + name + "] " + message + reset;
            && |line| == 18 + |name| + |message| + |reset|
            && line[..7] == colour && line[7..14] == text
            && line[14..16] == " [" && line[16..16 + |name|] == name
            && line[16 + |name|..18 + |name|] == "] "
            && line[18 + |name|..18 + |name| + |message|] == message
            && line[18 + |name| + |message|..] == reset
  {
    var line := colour + text + " [" + name + "] " + message + reset;
    var m := 18 + |name|;
    assert forall i :: 0 <= i < 7 ==> line[i] == colour[i];
    assert forall i :: 0 <= i < 7 ==> line[7 + i] == text[i];
    assert line[14] == ' ' && line[15] == '[';
    assert forall i :: 0 <= i < |name| ==> line[16 + i] == name[i];
    assert line[m - 2] == ']' && line[m - 1] == ' ';
    assert forall i :: 0 <= i < |message| ==> line[m + i] == message[i];
    assert forall i :: 0 <= i < |reset| ==> line[m + |message| + i] == reset[i];
  }

  /** A message handed on to logMessage. */
  datatype Record = Record(level: LogLevel, message: string)

  /** The records among `emitted` that a logger with `threshold` hands on
      to logMessage, in emission order. */
  function Forwarded(threshold: LogLevel, emitted: seq<Record>): (r: seq<Record>)
    ensures |r| <= |emitted|
  {
    if emitted == [] then []
    else (if Passes(threshold, emitted[0].level) then [emitted[0]] else []) + Forwarded(threshold, emitted[1..])
  }

  /** A record is forwarded iff it was emitted and passes the threshold. */
  lemma {:induction false} ForwardedMembers(threshold: LogLevel, emitted: seq<Record>, x: Record)
    ensures x in Forwarded(threshold, emitted) <==> x in emitted && Passes(threshold, x.level)
  {
    if emitted != [] {
      ForwardedMembers(threshold, emitted[1..], x);
      assert emitted == [emitted[0]] + emitted[1..];
    }
  }

  /** Forwarding a sequence of log calls is forwarding each call in turn. */
  lemma {:induction false} ForwardedAppend(threshold: LogLevel, a: seq<Record>, b: seq<Record>)
    ensures Forwarded(threshold, a + b) == Forwarded(threshold, a) + Forwarded(threshold, b)
  {
    if a == [] {
      assert a + b == b;
    } else {
      var head := if Passes(threshold, a[0].level) then [a[0]] else [];
      assert (a + b)[0] == a[0];
      assert (a + b)[1..] == a[1..] + b;
      ForwardedAppend(threshold, a[1..], b);
      assert Forwarded(threshold, a + b) == head + Forwarded(threshold, a[1..] + b);
      assert Forwarded(threshold, a) == head + Forwarded(threshold, a[1..]);
    }
  }

  /** The console lines written for forwarded records: none for the base
      Logger, one ConsoleLine each for a ConsoleLogger. */
  function Printed(consoleName: Vk.Option<string>, forwarded: seq<Record>): (lines: seq<string>)
    ensures consoleName.None? ==> lines == []
    ensures consoleName.Some? ==> |lines| == |forwarded|
  {
    match consoleName
    case None => []
    case Some(name) =>
      if forwarded == [] then []
      else [ConsoleLine(name, forwarded[0].level, forwarded[0].message)] + Printed(consoleName, forwarded[1..])
  }

  /** A ConsoleLogger prints the i-th forwarded record as the i-th line. */
  lemma {:induction false} PrintedLine(name: string, forwarded: seq<Record>, i: nat)
    requires i < |forwarded|
    ensures Printed(Vk.Some(name), forwarded)[i] == ConsoleLine(name, forwarded[i].level, forwarded[i].message)
  {
    if i > 0 {
      PrintedLine(name, forwarded[1..], i - 1);
    }
  }

  /** Printing distributes over consecutive forwarded records. */
  lemma {:induction false} PrintedAppend(consoleName: Vk.Option<string>, a: seq<Record>, b: seq<Record>)
    ensures Printed(consoleName, a + b) == Printed(consoleName, a) + Printed(consoleName, b)
  {
    if consoleName.Some? && a != [] {
      assert (a + b)[0] == a[0];
      assert (a + b)[1..] == a[1..] + b;
      PrintedAppend(consoleName, a[1..], b);
    } else if consoleName.Some? {
      assert a + b == b;
    }
  }

  /** Logger and its one subclass ConsoleLogger: `consoleName` is None for
      the base class (whose logMessage does nothing) and Some(name) for a
      ConsoleLogger. `forwarded` is every message that passed the
      threshold and was handed to logMessage. */
  class Logger {
    const threshold: LogLevel
    const consoleName: Vk.Option<string>
    var forwarded: seq<Record>

    /** The text written to standard output: one line per forwarded
        record for a ConsoleLogger, nothing for the base Logger. */
    function Output(): seq<string>
      reads this
    {
      Printed(consoleName, forwarded)
    }

    /** Logger(level = LogLevel::Error) */
    constructor (level: LogLevel := Error)
      ensures threshold == level && consoleName == Vk.None
      ensures forwarded == [] && Output() == []
    {
      threshold := level;
      consoleName := Vk.None;
      forwarded := [];
    }

    /** ConsoleLogger(name, level = LogLevel::Info) */
    constructor Console(name: string, level: LogLevel := Info)
      ensures threshold == level && consoleName == Vk.Some(name)
      ensures forwarded == [] && Output() == []
    {
      threshold := level;
      consoleName := Vk.Some(name);
      forwarded := [];
    }

    /** Logger::log: forwards iff the level's ordinal reaches the threshold;
        a ConsoleLogger then writes one line. */
    method Log(level: LogLevel, message: string)
      modifies this
      ensures Passes(threshold, level) ==> forwarded == old(forwarded) + [Record(level, message)]
      ensures !Passes(threshold, level) ==> forwarded == old(forwarded)
      ensures Passes(threshold, level) && consoleName.Some? ==>
                Output() == old(Output()) + [ConsoleLine(consoleName.value, level, message)]
      ensures !Passes(threshold, level) || consoleName.None? ==> Output() == old(Output())
      ensures forwarded == old(forwarded) + Forwarded(threshold, [Record(level, message)])
    {
      if level as int >= threshold as int {
        PrintedAppend(consoleName, forwarded, [Record(level, message)]);
        forwarded := forwarded + [Record(level, message)];
      }
    }
  }

  /** Calls `log` for each record in turn. */
  method LogEach(logger: Logger, records: seq<Record>)
    modifies logger
    ensures logger.forwarded == old(logger.forwarded) + Forwarded(logger.threshold, records)
  {
    ghost var forwarded0, threshold := logger.forwarded, logger.threshold;
    for i := 0 to |records|
      invariant logger.forwarded == forwarded0 + Forwarded(threshold, records[..i])
    {
      assert records[..i + 1] == records[..i] + [records[i]];
      ForwardedAppend(threshold, records[..i], [records[i]]);
      logger.Log(records[i].level, records[i].message);
    }
    assert records[..|records|] == records;
  }

  /** What a sequence of log calls prints is what its forwarded records
      print, after what was printed before. */
  lemma ConsoleAfter(logger: Logger, before: seq<Record>, emitted: seq<Record>)
    requires logger.forwarded == before + Forwarded(logger.threshold, emitted)
    ensures logger.Output() == Printed(logger.consoleName, before) + Printed(logger.consoleName, Forwarded(logger.threshold, emitted))
  {
    PrintedAppend(logger.consoleName, before, Forwarded(logger.threshold, emitted));
  }

  /** The default Logger (threshold Error) forwards exactly Error among the
      named levels; the default ConsoleLogger (threshold Info) drops only Trace. */
  lemma DefaultThresholds(level: LogLevel)
    requires IsNamed(level)
    ensures Passes(Error, level) <==> level == Error
    ensures Passes(Info, level) <==> level != Trace
  {
  }
}
