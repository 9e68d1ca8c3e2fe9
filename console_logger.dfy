/**
 * The console logger of consoleLogger.ts.
 *
 * A logger holds two read-only values fixed at construction, `logLevel` and
 * `prefix`. Each severity method is one threshold comparison guarding a
 * console write. The write itself is abstracted: a severity method returns
 * the message that would be printed, or `None` when it stays silent.
 */
module ConsoleLog {
  import opened Wrappers

  datatype Severity = Debug | Info | Warn | Error

  /** The largest `logLevel` at which a severity is still printed. */
  function Threshold(s: Severity): real {
    match s
    case Debug => 1.0
    case Info => 2.0
    case Warn => 3.0
    case Error => 4.0
  }

  /** Position of a severity, from the most verbose (0) to the most severe (3). */
  function Rank(s: Severity): nat {
    match s
    case Debug => 0
    case Info => 1
    case Warn => 2
    case Error => 3
  }

  /** JavaScript truthiness of an optional string: `undefined` and `""` are falsy. */
  predicate Truthy(prefix: Option<string>) {
    prefix.Some? && prefix.value != ""
  }

  /** The text JavaScript's `+` produces for an optional string. */
  function PrefixText(prefix: Option<string>): string {
    match prefix
    case None => "undefined"
    case Some(p) => p
  }

  /**
   * A console logger. Both fields are read-only, so no operation below can
   * change them: every operation is a function of the logger value.
   */
  datatype ConsoleLogger = ConsoleLogger(logLevel: real, prefix: Option<string>) {

    /**
     * The message `log` hands to the console. As written, the conditional is
     * inverted: a truthy prefix is dropped, a falsy one is printed.
     */
    function FullMessage(message: string): (r: string)
      ensures |r| >= |message| && r[|r| - |message|..] == message
      ensures r == message <==> Truthy(prefix)
      ensures !Truthy(prefix) ==> r == PrefixText(prefix) + " " + message
    {
      if Truthy(prefix) then message else PrefixText(prefix) + " " + message
    }

    /** What a call at severity `s` prints, if anything. */
    function Emit(s: Severity, message: string): (r: Option<string>)
      ensures r.Some? <==> logLevel <= Threshold(s)
      ensures r.Some? ==> r.value == FullMessage(message)
    {
      if logLevel <= Threshold(s) then Some(FullMessage(message)) else None
    }

    function DebugMessage(message: string): (r: Option<string>)
      ensures r.Some? <==> logLevel <= 1.0
      ensures r == Emit(Severity.Debug, message)
    {
      Emit(Severity.Debug, message)
    }

    function InfoMessage(message: string): (r: Option<string>)
      ensures r.Some? <==> logLevel <= 2.0
      ensures r == Emit(Severity.Info, message)
    {
      Emit(Severity.Info, message)
    }

    function WarnMessage(message: string): (r: Option<string>)
      ensures r.Some? <==> logLevel <= 3.0
      ensures r == Emit(Severity.Warn, message)
    {
      Emit(Severity.Warn, message)
    }

    function ErrorMessage(message: string): (r: Option<string>)
      ensures r.Some? <==> logLevel <= 4.0
      ensures r == Emit(Severity.Error, message)
    {
      Emit(Severity.Error, message)
    }
  }

  /** The constructor, with its default arguments `logLevel = 0` and no prefix. */
  function NewConsoleLogger(logLevel: real := 0.0, prefix: Option<string> := None): (l: ConsoleLogger)
    ensures l.logLevel == logLevel && l.prefix == prefix
  {
    ConsoleLogger(logLevel, prefix)
  }

  /** Gating is monotone: whatever prints at one severity prints at every higher one. */
  lemma EmitMonotone(l: ConsoleLogger, lower: Severity, higher: Severity, message: string)
    requires Rank(lower) <= Rank(higher)
    requires l.Emit(lower, message).Some?
    ensures l.Emit(higher, message).Some?
  {
  }

  /** Above level 4 nothing is printed at any severity. */
  lemma SilentAboveFour(l: ConsoleLogger, s: Severity, message: string)
    requires l.logLevel > 4.0
    ensures l.Emit(s, message) == None
  {
  }

  /**
   * The default logger prints every severity, and (there being no prefix) every
   * message comes out as "undefined " followed by the message.
   */
  lemma DefaultLoggerPrintsAll(s: Severity, message: string)
    ensures NewConsoleLogger().Emit(s, message) == Some("undefined " + message)
  {
    assert "undefined" + " " + message == "undefined " + message;
  }

  /** A non-empty prefix is never printed: the message comes out alone. */
  lemma TruthyPrefixDropped(l: ConsoleLogger, s: Severity, message: string)
    requires l.prefix.Some? && l.prefix.value != ""
    requires l.logLevel <= Threshold(s)
    ensures l.Emit(s, message) == Some(message)
  {
  }
}
