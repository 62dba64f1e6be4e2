/** The console debug channel (samael.huginandmunin.Debug): off until a
    `-debug` argument turns it on, filtered by a severity mask, writing
    ordinary records to System.out and exceptions to System.err. The Java
    class keeps its state in static fields; here one object holds it. */
module DebugConsole {

  import opened JavaLang
  import opened Levels
  import opened LineFormat
  import opened Streams

  /** The command-line token that turns the channel on. */
  const DebugFlag: string := "-debug"

  /** `"-debug".equalsIgnoreCase(arg)`. */
  predicate IsDebugFlag(arg: string) {
    EqualsIgnoreCase(DebugFlag, arg)
  }

  /** An argument turns the channel on exactly when its lower-case form is "-debug". */
  lemma DebugFlagIgnoresCase(arg: string)
    ensures IsDebugFlag(arg) <==> LowerString(arg) == "-debug"
  {
    EqualsIgnoreCaseIsLowerEqual(DebugFlag, arg);
    assert LowerString(DebugFlag) == "-debug";
  }

  /** The flag is recognised in upper case too. */
  lemma UpperCaseFlag()
    ensures IsDebugFlag("-DEBUG")
  {
    DebugFlagIgnoresCase("-DEBUG");
    assert LowerString("-DEBUG") == "-debug";
  }

  class Debug {
    /** The active severity mask. */
    var bitmask: Mask
    /** Whether the channel writes at all. */
    var debugOn: bool

    /** The static initialisers: every level admitted, channel off. */
    constructor ()
      ensures bitmask == AllMask && !debugOn
    {
      bitmask := AllMask;
      debugOn := false;
    }

    method Enable()
      modifies this
      ensures debugOn && bitmask == old(bitmask)
    {
      debugOn := true;
    }

    function IsDebugOn(): bool
      reads this
    {
      debugOn
    }

    method SetBitmask(bitmaskIn: Mask)
      modifies this
      ensures bitmask == bitmaskIn && debugOn == old(debugOn)
    {
      bitmask := bitmaskIn;
    }

    /** Scans the arguments for the debug flag and stops at the first one. It can
        turn the channel on but never off, and leaves the mask alone. */
    method Init(args: seq<string>)
      modifies this
      ensures debugOn == (old(debugOn) || exists i :: 0 <= i < |args| && IsDebugFlag(args[i]))
      ensures bitmask == old(bitmask)
    {
      var i := 0;
      while i < |args|
        invariant 0 <= i <= |args|
        invariant forall j :: 0 <= j < i ==> !IsDebugFlag(args[j])
        invariant debugOn == old(debugOn) && bitmask == old(bitmask)
      {
        if IsDebugFlag(args[i]) {
          Enable();
          break;
        }
        i := i + 1;
      }
    }

    /** The gate of both write operations. */
    predicate Emits(level: Level)
      reads this
    {
      IsDebugOn() && Admits(bitmask, level)
    }

    /** Prints one record to System.out when the channel is on and admits the level. */
    method WriteLine(level: Level, message: string, component: string, timestamp: string, console: Console)
      modifies console
      ensures console.out == if Emits(level) then old(console.out) + [FormatLine(timestamp, level, component, message)]
                             else old(console.out)
      ensures console.err == old(console.err)
    {
      if IsDebugOn() && bitmask & Value(level) != 0 {
        console.PrintlnOut(FormatLine(timestamp, level, component, message));
      }
    }

    /** Prints the exception header, then what ex.printStackTrace writes (passed in
        as `printedTrace`), to System.err when the channel is on and admits Error. */
    method WriteException(ex: Throwable, timestamp: string, printedTrace: seq<string>, console: Console)
      modifies console
      ensures console.err == if Emits(Error) then old(console.err) + [ExceptionHeader(timestamp, ex)] + printedTrace
                             else old(console.err)
      ensures console.out == old(console.out)
    {
      if IsDebugOn() && bitmask & Value(Error) != 0 {
        console.PrintlnErr(ExceptionHeader(timestamp, ex));
        console.PrintErrLines(printedTrace);
      }
    }
  }

  /** Level None is never written, and a channel that is off writes nothing. */
  lemma EmitsOnlyWhenOnAndAdmitted(d: Debug, level: Level)
    ensures d.Emits(level) ==> d.debugOn && level != None
    ensures d.debugOn && d.bitmask == AllMask ==> d.Emits(level) == (level != None)
  {
    AdmitsAllButNone(d.bitmask, level);
  }

  /** The filtering scenario: with Error|Warning admitted, Info is dropped and
      Error prints one line that parses back to `[Error] [X] boom`. */
  method FilteringScenario(console: Console)
    requires console.out == []
    modifies console
    ensures |console.out| == 1
    ensures ParseLine(console.out[0]) == NonNull(LogLine("12:00:00.000", Error, "X", "boom"))
  {
    var d := new Debug();
    var args := ["app.jar", "-DEBUG"];
    UpperCaseFlag();
    assert IsDebugFlag(args[1]);
    d.Init(args);
    assert d.debugOn;
    d.SetBitmask(Value(Error) | Value(Warning));
    d.WriteLine(Info, "ignored", "X", "12:00:00.000", console);
    assert console.out == [];
    d.WriteLine(Error, "boom", "X", "12:00:00.000", console);
    assert |console.out| == 1;
    ParseFormatLine("12:00:00.000", Error, "X", "boom");
    assert ParseLine(console.out[0]) == NonNull(LogLine("12:00:00.000", Error, "X", "boom"));
  }
}
