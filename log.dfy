/** The file log channel (samael.huginandmunin.Log): a severity mask and a
    target path under the user's home directory. Initialisation creates the
    directory when needed and empties the file; every write then opens the file
    for appending, writes, and closes it again. I/O failures are reported on
    System.err and never reach the caller. */
module FileLog {

  import opened JavaLang
  import opened Levels
  import opened LineFormat
  import opened Streams
  import opened FileSystem

  /** The log directory, new File(home, "Documents\\Logs"). */
  function LogDir(home: string): string {
    Child(home, "Documents\\Logs")
  }

  class Log {
    /** The active severity mask. */
    var bitmask: Mask
    /** The absolute path of the log file; null until initialisation gets past the directory. */
    var logFileName: Nullable<string>

    /** The static initialisers: every level admitted, no target file. */
    constructor ()
      ensures bitmask == AllMask && logFileName == Null
    {
      bitmask := AllMask;
      logFileName := Null;
    }

    /** Resolves the target path and empties the file. When the directory is missing
        and cannot be created it reports that and returns, leaving every field and every
        file as it was. Otherwise the path is set first, so it stays set even when
        emptying the file fails. */
    method Init(fileName: string, fs: Files, console: Console, mkdirsSucceeds: bool, truncate: IoOutcome)
      modifies this, fs, console
      ensures bitmask == old(bitmask)
      ensures fs.openWriters == old(fs.openWriters) && console.out == old(console.out)
      ensures var dir := LogDir(fs.home);
        if !old(fs.Exists(dir)) && !mkdirsSucceeds then
          && logFileName == old(logFileName)
          && fs.files == old(fs.files) && fs.dirs == old(fs.dirs)
          && console.err == old(console.err) + ["Failed to create log directory: " + dir]
        else
          && logFileName == NonNull(Child(dir, fileName))
          && fs.dirs == (if old(fs.Exists(dir)) then old(fs.dirs) else old(fs.dirs) + {dir})
          && fs.files == (if truncate.Succeeds? then old(fs.files)[Child(dir, fileName) := []] else old(fs.files))
          && console.err == old(console.err) + (if truncate.Succeeds? then [] else ["Failed to initialize log file: " + Str(truncate.message)])
    {
      var logDir := LogDir(fs.home);
      if !fs.Exists(logDir) {
        var made := fs.Mkdirs(logDir, mkdirsSucceeds);
        if !made {
          console.PrintlnErr("Failed to create log directory: " + logDir);
          return;
        }
      }
      var path := Child(logDir, fileName);
      logFileName := NonNull(path);
      var writer: Nullable<string> := Null;
      var ok := fs.Open(path, false, truncate);
      if ok {
        writer := NonNull(path);
      } else {
        console.PrintlnErr("Failed to initialize log file: " + Str(truncate.message));
      }
      Close(fs, writer);
    }

    method SetBitmask(bitmaskIn: Mask)
      modifies this
      ensures bitmask == bitmaskIn && logFileName == old(logFileName)
    {
      bitmask := bitmaskIn;
    }

    /** The gate of both write operations. */
    predicate Writes(level: Level)
      reads this
    {
      Admits(bitmask, level) && logFileName.NonNull?
    }

    /** Appends one record to the log file when the level is admitted and a target
        is set. A failed open is reported on System.err and nothing is written. */
    method WriteLine(level: Level, message: string, component: string, timestamp: string,
                     fs: Files, console: Console, open: IoOutcome)
      modifies fs, console
      ensures fs.dirs == old(fs.dirs) && fs.openWriters == old(fs.openWriters)
      ensures console.out == old(console.out)
      ensures if !Writes(level) then fs.files == old(fs.files) && console.err == old(console.err)
              else if open.Succeeds? then
                && fs.files == old(fs.files)[logFileName.value := old(fs.ContentsOf(logFileName.value)) + [FormatLine(timestamp, level, component, message)]]
                && console.err == old(console.err)
              else fs.files == old(fs.files) && console.err == old(console.err) + ["Log write failed: " + Str(open.message)]
    {
      if !Writes(level) {
        return;
      }
      var line := FormatLine(timestamp, level, component, message);
      var writer: Nullable<string> := Null;
      var ok := Open(fs, open);
      if ok {
        writer := logFileName;
        ghost var before := old(fs.ContentsOf(logFileName.value));
        fs.Println(logFileName.value, line);
        assert fs.files == old(fs.files)[logFileName.value := before + [line]];
      } else {
        console.PrintlnErr("Log write failed: " + Str(open.message));
      }
      Close(fs, writer);
    }

    /** Appends the exception header and one "  at " line per stack frame when Error is
        admitted and a target is set. A failed open is reported on System.err. */
    method WriteException(ex: Throwable, timestamp: string, fs: Files, console: Console, open: IoOutcome)
      modifies fs, console
      ensures fs.dirs == old(fs.dirs) && fs.openWriters == old(fs.openWriters)
      ensures console.out == old(console.out)
      ensures if !Writes(Error) then fs.files == old(fs.files) && console.err == old(console.err)
              else if open.Succeeds? then
                && fs.files == old(fs.files)[logFileName.value := old(fs.ContentsOf(logFileName.value)) + ExceptionLines(timestamp, ex)]
                && console.err == old(console.err)
              else fs.files == old(fs.files) && console.err == old(console.err) + ["Exception log failed: " + Str(open.message)]
    {
      if !Writes(Error) {
        return;
      }
      var path := logFileName.value;
      var writer: Nullable<string> := Null;
      var ok := Open(fs, open);
      if ok {
        writer := logFileName;
        PrintException(fs, path, timestamp, ex);
      } else {
        console.PrintlnErr("Exception log failed: " + Str(open.message));
      }
      Close(fs, writer);
    }

    /** The body of writeException's try block, on an open writer: the header, then
        the loop over getStackTrace() with one "  at " line per frame, in order. */
    method PrintException(fs: Files, path: string, timestamp: string, ex: Throwable)
      requires path in fs.openWriters && path in fs.files
      modifies fs
      ensures fs.dirs == old(fs.dirs) && fs.openWriters == old(fs.openWriters)
      ensures fs.files == old(fs.files)[path := old(fs.files[path]) + ExceptionLines(timestamp, ex)]
    {
      var header := ExceptionHeader(timestamp, ex);
      fs.Println(path, header);
      ghost var before := old(fs.files[path]) + [header];
      assert fs.files == old(fs.files)[path := before];
      var frames := ex.stackTrace;
      assert before + FrameLines(frames[..0]) == before;
      for i := 0 to |frames|
        invariant path in fs.openWriters && path in fs.files
        invariant fs.dirs == old(fs.dirs) && fs.openWriters == old(fs.openWriters)
        invariant fs.files == old(fs.files)[path := before + FrameLines(frames[..i])]
      {
        ghost var written := before + FrameLines(frames[..i]);
        fs.Println(path, "  at " + frames[i]);
        assert fs.files == old(fs.files)[path := written + ["  at " + frames[i]]];
        assert frames[..i + 1] == frames[..i] + [frames[i]];
        FrameLinesAppend(frames[..i], frames[i]);
        assert written + ["  at " + frames[i]] == before + FrameLines(frames[..i + 1]);
      }
      assert frames[..|frames|] == frames;
      assert before + FrameLines(frames) == old(fs.files[path]) + ([header] + FrameLines(frames));
    }

    /** new FileWriter(logFileName, true) wrapped in an auto-flushing PrintWriter. */
    method Open(fs: Files, outcome: IoOutcome) returns (ok: bool)
      requires logFileName.NonNull?
      modifies fs
      ensures ok == outcome.Succeeds?
      ensures ok ==> fs.files == old(fs.files)[logFileName.value := old(fs.ContentsOf(logFileName.value))]
      ensures ok ==> fs.openWriters == old(fs.openWriters) + multiset{logFileName.value}
      ensures !ok ==> fs.files == old(fs.files) && fs.openWriters == old(fs.openWriters)
      ensures fs.dirs == old(fs.dirs)
    {
      ok := fs.Open(logFileName.value, true, outcome);
    }

    /** Closes the writer if one was opened. */
    method Close(fs: Files, writer: Nullable<string>)
      requires (writer.NonNull? ==> writer.value in fs.openWriters)
      modifies fs
      ensures fs.files == old(fs.files) && fs.dirs == old(fs.dirs)
      ensures fs.openWriters == if writer.NonNull? then old(fs.openWriters) - multiset{writer.value} else old(fs.openWriters)
    {
      if writer.NonNull? {
        fs.Close(writer.value);
      }
    }
  }

  /** The lifecycle scenario: initialisation leaves an empty file, one Info write
      adds exactly one line, and initialising again empties the file again. */
  method LifecycleScenario(console: Console) returns (afterWrite: seq<string>, afterReinit: seq<string>)
    modifies console
    ensures afterWrite == [FormatLine("12:00:00.000", Info, "T", "hello")]
    ensures ParseLine(afterWrite[0]) == NonNull(LogLine("12:00:00.000", Info, "T", "hello"))
    ensures afterReinit == []
  {
    var fs := new Files("/home/user", {}, map[]);
    var log := new Log();
    var path := Child(LogDir("/home/user"), "test.log");
    log.Init("test.log", fs, console, true, Succeeds);
    assert log.logFileName == NonNull(path) && fs.files[path] == [];
    log.WriteLine(Info, "hello", "T", "12:00:00.000", fs, console, Succeeds);
    afterWrite := fs.files[path];
    assert afterWrite == [FormatLine("12:00:00.000", Info, "T", "hello")];
    ParseTimestampedLine("12:00:00.000", Info, "T", "hello");
    log.Init("test.log", fs, console, true, Succeeds);
    afterReinit := fs.files[path];
  }

  /** When the log directory cannot be created, later writes touch no file. */
  method DisabledScenario(console: Console) returns (files: map<string, seq<string>>)
    modifies console
    ensures files == map[]
  {
    var fs := new Files("/home/user", {}, map[]);
    var log := new Log();
    log.Init("test.log", fs, console, false, Succeeds);
    assert log.logFileName == Null;
    log.WriteLine(Error, "boom", "X", "12:00:00.000", fs, console, Succeeds);
    files := fs.files;
  }

  /** A regular file where the log directory should be: File.exists() is true for it,
      so initialisation does not stop early but sets the path; opening a file under a
      non-directory throws FileNotFoundException, and every later write reports that on
      System.err. */
  method CollisionScenario(console: Console) returns (target: Nullable<string>)
    requires console.err == []
    modifies console
    ensures target == NonNull(Child(LogDir("/home/user"), "test.log"))
    ensures console.err == ["Failed to initialize log file: " + (target.value + " (Not a directory)"),
                            "Log write failed: " + (target.value + " (Not a directory)")]
  {
    var fs := new Files("/home/user", {}, map[LogDir("/home/user") := []]);
    var log := new Log();
    var path := Child(LogDir("/home/user"), "test.log");
    var notADirectory := Fails(NonNull(path + " (Not a directory)"));
    assert fs.Exists(LogDir("/home/user"));
    log.Init("test.log", fs, console, false, notADirectory);
    var message := path + " (Not a directory)";
    assert Str(notADirectory.message) == message;
    assert console.err == ["Failed to initialize log file: " + message];
    log.WriteLine(Error, "boom", "X", "12:00:00.000", fs, console, notADirectory);
    assert console.err == ["Failed to initialize log file: " + message, "Log write failed: " + message];
    target := log.logFileName;
  }
}
