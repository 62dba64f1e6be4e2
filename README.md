# HelloJWorld diagnostics: a Dafny model of `samael.huginandmunin`

The `samael.huginandmunin` package of HelloJWorld gives the application three pieces
of process-wide state:

- **`Debug`**, the console channel. It has a severity bitmask (every level by default) and
  an on/off flag (off by default). `init(args)` turns the flag on when it finds a `-debug`
  argument; case does not matter. `writeLine` prints `timestamp [Level] [component] message`
  to System.out. `writeException` prints an exception header and the stack trace to
  System.err. Both print only when the channel is on and the mask admits the level.
- **`Log`**, the file channel. It has a bitmask and a target path that starts out null.
  `init(fileName)` creates `<home>/Documents\Logs` when it is missing, sets the path and
  empties the file. `writeLine` and `writeException` then open the file for appending,
  write one record (or a header plus one `"  at "` line per stack frame), and close it.
  A failure to create the directory or to open the file is reported on System.err and
  swallowed.
- **`Config`**, a singleton key/value store. It is seeded with five application defaults.
  `get` and `set` act on the one instance.

## How the model is built

- Each Java class becomes a Dafny class. Its static fields become fields that the methods
  update under `modifies` clauses.
- System.out and System.err are the two line sequences of `Streams.Console`.
- The file system is modelled by `FileSystem.Files`:
  - a set of directories;
  - a map from path to the file's lines;
  - a multiset of the writers open on each path, so the contracts show that every write
    closes what it opened.
- Whether the environment lets an operation succeed is an oracle parameter:
  - whether `mkdirs` succeeds;
  - whether the `FileWriter` constructor throws, and with which message (`IoOutcome`).
- The wall-clock timestamp is a string parameter.
- What the code reads from an exception (simple class name, nullable message, frame
  strings) is the `Throwable` datatype.
- Java null is `Nullable<T>` where the code deals with it: an exception's message,
  `logFileName`, and the keys and values of the settings map. Masks are `bv32`, like
  Java `int`.

Modules:

| module | file | role |
|---|---|---|
| JavaLang | java.dfy | null, string conversion of null, `equalsIgnoreCase` |
| Levels | levels.dfy | `DebugLevel`/`LogLevel` values and names, the mask test |
| LineFormat | format.dfy | the line grammar, a parser for it, the exception lines |
| Streams | streams.dfy | System.out and System.err |
| FileSystem | filesystem.dfy | directories, files and writers |
| DebugConsole | debug.dfy | `Debug` |
| FileLog | log.dfy | `Log` |
| AppConfig | config.dfy | `Config` and its holder |

Every write operation is specified by its gate and by a specification function:
- The gates are the predicates `Debug.Emits` and `Log.Writes`.
- The specification functions are `FormatLine`, `ExceptionHeader` and `ExceptionLines`.

`ParseLine` is the partner of `FormatLine`. A parsed line always formats back to the
input. Parsing a formatted line returns every field when the timestamp holds no space and
the component holds no `]`. Without that condition the format is ambiguous:
`ComponentBracketIsAmbiguous` shows two records that give the same line. The model also
proves that an exception header does not parse as a record when its timestamp holds no
space, which every `HH:mm:ss.SSS` timestamp satisfies.

## Model

| member | source | states |
|---|---|---|
| Levels.Value | src/samael/huginandmunin/Debug.java:34-40 | the enum's `value` field, as a definition; its values are stated in LevelValues and AllIsUnionOfConcrete |
| Levels.Name | src/samael/huginandmunin/Debug.java:94 | the enum constant's `name()`, as a definition; NameRoundTrip proves it injective |
| Levels.Admits | src/samael/huginandmunin/Log.java:105 | the gate `(bitmask & level.value) != 0`, as a definition; AdmitsAllButNone, SingleLevelMask and AdmitsUnion state how it filters |
| Levels.LevelValues | src/samael/huginandmunin/Debug.java:34-40 | None, Error, Warning, Info, Verbose and All have the values 0, 1, 2, 4, 8 and 15 |
| Levels.AllIsUnionOfConcrete | src/samael/huginandmunin/Log.java:37-43 | All is the OR of the four concrete levels; each concrete level is a single bit, disjoint from the others |
| Levels.AdmitsAllButNone | src/samael/huginandmunin/Debug.java:92 | the All mask admits every level except None; no mask admits None |
| Levels.SingleLevelMask | src/samael/huginandmunin/Log.java:105 | filtering is by bit intersection: a one-level mask admits exactly that level and All |
| Levels.AdmitsUnion | src/samael/huginandmunin/Log.java:105 | a union of masks admits a concrete level iff one of the two masks does |
| Levels.LevelOfName | src/samael/huginandmunin/Debug.java:94 | a level recovered from a string has that string as its `name()` |
| Levels.NameRoundTrip | src/samael/huginandmunin/Log.java:108 | `name()` is injective: each level is recovered from its printed name |
| JavaLang.Str | src/samael/huginandmunin/Debug.java:103 | string conversion in concatenation, a null message becoming "null", as a definition; it is used by ExceptionHeader and by the error lines in FileLog.Log.Init, WriteLine and WriteException |
| JavaLang.CharsEqualIgnoreCase | src/samael/huginandmunin/Debug.java:83 | the per-character test of `equalsIgnoreCase` over ASCII case mapping (see "## Left out"), as a definition; EqualsIgnoreCaseIsLowerEqual characterises it |
| JavaLang.EqualsIgnoreCase | src/samael/huginandmunin/Debug.java:83 | `String.equalsIgnoreCase`, as a definition: equal lengths and every character pair equal ignoring case; EqualsIgnoreCaseIsLowerEqual and EqualsIgnoreCaseEquivalence state its properties |
| JavaLang.LowerString | src/samael/huginandmunin/Debug.java:83 | keeps the length; lowers each ASCII upper-case letter and leaves other characters alone |
| JavaLang.EqualsIgnoreCaseIsLowerEqual | src/samael/huginandmunin/Debug.java:83 | `equalsIgnoreCase` holds iff the lower-case forms are equal |
| JavaLang.EqualsIgnoreCaseEquivalence | src/samael/huginandmunin/Debug.java:83 | `equalsIgnoreCase` is reflexive, symmetric and transitive |
| DebugConsole.IsDebugFlag | src/samael/huginandmunin/Debug.java:83 | the test `"-debug".equalsIgnoreCase(arg)`, as a definition; DebugFlagIgnoresCase characterises it |
| DebugConsole.DebugFlagIgnoresCase | src/samael/huginandmunin/Debug.java:83 | an argument is the debug flag iff its lower-case form is "-debug" |
| DebugConsole.UpperCaseFlag | src/samael/huginandmunin/Debug.java:83 | "-DEBUG" is recognised as the flag |
| DebugConsole.Debug.constructor | src/samael/huginandmunin/Debug.java:52-55 | initial state: bitmask All, channel off |
| DebugConsole.Debug.Enable | src/samael/huginandmunin/Debug.java:58-60 | turns the channel on and leaves the mask alone |
| DebugConsole.Debug.SetBitmask | src/samael/huginandmunin/Debug.java:72-74 | the mask becomes exactly the argument; the on/off flag is unchanged |
| DebugConsole.Debug.Init | src/samael/huginandmunin/Debug.java:81-88 | afterwards, on ⇔ (on before, or some argument equals "-debug" ignoring case); never turns the channel off; the mask is unchanged |
| DebugConsole.Debug.IsDebugOn | src/samael/huginandmunin/Debug.java:63-65 | reads the on/off flag without changing anything, as a definition |
| DebugConsole.Debug.Emits | src/samael/huginandmunin/Debug.java:92 | the gate of both writes, on and admitted, as a definition; EmitsOnlyWhenOnAndAdmitted states its consequences |
| DebugConsole.Debug.WriteLine | src/samael/huginandmunin/Debug.java:91-97 | System.out gains exactly the line `ts [Name] [component] message` when on and admitted, else nothing; System.err is unchanged; only the console is modified, so mask and flag stay as they were |
| DebugConsole.Debug.WriteException | src/samael/huginandmunin/Debug.java:100-106 | when on and Error is admitted, System.err gains the header `ts [Exception] Name: message`, then the printed trace; else nothing; System.out is unchanged |
| DebugConsole.EmitsOnlyWhenOnAndAdmitted | src/samael/huginandmunin/Debug.java:92 | nothing is emitted when the channel is off or the level is None; with the All mask, every level but None is emitted |
| DebugConsole.FilteringScenario | src/samael/huginandmunin/Debug.java:81-97 | `-DEBUG` and mask Error\|Warning: the Info write prints nothing; the Error write prints one line that parses back to its fields |
| LineFormat.FormatLine | src/samael/huginandmunin/Log.java:108 | `ts + " [" + name + "] [" + component + "] " + message`, as a definition; ParseFormatLine and ParseLine relate it to the parser both ways |
| LineFormat.TimestampHasNoSpace | src/samael/huginandmunin/Debug.java:93 | an `HH:mm:ss.SSS` timestamp holds no space |
| LineFormat.SplitAt | src/samael/huginandmunin/Log.java:108 | splitting at the first occurrence of a character rebuilds the input; that character does not occur in the first part; no split when it is absent |
| LineFormat.ParseComponent | src/samael/huginandmunin/Log.java:108 | a parsed `" [component] message"` tail rebuilds its input, and its component holds no `]` |
| LineFormat.ParseLevel | src/samael/huginandmunin/Log.java:108 | a parsed `"[Name]"` prefix names a level and rebuilds its input |
| LineFormat.ParseLine | src/samael/huginandmunin/Log.java:108 | every parsed line is the `FormatLine` of its fields; the timestamp holds no space and the component no `]` |
| LineFormat.ParseComponentOf | src/samael/huginandmunin/Debug.java:94-95 | when the component holds no `]`, the component part of a formatted line parses back to its fields |
| LineFormat.ParseLevelOf | src/samael/huginandmunin/Debug.java:94 | the level part of a formatted line parses back to that level |
| LineFormat.ParseFormatLine | src/samael/huginandmunin/Log.java:108 | round trip: when the timestamp holds no space and the component no `]`, parsing `FormatLine(ts, level, component, message)` returns those four fields |
| LineFormat.ComponentBracketIsAmbiguous | src/samael/huginandmunin/Log.java:108 | the format is not injective: component `a] [b` with message `c` gives the same line as component `a` with message `[b] c`, and the parser returns the latter |
| LineFormat.ParseTimestampedLine | src/samael/huginandmunin/Debug.java:93-95 | the round trip holds for every `HH:mm:ss.SSS` timestamp when the component holds no `]` |
| LineFormat.ExceptionHeader | src/samael/huginandmunin/Log.java:132 | `ts + " [Exception] " + simpleName + ": " + message`, a null message printed as "null", as a definition; ExceptionHeaderIsNotLogLine separates it from record lines |
| LineFormat.ExceptionTagIsNoLevel | src/samael/huginandmunin/Log.java:132 | `[Exception]` does not parse as a level tag |
| LineFormat.ExceptionHeaderIsNotLogLine | src/samael/huginandmunin/Log.java:132 | for a timestamp without a space, an exception header does not parse as a record line |
| LineFormat.TimestampedExceptionHeaderIsNotLogLine | src/samael/huginandmunin/Debug.java:102-103 | for every `HH:mm:ss.SSS` timestamp, an exception header does not parse as a record line |
| LineFormat.FrameLines | src/samael/huginandmunin/Log.java:133-135 | one line per stack frame, in order, each prefixed with `"  at "` |
| LineFormat.FrameLinesAppend | src/samael/huginandmunin/Log.java:133-135 | one more frame adds one line at the end |
| LineFormat.ExceptionLines | src/samael/huginandmunin/Log.java:132-135 | the header followed by the frame lines, as a definition; PrintException proves the loop writes exactly these |
| Streams.Console.constructor | src/samael/huginandmunin/Debug.java:95 | both streams start out empty |
| Streams.Console.PrintlnOut | src/samael/huginandmunin/Debug.java:95 | `System.out.println` appends one line to System.out |
| Streams.Console.PrintlnErr | src/samael/huginandmunin/Debug.java:103 | `System.err.println` appends one line to System.err |
| Streams.Console.PrintErrLines | src/samael/huginandmunin/Debug.java:104 | the printed trace is appended to System.err, in order |
| FileSystem.Child | src/samael/huginandmunin/Log.java:77 | `new File(dir, name).getAbsolutePath()` as `dir + "/" + name`, as a definition (see "## Left out"); FileLog.Log.Init states the path it yields |
| FileSystem.Files.constructor | src/samael/huginandmunin/Log.java:70 | the home directory, the directories and the files are as given; no writer is open |
| FileSystem.Files.Exists | src/samael/huginandmunin/Log.java:72 | `File.exists()`, true for a directory and for a regular file, as a definition; FileLog.Log.Init and CollisionScenario state its effect |
| FileSystem.Files.Mkdirs | src/samael/huginandmunin/Log.java:72 | on success the directory exists; files and writers are unchanged |
| FileSystem.Files.Open | src/samael/huginandmunin/Log.java:81 | on success the file exists, keeping its lines in append mode and emptied otherwise, and one writer more is open; on failure nothing changes |
| FileSystem.Files.Println | src/samael/huginandmunin/Log.java:113 | appends one line to an open file and changes nothing else |
| FileSystem.Files.Close | src/samael/huginandmunin/Log.java:158 | closes one writer on the path; files are unchanged |
| FileLog.LogDir | src/samael/huginandmunin/Log.java:71 | `new File(home, "Documents\\Logs")`, as a definition |
| FileLog.Log.constructor | src/samael/huginandmunin/Log.java:59-64 | initial state: bitmask All, path null |
| FileLog.Log.Init | src/samael/huginandmunin/Log.java:69-88 | if the directory is missing and cannot be made: the error is reported, and path, files and directories are unchanged; otherwise the path is set, the file is emptied only if opening succeeds, and a failed open is reported; no writer is left open; System.out is unchanged |
| FileLog.Log.SetBitmask | src/samael/huginandmunin/Log.java:94-96 | the mask becomes exactly the argument; the path is unchanged |
| FileLog.Log.Writes | src/samael/huginandmunin/Log.java:105 | the gate of both writes, admitted and a path set, as a definition |
| FileLog.Log.WriteLine | src/samael/huginandmunin/Log.java:104-119 | masked out or no path: nothing changes; open succeeds: exactly one `FormatLine` is appended to the prior lines of that one file; open fails: files unchanged and "Log write failed: msg" on System.err; no writer is left open; mask and path are unchanged |
| FileLog.Log.WriteException | src/samael/huginandmunin/Log.java:125-141 | gated on Error and a set path; on success the header and one `"  at "` line per frame are appended, in order; on failure "Exception log failed: msg" on System.err; no writer is left open |
| FileLog.Log.PrintException | src/samael/huginandmunin/Log.java:131-135 | the header, then the frame loop, appends exactly `ExceptionLines` to the open file |
| FileLog.Log.Open | src/samael/huginandmunin/Log.java:148-150 | opens the target in append mode: prior lines are kept and one writer more is open, or nothing changes |
| FileLog.Log.Close | src/samael/huginandmunin/Log.java:156-160 | closes the writer if there is one, else does nothing |
| FileLog.LifecycleScenario | src/samael/huginandmunin/Log.java:69-119 | after init the file is empty; one Info write leaves exactly one line that parses back; a second init empties the file again |
| FileLog.DisabledScenario | src/samael/huginandmunin/Log.java:72-75 | when the directory cannot be made, a later write creates no file |
| FileLog.CollisionScenario | src/samael/huginandmunin/Log.java:72-87 | a regular file at the directory path does not stop init: the path is set, and the failed truncate and the failed write are both reported on System.err |
| AppConfig.Lookup | src/samael/huginandmunin/Config.java:66 | `HashMap.get`, as a definition; GetAfterSet, SetKeepsOtherKeys, DefaultsOnlyKeys, DefaultsNullIffAbsent and NullValueLooksAbsent state what it returns |
| AppConfig.Defaults | src/samael/huginandmunin/Config.java:46-51 | the five default settings, as a definition; DefaultsContents and Config.constructor state what it holds and that construction yields it |
| AppConfig.DefaultsContents | src/samael/huginandmunin/Config.java:45-52 | after construction the store maps the five App.* keys to their default values, and holds no other key |
| AppConfig.DefaultsOnlyKeys | src/samael/huginandmunin/Config.java:46-51 | after construction, `get` of any other key, null included, is null |
| AppConfig.DefaultsNullIffAbsent | src/samael/huginandmunin/Config.java:46-51 | after construction, `get` returns null exactly for the absent keys |
| AppConfig.GetAfterSet | src/samael/huginandmunin/Config.java:70-72 | after `set(k, v)`, `get(k)` is v, null included |
| AppConfig.SetKeepsOtherKeys | src/samael/huginandmunin/Config.java:70-72 | `set(k, v)` leaves every other key's value unchanged |
| AppConfig.SetTwice | src/samael/huginandmunin/Config.java:70-72 | the later of two sets to one key wins; setting the same value twice is the same as setting it once |
| AppConfig.NullValueLooksAbsent | src/samael/huginandmunin/Config.java:65-72 | after `set(k, null)` the key is present, yet `get(k)` returns null just as for an absent key |
| AppConfig.Config.constructor | src/samael/huginandmunin/Config.java:45-52 | the five seeding puts leave exactly the default map |
| AppConfig.Config.GetSetting | src/samael/huginandmunin/Config.java:65-67 | `Lookup` on the instance's map, reading the store without changing it, as a definition; GetAfterSet, SetKeepsOtherKeys, DefaultsOnlyKeys, NullValueLooksAbsent and SetSetting state what it returns |
| AppConfig.Config.SetSetting | src/samael/huginandmunin/Config.java:70-72 | the map update; afterwards `get` of the key gives the value and every other key is unchanged |
| AppConfig.ConfigHolder.constructor | src/samael/huginandmunin/Config.java:32-34 | the holder creates one fresh instance, seeded with the defaults |
| AppConfig.ConfigHolder.GetInstance | src/samael/huginandmunin/Config.java:37-39 | the holder's one instance, as a definition; ConfigHolder.Set and SharedStoreScenario show that every proxy acts on it |
| AppConfig.ConfigHolder.Get | src/samael/huginandmunin/Config.java:55-57 | `getSetting` on the one instance, as a definition; ConfigHolder.Set and SharedStoreScenario state what it returns after a set |
| AppConfig.ConfigHolder.Set | src/samael/huginandmunin/Config.java:60-62 | the static proxy updates the one instance's map; afterwards both the proxy `get` and `getInstance().getSetting` give the value, and every other key is unchanged |
| AppConfig.SharedStoreScenario | src/samael/huginandmunin/Config.java:37-62 | a set through the proxy is seen through `getInstance().getSetting` and through the proxy `get`; another default stays; a key set to null reads as null |

## Where the code decides

In these places the code behaves differently from what one might expect.

- **Level names.** The printed level is the enum constant's `name()`: `Error`, not `ERROR`.
- **Null messages.** A null exception message prints as `null`, not as an empty field.
- **Failed truncate.** `Log.init` sets the target path before it truncates. When the
  truncating open fails, the path stays set. Later writes try to open the file and report
  "Log write failed" instead of being discarded silently.
- **Regular file at the directory path.** `File.exists()` is true for a regular file at
  the directory path. `init` therefore goes past the directory check, and later writes
  report their failures on System.err instead of being silent no-ops
  (`FileLog.CollisionScenario`).
- **Repeated init.** `Log.init` can be called again. Each call re-resolves the path and
  truncates again; there is no terminal "disabled" state.
- **Debug.init only turns the channel on.** It never turns the channel off.

## Left out

- Timestamps: `LocalTime.now()` and `DateTimeFormatter` are the wall clock. The formatted
  timestamp is a parameter; `IsTimestamp` only describes its `HH:mm:ss.SSS` shape.
- Debug.WriteException: what `ex.printStackTrace(System.err)` prints is JVM formatting.
  It is a parameter appended after the header.
- Frame strings: `StackTraceElement.toString()` is JVM formatting, so frames are strings.
- JavaLang.CharsEqualIgnoreCase: folds case by the ASCII mapping, whereas `regionMatches`
  uses Unicode `Character.toUpperCase`/`toLowerCase`. So `"é"` and `"É"` are equal ignoring
  case in Java and not in the model. For the `-debug` flag the outcome is the same.
- JavaLang.EqualsIgnoreCase: uses ASCII case mapping rather than Java's Unicode
  `Character.toUpperCase`/`toLowerCase`. No non-ASCII character folds onto a letter of
  `-debug`, so the outcome for the debug flag is the same.
- The home directory: `System.getProperty("user.home")` is the `home` field of the
  file-system model.
- `mkdirs` and `FileWriter` outcomes: they depend on the real file system and are oracle
  parameters.
- FileSystem.Files.Println: the model assumes every `println` after a successful open
  reaches the file. `PrintWriter` catches its own write and close errors and only sets
  `checkError`, so such an error is not reported, and the line may be lost. That silent
  loss is not modelled.
- DebugConsole.Debug.WriteLine: message and component are strings. A null message or
  component is passed as the string "null", which is what `String.format` and string
  concatenation print for it.
- FileLog.Log.WriteLine: message and component are strings; a null one is passed as
  "null", as for the console channel.
- Null arguments: levels, exceptions, strings and the argument array are non-null in the
  model, so these Java error paths are not modelled:
  - `Log.writeLine(null, …)` throws NullPointerException at the mask test in every state.
  - `Debug.writeLine(null, …)` throws only when the channel is on; when it is off, the
    short-circuit `&&` makes it silent.
  - `Log.writeException(null)` first opens the file, creating it if it is missing, then
    throws at the header, and the `catch (IOException)` does not catch that.
  - `Debug.writeException(null)` throws at the header when the gate is open.
  - `Log.init(null)` throws from `new File(logDir, null)` after the directory step, so
    `logFileName` keeps its old value.
  - `Debug.init(null)` throws in the loop.

  In these cases the source throws, so "failures never reach the caller" covers only
  IOException.
- Line separators: one `println` call is one element of `Console.out`, `Console.err` or a
  file's line sequence. When a message, component or frame contains a line separator, it
  is still one element, although the file or stream then shows several physical lines.
  "Exactly one line" in the WriteLine contracts and in LifecycleScenario means one
  `println` call.
- FileSystem.Child: `getAbsolutePath` is modelled as `dir + "/" + name` for an absolute
  `dir`. `java.io.File` normalises names (it drops a trailing separator, so `x` and `x/`
  name one path); the model does not. The backslash in `"Documents\\Logs"` is kept as
  a character of the child name; no platform path syntax is modelled.
- Static state: each channel's static fields live in one object passed around; there is
  no class-level global.
- Thread safety of the lazy holder idiom: it relies on JVM class initialisation, which is
  concurrency and is left out.
- ANSI colouring: the commented-out `colorize` block in Debug.java is dead code.
- Other files: `ResourceLoader`, `MainFrame`, `App` and the Swing user interface only
  call this API or wrap I/O, and are not part of this model.
