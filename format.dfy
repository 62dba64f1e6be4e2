/** The line grammar both channels share: `timestamp [LevelName] [component] message`
    for ordinary records and `timestamp [Exception] TypeName: message` followed
    by one `  at frame` line per stack frame for exceptions. */
module LineFormat {

  import opened JavaLang
  import opened Levels

  predicate IsDigit(c: char) { '0' <= c <= '9' }

  /** The shape of a LocalTime formatted with the pattern "HH:mm:ss.SSS". */
  predicate IsTimestamp(ts: string) {
    && |ts| == 12
    && ts[2] == ':' && ts[5] == ':' && ts[8] == '.'
    && forall i :: 0 <= i < 12 && i != 2 && i != 5 && i != 8 ==> IsDigit(ts[i])
  }

  lemma TimestampHasNoSpace(ts: string)
    requires IsTimestamp(ts)
    ensures ' ' !in ts
  {
  }

  /** One ordinary record: String.format("%s [%s] [%s] %s", ts, level.name(), component, message). */
  function FormatLine(ts: string, level: Level, component: string, message: string): string {
    ts + " [" + Name(level) + "] [" + component + "] " + message
  }

  /** The concatenation of FormatLine regrouped along the fields a parser reads off one by one. */
  lemma RegroupLine(ts: string, name: string, component: string, message: string)
    ensures ts + " [" + name + "] [" + component + "] " + message
         == ts + [' '] + ("[" + name + "]" + (" [" + component + "] " + message))
  {
    var tail := " [" + component + "] " + message;
    assert "] [" + component + "] " + message == "]" + tail;
    assert " [" + name + "]" + tail == [' '] + ("[" + name + "]" + tail);
  }

  lemma FormatLineSplit(ts: string, level: Level, component: string, message: string)
    ensures FormatLine(ts, level, component, message)
         == ts + [' '] + ("[" + Name(level) + "]" + (" [" + component + "] " + message))
  {
    RegroupLine(ts, Name(level), component, message);
  }

  /** The record a parsed line carries. */
  datatype LogLine = LogLine(timestamp: string, level: Level, component: string, message: string)

  /** The index of the first `c` in `s`, or |s| when there is none. */
  function IndexOf(s: string, c: char): (r: nat)
    ensures r <= |s|
    ensures forall k :: 0 <= k < r ==> s[k] != c
    ensures r < |s| ==> s[r] == c
  {
    if s == [] then 0
    else if s[0] == c then 0
    else 1 + IndexOf(s[1..], c)
  }

  /** Splits `s` at its first `c`, dropping the `c`; Null when `s` holds no `c`. */
  function SplitAt(s: string, c: char): (r: Nullable<(string, string)>)
    ensures r.NonNull? ==> s == r.value.0 + [c] + r.value.1 && c !in r.value.0
    ensures r.Null? ==> c !in s
  {
    var i := IndexOf(s, c);
    if i == |s| then Null
    else
      assert s == s[..i] + [c] + s[i + 1..];
      NonNull((s[..i], s[i + 1..]))
  }

  lemma SplitAtFirst(a: string, c: char, b: string)
    requires c !in a
    ensures SplitAt(a + [c] + b, c) == NonNull((a, b))
  {
    var s := a + [c] + b;
    assert forall k :: 0 <= k < |a| ==> s[k] == a[k];
    assert s[|a|] == c;
    assert s[..|a|] == a && s[|a| + 1..] == b;
  }

  /** Reads `" [" + component + "] " + message`. */
  function ParseComponent(s: string): (r: Nullable<(string, string)>)
    ensures r.NonNull? ==> s == " [" + r.value.0 + "] " + r.value.1 && ']' !in r.value.0
  {
    if |s| < 2 || s[0] != ' ' || s[1] != '[' then Null
    else
      match SplitAt(s[2..], ']')
      case Null => Null
      case NonNull((component, rest)) =>
        if |rest| == 0 || rest[0] != ' ' then Null
        else
          ComponentRegroup(s, component, rest);
          NonNull((component, rest[1..]))
  }

  /** The pieces ParseComponent reads off put back together. */
  lemma ComponentRegroup(s: string, component: string, rest: string)
    requires |s| >= 2 && s[0] == ' ' && s[1] == '['
    requires s[2..] == component + [']'] + rest
    requires |rest| > 0 && rest[0] == ' '
    ensures s == " [" + component + "] " + rest[1..]
  {
    assert s[..2] == " [";
    assert s == s[..2] + s[2..];
    assert rest == " " + rest[1..];
  }

  /** Reads `"[" + name + "]" + rest` where `name` names a level. */
  function ParseLevel(s: string): (r: Nullable<(Level, string)>)
    ensures r.NonNull? ==> s == "[" + Name(r.value.0) + "]" + r.value.1
  {
    if |s| == 0 || s[0] != '[' then Null
    else
      match SplitAt(s[1..], ']')
      case Null => Null
      case NonNull((name, rest)) =>
        match LevelOfName(name)
        case Null => Null
        case NonNull(level) =>
          LevelRegroup(s, name, rest);
          NonNull((level, rest))
  }

  /** The pieces ParseLevel reads off put back together. */
  lemma LevelRegroup(s: string, name: string, rest: string)
    requires |s| > 0 && s[0] == '['
    requires s[1..] == name + [']'] + rest
    ensures s == "[" + name + "]" + rest
  {
    assert s == [s[0]] + s[1..];
  }

  /** Reads a line back into its fields; Null when it does not follow the grammar. */
  function ParseLine(line: string): (r: Nullable<LogLine>)
    ensures r.NonNull? ==> FormatLine(r.value.timestamp, r.value.level, r.value.component, r.value.message) == line
    ensures r.NonNull? ==> ' ' !in r.value.timestamp && ']' !in r.value.component
  {
    match SplitAt(line, ' ')
    case Null => Null
    case NonNull((ts, afterTs)) =>
      match ParseLevel(afterTs)
      case Null => Null
      case NonNull((level, afterLevel)) =>
        match ParseComponent(afterLevel)
        case Null => Null
        case NonNull((component, message)) =>
          FormatLineSplit(ts, level, component, message);
          NonNull(LogLine(ts, level, component, message))
  }

  lemma ParseComponentOf(component: string, message: string)
    requires ']' !in component
    ensures ParseComponent(" [" + component + "] " + message) == NonNull((component, message))
  {
    var s := " [" + component + "] " + message;
    assert s[2..] == component + [']'] + (" " + message);
    SplitAtFirst(component, ']', " " + message);
  }

  lemma ParseLevelOf(level: Level, rest: string)
    ensures ParseLevel("[" + Name(level) + "]" + rest) == NonNull((level, rest))
  {
    var s := "[" + Name(level) + "]" + rest;
    assert s[1..] == Name(level) + [']'] + rest;
    SplitAtFirst(Name(level), ']', rest);
    NameRoundTrip(level);
  }

  /** Formatting then parsing gives back every field, as long as the timestamp
      holds no space and the component no closing bracket. */
  lemma ParseFormatLine(ts: string, level: Level, component: string, message: string)
    requires ' ' !in ts && ']' !in component
    ensures ParseLine(FormatLine(ts, level, component, message)) == NonNull(LogLine(ts, level, component, message))
  {
    var afterLevel := " [" + component + "] " + message;
    var afterTs := "[" + Name(level) + "]" + afterLevel;
    FormatLineSplit(ts, level, component, message);
    SplitAtFirst(ts, ' ', afterTs);
    ParseLevelOf(level, afterLevel);
    ParseComponentOf(component, message);
  }

  /** An ordinary line with a real timestamp parses back into its record. */
  lemma ParseTimestampedLine(ts: string, level: Level, component: string, message: string)
    requires IsTimestamp(ts) && ']' !in component
    ensures ParseLine(FormatLine(ts, level, component, message)) == NonNull(LogLine(ts, level, component, message))
  {
    TimestampHasNoSpace(ts);
    ParseFormatLine(ts, level, component, message);
  }

  /** Without the side conditions of ParseFormatLine the format is ambiguous: a
      component holding "] [" gives the same line as a shorter component whose
      message starts with the rest, and the parser reads the shorter one. */
  lemma ComponentBracketIsAmbiguous()
    ensures FormatLine("12:00:00.000", Error, "a] [b", "c") == FormatLine("12:00:00.000", Error, "a", "[b] c")
    ensures ParseLine(FormatLine("12:00:00.000", Error, "a] [b", "c")) == NonNull(LogLine("12:00:00.000", Error, "a", "[b] c"))
  {
    assert FormatLine("12:00:00.000", Error, "a] [b", "c") == FormatLine("12:00:00.000", Error, "a", "[b] c");
    ParseTimestampedLine("12:00:00.000", Error, "a", "[b] c");
  }

  /** The first line written for an exception:
      timestamp + " [Exception] " + getSimpleName() + ": " + getMessage(). */
  function ExceptionHeader(ts: string, ex: Throwable): string {
    ts + " [Exception] " + ex.simpleName + ": " + Str(ex.message)
  }

  lemma ExceptionHeaderSplit(ts: string, ex: Throwable)
    ensures ExceptionHeader(ts, ex) == ts + [' '] + ("[Exception]" + (" " + ex.simpleName + ": " + Str(ex.message)))
  {
    assert " [Exception] " == [' '] + "[Exception]" + " ";
  }

  /** The tag of an exception header names no level. */
  lemma ExceptionTagIsNoLevel(afterTag: string)
    ensures ParseLevel("[Exception]" + afterTag) == Null
  {
    var s := "[Exception]" + afterTag;
    assert s[1..] == "Exception" + [']'] + afterTag;
    SplitAtFirst("Exception", ']', afterTag);
    assert LevelOfName("Exception") == Null;
  }

  /** An exception header is never mistaken for an ordinary record. */
  lemma ExceptionHeaderIsNotLogLine(ts: string, ex: Throwable)
    requires ' ' !in ts
    ensures ParseLine(ExceptionHeader(ts, ex)) == Null
  {
    var afterTag := " " + ex.simpleName + ": " + Str(ex.message);
    ExceptionHeaderSplit(ts, ex);
    SplitAtFirst(ts, ' ', "[Exception]" + afterTag);
    ExceptionTagIsNoLevel(afterTag);
  }

  /** No exception header with an `HH:mm:ss.SSS` timestamp parses as a record line. */
  lemma TimestampedExceptionHeaderIsNotLogLine(ts: string, ex: Throwable)
    requires IsTimestamp(ts)
    ensures ParseLine(ExceptionHeader(ts, ex)) == Null
  {
    TimestampHasNoSpace(ts);
    ExceptionHeaderIsNotLogLine(ts, ex);
  }

  /** The lines written for the frames of a stack trace, one "  at " line each, in order. */
  function FrameLines(frames: seq<string>): (r: seq<string>)
    ensures |r| == |frames|
    ensures forall i :: 0 <= i < |frames| ==> r[i] == "  at " + frames[i]
  {
    if frames == [] then [] else ["  at " + frames[0]] + FrameLines(frames[1..])
  }

  lemma FrameLinesAppend(frames: seq<string>, f: string)
    ensures FrameLines(frames + [f]) == FrameLines(frames) + ["  at " + f]
  {
  }

  /** Everything the file channel writes for one exception. */
  function ExceptionLines(ts: string, ex: Throwable): seq<string> {
    [ExceptionHeader(ts, ex)] + FrameLines(ex.stackTrace)
  }
}
