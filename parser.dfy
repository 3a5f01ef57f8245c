/**
 * Line normalisation (src/parser.rs): one text line to a `LogEntry` or a
 * rejection.  JSON decoding and chrono's textual date parsing are foreign
 * code and come in as the two functions of `External`; the wall clock is
 * the parameter `now` (epoch milliseconds).
 */
module Parser {
  import opened Wrappers
  import opened Json
  import opened Text
  import opened LogEntries

  /** The foreign collaborators: `serde_json::from_str` and chrono's string formats plus RFC 3339. */
  datatype External = External(
    decode: string -> Option<Value>,
    parseDateTime: string -> Option<int>)

  datatype ParseError = EmptyLine | InvalidJson | NotAnObject | ReadFailed

  datatype TimestampError =
    | NoTimestampField
    | UnparseableText(text: string)
    | InvalidUnixTimestamp(value: int)
    | InvalidNumberFormat
    | NotStringOrNumber

  /** What the input stream yields per line: a line of text or a read error. */
  datatype LineRead = ReadLine(text: string) | ReadError

  const TimestampKeys: seq<string> := ["timestamp", "time", "ts", "@timestamp", "datetime", "created_at"]
  const LevelKeys: seq<string> := ["level", "lvl", "severity", "priority", "log_level"]
  const LoggerKeys: seq<string> := ["logger", "logger_name", "name", "category", "component"]
  const MessageKeys: seq<string> := ["message", "msg", "text", "description", "content"]
  const ModuleKeys: seq<string> := ["module", "mod", "component", "file", "filename"]
  const FunctionKeys: seq<string> := ["function", "func", "method", "procedure"]

  /** Integers above this are read as epoch milliseconds, the rest as epoch seconds. */
  const MillisThreshold: int := 1_000_000_000_000

  /** chrono's representable instants, in whole epoch seconds (years -262143 to 262142). */
  const MinUnixSeconds: int := -8_334_601_228_800
  const MaxUnixSeconds: int := 8_210_266_876_799
  const MaxUnixMillis: int := MaxUnixSeconds * 1000 + 999

  /** `DateTime::from_timestamp(secs, 0)`, as epoch milliseconds. */
  function FromTimestampSeconds(secs: int): (r: Option<int>)
    ensures r.Some? <==> MinUnixSeconds <= secs <= MaxUnixSeconds
    ensures r.Some? ==> r.value / 1000 == secs && r.value % 1000 == 0
  {
    if MinUnixSeconds <= secs <= MaxUnixSeconds then Some(secs * 1000) else None
  }

  /** `DateTime::from_timestamp_millis(ms)`: valid when its whole seconds are. */
  function FromTimestampMillis(ms: int): (r: Option<int>)
    ensures r.Some? <==> MinUnixSeconds * 1000 <= ms <= MaxUnixMillis
    ensures r.Some? ==> r.value == ms
  {
    if MinUnixSeconds <= ms / 1000 <= MaxUnixSeconds then Some(ms) else None
  }

  /** `parse_timestamp`: text through the foreign parser, integers by the magnitude heuristic. */
  function ParseTimestamp(v: Value, ext: External): (r: Result<int, TimestampError>)
    ensures v.String? ==> (r.Success? <==> ext.parseDateTime(v.s).Some?)
    ensures v.String? && r.Success? ==> r.value == ext.parseDateTime(v.s).value
    ensures v.Number? && v.n.Integer? ==> (r.Success? <==> MinUnixSeconds <= v.n.value <= MaxUnixMillis)
    ensures r.Success? && v.Number? && v.n.Integer? && v.n.value > MillisThreshold ==> r.value == v.n.value
    ensures r.Success? && v.Number? && v.n.Integer? && v.n.value <= MillisThreshold ==> r.value == v.n.value * 1000
    ensures v.Number? && v.n.Float? ==> r == Failure(InvalidNumberFormat)
    ensures !v.String? && !v.Number? ==> r == Failure(NotStringOrNumber)
  {
    match v
    case String(s) =>
      (match ext.parseDateTime(s)
       case Some(t) => Success(t)
       case None => Failure(UnparseableText(s)))
    case Number(n) =>
      (match AsI64(n)
       case Some(ts) =>
         var dt := if ts > MillisThreshold then FromTimestampMillis(ts) else FromTimestampSeconds(ts);
         if dt.Some? then Success(dt.value) else Failure(InvalidUnixTimestamp(ts))
       case None => Failure(InvalidNumberFormat))
    case _ => Failure(NotStringOrNumber)
  }

  /** The first alias present in `obj`, if any, as an index into `keys`. */
  predicate FirstPresent(obj: map<string, Value>, keys: seq<string>, i: nat)
  {
    i < |keys| && keys[i] in obj && forall j | 0 <= j < i :: keys[j] !in obj
  }

  /**
   * `extract_timestamp` over an alias list: the first alias present decides,
   * even when its value does not parse; later aliases are never consulted.
   */
  function ScanTimestamp(obj: map<string, Value>, keys: seq<string>, ext: External): (r: Result<int, TimestampError>)
    ensures (forall i | 0 <= i < |keys| :: keys[i] !in obj) ==> r == Failure(NoTimestampField)
    ensures forall i: nat | FirstPresent(obj, keys, i) :: r == ParseTimestamp(obj[keys[i]], ext)
  {
    if keys == [] then Failure(NoTimestampField)
    else if keys[0] in obj then ParseTimestamp(obj[keys[0]], ext)
    else
      var r := ScanTimestamp(obj, keys[1..], ext);
      assert forall i: nat | FirstPresent(obj, keys, i) :: i > 0 && FirstPresent(obj, keys[1..], i - 1);
      r
  }

  /** `extract_timestamp`: the parse of the first timestamp alias present, or "no timestamp field". */
  function ExtractTimestamp(obj: map<string, Value>, ext: External): (r: Result<int, TimestampError>)
    ensures (forall i | 0 <= i < |TimestampKeys| :: TimestampKeys[i] !in obj) ==> r == Failure(NoTimestampField)
    ensures forall i: nat | FirstPresent(obj, TimestampKeys, i) :: r == ParseTimestamp(obj[TimestampKeys[i]], ext)
  {
    ScanTimestamp(obj, TimestampKeys, ext)
  }

  /** The alias is present and holds a string. */
  predicate HasString(obj: map<string, Value>, key: string)
  {
    key in obj && obj[key].String?
  }

  /** The first alias that holds a string, as an index into `keys`. */
  predicate FirstString(obj: map<string, Value>, keys: seq<string>, i: nat)
  {
    i < |keys| && HasString(obj, keys[i]) && forall j | 0 <= j < i :: !HasString(obj, keys[j])
  }

  /**
   * `extract_string_field`: the value of the first alias that is present and
   * a string; present non-string aliases are skipped.
   */
  function ExtractStringField(obj: map<string, Value>, keys: seq<string>): (r: Option<string>)
    ensures r.None? <==> forall i | 0 <= i < |keys| :: !HasString(obj, keys[i])
    ensures forall i: nat | FirstString(obj, keys, i) :: r == Some(obj[keys[i]].s)
  {
    if keys == [] then None
    else if keys[0] in obj && AsStr(obj[keys[0]]).Some? then AsStr(obj[keys[0]])
    else
      var r := ExtractStringField(obj, keys[1..]);
      assert forall i: nat | FirstString(obj, keys, i) :: i > 0 && FirstString(obj, keys[1..], i - 1);
      assert forall i | 1 <= i < |keys| :: keys[i] == keys[1..][i - 1];
      r
  }

  /** The loop of `extract_level` over an alias list. */
  function ScanLevel(obj: map<string, Value>, keys: seq<string>): (l: LogLevel)
    ensures l == match ExtractStringField(obj, keys)
                 case Some(s) => LogLevel.FromStr(s)
                 case None => Info
  {
    if keys == [] then Info
    else if keys[0] in obj && AsStr(obj[keys[0]]).Some? then LogLevel.FromStr(AsStr(obj[keys[0]]).value)
    else ScanLevel(obj, keys[1..])
  }

  /** `extract_level`: the first string-valued level alias, parsed; Info when there is none. */
  function ExtractLevel(obj: map<string, Value>): (l: LogLevel)
    ensures (forall i | 0 <= i < |LevelKeys| :: !HasString(obj, LevelKeys[i])) ==> l == Info
    ensures forall i: nat | FirstString(obj, LevelKeys, i) :: l == LogLevel.FromStr(obj[LevelKeys[i]].s)
  {
    ScanLevel(obj, LevelKeys)
  }

  /**
   * What `extract_log_entry` produces for `obj`: each canonical field from
   * its alias list or its default, the line number, the whole object as the
   * raw fields and its flattening as the index.
   */
  ghost predicate IsNormalisation(obj: map<string, Value>, lineNumber: nat, ext: External, now: int, e: LogEntry)
  {
    && e.line == lineNumber
    && e.timestamp == ExtractTimestamp(obj, ext).GetOr(now)
    && e.level == ExtractLevel(obj)
    && e.logger == ExtractStringField(obj, LoggerKeys).GetOr("unknown")
    && e.message == ExtractStringField(obj, MessageKeys).GetOr("")
    && e.moduleName == ExtractStringField(obj, ModuleKeys)
    && e.functionName == ExtractStringField(obj, FunctionKeys)
    && e.rawFields == obj
    && IsFlattening(obj, e.dynamicFields)
  }

  /** What `parse_line` returns for `line`. */
  ghost predicate IsParseOutcome(line: string, lineNumber: nat, ext: External, now: int, r: Result<LogEntry, ParseError>)
  {
    if IsBlank(line) then r == Failure(EmptyLine)
    else match ext.decode(Trim(line))
      case None => r == Failure(InvalidJson)
      case Some(Object(obj)) => r.Success? && IsNormalisation(obj, lineNumber, ext, now, r.value)
      case Some(_) => r == Failure(NotAnObject)
  }

  class JsonLogParser {
    var lineCounter: nat

    constructor ()
      ensures lineCounter == 0
    {
      lineCounter := 0;
    }

    /** `extract_log_entry`: never fails on an object; missing or unusable fields take their defaults. */
    method ExtractLogEntry(obj: map<string, Value>, lineNumber: nat, ext: External, now: int)
      returns (r: Result<LogEntry, ParseError>)
      ensures r.Success? && IsNormalisation(obj, lineNumber, ext, now, r.value)
    {
      var timestamp := ExtractTimestamp(obj, ext).GetOr(now);
      var level := ExtractLevel(obj);
      var logger := ExtractStringField(obj, LoggerKeys).GetOr("unknown");
      var message := ExtractStringField(obj, MessageKeys).GetOr("");
      var moduleName := ExtractStringField(obj, ModuleKeys);
      var functionName := ExtractStringField(obj, FunctionKeys);
      var entry := LogEntry.New(lineNumber, timestamp, level, logger, message);
      if moduleName.Some? {
        entry := entry.WithModule(moduleName.value);
      }
      if functionName.Some? {
        entry := entry.WithFunction(functionName.value);
      }
      entry := WithRawFields(entry, obj);
      r := Success(entry);
    }

    /** `parse_line`: blank lines, undecodable text and non-objects are rejected; objects always succeed. */
    method ParseLine(line: string, lineNumber: nat, ext: External, now: int)
      returns (r: Result<LogEntry, ParseError>)
      ensures IsParseOutcome(line, lineNumber, ext, now, r)
      ensures r == Failure(EmptyLine) <==> IsBlank(line)
    {
      var trimmed := Trim(line);
      if trimmed == [] {
        return Failure(EmptyLine);
      }
      match ext.decode(trimmed) {
        case None =>
          r := Failure(InvalidJson);
        case Some(Object(obj)) =>
          r := ExtractLogEntry(obj, lineNumber, ext, now);
        case Some(_) =>
          r := Failure(NotAnObject);
      }
    }

    /** One step of `parse_stdin`: the counter advances for every line, failed ones included. */
    method Next(read: LineRead, ext: External, now: int) returns (r: Result<LogEntry, ParseError>)
      modifies this
      ensures lineCounter == old(lineCounter) + 1
      ensures read.ReadError? ==> r == Failure(ReadFailed)
      ensures read.ReadLine? ==> IsParseOutcome(read.text, lineCounter, ext, now, r)
      ensures r.Success? ==> r.value.line == lineCounter
    {
      lineCounter := lineCounter + 1;
      match read {
        case ReadLine(text) =>
          r := ParseLine(text, lineCounter, ext, now);
        case ReadError =>
          r := Failure(ReadFailed);
      }
    }
  }

  // ---------------------------------------------------------------------
  // Properties of the normaliser

  /** Where no alias yields a usable value, every field takes its default. */
  lemma DefaultsWhenNoAlias(obj: map<string, Value>, lineNumber: nat, ext: External, now: int, e: LogEntry)
    requires IsNormalisation(obj, lineNumber, ext, now, e)
    requires forall i | 0 <= i < |TimestampKeys| :: TimestampKeys[i] !in obj
    requires forall i | 0 <= i < |LevelKeys| :: !HasString(obj, LevelKeys[i])
    requires forall i | 0 <= i < |LoggerKeys| :: !HasString(obj, LoggerKeys[i])
    requires forall i | 0 <= i < |MessageKeys| :: !HasString(obj, MessageKeys[i])
    requires forall i | 0 <= i < |ModuleKeys| :: !HasString(obj, ModuleKeys[i])
    requires forall i | 0 <= i < |FunctionKeys| :: !HasString(obj, FunctionKeys[i])
    ensures e.timestamp == now && e.level == Info
    ensures e.logger == "unknown" && e.message == ""
    ensures e.moduleName == None && e.functionName == None
  {
  }

  /** `{"foo":"bar"}`: Info, empty message, logger "unknown", timestamp = ingestion time. */
  lemma FooBarExample(obj: map<string, Value>, ext: External, now: int)
    requires obj == map["foo" := String("bar")]
    ensures ExtractTimestamp(obj, ext).GetOr(now) == now
    ensures ExtractLevel(obj) == Info
    ensures ExtractStringField(obj, LoggerKeys).GetOr("unknown") == "unknown"
    ensures ExtractStringField(obj, MessageKeys).GetOr("") == ""
    ensures ExtractStringField(obj, ModuleKeys) == None && ExtractStringField(obj, FunctionKeys) == None
  {
    assert forall i | 0 <= i < |TimestampKeys| :: TimestampKeys[i] !in obj;
    assert forall i | 0 <= i < |LevelKeys| :: !HasString(obj, LevelKeys[i]);
    assert forall i | 0 <= i < |LoggerKeys| :: !HasString(obj, LoggerKeys[i]);
    assert forall i | 0 <= i < |MessageKeys| :: !HasString(obj, MessageKeys[i]);
    assert forall i | 0 <= i < |ModuleKeys| :: !HasString(obj, ModuleKeys[i]);
    assert forall i | 0 <= i < |FunctionKeys| :: !HasString(obj, FunctionKeys[i]);
  }

  /** A present but non-string alias is skipped in favour of a later string alias. */
  lemma NonStringAliasSkipped(obj: map<string, Value>)
    requires "message" in obj && !obj["message"].String?
    requires "msg" in obj && obj["msg"].String?
    ensures ExtractStringField(obj, MessageKeys) == Some(obj["msg"].s)
  {
    assert FirstString(obj, MessageKeys, 1);
  }

  /** A first timestamp alias that does not parse is not rescued by a later one that does. */
  lemma TimestampCommitsToFirstAlias(obj: map<string, Value>, ext: External)
    requires "timestamp" in obj && obj["timestamp"] == Bool(true)
    requires "ts" in obj && obj["ts"] == Number(Integer(1_700_000_000))
    ensures ExtractTimestamp(obj, ext) == Failure(NotStringOrNumber)
  {
    assert FirstPresent(obj, TimestampKeys, 0);
  }

  /** The ends of chrono's range: the first and last representable seconds succeed, their neighbours fail. */
  lemma TimestampRangeEdges(ext: External)
    ensures ParseTimestamp(Number(Integer(-8_334_601_228_800)), ext) == Success(-8_334_601_228_800_000)
    ensures ParseTimestamp(Number(Integer(-8_334_601_228_801)), ext) == Failure(InvalidUnixTimestamp(-8_334_601_228_801))
    ensures ParseTimestamp(Number(Integer(MaxUnixMillis)), ext) == Success(MaxUnixMillis)
    ensures ParseTimestamp(Number(Integer(MaxUnixMillis + 1)), ext) == Failure(InvalidUnixTimestamp(MaxUnixMillis + 1))
  {
  }

  /** `{"level":"ERROR","msg":"disk full","ts":1700000000}`: Error, "disk full", no logger. */
  lemma DiskFullExample(obj: map<string, Value>)
    requires obj == map["level" := String("ERROR"), "msg" := String("disk full"),
                        "ts" := Number(Integer(1_700_000_000))]
    ensures ExtractLevel(obj) == Error
    ensures ExtractStringField(obj, MessageKeys) == Some("disk full")
    ensures ExtractStringField(obj, LoggerKeys) == None
  {
    assert FirstString(obj, LevelKeys, 0);
    LevelRoundTrip(Error);
    assert FirstString(obj, MessageKeys, 1);
    assert forall i | 0 <= i < |LoggerKeys| :: LoggerKeys[i] !in obj;
  }

  /** The same record's "ts" is a seconds value: 2023-11-14T22:13:20Z. */
  lemma DiskFullTimestamp(obj: map<string, Value>, ext: External)
    requires obj == map["level" := String("ERROR"), "msg" := String("disk full"),
                        "ts" := Number(Integer(1_700_000_000))]
    ensures ExtractTimestamp(obj, ext) == Success(1_700_000_000_000)
  {
    assert FirstPresent(obj, TimestampKeys, 2);
  }

  /** The alias "component" feeds both the logger and the module. */
  lemma ComponentIsLoggerAndModule(obj: map<string, Value>, c: string)
    requires obj == map["component" := String(c)]
    ensures ExtractStringField(obj, LoggerKeys) == Some(c)
    ensures ExtractStringField(obj, ModuleKeys) == Some(c)
  {
    assert FirstString(obj, LoggerKeys, 4);
    assert FirstString(obj, ModuleKeys, 2);
  }
}
