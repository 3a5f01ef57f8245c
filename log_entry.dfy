/**
 * Log records, levels and the flattened field index (src/log_entry.rs).
 *
 * The flattener walks a JSON tree and inserts into one result map.  The
 * source iterates over hash maps, whose order is unspecified, so the walk
 * here picks the next key by an arbitrary choice and its specification is
 * order-independent: `Writes` is the set of (path, value) insertions the
 * walk performs, and `Applied` says that the result holds, at each written
 * path, one of the values written there.
 */
module LogEntries {
  import opened Wrappers
  import opened Json
  import opened Text

  datatype LogLevel = Trace | Debug | Info | Warn | Error | Fatal {

    /** The canonical upper-case name of a level. */
    function AsStr(): (r: string)
      ensures r != [] && IsUpper(r)
    {
      match this
      case Trace => "TRACE"
      case Debug => "DEBUG"
      case Info => "INFO"
      case Warn => "WARN"
      case Error => "ERROR"
      case Fatal => "FATAL"
    }

    /** Case-insensitive level parsing; anything unrecognised is Info. */
    static function FromStr(s: string): (l: LogLevel)
      ensures l == Warn ==> ToUpper(s) in {"WARN", "WARNING"}
      ensures l == Fatal ==> ToUpper(s) in {"FATAL", "CRITICAL"}
      ensures l in {Trace, Debug, Error} ==> ToUpper(s) == l.AsStr()
    {
      var u := ToUpper(s);
      if u == "TRACE" then Trace
      else if u == "DEBUG" then Debug
      else if u == "INFO" then Info
      else if u == "WARN" || u == "WARNING" then Warn
      else if u == "ERROR" then Error
      else if u == "FATAL" || u == "CRITICAL" then Fatal
      else Info
    }
  }

  /** Every spelling `FromStr` recognises, in upper case. */
  const LevelSpellings: set<string> :=
    {"TRACE", "DEBUG", "INFO", "WARN", "WARNING", "ERROR", "FATAL", "CRITICAL"}

  /** Parsing a level's own name gives the level back. */
  lemma LevelRoundTrip(l: LogLevel)
    ensures LogLevel.FromStr(l.AsStr()) == l
  {
    ToUpperOfUpper(l.AsStr());
  }

  /** Parsing ignores case: the lower-case name of a level parses to it too. */
  lemma LevelLowerCaseRoundTrip(l: LogLevel)
    ensures LogLevel.FromStr(ToLower(l.AsStr())) == l
  {
    UpperOfLower(l.AsStr());
  }

  /** Parsing only looks at the upper-cased text. */
  lemma LevelCaseInsensitive(s: string)
    ensures LogLevel.FromStr(s) == LogLevel.FromStr(ToUpper(s))
  {
    ToUpperIdempotent(s);
  }

  /** The two aliases, and the default for every other spelling. */
  lemma LevelAliasesAndDefault(s: string)
    ensures ToUpper(s) == "WARNING" ==> LogLevel.FromStr(s) == Warn
    ensures ToUpper(s) == "CRITICAL" ==> LogLevel.FromStr(s) == Fatal
    ensures ToUpper(s) !in LevelSpellings ==> LogLevel.FromStr(s) == Info
  {
  }

  /** Distinct levels have distinct names. */
  lemma LevelNamesDistinct(l1: LogLevel, l2: LogLevel)
    ensures l1.AsStr() == l2.AsStr() ==> l1 == l2
  {
    if l1.AsStr() == l2.AsStr() {
      LevelRoundTrip(l1);
      LevelRoundTrip(l2);
    }
  }

  /** A typed leaf of the flattened index (`DynamicFieldValue`). */
  datatype DynamicFieldValue =
    | DynString(s: string)
    | DynNumber(n: JsonNumber)
    | DynBoolean(b: bool)
    | DynObject(whole: Value)
    | DynArray(elems: seq<Value>)
    | DynNull

  /** One normalised record.  Timestamps are epoch milliseconds. */
  datatype LogEntry = LogEntry(
    line: nat,
    timestamp: int,
    level: LogLevel,
    logger: string,
    message: string,
    moduleName: Option<string>,
    functionName: Option<string>,
    rawFields: map<string, Value>,
    dynamicFields: map<string, DynamicFieldValue>)
  {
    /** `LogEntry::new`: no module, no function, no fields yet. */
    static function New(line: nat, timestamp: int, level: LogLevel, logger: string, message: string): (e: LogEntry)
      ensures e.line == line && e.timestamp == timestamp && e.level == level
      ensures e.logger == logger && e.message == message
      ensures e.moduleName == None && e.functionName == None
      ensures e.rawFields == map[] && e.dynamicFields == map[]
    {
      LogEntry(line, timestamp, level, logger, message, None, None, map[], map[])
    }

    /** Sets the module and leaves every other field as it was. */
    function WithModule(m: string): (e: LogEntry)
      ensures e.moduleName == Some(m)
      ensures e.(moduleName := moduleName) == this
    {
      this.(moduleName := Some(m))
    }

    /** Sets the function and leaves every other field as it was. */
    function WithFunction(f: string): (e: LogEntry)
      ensures e.functionName == Some(f)
      ensures e.(functionName := functionName) == this
    {
      this.(functionName := Some(f))
    }

    /** `get_field_value`: a lookup in the flattened index. */
    function GetFieldValue(path: string): (r: Option<DynamicFieldValue>)
      ensures r.Some? <==> path in dynamicFields
      ensures r.Some? ==> dynamicFields[path] == r.value
    {
      if path in dynamicFields then Some(dynamicFields[path]) else None
    }
  }

  /** The two optional-field builders act on different fields, so their order does not matter. */
  lemma BuildersCommute(e: LogEntry, m: string, f: string)
    ensures e.WithModule(m).WithFunction(f) == e.WithFunction(f).WithModule(m)
  {
  }

  // ---------------------------------------------------------------------
  // Paths

  /** Path of member `key` under `prefix`; at the top level the key alone. */
  function FieldPath(prefix: string, key: string): string
  {
    if prefix == "" then key else prefix + "." + key
  }

  /** A member path begins with the prefix and ends with the key, joined by one dot below the top level. */
  lemma FieldPathShape(prefix: string, key: string)
    ensures var r := FieldPath(prefix, key);
      && IsPrefix(prefix, r) && |key| <= |r| && r[|r| - |key|..] == key
      && (prefix == "" ==> r == key)
      && (prefix != "" ==> |r| == |prefix| + 1 + |key| && r[|prefix|] == '.')
  {
  }

  /** Path of array element `index` (below ten, so one decimal digit). */
  function IndexPath(path: string, index: nat): string
    requires index < 10
  {
    path + "[" + [('0' as int + index) as char] + "]"
  }

  /** An element path is the array's path followed by the index as one decimal digit in brackets. */
  lemma IndexPathShape(path: string, index: nat)
    requires index < 10
    ensures var r := IndexPath(path, index);
      && IsPrefix(path, r) && |r| == |path| + 3
      && r[|path|] == '[' && r[|path| + 2] == ']'
      && '0' <= r[|path| + 1] <= '9' && r[|path| + 1] as int - '0' as int == index
  {
  }

  /** The walk descends into at most this many array elements. */
  const MaxFlattenedElements: nat := 10

  function Min(a: nat, b: nat): nat
  {
    if a <= b then a else b
  }

  predicate IsPrefix(p: string, q: string)
  {
    |p| <= |q| && q[..|p|] == p
  }

  lemma PrefixTransitive(p: string, q: string, r: string)
    requires IsPrefix(p, q) && IsPrefix(q, r)
    ensures IsPrefix(p, r)
  {
    assert r[..|p|] == r[..|q|][..|p|];
  }

  /** The JSON value a field-index entry stands for. */
  function Untag(d: DynamicFieldValue): Value
  {
    match d
    case DynNull => Null
    case DynBoolean(b) => Bool(b)
    case DynNumber(n) => Number(n)
    case DynString(s) => String(s)
    case DynArray(a) => Array(a)
    case DynObject(whole) => whole
  }

  /** The value recorded for a JSON value at its own path: the variant of the same kind, holding the value. */
  function Tag(v: Value): (d: DynamicFieldValue)
    ensures Untag(d) == v
    ensures d.DynObject? <==> v.Object?
  {
    match v
    case Null => DynNull
    case Bool(b) => DynBoolean(b)
    case Number(n) => DynNumber(n)
    case String(s) => DynString(s)
    case Array(a) => DynArray(a)
    case Object(_) => DynObject(v)
  }

  // ---------------------------------------------------------------------
  // What the walk writes

  /** Every insertion `flatten_value(path, v, _)` performs. */
  ghost function Writes(path: string, v: Value): set<(string, DynamicFieldValue)>
    decreases v, 1
  {
    match v
    case Array(a) => {(path, Tag(v))} + ElementWrites(path, a, Min(|a|, MaxFlattenedElements))
    case Object(m) => {(path, Tag(v))} + MemberWrites(path, m, m.Keys)
    case _ => {(path, Tag(v))}
  }

  /** The insertions made for the first `n` elements of an array at `path`. */
  ghost function ElementWrites(path: string, a: seq<Value>, n: nat): set<(string, DynamicFieldValue)>
    requires n <= |a| && n <= MaxFlattenedElements
    decreases Array(a), 0
  {
    set i, w | 0 <= i < n && w in Writes(IndexPath(path, i), a[i]) :: w
  }

  /** The insertions made for the members `ks` of an object at `prefix`. */
  ghost function MemberWrites(prefix: string, m: map<string, Value>, ks: set<string>): set<(string, DynamicFieldValue)>
    requires ks <= m.Keys
    decreases Object(m), 0
  {
    set k, w | k in ks && w in Writes(FieldPath(prefix, k), m[k]) :: w
  }

  ghost function KeysOf(ws: set<(string, DynamicFieldValue)>): set<string>
  {
    set w | w in ws :: w.0
  }

  /**
   * `after` is `before` with the insertions `ws` done in some order: its
   * keys are the old keys plus the written paths, a written path holds one
   * of the values written there, and every other path is untouched.
   */
  ghost predicate Applied(before: map<string, DynamicFieldValue>, ws: set<(string, DynamicFieldValue)>,
                          after: map<string, DynamicFieldValue>)
  {
    && after.Keys == before.Keys + KeysOf(ws)
    && forall p | p in after ::
         if p in KeysOf(ws) then (p, after[p]) in ws else after[p] == before[p]
  }

  /** The flattened index of a whole record: its top-level members walked with an empty prefix. */
  ghost predicate IsFlattening(fields: map<string, Value>, index: map<string, DynamicFieldValue>)
  {
    Applied(map[], MemberWrites("", fields, fields.Keys), index)
  }

  /** No path is written with two different values. */
  ghost predicate Unambiguous(ws: set<(string, DynamicFieldValue)>)
  {
    forall w1, w2 | w1 in ws && w2 in ws :: w1.0 == w2.0 ==> w1 == w2
  }

  lemma AppliedInsert(m: map<string, DynamicFieldValue>, p: string, d: DynamicFieldValue)
    ensures Applied(m, {(p, d)}, m[p := d])
  {
    assert KeysOf({(p, d)}) == {p};
  }

  lemma AppliedNothing(m: map<string, DynamicFieldValue>)
    ensures Applied(m, {}, m)
  {
    assert KeysOf({}) == {};
  }

  lemma KeysOfUnion(w1: set<(string, DynamicFieldValue)>, w2: set<(string, DynamicFieldValue)>)
    ensures KeysOf(w1 + w2) == KeysOf(w1) + KeysOf(w2)
  {
  }

  /** Doing `w1` and then `w2` is doing `w1 + w2`. */
  lemma AppliedThen(a: map<string, DynamicFieldValue>, w1: set<(string, DynamicFieldValue)>,
                    b: map<string, DynamicFieldValue>, w2: set<(string, DynamicFieldValue)>,
                    c: map<string, DynamicFieldValue>)
    requires Applied(a, w1, b) && Applied(b, w2, c)
    ensures Applied(a, w1 + w2, c)
  {
    KeysOfUnion(w1, w2);
  }

  /** A path nobody writes keeps its value. */
  lemma AppliedKeeps(a: map<string, DynamicFieldValue>, ws: set<(string, DynamicFieldValue)>,
                     b: map<string, DynamicFieldValue>, p: string)
    requires Applied(a, ws, b) && p in a && p !in KeysOf(ws)
    ensures p in b && b[p] == a[p]
  {
  }

  /** When no path is written twice, the outcome does not depend on the order of the writes. */
  lemma AppliedDeterministic(a: map<string, DynamicFieldValue>, ws: set<(string, DynamicFieldValue)>,
                             b1: map<string, DynamicFieldValue>, b2: map<string, DynamicFieldValue>)
    requires Unambiguous(ws) && Applied(a, ws, b1) && Applied(a, ws, b2)
    ensures b1 == b2
  {
    forall p | p in b1
      ensures b1[p] == b2[p]
    {
      if p in KeysOf(ws) {
        assert (p, b1[p]) in ws && (p, b2[p]) in ws;
      }
    }
  }

  lemma ElementWritesNext(path: string, a: seq<Value>, n: nat)
    requires n < |a| && n < MaxFlattenedElements
    ensures ElementWrites(path, a, n + 1) == ElementWrites(path, a, n) + Writes(IndexPath(path, n), a[n])
  {
  }

  lemma MemberWritesNext(prefix: string, m: map<string, Value>, ks: set<string>, k: string)
    requires ks <= m.Keys && k in m && k !in ks
    ensures MemberWrites(prefix, m, ks + {k}) == MemberWrites(prefix, m, ks) + Writes(FieldPath(prefix, k), m[k])
  {
  }

  /** Every path written for a value at `path` extends `path`. */
  lemma {:induction false} WritesExtend(path: string, v: Value)
    ensures forall w | w in Writes(path, v) :: IsPrefix(path, w.0)
    decreases v
  {
    match v
    case Array(a) =>
      forall i | 0 <= i < Min(|a|, MaxFlattenedElements)
        ensures forall w | w in Writes(IndexPath(path, i), a[i]) :: IsPrefix(path, w.0)
      {
        WritesExtend(IndexPath(path, i), a[i]);
        forall w | w in Writes(IndexPath(path, i), a[i]) ensures IsPrefix(path, w.0) {
          PrefixTransitive(path, IndexPath(path, i), w.0);
        }
      }
    case Object(m) =>
      forall k | k in m
        ensures forall w | w in Writes(FieldPath(path, k), m[k]) :: IsPrefix(path, w.0)
      {
        WritesExtend(FieldPath(path, k), m[k]);
        forall w | w in Writes(FieldPath(path, k), m[k]) ensures IsPrefix(path, w.0) {
          PrefixTransitive(path, FieldPath(path, k), w.0);
        }
      }
    case _ =>
  }

  /** A value walked below a strictly longer path never writes `path` itself. */
  lemma NotWrittenAbove(path: string, child: string, v: Value)
    requires |path| < |child|
    ensures path !in KeysOf(Writes(child, v))
  {
    WritesExtend(child, v);
  }

  /** The members of an object at a non-empty prefix never write the prefix itself. */
  lemma MembersNotWrittenAtPrefix(prefix: string, m: map<string, Value>)
    requires prefix != ""
    ensures prefix !in KeysOf(MemberWrites(prefix, m, m.Keys))
  {
    forall k | k in m ensures prefix !in KeysOf(Writes(FieldPath(prefix, k), m[k])) {
      NotWrittenAbove(prefix, FieldPath(prefix, k), m[k]);
    }
  }

  // ---------------------------------------------------------------------
  // The walk

  /** `flatten_value`: records `value` at `path`, then descends into arrays and objects. */
  method FlattenValue(path: string, value: Value, result: map<string, DynamicFieldValue>)
    returns (r: map<string, DynamicFieldValue>)
    ensures Applied(result, Writes(path, value), r)
    ensures !value.Array? && !value.Object? ==> r == result[path := Tag(value)]
    ensures !(path == "" && value.Object?) ==> path in r && r[path] == Tag(value)
    decreases value, 1
  {
    match value {
      case Array(a) =>
        r := result[path := DynArray(a)];
        AppliedInsert(result, path, DynArray(a));
        var n := Min(|a|, MaxFlattenedElements);
        ghost var done := {(path, Tag(value))};
        for i := 0 to n
          invariant done == {(path, Tag(value))} + ElementWrites(path, a, i)
          invariant Applied(result, done, r)
          invariant path in r && r[path] == Tag(value)
        {
          ghost var before := r;
          r := FlattenValue(IndexPath(path, i), a[i], r);
          NotWrittenAbove(path, IndexPath(path, i), a[i]);
          AppliedKeeps(before, Writes(IndexPath(path, i), a[i]), r, path);
          AppliedThen(result, done, before, Writes(IndexPath(path, i), a[i]), r);
          ElementWritesNext(path, a, i);
          done := done + Writes(IndexPath(path, i), a[i]);
        }
      case Object(m) =>
        var mid := result[path := DynObject(value)];
        AppliedInsert(result, path, DynObject(value));
        r := FlattenObject(m, path, mid);
        AppliedThen(result, {(path, Tag(value))}, mid, MemberWrites(path, m, m.Keys), r);
        if path != "" {
          MembersNotWrittenAtPrefix(path, m);
          AppliedKeeps(mid, MemberWrites(path, m, m.Keys), r, path);
        }
      case _ =>
        r := result[path := Tag(value)];
        AppliedInsert(result, path, Tag(value));
    }
  }

  /** `flatten_object`: walks every member of `obj` under `prefix`, in an unspecified order. */
  method FlattenObject(obj: map<string, Value>, prefix: string, result: map<string, DynamicFieldValue>)
    returns (r: map<string, DynamicFieldValue>)
    ensures Applied(result, MemberWrites(prefix, obj, obj.Keys), r)
    decreases Object(obj), 0
  {
    r := result;
    var todo := obj.Keys;
    ghost var done: set<string> := {};
    AppliedNothing(result);
    assert MemberWrites(prefix, obj, {}) == {};
    while todo != {}
      invariant todo <= obj.Keys && done <= obj.Keys
      invariant todo + done == obj.Keys && todo !! done
      invariant Applied(result, MemberWrites(prefix, obj, done), r)
      decreases todo
    {
      var key :| key in todo;
      ghost var before := r;
      r := FlattenValue(FieldPath(prefix, key), obj[key], r);
      MemberStep(prefix, obj, done, key, result, before, r);
      todo := todo - {key};
      done := done + {key};
    }
    assert done == obj.Keys;
  }

  /** One loop step of `FlattenObject`: flattening member `key` extends the writes done so far. */
  lemma MemberStep(prefix: string, obj: map<string, Value>, done: set<string>, key: string,
                   result: map<string, DynamicFieldValue>, before: map<string, DynamicFieldValue>,
                   after: map<string, DynamicFieldValue>)
    requires done <= obj.Keys && key in obj && key !in done
    requires Applied(result, MemberWrites(prefix, obj, done), before)
    requires Applied(before, Writes(FieldPath(prefix, key), obj[key]), after)
    ensures Applied(result, MemberWrites(prefix, obj, done + {key}), after)
  {
    AppliedThen(result, MemberWrites(prefix, obj, done), before, Writes(FieldPath(prefix, key), obj[key]), after);
    MemberWritesNext(prefix, obj, done, key);
  }

  /** `extract_dynamic_fields`: the flattened index of a record's fields. */
  method ExtractDynamicFields(fields: map<string, Value>) returns (index: map<string, DynamicFieldValue>)
    ensures IsFlattening(fields, index)
  {
    index := FlattenObject(fields, "", map[]);
  }

  /** `with_raw_fields`: stores the fields verbatim together with their flattened index. */
  method WithRawFields(e: LogEntry, fields: map<string, Value>) returns (r: LogEntry)
    ensures r.rawFields == fields
    ensures IsFlattening(fields, r.dynamicFields)
    ensures r.(rawFields := e.rawFields, dynamicFields := e.dynamicFields) == e
  {
    var index := ExtractDynamicFields(fields);
    r := e.(rawFields := fields, dynamicFields := index);
  }

  // ---------------------------------------------------------------------
  // Properties of the flattened index

  /** Every top-level field of a record is present in its index. */
  lemma FlatteningCoversTopLevel(fields: map<string, Value>, index: map<string, DynamicFieldValue>)
    requires IsFlattening(fields, index)
    ensures fields.Keys <= index.Keys
  {
    forall k | k in fields ensures k in index {
      assert (k, Tag(fields[k])) in Writes(FieldPath("", k), fields[k]);
      assert (k, Tag(fields[k])) in MemberWrites("", fields, fields.Keys);
    }
  }

  /** Hence `get_field_value` finds every top-level field of a record built by `with_raw_fields`. */
  lemma TopLevelFieldsVisible(e: LogEntry, k: string)
    requires IsFlattening(e.rawFields, e.dynamicFields) && k in e.rawFields
    ensures e.GetFieldValue(k).Some?
  {
    FlatteningCoversTopLevel(e.rawFields, e.dynamicFields);
  }

  /** Flattening is a function of the fields whenever no path is reached twice. */
  lemma FlatteningDeterministic(fields: map<string, Value>, i1: map<string, DynamicFieldValue>,
                                i2: map<string, DynamicFieldValue>)
    requires Unambiguous(MemberWrites("", fields, fields.Keys))
    requires IsFlattening(fields, i1) && IsFlattening(fields, i2)
    ensures i1 == i2
  {
    AppliedDeterministic(map[], MemberWrites("", fields, fields.Keys), i1, i2);
  }

  /**
   * An array is recorded whole at its path, each of its first ten elements
   * is recorded at its indexed path, and every other write lies below one
   * of those first ten indexed paths.
   */
  lemma ArrayWrites(path: string, a: seq<Value>)
    ensures (path, DynArray(a)) in Writes(path, Array(a))
    ensures forall i | 0 <= i < Min(|a|, MaxFlattenedElements) ::
              (IndexPath(path, i), Tag(a[i])) in Writes(path, Array(a))
    ensures forall w | w in Writes(path, Array(a)) && w.0 != path ::
              exists i | 0 <= i < Min(|a|, MaxFlattenedElements) :: IsPrefix(IndexPath(path, i), w.0)
  {
    forall i | 0 <= i < Min(|a|, MaxFlattenedElements)
      ensures (IndexPath(path, i), Tag(a[i])) in Writes(path, Array(a))
    {
      assert (IndexPath(path, i), Tag(a[i])) in Writes(IndexPath(path, i), a[i]);
    }
    forall w | w in Writes(path, Array(a)) && w.0 != path
      ensures exists i | 0 <= i < Min(|a|, MaxFlattenedElements) :: IsPrefix(IndexPath(path, i), w.0)
    {
      assert w in ElementWrites(path, a, Min(|a|, MaxFlattenedElements));
      var i :| 0 <= i < Min(|a|, MaxFlattenedElements) && w in Writes(IndexPath(path, i), a[i]);
      WritesExtend(IndexPath(path, i), a[i]);
    }
  }

  /** Elements from index ten on have no influence on what is written for an array. */
  lemma ElementsBeyondTenIgnored(path: string, a: seq<Value>, b: seq<Value>)
    requires |a| >= MaxFlattenedElements && |b| >= MaxFlattenedElements
    requires a[..MaxFlattenedElements] == b[..MaxFlattenedElements]
    ensures Writes(path, Array(a)) - {(path, DynArray(a))} == Writes(path, Array(b)) - {(path, DynArray(b))}
  {
    assert forall i | 0 <= i < MaxFlattenedElements :: a[i] == a[..MaxFlattenedElements][i];
    assert forall i | 0 <= i < MaxFlattenedElements :: b[i] == b[..MaxFlattenedElements][i];
    assert ElementWrites(path, a, MaxFlattenedElements) == ElementWrites(path, b, MaxFlattenedElements);
    forall i | 0 <= i < MaxFlattenedElements ensures path !in KeysOf(Writes(IndexPath(path, i), a[i])) {
      NotWrittenAbove(path, IndexPath(path, i), a[i]);
    }
    assert (path, DynArray(a)) !in ElementWrites(path, a, MaxFlattenedElements);
    assert (path, DynArray(b)) !in ElementWrites(path, b, MaxFlattenedElements);
  }

  /**
   * An object is recorded whole at its path, each member `k` is recorded at
   * `FieldPath(path, k)`, and every other write lies below a member's path.
   */
  lemma ObjectWrites(path: string, m: map<string, Value>)
    ensures (path, DynObject(Object(m))) in Writes(path, Object(m))
    ensures forall k | k in m :: (FieldPath(path, k), Tag(m[k])) in Writes(path, Object(m))
    ensures forall w | w in Writes(path, Object(m)) && w != (path, DynObject(Object(m))) ::
              exists k | k in m :: IsPrefix(FieldPath(path, k), w.0)
  {
    forall k | k in m ensures (FieldPath(path, k), Tag(m[k])) in Writes(path, Object(m)) {
      assert (FieldPath(path, k), Tag(m[k])) in Writes(FieldPath(path, k), m[k]);
    }
    forall w | w in Writes(path, Object(m)) && w != (path, DynObject(Object(m)))
      ensures exists k | k in m :: IsPrefix(FieldPath(path, k), w.0)
    {
      assert w in MemberWrites(path, m, m.Keys);
      var k :| k in m && w in Writes(FieldPath(path, k), m[k]);
      WritesExtend(FieldPath(path, k), m[k]);
    }
  }
}
