/**
 * The shared server state and its handlers (src/server.rs): the bounded
 * in-memory store, the one-shot schema, the optional table layout, the
 * query handler and the ingestion step that feeds parsed lines into the
 * store.
 */
module Server {
  import opened Wrappers
  import opened LogEntries
  import opened Filter
  import opened Parser
  import opened Schemas
  import opened Text

  /** The store keeps at most this many entries. */
  const Capacity: nat := 100_000
  /** A new live-view client is sent at most this many stored entries. */
  const BacklogSize: nat := 100_000

  // ---------------------------------------------------------------------
  // Sequence helpers

  /** The last `n` elements of `s` (all of `s` when it is shorter). */
  function LastN<T>(s: seq<T>, n: nat): (r: seq<T>)
    ensures |r| == Min(|s|, n)
    ensures r == s[|s| - |r|..]
  {
    if |s| <= n then s else s[|s| - n..]
  }

  function Reverse<T>(s: seq<T>): (r: seq<T>)
    ensures |r| == |s|
    ensures forall i | 0 <= i < |s| :: r[i] == s[|s| - 1 - i]
  {
    if s == [] then [] else Reverse(s[1..]) + [s[0]]
  }

  /** Iterator `take(n)`: at most the first `n` elements. */
  function Take<T>(s: seq<T>, n: nat): (r: seq<T>)
    ensures |r| == Min(|s|, n)
    ensures r == s[..|r|]
  {
    if |s| <= n then s else s[..n]
  }

  /** Appending to a trimmed store and trimming again is trimming once. */
  lemma LastNSnoc<T>(s: seq<T>, x: T, n: nat)
    requires n > 0
    ensures LastN(LastN(s, n) + [x], n) == LastN(s + [x], n)
  {
    var l := LastN(LastN(s, n) + [x], n);
    var m := LastN(s + [x], n);
    assert |l| == |m|;
    forall i | 0 <= i < |l| ensures l[i] == m[i] {
      if i < |l| - 1 {
        assert l[i] == LastN(s, n)[|LastN(s, n)| + 1 - |l| + i];
      }
    }
  }

  /** `rev().take(n).rev()` keeps the last `n` elements, in their original order. */
  lemma ReverseTakeReverse<T>(s: seq<T>, n: nat)
    ensures Reverse(Take(Reverse(s), n)) == LastN(s, n)
  {
    var t := Take(Reverse(s), n);
    var l := LastN(s, n);
    assert |Reverse(t)| == |l|;
    forall i | 0 <= i < |l| ensures Reverse(t)[i] == l[i] {
      assert Reverse(t)[i] == t[|t| - 1 - i] == Reverse(s)[|t| - 1 - i];
    }
  }

  /** `iter().filter(|e| f.matches(e)).cloned().collect()`. */
  function Select(s: seq<LogEntry>, f: LogFilter): (r: seq<LogEntry>)
    ensures |r| <= |s|
    ensures forall i | 0 <= i < |r| :: f.Matches(r[i])
    ensures forall e :: e in r <==> e in s && f.Matches(e)
  {
    if s == [] then [] else (if f.Matches(s[0]) then [s[0]] else []) + Select(s[1..], f)
  }

  /** Filtering distributes over concatenation, so it keeps the store's order. */
  lemma {:induction false} SelectConcat(a: seq<LogEntry>, b: seq<LogEntry>, f: LogFilter)
    ensures Select(a + b, f) == Select(a, f) + Select(b, f)
  {
    if a == [] {
      assert a + b == b;
    } else {
      assert (a + b)[1..] == a[1..] + b;
      SelectConcat(a[1..], b, f);
    }
  }

  /** A filter every entry passes returns the store unchanged. */
  lemma {:induction false} SelectAll(s: seq<LogEntry>, f: LogFilter)
    requires forall i | 0 <= i < |s| :: f.Matches(s[i])
    ensures Select(s, f) == s
  {
    if s != [] {
      SelectAll(s[1..], f);
    }
  }

  /** The empty filter selects everything: the `is_empty` fast path returns the same answer. */
  lemma EmptyFilterSelectsAll(s: seq<LogEntry>, f: LogFilter)
    requires f.IsEmpty()
    ensures Select(s, f) == s
  {
    SelectAll(s, f);
  }

  /**
   * The query `search=disk` over the normalised `{"level":"ERROR","msg":"disk full",...}`
   * record and the normalised `{"foo":"bar"}` record returns only the first.
   */
  lemma SearchDiskExample(d: LogEntry, foo: LogEntry)
    requires d.message == "disk full" && d.logger == "unknown" && d.moduleName == None && d.functionName == None
    requires foo.message == "" && foo.logger == "unknown" && foo.moduleName == None && foo.functionName == None
    ensures Select([d, foo], LogFilter.New().WithSearchText("disk")) == [d]
  {
    var f := LogFilter.New().WithSearchText("disk");
    OnlySearchGuard("disk", d);
    OnlySearchGuard("disk", foo);
    DiskFullHasDisk();
    UnknownHasNoDisk();
    EmptyHasNoDisk();
    assert f.Matches(d) && !f.Matches(foo);
    assert [d, foo][1..] == [foo] && [foo][1..] == [];
  }

  /** Filtering with a stronger filter after a weaker one is filtering with the stronger one alone. */
  lemma {:induction false} SelectStronger(s: seq<LogEntry>, f: LogFilter, g: LogFilter)
    requires Strengthens(g, f)
    ensures Select(Select(s, f), g) == Select(s, g)
  {
    if s != [] {
      MoreGuardsMatchLess(f, g, s[0]);
      SelectStronger(s[1..], f, g);
      if f.Matches(s[0]) {
        assert Select(s, f) == [s[0]] + Select(s[1..], f);
        assert Select(s, f)[1..] == Select(s[1..], f);
      } else {
        assert Select(s, f) == Select(s[1..], f);
      }
    }
  }

  // ---------------------------------------------------------------------
  // Line numbers in the store

  /** Line numbers strictly increase along `s` and none exceeds `bound`. */
  ghost predicate LinesIncreasing(s: seq<LogEntry>, bound: nat)
  {
    && (forall i, j | 0 <= i < j < |s| :: s[i].line < s[j].line)
    && (forall i | 0 <= i < |s| :: s[i].line <= bound)
  }

  /** Trimming the oldest entries keeps line numbers increasing. */
  lemma LastNLinesIncreasing(s: seq<LogEntry>, n: nat, bound: nat)
    requires LinesIncreasing(s, bound)
    ensures LinesIncreasing(LastN(s, n), bound)
  {
    var r := LastN(s, n);
    var d := |s| - |r|;
    assert r == s[d..];
    forall i, j | 0 <= i < j < |r| ensures r[i].line < r[j].line {
      assert r[i] == s[d + i] && r[j] == s[d + j];
    }
    forall i | 0 <= i < |r| ensures r[i].line <= bound {
      assert r[i] == s[d + i];
    }
  }

  /** Storing an entry numbered one past the bound keeps line numbers increasing. */
  lemma SnocLinesIncreasing(s: seq<LogEntry>, e: LogEntry, bound: nat)
    requires LinesIncreasing(s, bound) && e.line == bound + 1
    ensures LinesIncreasing(s + [e], bound + 1)
  {
    var t := s + [e];
    forall i, j | 0 <= i < j < |t| ensures t[i].line < t[j].line {
      assert t[i] == s[i];
    }
  }

  /** Raising the bound keeps the predicate. */
  lemma RaiseBound(s: seq<LogEntry>, bound: nat, bound': nat)
    requires LinesIncreasing(s, bound) && bound <= bound'
    ensures LinesIncreasing(s, bound')
  {
  }

  // ---------------------------------------------------------------------
  // The shared state

  class AppState {
    var logs: seq<LogEntry>
    const schema: Schema
    var tableConfig: Option<TableConfig>
    /** Every entry ever added since the last clear, oldest first. */
    ghost var arrived: seq<LogEntry>

    /** The store is the newest `Capacity` entries that arrived. */
    ghost predicate Valid()
      reads this
    {
      logs == LastN(arrived, Capacity)
    }

    /**
     * `AppState::new`: an empty store, an uninitialised schema and the
     * layout read from the settings file, if there was one.
     */
    constructor (loaded: Option<TableConfig>)
      ensures Valid() && logs == [] && arrived == []
      ensures fresh(schema) && schema.fields == [] && !schema.initialized
      ensures tableConfig == loaded
    {
      logs := [];
      arrived := [];
      schema := new Schema();
      tableConfig := loaded;
    }

    /** The first block of `add_log`: append, then drop the oldest entries in one step if over capacity. */
    method PushLog(entry: LogEntry)
      requires Valid()
      modifies this`logs, this`arrived
      ensures Valid() && arrived == old(arrived) + [entry]
      ensures logs == LastN(old(logs) + [entry], Capacity)
      ensures |logs| <= Capacity && logs[|logs| - 1] == entry
    {
      LastNSnoc(arrived, entry, Capacity);
      logs := logs + [entry];
      if |logs| > Capacity {
        var len := |logs|;
        logs := logs[len - Capacity..];
      }
      arrived := arrived + [entry];
    }

    /**
     * `add_log`: store the entry, initialise the schema from the first
     * entry and install the default layout when there is none.
     */
    method AddLog(entry: LogEntry)
      requires Valid()
      modifies this, schema
      ensures Valid() && arrived == old(arrived) + [entry]
      ensures logs == LastN(old(logs) + [entry], Capacity)
      ensures |logs| <= Capacity && logs[|logs| - 1] == entry
      ensures schema.initialized
      ensures old(schema.initialized) ==> schema.fields == old(schema.fields)
      ensures !old(schema.initialized) ==>
        && |schema.fields| == |entry.rawFields| + 1
        && schema.fields[0] == LineNumberField
        && IsEnumeration(schema.fields[1..], entry.rawFields.Keys)
      ensures old(tableConfig).Some? ==> tableConfig == old(tableConfig)
      ensures old(tableConfig).None? ==> tableConfig == Some(TableConfig(None, schema.GetDefaultColumns()))
    {
      PushLog(entry);
      schema.InitializeFromFirstEntry(entry.rawFields);
      if tableConfig.None? && schema.initialized {
        var defaultColumns := schema.GetDefaultColumns();
        tableConfig := Some(TableConfig(None, defaultColumns));
      }
    }

    /** `get_logs`: the stored entries the filter accepts, in store order; all of them without a filter. */
    function GetLogs(filter: Option<LogFilter>): (r: seq<LogEntry>)
      reads this
      ensures r == Select(logs, filter.GetOr(LogFilter.New()))
    {
      match filter
      case Some(f) => Select(logs, f)
      case None => EmptyFilterSelectsAll(logs, LogFilter.New()); logs
    }

    /** `clear_logs`: empties the store; the schema and the layout stay. */
    method ClearLogs()
      modifies this`logs, this`arrived
      ensures Valid() && logs == [] && arrived == []
    {
      logs := [];
      arrived := [];
    }
  }

  // ---------------------------------------------------------------------
  // Handlers

  datatype LogQueryParams = LogQueryParams(
    level: Option<string>,
    search: Option<string>,
    logger: Option<string>,
    moduleName: Option<string>,
    limit: Option<nat>)

  datatype LogResponse = LogResponse(logs: seq<LogEntry>, totalCount: nat, filteredCount: nat)

  /** A query parameter that is present and not the empty string. */
  predicate IsSet(p: Option<string>)
  {
    p.Some? && p.value != ""
  }

  /**
   * The filter `get_logs_handler` builds: one guard per query parameter
   * that is present and non-empty, never a time range.
   */
  function BuildFilter(p: LogQueryParams): (f: LogFilter)
    ensures f.level == (if IsSet(p.level) then Some(LogLevel.FromStr(p.level.value)) else None)
    ensures f.searchText == (if IsSet(p.search) then p.search else None)
    ensures f.logger == (if IsSet(p.logger) then p.logger else None)
    ensures f.moduleName == (if IsSet(p.moduleName) then p.moduleName else None)
    ensures f.startTime.None? && f.endTime.None?
    ensures f.IsEmpty() <==> !IsSet(p.level) && !IsSet(p.search) && !IsSet(p.logger) && !IsSet(p.moduleName)
  {
    var f0 := LogFilter.New();
    var f1 := if IsSet(p.level) then f0.WithLevel(LogLevel.FromStr(p.level.value)) else f0;
    var f2 := if IsSet(p.search) then f1.WithSearchText(p.search.value) else f1;
    var f3 := if IsSet(p.logger) then f2.WithLogger(p.logger.value) else f2;
    if IsSet(p.moduleName) then f3.WithModule(p.moduleName.value) else f3
  }

  /**
   * `get_logs_handler`: the matching entries (the newest `limit` of them
   * when a limit is given, still oldest first), the size of the store and
   * the number of matches before the limit.
   */
  function GetLogsHandler(state: AppState, params: LogQueryParams): (resp: LogResponse)
    reads state
    ensures resp.totalCount == |state.logs|
    ensures resp.filteredCount == |Select(state.logs, BuildFilter(params))| <= resp.totalCount
    ensures params.limit.None? ==> resp.logs == Select(state.logs, BuildFilter(params))
    ensures params.limit.Some? ==> resp.logs == LastN(Select(state.logs, BuildFilter(params)), params.limit.value)
    ensures forall i | 0 <= i < |resp.logs| :: resp.logs[i] in state.logs && BuildFilter(params).Matches(resp.logs[i])
  {
    var filter := BuildFilter(params);
    var allLogs := state.logs;
    var totalCount := |allLogs|;
    var filteredLogs :=
      if filter.IsEmpty() then EmptyFilterSelectsAll(allLogs, filter); allLogs
      else Select(allLogs, filter);
    var filteredCount := |filteredLogs|;
    var logs :=
      if params.limit.Some? then
        ReverseTakeReverse(filteredLogs, params.limit.value);
        Reverse(Take(Reverse(filteredLogs), params.limit.value))
      else filteredLogs;
    LogResponse(logs, totalCount, filteredCount)
  }

  /** The entries a new live-view client is sent first: the newest `BacklogSize`, oldest first. */
  function Backlog(state: AppState): (r: seq<LogEntry>)
    reads state
    ensures r == LastN(state.logs, BacklogSize)
    ensures state.Valid() ==> r == state.logs
  {
    ReverseTakeReverse(state.logs, BacklogSize);
    Reverse(Take(Reverse(state.logs), BacklogSize))
  }

  /** `clear_logs_handler`. */
  method ClearLogsHandler(state: AppState)
    modifies state`logs, state`arrived
    ensures state.Valid() && state.logs == []
  {
    state.ClearLogs();
  }

  /** `set_columns_handler`: the submitted columns become the layout, with no theme. */
  method SetColumnsHandler(state: AppState, columns: seq<ColumnConfig>) returns (config: TableConfig)
    modifies state`tableConfig
    ensures config == TableConfig(None, columns)
    ensures state.tableConfig == Some(config)
  {
    config := TableConfig(None, columns);
    state.tableConfig := Some(config);
  }

  // ---------------------------------------------------------------------
  // Ingestion

  /**
   * One iteration of `stdin_parser_task`: read and parse the next line;
   * store the entry on success, leave the state alone on failure.  Stored
   * line numbers keep strictly increasing.
   */
  method IngestLine(parser: JsonLogParser, state: AppState, read: LineRead, ext: External, now: int)
    returns (r: Result<LogEntry, ParseError>)
    requires state.Valid() && LinesIncreasing(state.arrived, parser.lineCounter)
    modifies parser, state, state.schema
    ensures parser.lineCounter == old(parser.lineCounter) + 1
    ensures state.Valid() && LinesIncreasing(state.arrived, parser.lineCounter)
    ensures LinesIncreasing(state.logs, parser.lineCounter)
    ensures read.ReadError? ==> r == Failure(ReadFailed)
    ensures read.ReadLine? ==> IsParseOutcome(read.text, parser.lineCounter, ext, now, r)
    ensures r.Success? ==> r.value.line == parser.lineCounter && state.arrived == old(state.arrived) + [r.value]
    ensures r.Failure? ==> unchanged(state) && unchanged(state.schema)
    ensures r.Success? ==> state.schema.initialized
    ensures r.Success? && old(state.schema.initialized) ==> state.schema.fields == old(state.schema.fields)
    ensures r.Success? && !old(state.schema.initialized) ==>
      && |state.schema.fields| == |r.value.rawFields| + 1
      && state.schema.fields[0] == LineNumberField
      && IsEnumeration(state.schema.fields[1..], r.value.rawFields.Keys)
    ensures r.Success? && old(state.tableConfig).Some? ==> state.tableConfig == old(state.tableConfig)
    ensures r.Success? && old(state.tableConfig).None? ==>
      state.tableConfig == Some(TableConfig(None, state.schema.GetDefaultColumns()))
  {
    ghost var bound := parser.lineCounter;
    r := parser.Next(read, ext, now);
    if r.Success? {
      SnocLinesIncreasing(state.arrived, r.value, bound);
      state.AddLog(r.value);
    } else {
      RaiseBound(state.arrived, bound, parser.lineCounter);
    }
    LastNLinesIncreasing(state.arrived, Capacity, parser.lineCounter);
  }
}
