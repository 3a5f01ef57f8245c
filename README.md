# jsonweblog: a verified model of the ingestion-to-query pipeline

jsonweblog reads newline-delimited JSON log records from standard input,
normalises each record into a `LogEntry`, keeps the most recent 100 000
entries in memory and serves filtered queries over them. This Dafny project
models that pipeline and proves its properties:

- **Line normaliser** (`Parser`): trimming, the three per-line rejections
  (empty line, undecodable text, non-object value), alias-table field
  resolution with its defaults, the seconds/milliseconds timestamp
  heuristic, and the line counter of the stdin stream.
- **Entries, levels and the flattener** (`LogEntries`): level parsing and
  naming, the entry builders, and the recursive walk that builds the
  flattened field index. Arrays are recorded whole and for their first ten
  elements; objects are recorded whole and recursed into under dotted paths.
- **Filter** (`Filter`): the conjunction of optional guards, `is_empty`,
  `clear`, the builders, and the three unit tests of `src/filter.rs`.
- **Schema** (`Schemas`): the once-only field list taken from the first
  stored record, and the default column layout derived from it.
- **Server state** (`Server`): the bounded store with bulk trimming, schema
  and default-layout installation on append, `get_logs`, `clear_logs`, the
  filter building, counting and limit logic of the query handler, the
  in-memory part of the set-columns handler, the backlog slice, and one
  iteration of the stdin ingestion task.

Shared pieces: `Wrappers` (Option, Result), `Json` (the JSON value type) and
`Text` (white-space trimming, ASCII case folding, substring search).

Modelling choices:

- JSON text decoding and chrono's date-string parsing are foreign code. They
  come in as the two function fields of `Parser.External`. The wall clock is
  the parameter `now`. Timestamps are integer epoch milliseconds.
- The numeric timestamp branch is modelled exactly, including chrono's
  representable range: seconds from -8 334 601 228 800 to
  8 210 266 876 799, which is years -262143 to 262142.
- `HashMap` iteration order is unspecified. The loops that iterate a map
  (`flatten_object`, `raw_fields.keys()`) pick the next key with a
  nondeterministic choice. Their contracts hold for every order.
- The flattened index is specified without fixing an order. `Writes(path, v)`
  is the set of (path, value) insertions a walk performs.
  `Applied(before, ws, after)` says that `after` is `before` with those
  insertions done in some order. When no path is written twice, the result
  is unique (`FlatteningDeterministic`).
- Objects that the source updates in place are classes: `JsonLogParser`
  (the line counter), `Schema` and `AppState`. The filter and the entry are
  values, as their builders are.
- `TableConfig` is built in `add_log` and in `set_columns_handler` without a
  theme, so the model sets `theme` to `None` there.

Behaviour of the code worth knowing, which the model follows:

- For the string fields and the level, the code takes the first alias that
  is present *and holds a string*; present aliases holding anything else
  are skipped. Only the timestamp commits to the first alias that is
  present, even when that value fails to parse.
- The schema lists the first record's keys in `HashMap` order, not in the
  order they appear in the input line.
- A failed save in the set-columns handler is only logged. The handler still
  returns the new layout and installs it in memory.

An edge case the flattener has: a top-level key `""` is walked with an empty
prefix. If its value is an object, its members therefore get top-level
paths, and a member `""` overwrites the whole-object entry at path `""`. The
contract of `FlattenValue` excludes exactly this case from "the path holds
its own value".

## Model

| member | source | states |
|---|---|---|
| Text.TrimStart | src/parser.rs:33 | `trim` drops exactly a white-space prefix (Unicode White_Space), and the rest does not start with white space |
| Text.TrimEnd | src/parser.rs:33 | `trim` drops exactly a white-space suffix, and the rest does not end with white space |
| Text.Trim | src/parser.rs:33-36 | the trimmed line is a slice of the line with only white space cut off on either side; it is empty exactly when every character is white space, and otherwise neither starts nor ends with white space |
| Text.Contains | src/filter.rs:64-90 | `contains` holds exactly when the needle occurs at some position of the haystack |
| Json.AsStr | src/parser.rs:148 | `as_str` gives a value exactly for JSON strings, and then the string itself |
| Json.AsI64 | src/parser.rs:124 | `as_i64` gives a value exactly for integers within the signed 64-bit range, and then the integer itself |
| LogEntries.LogLevel.AsStr | src/log_entry.rs:51-60 | every level name is non-empty and upper case |
| LogEntries.LogLevel.FromStr | src/log_entry.rs:39-49 | Warn comes only from WARN/WARNING, Fatal only from FATAL/CRITICAL, Trace/Debug/Error only from their own names, all compared after upper-casing |
| LogEntries.LevelRoundTrip | src/log_entry.rs:39-60 | parsing the name of a level gives back that level |
| LogEntries.LevelLowerCaseRoundTrip | src/log_entry.rs:39-60 | parsing the lower-case name of a level also gives back that level |
| LogEntries.LevelCaseInsensitive | src/log_entry.rs:39-40 | parsing depends only on the upper-cased text |
| LogEntries.LevelAliasesAndDefault | src/log_entry.rs:44-47 | WARNING gives Warn, CRITICAL gives Fatal, and any spelling outside the recognised eight gives Info |
| LogEntries.LevelNamesDistinct | src/log_entry.rs:51-60 | different levels have different names |
| LogEntries.LogEntry.New | src/log_entry.rs:75-93 | the given fields are stored; module and function are absent; raw and flattened fields are empty |
| LogEntries.LogEntry.WithModule | src/log_entry.rs:95-98 | sets the module and changes no other field |
| LogEntries.LogEntry.WithFunction | src/log_entry.rs:100-103 | sets the function and changes no other field |
| LogEntries.BuildersCommute | src/log_entry.rs:95-103 | the two builders can be applied in either order |
| LogEntries.LogEntry.GetFieldValue | src/log_entry.rs:173-175 | finds a value exactly when the path is in the flattened index, and returns the stored value |
| LogEntries.FieldPathShape | src/log_entry.rs:123-127 | a member path starts with the prefix and ends with the key; at the top level it is the key alone, below it the two are joined by a single `.` |
| LogEntries.IndexPathShape | src/log_entry.rs:158 | an element path is the array's path followed by `[`, the index as one decimal digit, and `]` |
| LogEntries.Tag | src/log_entry.rs:138-163 | each JSON value is recorded as the field-index variant of its own kind, from which the value is recovered exactly; only objects become `Object` entries |
| LogEntries.WritesExtend | src/log_entry.rs:133-171 | every path the walk of a value at `path` writes has `path` as a prefix |
| LogEntries.FlattenValue | src/log_entry.rs:133-171 | the result is the input map with the insertions `Writes(path, value)` applied; a scalar lands as its tag at `path` and nothing else changes; apart from an object at path "", the value's own tag ends up at `path` |
| LogEntries.FlattenObject | src/log_entry.rs:117-131 | in whatever order the members are visited, the result is the input with every member's insertions applied under its field path |
| LogEntries.ExtractDynamicFields | src/log_entry.rs:111-115 | the result is a flattening of the fields, starting from an empty map |
| LogEntries.WithRawFields | src/log_entry.rs:105-109 | the fields are stored verbatim, the index is their flattening, and nothing else changes |
| LogEntries.FlatteningCoversTopLevel | src/log_entry.rs:122-129 | every top-level key of a record is a key of its index |
| LogEntries.TopLevelFieldsVisible | src/log_entry.rs:173-175 | `get_field_value` finds every top-level field of a record built by `with_raw_fields` |
| LogEntries.FlatteningDeterministic | src/log_entry.rs:117-131 | when no path is written twice, the index does not depend on the iteration order |
| LogEntries.ArrayWrites | src/log_entry.rs:153-161 | an array is recorded whole at its path and its first ten elements at `path[i]`; every other write lies below one of those indexed paths |
| LogEntries.ElementsBeyondTenIgnored | src/log_entry.rs:157-160 | arrays that agree on their first ten elements produce the same element writes |
| LogEntries.ObjectWrites | src/log_entry.rs:162-169 | an object is recorded whole at its path and each member at its member path (`path.key`, or `key` alone when the path is empty); every other write lies below a member's path |
| Parser.ParseTimestamp | src/parser.rs:97-141 | a string parses iff the date parser accepts it; an integer succeeds iff it is within chrono's range, and is read as milliseconds above 10^12 and as seconds otherwise; non-integer numbers and other kinds are distinct errors |
| Parser.FromTimestampMillis | src/parser.rs:128 | `from_timestamp_millis` succeeds exactly for milliseconds within chrono's range, and keeps the value |
| Parser.FromTimestampSeconds | src/parser.rs:131 | `from_timestamp(secs, 0)` succeeds exactly for seconds within chrono's range, and gives a whole number of seconds equal to `secs` |
| Parser.TimestampRangeEdges | src/parser.rs:124-134 | the first and last representable instants are accepted and the integers just outside them are rejected as invalid Unix timestamps |
| Parser.ExtractTimestamp | src/parser.rs:84-95 | over the six aliases `timestamp`, `time`, `ts`, `@timestamp`, `datetime`, `created_at` in that order: "no timestamp field" when none is present, otherwise the parse of the first present |
| Parser.ScanTimestamp | src/parser.rs:87-94 | the `for` loop with its early return, over any alias list: "no timestamp field" when none of the listed aliases is present, otherwise the parse of the first one present |
| Parser.ExtractStringField | src/parser.rs:157-170 | `None` iff no alias holds a string; otherwise the string of the first alias that holds one |
| Parser.ExtractLevel | src/parser.rs:143-155 | over the five aliases `level`, `lvl`, `severity`, `priority`, `log_level` in that order: Info when none holds a string, otherwise the parse of the first that does |
| Parser.ScanLevel | src/parser.rs:146-154 | the `for` loop with its early return, over any alias list: the parse of the first listed alias holding a string, and Info when none does |
| Parser.JsonLogParser.constructor | src/parser.rs:14-16 | the line counter starts at zero |
| Parser.JsonLogParser.ExtractLogEntry | src/parser.rs:48-82 | always succeeds on an object; each field comes from its alias list or its default, timestamp from `now` on failure, the line number is kept, the raw fields are the whole object and the index is its flattening |
| Parser.JsonLogParser.ParseLine | src/parser.rs:32-46 | blank lines are rejected as empty (and only they are), undecodable text as invalid JSON, non-objects as "expected object"; objects are normalised |
| Parser.JsonLogParser.Next | src/parser.rs:18-30 | the counter grows by one for every line, failed ones included; a read error fails; a line is parsed with the new counter as its number |
| Parser.DefaultsWhenNoAlias | src/parser.rs:56-66 | with no usable alias: timestamp `now`, level Info, logger "unknown", message "", no module, no function |
| Parser.FooBarExample | src/parser.rs:56-66 | `{"foo":"bar"}` normalises to Info, empty message, logger "unknown" and the ingestion time |
| Parser.NonStringAliasSkipped | src/parser.rs:162-168 | a present non-string alias is skipped and a later string alias is used |
| Parser.TimestampCommitsToFirstAlias | src/parser.rs:87-91 | an unusable first timestamp alias is not rescued by a later valid one |
| Parser.DiskFullExample | src/parser.rs:58-62 | `{"level":"ERROR","msg":"disk full","ts":1700000000}` gives level Error, message "disk full" and no logger |
| Parser.DiskFullTimestamp | src/parser.rs:124-132 | the same record's timestamp is 1 700 000 000 seconds, that is 1 700 000 000 000 ms |
| Parser.ComponentIsLoggerAndModule | src/parser.rs:59-65 | the alias "component" feeds both the logger and the module |
| Filter.LogFilter.New | src/filter.rs:16-25 | the new filter is empty and matches every entry |
| Filter.LogFilter.WithLevel | src/filter.rs:27-30 | sets the level guard and changes no other guard |
| Filter.LogFilter.WithSearchText | src/filter.rs:32-35 | sets the search guard and changes no other guard |
| Filter.LogFilter.WithLogger | src/filter.rs:37-40 | sets the logger guard and changes no other guard |
| Filter.LogFilter.WithModule | src/filter.rs:42-45 | sets the module guard and changes no other guard |
| Filter.LogFilter.WithTimeRange | src/filter.rs:47-51 | sets both time bounds and changes no other guard |
| Filter.LogFilter.Matches | src/filter.rs:53-112 | the early-return chain accepts an entry iff every set guard accepts it |
| Filter.LogFilter.Clear | src/filter.rs:123-130 | every guard is reset: the result is the filter `new` builds, empty and matching every entry |
| Filter.LogFilter.IsEmpty | src/filter.rs:114-121 | a filter with no guard set matches every entry |
| Filter.IsEmptyIffNew | src/filter.rs:114-121 | `is_empty` holds exactly for the filter `new` builds |
| Filter.MoreGuardsMatchLess | src/filter.rs:53-112 | a filter that keeps all guards of another and adds more matches only entries the other matches |
| Filter.WithLevelNarrows | src/filter.rs:55-59 | adding a level guard keeps exactly the matching entries with that level |
| Filter.WithSearchTextNarrows | src/filter.rs:62-78 | adding a search guard keeps exactly the matching entries the lower-cased text occurs in |
| Filter.WithLoggerNarrows | src/filter.rs:81-85 | adding a logger guard keeps exactly the matching entries whose logger contains the text, case-sensitively |
| Filter.WithModuleNarrows | src/filter.rs:88-96 | with a module guard an entry without a module never matches; otherwise its module must contain the text |
| Filter.WithTimeRangeNarrows | src/filter.rs:99-109 | adding a time range keeps exactly the matching entries with start ≤ timestamp ≤ end |
| Filter.OnlySearchGuard | src/filter.rs:61-78 | a filter with only a search text matches exactly the entries the search hits |
| Filter.EmptySearchHitsAll | src/filter.rs:62-78 | an empty search text excludes nothing |
| Filter.TestEmptyFilterMatchesAll | src/filter.rs:145-156 | the unit test: the new filter matches an Info entry |
| Filter.TestLevelFilter | src/filter.rs:159-180 | the unit test: an Error filter rejects the Info entry and accepts the Error entry |
| Filter.TestSearchTextFilterHit | src/filter.rs:183-204 | the unit test: searching "error" accepts "This is an error message" |
| Filter.TestSearchTextFilterMiss | src/filter.rs:183-204 | the unit test: searching "error" rejects "This is a normal message" with logger "test" |
| Schemas.EnumerateKeys | src/schema.rs:37 | `keys()` lists every key of the map exactly once |
| Schemas.Schema.constructor | src/schema.rs:25-30 | a new schema is uninitialised, has no fields and so no default columns |
| Schemas.Schema.InitializeFromFirstEntry | src/schema.rs:32-41 | afterwards the schema is initialised; the first call sets "#" followed by each key of the record exactly once; later calls change nothing |
| Schemas.Schema.GetDefaultColumns | src/schema.rs:43-53 | one visible column per field, column i names field i and has order i, width 80 for "#" and 150 otherwise |
| Schemas.DefaultColumnsAfterInit | src/schema.rs:32-53 | after initialisation the layout starts with the 80-wide "#" column and has one column for each key of the first record and for nothing else |
| Server.LastNSnoc | src/server.rs:57-63 | appending to a trimmed store and trimming again equals trimming the whole arrival sequence once |
| Server.ReverseTakeReverse | src/server.rs:354 | `rev().take(n).rev()` is the last `n` elements in original order |
| Server.Select | src/server.rs:91-94 | the filtered list holds only matching entries and contains exactly the matching entries of the store |
| Server.SelectConcat | src/server.rs:91-94 | filtering distributes over concatenation, so store order is kept |
| Server.SearchDiskExample | src/filter.rs:61-78 | the query `search=disk` over the normalised disk-full record and the normalised `{"foo":"bar"}` record returns only the disk-full record |
| Server.EmptyFilterSelectsAll | src/server.rs:341-348 | the `is_empty` fast path returns what filtering would |
| Server.SelectStronger | src/server.rs:341-348 | filtering by a weaker and then a stronger filter equals filtering by the stronger one |
| Server.LastNLinesIncreasing | src/server.rs:60-63 | trimming the oldest entries keeps line numbers strictly increasing |
| Server.SnocLinesIncreasing | src/server.rs:57 | appending an entry numbered one past all earlier ones keeps line numbers strictly increasing |
| Server.AppState.constructor | src/server.rs:36-52 | the store is empty, the schema is new and the layout is the one loaded from the settings file, if any |
| Server.AppState.PushLog | src/server.rs:55-64 | the store becomes the newest 100 000 of all arrivals with the new entry last |
| Server.AppState.AddLog | src/server.rs:54-85 | the store becomes the newest 100 000 of all arrivals with the new entry last; the schema is initialised by the first entry only; a default layout is installed only when there was none |
| Server.AppState.GetLogs | src/server.rs:87-98 | the result is the store filtered by the filter, and the whole store without one |
| Server.AppState.ClearLogs | src/server.rs:100-103 | empties the store and leaves the schema and the layout alone |
| Server.BuildFilter | src/server.rs:312-336 | one guard per parameter that is present and non-empty, no time range; the filter is empty iff no parameter is set |
| Server.GetLogsHandler | src/server.rs:308-364 | total count is the store size, filtered count the number of matches (never above it), and a limit keeps the newest `limit` matches in store order |
| Server.Backlog | src/server.rs:398-402 | the backlog is the newest 100 000 stored entries, which under the store invariant is the whole store |
| Server.ClearLogsHandler | src/server.rs:366-370 | clearing through the API empties the store |
| Server.SetColumnsHandler | src/server.rs:459-479 | the submitted columns, with no theme, become the in-memory layout and the response |
| Server.IngestLine | src/server.rs:243-261 | the counter grows by one; a parsed entry is stored under its line number; a failed line changes neither the store nor the schema; after a stored entry the schema is initialised (from that entry if it was not yet) and a default layout is installed only when there was none; stored line numbers stay strictly increasing |

## Left out

- Web socket handling and the broadcast channel (`websocket_handler`, `websocket_connection`, `log_tx`): asynchronous fan-out whose lag policy lives in tokio. Only the backlog slice is modelled, as `Backlog`.
- `RwLock`, `Arc`, `AtomicU64`, the connection counter and the stats handler: concurrency and bookkeeping. Every operation is modelled as one atomic step.
- Port selection (`find_available_port`, `find_available_port_for_new`), `start`, `create_router`, static file handlers, `src/main.rs`, `src/lib.rs` and `src/ui/static_files.rs`: networking, routing, command-line handling and presentation.
- `get_schema_handler` and `get_columns_handler`: they only return copies of the schema and the layout.
- JSON text decoding and chrono's string formats and RFC 3339 parsing: foreign libraries, taken as the functions of `Parser.External`.
- The wall clock (`Utc::now`): the parameter `now`.
- Reading standard input: each line arrives as a `Parser.LineRead`, and `IngestLine` models one iteration of the ingestion loop.
- `TableConfig::save_to_file`, `load_from_file` and `get_settings_path`: file I/O. The constructor of `AppState` takes the loaded layout as a parameter, and `SetColumnsHandler` does not model the save.
- `LogLevel::color` and `get_field_as_string`: presentation and `f64` formatting.
- LogEntries.Tag: a JSON number is tagged with the number itself rather than its `f64` conversion. `as_f64` never fails for default `serde_json` numbers, so the tag is always written.
- Text.ToLower and Text.ToUpper: ASCII case folding only; Rust's full Unicode case mapping is not modelled.
- Filter.LogFilter.Clear: `clear(&mut self)` updates the filter in place; since the filter is otherwise a value, the model returns the cleared filter instead.
- Parser.JsonLogParser.Next: the `u64` line counter is an unbounded `nat`; wrap-around after 2^64 lines is not modelled.
- Schemas.EnumerateKeys: the order of `keys()` is left unspecified, so the model does not say which key comes first.
- Server.LogQueryParams: query-string deserialisation is not modelled; the parameters arrive already split into fields.
