/**
 * The query predicate (src/filter.rs): a conjunction of optional guards.
 * `matches` evaluates them as a chain of early returns; `Matches` below
 * does the same and its contract states the order-free conjunction.
 */
module Filter {
  import opened Wrappers
  import opened Text
  import opened LogEntries

  datatype LogFilter = LogFilter(
    level: Option<LogLevel>,
    searchText: Option<string>,
    logger: Option<string>,
    moduleName: Option<string>,
    startTime: Option<int>,
    endTime: Option<int>)
  {
    /** `LogFilter::new`: no guard set, so every entry matches. */
    static function New(): (f: LogFilter)
      ensures f.IsEmpty()
      ensures forall e: LogEntry :: f.Matches(e)
    {
      LogFilter(None, None, None, None, None, None)
    }

    function WithLevel(l: LogLevel): (f: LogFilter)
      ensures f.level == Some(l) && f.(level := level) == this
    {
      this.(level := Some(l))
    }

    function WithSearchText(text: string): (f: LogFilter)
      ensures f.searchText == Some(text) && f.(searchText := searchText) == this
    {
      this.(searchText := Some(text))
    }

    function WithLogger(text: string): (f: LogFilter)
      ensures f.logger == Some(text) && f.(logger := logger) == this
    {
      this.(logger := Some(text))
    }

    function WithModule(text: string): (f: LogFilter)
      ensures f.moduleName == Some(text) && f.(moduleName := moduleName) == this
    {
      this.(moduleName := Some(text))
    }

    function WithTimeRange(start: int, end: int): (f: LogFilter)
      ensures f.startTime == Some(start) && f.endTime == Some(end)
      ensures f.(startTime := startTime, endTime := endTime) == this
    {
      this.(startTime := Some(start), endTime := Some(end))
    }

    // The guards, one per optional field.

    predicate LevelPasses(e: LogEntry)
    {
      level.None? || e.level == level.value
    }

    predicate SearchPasses(e: LogEntry)
    {
      searchText.None? || SearchHits(searchText.value, e)
    }

    predicate LoggerPasses(e: LogEntry)
    {
      logger.None? || Contains(e.logger, logger.value)
    }

    predicate ModulePasses(e: LogEntry)
    {
      moduleName.None? || (e.moduleName.Some? && Contains(e.moduleName.value, moduleName.value))
    }

    predicate StartPasses(e: LogEntry)
    {
      startTime.None? || startTime.value <= e.timestamp
    }

    predicate EndPasses(e: LogEntry)
    {
      endTime.None? || e.timestamp <= endTime.value
    }

    /** `matches`: the guards in the source's order, each rejecting early. */
    predicate Matches(e: LogEntry)
      ensures Matches(e) <==>
        LevelPasses(e) && SearchPasses(e) && LoggerPasses(e) && ModulePasses(e) && StartPasses(e) && EndPasses(e)
    {
      if level.Some? && e.level != level.value then false
      else if searchText.Some? && !SearchHits(searchText.value, e) then false
      else if logger.Some? && !Contains(e.logger, logger.value) then false
      else if moduleName.Some? && e.moduleName.None? then false
      else if moduleName.Some? && !Contains(e.moduleName.value, moduleName.value) then false
      else if startTime.Some? && e.timestamp < startTime.value then false
      else if endTime.Some? && e.timestamp > endTime.value then false
      else true
    }

    /** `is_empty`: no guard is set. */
    predicate IsEmpty()
      ensures IsEmpty() ==> forall e: LogEntry :: Matches(e)
    {
      && level.None? && searchText.None? && logger.None?
      && moduleName.None? && startTime.None? && endTime.None?
    }

    /** `clear`: resets every guard, which leaves a filter that matches everything. */
    function Clear(): (f: LogFilter)
      ensures f.IsEmpty() && f == LogFilter.New()
      ensures forall e: LogEntry :: f.Matches(e)
    {
      this.(level := None, searchText := None, logger := None,
            moduleName := None, startTime := None, endTime := None)
    }
  }

  /**
   * The free-text guard: the lower-cased text occurs in the lower-cased
   * message, logger, module or function; an absent module or function
   * counts as no occurrence.
   */
  predicate SearchHits(text: string, e: LogEntry)
  {
    var needle := ToLower(text);
    || Contains(ToLower(e.message), needle)
    || Contains(ToLower(e.logger), needle)
    || (e.moduleName.Some? && Contains(ToLower(e.moduleName.value), needle))
    || (e.functionName.Some? && Contains(ToLower(e.functionName.value), needle))
  }

  /** `is_empty` holds exactly for the filter `new` builds. */
  lemma IsEmptyIffNew(f: LogFilter)
    ensures f.IsEmpty() <==> f == LogFilter.New()
  {
  }

  /** Every guard set in `f` is set, with the same value, in `g`. */
  predicate Strengthens(g: LogFilter, f: LogFilter)
  {
    && (f.level.Some? ==> g.level == f.level)
    && (f.searchText.Some? ==> g.searchText == f.searchText)
    && (f.logger.Some? ==> g.logger == f.logger)
    && (f.moduleName.Some? ==> g.moduleName == f.moduleName)
    && (f.startTime.Some? ==> g.startTime == f.startTime)
    && (f.endTime.Some? ==> g.endTime == f.endTime)
  }

  /** Monotonicity: adding guards can only shrink the set of matching entries. */
  lemma MoreGuardsMatchLess(f: LogFilter, g: LogFilter, e: LogEntry)
    requires Strengthens(g, f)
    ensures g.Matches(e) ==> f.Matches(e)
  {
  }

  /** With a level set on a filter that had none, an entry matches iff it matched before and has that level. */
  lemma WithLevelNarrows(f: LogFilter, l: LogLevel, e: LogEntry)
    requires f.level.None?
    ensures f.WithLevel(l).Matches(e) <==> f.Matches(e) && e.level == l
  {
  }

  lemma WithSearchTextNarrows(f: LogFilter, text: string, e: LogEntry)
    requires f.searchText.None?
    ensures f.WithSearchText(text).Matches(e) <==> f.Matches(e) && SearchHits(text, e)
  {
  }

  /** The logger guard is a case-sensitive substring test. */
  lemma WithLoggerNarrows(f: LogFilter, text: string, e: LogEntry)
    requires f.logger.None?
    ensures f.WithLogger(text).Matches(e) <==> f.Matches(e) && Contains(e.logger, text)
  {
  }

  /** The module guard rejects every entry without a module. */
  lemma WithModuleNarrows(f: LogFilter, text: string, e: LogEntry)
    requires f.moduleName.None?
    ensures e.moduleName.None? ==> !f.WithModule(text).Matches(e)
    ensures e.moduleName.Some? ==>
      (f.WithModule(text).Matches(e) <==> f.Matches(e) && Contains(e.moduleName.value, text))
  {
  }

  /** Time bounds are inclusive at both ends. */
  lemma WithTimeRangeNarrows(f: LogFilter, start: int, end: int, e: LogEntry)
    requires f.startTime.None? && f.endTime.None?
    ensures f.WithTimeRange(start, end).Matches(e) <==> f.Matches(e) && start <= e.timestamp <= end
  {
  }

  /** An empty search text is contained in everything, so it excludes nothing. */
  lemma EmptySearchHitsAll(e: LogEntry)
    ensures SearchHits("", e)
  {
    assert ToLower("") == "";
    assert StartsWith(ToLower(e.message), "");
  }

  // The unit tests of src/filter.rs, as lemmas.

  lemma TestEmptyFilterMatchesAll(now: int)
    ensures LogFilter.New().Matches(LogEntry.New(1, now, Info, "test", "test message"))
  {
  }

  lemma TestLevelFilter(now: int)
    ensures !LogFilter.New().WithLevel(Error).Matches(LogEntry.New(1, now, Info, "test", "test message"))
    ensures LogFilter.New().WithLevel(Error).Matches(LogEntry.New(2, now, Error, "test", "error message"))
  {
  }

  lemma TestSearchTextFilterHit(now: int)
    ensures LogFilter.New().WithSearchText("error").Matches(
              LogEntry.New(1, now, Info, "test", "This is an error message"))
  {
    var e := LogEntry.New(1, now, Info, "test", "This is an error message");
    OnlySearchGuard("error", e);
    ErrorMessageHasError();
  }

  lemma TestSearchTextFilterMiss(now: int)
    ensures !LogFilter.New().WithSearchText("error").Matches(
              LogEntry.New(2, now, Info, "test", "This is a normal message"))
  {
    var e := LogEntry.New(2, now, Info, "test", "This is a normal message");
    OnlySearchGuard("error", e);
    NormalMessageHasNoError();
    LoggerHasNoError();
  }

  /** With only a search text set, the filter is the free-text guard. */
  lemma OnlySearchGuard(text: string, e: LogEntry)
    ensures LogFilter.New().WithSearchText(text).Matches(e) <==> SearchHits(text, e)
  {
  }

  lemma ErrorMessageHasError()
    ensures Contains(ToLower("This is an error message"), ToLower("error"))
  {
    var hit := ToLower("This is an error message");
    assert hit[11..][..5] == "error";
    assert ToLower("error") == "error";
    ContainsSuffix(hit, 11, "error");
  }

  /** "rr" never occurs in the lower-cased message of the miss test, so "error" does not either. */
  lemma NormalMessageHasNoError()
    ensures !Contains(ToLower("This is a normal message"), ToLower("error"))
  {
    var miss := ToLower("This is a normal message");
    assert miss == "this is a normal message";
    assert ToLower("error") == "error";
    NotContained(miss, "error", 1);
  }

  lemma LoggerHasNoError()
    ensures !Contains(ToLower("test"), ToLower("error"))
  {
    assert ToLower("test") == "test";
    assert ToLower("error") == "error";
    NotContained("test", "error", 1);
  }

  lemma DiskFullHasDisk()
    ensures Contains(ToLower("disk full"), ToLower("disk"))
  {
    assert ToLower("disk full") == "disk full";
    assert ToLower("disk") == "disk";
    assert StartsWith("disk full", "disk");
  }

  lemma UnknownHasNoDisk()
    ensures !Contains(ToLower("unknown"), ToLower("disk"))
  {
    assert ToLower("unknown") == "unknown";
    assert ToLower("disk") == "disk";
    NotContained("unknown", "disk", 0);
  }

  lemma EmptyHasNoDisk()
    ensures !Contains(ToLower(""), ToLower("disk"))
  {
    assert ToLower("disk") == "disk";
    NotContained("", "disk", 0);
  }

  /** A needle is not contained where two of its adjacent characters never occur side by side. */
  lemma {:induction false} NotContained(haystack: string, needle: string, j: nat)
    requires j + 1 < |needle|
    requires forall i | 0 <= i < |haystack| - 1 :: !(haystack[i] == needle[j] && haystack[i + 1] == needle[j + 1])
    ensures !Contains(haystack, needle)
    decreases |haystack|
  {
    if |needle| <= |haystack| {
      assert haystack[..|needle|][j] == haystack[j] && haystack[..|needle|][j + 1] == haystack[j + 1];
    }
    if haystack != [] {
      NotContained(haystack[1..], needle, j);
    }
  }
}
