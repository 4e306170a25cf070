/** The query compiler of ApiConnection as a specification: the exact calls
    that resetClient, applyCriteria and applyQuery issue, and what the client
    configuration is once they have been applied. */
module Compiler {
  import opened Common
  import opened Enums
  import opened SearchCriteria
  import opened Client
  import opened Queries

  /** The VER_COMMAND_SEARCH from which the client accepts query flags. */
  const MinFlagVersion := 0x11D

  /** resetClient: the calls that put the client back to fixed defaults. */
  function ResetOps(version: int): seq<Op>
  {
    ResetStateOps() + ResetModeOps() + (if version >= MinFlagVersion then [ResetQueryFlag] else [])
  }

  function ResetStateOps(): seq<Op>
  {
    [ResetFilters] + [ResetGroupBy] + [ResetOverrides] + [SetLimits(0, 20, 0, 0)]
    + [SetArrayResult(true)] + [SetFieldWeights(map[])]
  }

  function ResetModeOps(): seq<Op>
  {
    [SetIDRange(0, 0)] + [SetIndexWeights(map[])] + [SetMatchMode(MatchExtended2)]
    + [SetRankingMode(RankNone, "")] + [SetSortMode(SortRelevance, Some(""))] + [SetSelect("*")]
  }

  /** The configuration after a reset: every field is fixed except the query
      time, which the reset does not touch, max matches and cut-off, which
      SetLimits(0, 20) leaves alone because it passes no positive value for
      them, and the flags below version 0x11D. */
  function ResetConfig(cfg: Config, version: int): Config
  {
    Config(
      arrayResult := true, matchMode := MatchExtended2, ranker := RankNone, rankExpression := "",
      sortMode := SortRelevance, sortBy := Some(""), select := "*",
      offset := 0, limit := 20, maxMatches := cfg.maxMatches, cutOff := cfg.cutOff,
      groupBy := None, groupDistinct := "", idMin := 0, idMax := 0,
      fieldWeights := map[], indexWeights := map[], filters := [],
      maxQueryTime := cfg.maxQueryTime,
      flags := if version >= MinFlagVersion then map[] else cfg.flags)
  }

  lemma ResetEffect(s: Session, version: int)
    ensures Run(s, ResetOps(version)) == Session(ResetConfig(s.config, version), s.queue)
  {
    var base := ResetStateOps() + ResetModeOps();
    assert Run(s, base) == Session(ResetConfig(s.config, 0), s.queue) by {
      ResetStateEffect(s);
      ResetModeEffect(Run(s, ResetStateOps()));
      RunAppend(s, ResetStateOps(), ResetModeOps());
    }
    if version >= MinFlagVersion {
      assert ResetOps(version) == base + [ResetQueryFlag];
      RunSnoc(s, base, ResetQueryFlag);
    } else {
      assert ResetOps(version) == base + [];
      assert base + [] == base;
    }
  }

  lemma ResetStateEffect(s: Session)
    ensures Run(s, ResetStateOps()) == Session(s.config.(filters := [], groupBy := None, groupDistinct := "",
      offset := 0, limit := 20, arrayResult := true, fieldWeights := map[]), s.queue)
  {
    var c1 := s.config.(filters := []);
    RunSnoc(s, [], ResetFilters);
    assert [] + [ResetFilters] == [ResetFilters];
    var p1: seq<Op> := [ResetFilters];
    assert Run(s, p1) == Session(c1, s.queue);
    var p2, c2 := p1 + [ResetGroupBy], c1.(groupBy := None, groupDistinct := "");
    RunSnoc(s, p1, ResetGroupBy);
    assert Run(s, p2) == Session(c2, s.queue);
    var p3, c3 := p2 + [ResetOverrides], c2;
    RunSnoc(s, p2, ResetOverrides);
    assert Run(s, p3) == Session(c3, s.queue);
    var p4, c4 := p3 + [SetLimits(0, 20, 0, 0)], c3.(offset := 0, limit := 20);
    RunSnoc(s, p3, SetLimits(0, 20, 0, 0));
    assert Run(s, p4) == Session(c4, s.queue);
    var p5, c5 := p4 + [SetArrayResult(true)], c4.(arrayResult := true);
    RunSnoc(s, p4, SetArrayResult(true));
    assert Run(s, p5) == Session(c5, s.queue);
    var p6, c6 := p5 + [SetFieldWeights(map[])], c5.(fieldWeights := map[]);
    RunSnoc(s, p5, SetFieldWeights(map[]));
    assert Run(s, p6) == Session(c6, s.queue);
  }

  lemma ResetModeEffect(s: Session)
    ensures Run(s, ResetModeOps()) == Session(s.config.(idMin := 0, idMax := 0, indexWeights := map[],
      matchMode := MatchExtended2, ranker := RankNone, rankExpression := "", sortMode := SortRelevance,
      sortBy := Some(""), select := "*"), s.queue)
  {
    var first := [SetIDRange(0, 0)] + [SetIndexWeights(map[])] + [SetMatchMode(MatchExtended2)];
    var second := [SetRankingMode(RankNone, "")] + [SetSortMode(SortRelevance, Some(""))] + [SetSelect("*")];
    assert ResetModeOps() == first + second;
    RunAppend(s, first, second);
    var mid := Run(s, first);
    assert mid.config == s.config.(idMin := 0, idMax := 0, indexWeights := map[], matchMode := MatchExtended2)
        && mid.queue == s.queue by {
      RunThree(s, SetIDRange(0, 0), SetIndexWeights(map[]), SetMatchMode(MatchExtended2));
      ResetIdsEffect(s.config);
    }
    assert Run(mid, second).config == mid.config.(ranker := RankNone, rankExpression := "", sortMode := SortRelevance,
                                                  sortBy := Some(""), select := "*")
        && Run(mid, second).queue == mid.queue by {
      RunThree(mid, SetRankingMode(RankNone, ""), SetSortMode(SortRelevance, Some("")), SetSelect("*"));
      ResetRankSortEffect(mid.config);
    }
  }

  /** SetIDRange(0, 0), SetIndexWeights([]) and SetMatchMode(EXTENDED2) in turn. */
  lemma ResetIdsEffect(cfg: Config)
    ensures ApplyOp(ApplyOp(ApplyOp(cfg, SetIDRange(0, 0)), SetIndexWeights(map[])), SetMatchMode(MatchExtended2))
         == cfg.(idMin := 0, idMax := 0, indexWeights := map[], matchMode := MatchExtended2)
  {
  }

  /** SetRankingMode(NONE), SetSortMode(RELEVANCE, "") and SetSelect("*") in turn. */
  lemma ResetRankSortEffect(cfg: Config)
    ensures ApplyOp(ApplyOp(ApplyOp(cfg, SetRankingMode(RankNone, "")), SetSortMode(SortRelevance, Some(""))), SetSelect("*"))
         == cfg.(ranker := RankNone, rankExpression := "", sortMode := SortRelevance, sortBy := Some(""), select := "*")
  {
    SortStep(ApplyOp(cfg, SetRankingMode(RankNone, "")), SortRelevance, Some(""));
  }

  datatype CompileError =
    | MatchModeUndefined(code: int)
    | RankModeUndefined(code: int)
    | SortModeUndefined(code: int)

  /** The calls issued, and the error raised after them if any. */
  datatype Compiled = Compiled(ops: seq<Op>, error: Option<CompileError>)

  function OrderTerm(o: Order): string
  {
    o.attribute + " " + o.direction.Name()
  }

  function OrderTerms(orders: seq<Order>): seq<string>
  {
    seq(|orders|, i requires 0 <= i < |orders| => OrderTerm(orders[i]))
  }

  /** The sort string handed to SetSortMode: in EXTENDED mode the orders as
      "attr DIR" joined by ", ", otherwise the criteria's sortBy. */
  function SortString(c: Criteria): Option<string>
  {
    if c.sortMode == SortExtended then Some(Join(", ", OrderTerms(c.orders))) else c.sortBy
  }

  function RankOps(c: Criteria): seq<Op>
  {
    if c.rankingMode == 0 then [] else [SetRankingMode(c.rankingMode, c.rankingExpression)]
  }

  /** applyMatchMode, applyRankMode and applySortMode, each validating its code. */
  function ModeStage(c: Criteria): Compiled
  {
    if !IsMatchMode(c.matchMode) then
      Compiled([], Some(MatchModeUndefined(c.matchMode)))
    else if c.rankingMode != 0 && !IsRankMode(c.rankingMode) then
      Compiled([SetMatchMode(c.matchMode)], Some(RankModeUndefined(c.rankingMode)))
    else if !IsSortMode(c.sortMode) then
      Compiled([SetMatchMode(c.matchMode)] + RankOps(c), Some(SortModeUndefined(c.sortMode)))
    else
      Compiled(ModeCalls(c), None)
  }

  /** The three mode calls of a criteria whose codes are all valid. */
  function ModeCalls(c: Criteria): seq<Op>
  {
    [SetMatchMode(c.matchMode)] + RankOps(c) + [SetSortMode(c.sortMode, SortString(c))]
  }

  function SelectOps(c: Criteria): seq<Op>
  {
    if |c.select| > 0 then [SetSelect(c.select)] else []
  }

  function LimitOps(c: Criteria): seq<Op>
  {
    if c.limit != 0 then [SetLimits(c.offset, c.limit, c.maxMatches, c.cutOff)] else []
  }

  /** The client's max matches after the limits call: the criteria's own
      only when the call is issued and passes a positive value. */
  function MaxMatchesAfter(c: Criteria, current: int): int
  {
    if c.limit != 0 && c.maxMatches > 0 then c.maxMatches else current
  }

  /** The client's cut-off after the limits call, by the same rule. */
  function CutOffAfter(c: Criteria, current: int): int
  {
    if c.limit != 0 && c.cutOff > 0 then c.cutOff else current
  }

  function GroupOps(c: Criteria): seq<Op>
  {
    if Truthy(c.groupBy) then [SetGroupBy(c.groupBy, c.groupByFunc, c.groupBySort)] else []
  }

  function DistinctOps(c: Criteria): seq<Op>
  {
    if Truthy(c.groupDistinct) then [SetGroupDistinct(c.groupDistinct)] else []
  }

  function IdRangeOps(c: Criteria): seq<Op>
  {
    match c.idRange
    case Some(r) => [SetIDRange(r.min, r.max)]
    case None => []
  }

  function WeightOps(c: Criteria): seq<Op>
  {
    [SetFieldWeights(CastWeights(c.fieldWeights)), SetIndexWeights(CastWeights(c.indexWeights))]
  }

  function FilterOp(f: Filter): Op
  {
    SetFilter(f.attribute, f.values, f.exclude)
  }

  function FilterOps(fs: seq<Filter>): seq<Op>
  {
    seq(|fs|, i requires 0 <= i < |fs| => FilterOp(fs[i]))
  }

  function RangeOp(r: RangeFilter): Op
  {
    if r.isFloat then SetFilterFloatRange(r.attribute, r.min, r.max, r.exclude)
    else SetFilterRange(r.attribute, r.min, r.max, r.exclude)
  }

  function RangeOps(rs: seq<RangeFilter>): seq<Op>
  {
    seq(|rs|, i requires 0 <= i < |rs| => RangeOp(rs[i]))
  }

  /** The criteria's own timeout when set, else the connection's `_queryTimeout`. */
  function MaxQueryTime(c: Criteria, defaultQueryTime: int): int
  {
    c.queryTimeout.GetOr(defaultQueryTime)
  }

  function BoolFlag(b: Option<bool>): Option<Scalar>
  {
    if b.Some? then Some(BoolValue(b.value)) else None
  }

  /** reverse_scan is sent as 1 or 0. */
  function ScanFlag(b: Option<bool>): Option<Scalar>
  {
    if b.Some? then Some(IntValue(if b.value then 1 else 0)) else None
  }

  function TextFlag(t: Option<string>): Option<Scalar>
  {
    if t.Some? then Some(StringValue(t.value)) else None
  }

  function FlagCall(name: string, value: Option<Scalar>): seq<Op>
  {
    if value.Some? then [SetQueryFlag(name, value.value)] else []
  }

  /** applyOptions: one SetQueryFlag per option that is set, in this order. */
  function FlagOps(c: Criteria): seq<Op>
  {
    FlagCall("boolean_simplify", BoolFlag(c.booleanSimplify))
    + FlagCall("reverse_scan", ScanFlag(c.reverseScan))
    + FlagCall("sort_method", TextFlag(c.sortMethod))
    + FlagCall("global_idf", BoolFlag(c.globalIdf))
    + FlagCall("idf", TextFlag(c.idf))
  }

  function OptionOps(c: Criteria, version: int): seq<Op>
  {
    if version >= MinFlagVersion then FlagOps(c) else []
  }

  /** Everything applyCriteria issues after the sort mode. */
  function SettingOps(c: Criteria, version: int, defaultQueryTime: int): seq<Op>
  {
    ShapeOps(c) + ContentOps(c, version, defaultQueryTime)
  }

  /** Select, limits, grouping and id range: each issued only when set. */
  function ShapeOps(c: Criteria): seq<Op>
  {
    SelectOps(c) + LimitOps(c) + GroupOps(c) + DistinctOps(c) + IdRangeOps(c)
  }

  /** Weights, filters, ranges, the query time and the flags. */
  function ContentOps(c: Criteria, version: int, defaultQueryTime: int): seq<Op>
  {
    WeightOps(c) + FilterOps(c.filters) + RangeOps(c.rangeFilters)
    + [SetMaxQueryTime(MaxQueryTime(c, defaultQueryTime))] + OptionOps(c, version)
  }

  /** applyCriteria: the calls issued for one criteria, and its error. */
  function CompileCriteria(c: Criteria, version: int, defaultQueryTime: int): Compiled
  {
    var m := ModeStage(c);
    if m.error.Some? then m else Compiled(m.ops + SettingOps(c, version, defaultQueryTime), None)
  }

  /** resetClient followed by applyQuery, which ends in AddQuery. */
  function QueryTrace(q: Query, version: int, defaultQueryTime: int): Compiled
  {
    var cc := CompileCriteria(q.criteria, version, defaultQueryTime);
    if cc.error.Some? then Compiled(ResetOps(version) + cc.ops, cc.error)
    else Compiled(ResetOps(version) + cc.ops + [AddQuery(q.text, q.indexes, q.criteria.comment)], None)
  }

  /** The loop of executeQueries: reset and compile each query in turn,
      stopping at the first query that raises. */
  function BatchTrace(qs: seq<Query>, version: int, defaultQueryTime: int): Compiled
    decreases |qs|
  {
    if qs == [] then Compiled([], None)
    else
      var prev := BatchTrace(qs[..|qs| - 1], version, defaultQueryTime);
      if prev.error.Some? then prev
      else
        var last := QueryTrace(qs[|qs| - 1], version, defaultQueryTime);
        Compiled(prev.ops + last.ops, last.error)
  }

  // ----- The configuration a compiled query runs under -----

  /** The filter the client keeps for one SetFilter call: none for an empty
      value list. */
  function FilterState(f: Filter): seq<ActiveFilter>
  {
    if |f.values| > 0 then [ValuesFilter(f.attribute, f.values, f.exclude)] else []
  }

  function FilterStates(fs: seq<Filter>): seq<ActiveFilter>
    decreases |fs|
  {
    if fs == [] then [] else FilterStates(fs[..|fs| - 1]) + FilterState(fs[|fs| - 1])
  }

  /** Filters with a non-empty value list, as the criteria setters store
      them, are each stored by SetFilter, in order. */
  lemma {:induction false} FiltersStored(fs: seq<Filter>)
    requires forall i :: 0 <= i < |fs| ==> ValidFilter(fs[i])
    ensures |FilterStates(fs)| == |fs|
    ensures forall i :: 0 <= i < |fs| ==>
      FilterStates(fs)[i] == ValuesFilter(fs[i].attribute, fs[i].values, fs[i].exclude)
    decreases |fs|
  {
    if fs != [] {
      var init := fs[..|fs| - 1];
      FiltersStored(init);
      assert FilterState(fs[|fs| - 1]) == [ValuesFilter(fs[|fs| - 1].attribute, fs[|fs| - 1].values, fs[|fs| - 1].exclude)];
    }
  }

  /** For a criteria its setters built, no filter is dropped and no weight
      is changed by the cast. */
  lemma ValidCriteriaKept(c: Criteria)
    requires Valid(c)
    ensures |FilterStates(c.filters)| == |c.filters|
    ensures forall i :: 0 <= i < |c.filters| ==>
      FilterStates(c.filters)[i] == ValuesFilter(c.filters[i].attribute, c.filters[i].values, c.filters[i].exclude)
    ensures CastWeights(c.fieldWeights) == map k | k in c.fieldWeights :: c.fieldWeights[k].i
    ensures CastWeights(c.indexWeights) == map k | k in c.indexWeights :: c.indexWeights[k].i
  {
    FiltersStored(c.filters);
    IntWeightsUncast(c.fieldWeights);
    IntWeightsUncast(c.indexWeights);
  }

  function RangeState(r: RangeFilter): ActiveFilter
  {
    if r.isFloat then FloatRange(r.attribute, r.min, r.max, r.exclude)
    else IntRange(r.attribute, r.min, r.max, r.exclude)
  }

  function RangeStates(rs: seq<RangeFilter>): seq<ActiveFilter>
  {
    seq(|rs|, i requires 0 <= i < |rs| => RangeState(rs[i]))
  }

  function FlagEntry(name: string, value: Option<Scalar>): map<string, Scalar>
  {
    if value.Some? then map[name := value.value] else map[]
  }

  /** The query flags a criteria asks for, by name. */
  function FlagMap(c: Criteria): map<string, Scalar>
  {
    FlagEntry("boolean_simplify", BoolFlag(c.booleanSimplify))
    + FlagEntry("reverse_scan", ScanFlag(c.reverseScan))
    + FlagEntry("sort_method", TextFlag(c.sortMethod))
    + FlagEntry("global_idf", BoolFlag(c.globalIdf))
    + FlagEntry("idf", TextFlag(c.idf))
  }

  /** The client configuration a criteria stands for, field by field: the
      reset default wherever the criteria leaves a setting alone. Max matches,
      cut-off and, below version 0x11D, the flags are not restored by the
      reset: where the criteria does not set them they are those of `prior`,
      the configuration before the reset. */
  function ExpectedConfig(c: Criteria, version: int, defaultQueryTime: int, prior: Config): Config
  {
    Config(
      arrayResult := true,
      matchMode := c.matchMode,
      ranker := if c.rankingMode != 0 then c.rankingMode else RankNone,
      rankExpression := if c.rankingMode != 0 then c.rankingExpression else "",
      sortMode := c.sortMode,
      sortBy := SortString(c),
      select := if |c.select| > 0 then c.select else "*",
      offset := if c.limit != 0 then c.offset else 0,
      limit := if c.limit != 0 then c.limit else 20,
      maxMatches := MaxMatchesAfter(c, prior.maxMatches),
      cutOff := CutOffAfter(c, prior.cutOff),
      groupBy := if Truthy(c.groupBy) then Some(GroupSetting(c.groupBy, c.groupByFunc, c.groupBySort)) else None,
      groupDistinct := if Truthy(c.groupDistinct) then c.groupDistinct else "",
      idMin := if c.idRange.Some? then c.idRange.value.min else 0,
      idMax := if c.idRange.Some? then c.idRange.value.max else 0,
      fieldWeights := CastWeights(c.fieldWeights),
      indexWeights := CastWeights(c.indexWeights),
      filters := FilterStates(c.filters) + RangeStates(c.rangeFilters),
      maxQueryTime := MaxQueryTime(c, defaultQueryTime),
      flags := if version >= MinFlagVersion then FlagMap(c) else prior.flags)
  }

  /** The settings the mode calls write: match mode, the ranker only when
      a ranking mode is given, and the sort mode with its sort string. */
  function WithModes(cfg: Config, c: Criteria): Config
  {
    cfg.(matchMode := c.matchMode,
         ranker := if c.rankingMode != 0 then c.rankingMode else cfg.ranker,
         rankExpression := if c.rankingMode != 0 then c.rankingExpression else cfg.rankExpression,
         sortMode := c.sortMode, sortBy := SortString(c))
  }

  /** The settings the calls after the sort mode write: each optional one
      only when the criteria carries it; weights, the query time and the
      appended filters always. */
  function WithSettings(cfg: Config, c: Criteria, version: int, defaultQueryTime: int): Config
  {
    cfg.(
      select := if |c.select| > 0 then c.select else cfg.select,
      offset := if c.limit != 0 then c.offset else cfg.offset,
      limit := if c.limit != 0 then c.limit else cfg.limit,
      maxMatches := MaxMatchesAfter(c, cfg.maxMatches),
      cutOff := CutOffAfter(c, cfg.cutOff),
      groupBy := if Truthy(c.groupBy) then Some(GroupSetting(c.groupBy, c.groupByFunc, c.groupBySort)) else cfg.groupBy,
      groupDistinct := if Truthy(c.groupDistinct) then c.groupDistinct else cfg.groupDistinct,
      idMin := if c.idRange.Some? then c.idRange.value.min else cfg.idMin,
      idMax := if c.idRange.Some? then c.idRange.value.max else cfg.idMax,
      fieldWeights := CastWeights(c.fieldWeights),
      indexWeights := CastWeights(c.indexWeights),
      filters := cfg.filters + FilterStates(c.filters) + RangeStates(c.rangeFilters),
      maxQueryTime := MaxQueryTime(c, defaultQueryTime),
      flags := if version >= MinFlagVersion then cfg.flags + FlagMap(c) else cfg.flags)
  }

  // ----- What each group of calls does to the session -----

  lemma RunSingle(s: Session, op: Op)
    ensures Run(s, [op]) == Step(s, op)
  {
    RunSnoc(s, [], op);
    assert [] + [op] == [op];
  }

  lemma SelectRun(s: Session, c: Criteria)
    ensures Run(s, SelectOps(c)) == Session(s.config.(select := if |c.select| > 0 then c.select else s.config.select), s.queue)
  {
    if |c.select| > 0 { RunSingle(s, SetSelect(c.select)); }
  }

  lemma LimitRun(s: Session, c: Criteria)
    ensures Run(s, LimitOps(c)) == Session(
      s.config.(offset := if c.limit != 0 then c.offset else s.config.offset,
                limit := if c.limit != 0 then c.limit else s.config.limit,
                maxMatches := MaxMatchesAfter(c, s.config.maxMatches),
                cutOff := CutOffAfter(c, s.config.cutOff)),
      s.queue)
  {
    if c.limit != 0 { RunSingle(s, SetLimits(c.offset, c.limit, c.maxMatches, c.cutOff)); }
  }

  lemma GroupRun(s: Session, c: Criteria)
    ensures Run(s, GroupOps(c)) == Session(
      s.config.(groupBy := if Truthy(c.groupBy) then Some(GroupSetting(c.groupBy, c.groupByFunc, c.groupBySort)) else s.config.groupBy),
      s.queue)
  {
    if Truthy(c.groupBy) { RunSingle(s, SetGroupBy(c.groupBy, c.groupByFunc, c.groupBySort)); }
  }

  lemma DistinctRun(s: Session, c: Criteria)
    ensures Run(s, DistinctOps(c)) == Session(
      s.config.(groupDistinct := if Truthy(c.groupDistinct) then c.groupDistinct else s.config.groupDistinct), s.queue)
  {
    if Truthy(c.groupDistinct) {
      RunSingle(s, SetGroupDistinct(c.groupDistinct));
    } else {
      assert DistinctOps(c) == [];
      assert s.config.(groupDistinct := s.config.groupDistinct) == s.config;
    }
  }

  lemma IdRangeRun(s: Session, c: Criteria)
    ensures Run(s, IdRangeOps(c)) == Session(
      s.config.(idMin := if c.idRange.Some? then c.idRange.value.min else s.config.idMin,
                idMax := if c.idRange.Some? then c.idRange.value.max else s.config.idMax),
      s.queue)
  {
    if c.idRange.Some? { RunSingle(s, SetIDRange(c.idRange.value.min, c.idRange.value.max)); }
  }

  lemma WeightRun(s: Session, c: Criteria)
    ensures Run(s, WeightOps(c)) == Session(
      s.config.(fieldWeights := CastWeights(c.fieldWeights), indexWeights := CastWeights(c.indexWeights)), s.queue)
  {
    var fw := SetFieldWeights(CastWeights(c.fieldWeights));
    RunSingle(s, fw);
    RunSnoc(s, [fw], SetIndexWeights(CastWeights(c.indexWeights)));
    assert [fw] + [SetIndexWeights(CastWeights(c.indexWeights))] == WeightOps(c);
  }

  lemma FilterStep(s: Session, f: Filter)
    ensures Step(s, FilterOp(f)) == Session(s.config.(filters := s.config.filters + FilterState(f)), s.queue)
  {
    if |f.values| == 0 {
      assert s.config.filters + FilterState(f) == s.config.filters;
    }
  }

  /** applyFilters: each filter with a non-empty value list appends one
      value filter to the client, in order. */
  lemma {:induction false} FilterRun(s: Session, fs: seq<Filter>)
    ensures Run(s, FilterOps(fs)) == Session(s.config.(filters := s.config.filters + FilterStates(fs)), s.queue)
    decreases |fs|
  {
    if fs == [] {
      assert FilterOps(fs) == [];
      assert s.config.filters + FilterStates(fs) == s.config.filters;
    } else {
      var init := fs[..|fs| - 1];
      var f := fs[|fs| - 1];
      var mid := Run(s, FilterOps(init));
      assert mid == Session(s.config.(filters := s.config.filters + FilterStates(init)), s.queue) by {
        FilterRun(s, init);
      }
      assert Run(s, FilterOps(fs)) == Step(mid, FilterOp(f)) by {
        assert FilterOps(fs) == FilterOps(init) + [FilterOp(f)];
        RunSnoc(s, FilterOps(init), FilterOp(f));
      }
      FilterStep(mid, f);
      assert s.config.filters + FilterStates(init) + FilterState(f) == s.config.filters + FilterStates(fs);
    }
  }

  lemma RangeStep(s: Session, r: RangeFilter)
    ensures Step(s, RangeOp(r)) == Session(s.config.(filters := s.config.filters + [RangeState(r)]), s.queue)
  {
  }

  /** applyRanges: each range appends one integer or float range, in order. */
  lemma {:induction false} RangeRun(s: Session, rs: seq<RangeFilter>)
    ensures Run(s, RangeOps(rs)) == Session(s.config.(filters := s.config.filters + RangeStates(rs)), s.queue)
    decreases |rs|
  {
    if rs == [] {
      assert RangeOps(rs) == [];
      assert s.config.filters + RangeStates(rs) == s.config.filters;
    } else {
      var init := rs[..|rs| - 1];
      var r := rs[|rs| - 1];
      var mid := Run(s, RangeOps(init));
      assert mid == Session(s.config.(filters := s.config.filters + RangeStates(init)), s.queue) by {
        RangeRun(s, init);
      }
      assert Run(s, RangeOps(rs)) == Step(mid, RangeOp(r)) by {
        assert RangeOps(rs) == RangeOps(init) + [RangeOp(r)];
        RunSnoc(s, RangeOps(init), RangeOp(r));
      }
      RangeStep(mid, r);
      assert s.config.filters + RangeStates(init) + [RangeState(r)] == s.config.filters + RangeStates(rs) by {
        assert RangeStates(rs) == RangeStates(init) + [RangeState(r)];
      }
    }
  }

  lemma FlagCallRun(s: Session, name: string, value: Option<Scalar>)
    ensures Run(s, FlagCall(name, value)) == Session(s.config.(flags := s.config.flags + FlagEntry(name, value)), s.queue)
  {
    if value.Some? {
      RunSingle(s, SetQueryFlag(name, value.value));
      assert s.config.flags[name := value.value] == s.config.flags + FlagEntry(name, value);
    } else {
      assert s.config.flags + FlagEntry(name, value) == s.config.flags;
    }
  }

  lemma FlagCallThen(s: Session, prefix: seq<Op>, name: string, value: Option<Scalar>, flags: map<string, Scalar>)
    requires Run(s, prefix) == Session(s.config.(flags := flags), s.queue)
    ensures Run(s, prefix + FlagCall(name, value)) == Session(s.config.(flags := flags + FlagEntry(name, value)), s.queue)
  {
    RunAppend(s, prefix, FlagCall(name, value));
    FlagCallRun(Run(s, prefix), name, value);
  }

  /** applyOptions sets exactly the flags the criteria asks for. */
  lemma FlagRun(s: Session, c: Criteria)
    ensures Run(s, FlagOps(c)) == Session(s.config.(flags := s.config.flags + FlagMap(c)), s.queue)
  {
    var e1 := FlagEntry("boolean_simplify", BoolFlag(c.booleanSimplify));
    var e2 := FlagEntry("reverse_scan", ScanFlag(c.reverseScan));
    var e3 := FlagEntry("sort_method", TextFlag(c.sortMethod));
    var e4 := FlagEntry("global_idf", BoolFlag(c.globalIdf));
    var e5 := FlagEntry("idf", TextFlag(c.idf));
    var p1 := FlagCall("boolean_simplify", BoolFlag(c.booleanSimplify));
    var p2 := p1 + FlagCall("reverse_scan", ScanFlag(c.reverseScan));
    var p3 := p2 + FlagCall("sort_method", TextFlag(c.sortMethod));
    var p4 := p3 + FlagCall("global_idf", BoolFlag(c.globalIdf));
    var p5 := p4 + FlagCall("idf", TextFlag(c.idf));
    var f := s.config.flags;
    FlagCallRun(s, "boolean_simplify", BoolFlag(c.booleanSimplify));
    FlagCallThen(s, p1, "reverse_scan", ScanFlag(c.reverseScan), f + e1);
    FlagCallThen(s, p2, "sort_method", TextFlag(c.sortMethod), f + e1 + e2);
    FlagCallThen(s, p3, "global_idf", BoolFlag(c.globalIdf), f + e1 + e2 + e3);
    FlagCallThen(s, p4, "idf", TextFlag(c.idf), f + e1 + e2 + e3 + e4);
    FlagMapSplit(f, c);
  }

  lemma UnionAssoc(a: map<string, Scalar>, b: map<string, Scalar>, c: map<string, Scalar>)
    ensures a + b + c == a + (b + c)
  {
  }

  lemma FlagMapSplit(f: map<string, Scalar>, c: Criteria)
    ensures f + FlagMap(c) == f + FlagEntry("boolean_simplify", BoolFlag(c.booleanSimplify))
      + FlagEntry("reverse_scan", ScanFlag(c.reverseScan)) + FlagEntry("sort_method", TextFlag(c.sortMethod))
      + FlagEntry("global_idf", BoolFlag(c.globalIdf)) + FlagEntry("idf", TextFlag(c.idf))
  {
    var e1 := FlagEntry("boolean_simplify", BoolFlag(c.booleanSimplify));
    var e2 := FlagEntry("reverse_scan", ScanFlag(c.reverseScan));
    var e3 := FlagEntry("sort_method", TextFlag(c.sortMethod));
    var e4 := FlagEntry("global_idf", BoolFlag(c.globalIdf));
    var e5 := FlagEntry("idf", TextFlag(c.idf));
    UnionAssoc(f, e1 + e2 + e3 + e4, e5);
    UnionAssoc(f, e1 + e2 + e3, e4);
    UnionAssoc(f, e1 + e2, e3);
    UnionAssoc(f, e1, e2);
  }

  lemma OptionRun(s: Session, c: Criteria, version: int)
    ensures Run(s, OptionOps(c, version)) == Session(
      s.config.(flags := if version >= MinFlagVersion then s.config.flags + FlagMap(c) else s.config.flags), s.queue)
  {
    if version >= MinFlagVersion { FlagRun(s, c); }
  }

  /** One configuration call after a prefix whose effect is known. */
  lemma StepThen(s: Session, prefix: seq<Op>, op: Op, cfg: Config)
    requires Run(s, prefix) == Session(cfg, s.queue)
    requires QueueNeutral(op)
    ensures Run(s, prefix + [op]) == Session(ApplyOp(cfg, op), s.queue)
  {
    RunSnoc(s, prefix, op);
  }

  lemma SortStep(cfg: Config, mode: int, sortBy: Option<string>)
    ensures ApplyOp(cfg, SetSortMode(mode, sortBy)) == cfg.(sortMode := mode, sortBy := sortBy)
  {
  }

  lemma MaxTimeStep(cfg: Config, millis: int)
    ensures ApplyOp(cfg, SetMaxQueryTime(millis)) == cfg.(maxQueryTime := millis)
  {
  }

  lemma RankRun(s: Session, c: Criteria)
    ensures Run(s, RankOps(c)) == Session(
      s.config.(ranker := if c.rankingMode != 0 then c.rankingMode else s.config.ranker,
                rankExpression := if c.rankingMode != 0 then c.rankingExpression else s.config.rankExpression),
      s.queue)
  {
    if c.rankingMode != 0 { RunSingle(s, SetRankingMode(c.rankingMode, c.rankingExpression)); }
  }

  /** The mode calls of a criteria that passes validation. */
  lemma ModeRun(s: Session, c: Criteria)
    requires ModeStage(c).error.None?
    ensures Run(s, ModeStage(c).ops) == Session(WithModes(s.config, c), s.queue)
  {
    assert ModeStage(c).ops == ModeCalls(c);
    ModeOpsRun(s, c);
  }

  lemma ModeOpsRun(s: Session, c: Criteria)
    ensures Run(s, ModeCalls(c)) == Session(WithModes(s.config, c), s.queue)
  {
    var m := [SetMatchMode(c.matchMode)];
    var sort := SetSortMode(c.sortMode, SortString(c));
    var c1 := s.config.(matchMode := c.matchMode);
    var c2 := c1.(ranker := if c.rankingMode != 0 then c.rankingMode else s.config.ranker,
                  rankExpression := if c.rankingMode != 0 then c.rankingExpression else s.config.rankExpression);
    assert Run(s, m) == Session(c1, s.queue) by { RunSingle(s, SetMatchMode(c.matchMode)); }
    assert Run(s, m + RankOps(c)) == Session(c2, s.queue) by {
      RunAppend(s, m, RankOps(c));
      RankRun(Session(c1, s.queue), c);
    }
    StepThen(s, m + RankOps(c), sort, c2);
    SortStep(c2, c.sortMode, SortString(c));
  }


  lemma PageRun(s: Session, c: Criteria)
    ensures Run(s, SelectOps(c) + LimitOps(c) + GroupOps(c)) == Session(
      s.config.(
        select := if |c.select| > 0 then c.select else s.config.select,
        offset := if c.limit != 0 then c.offset else s.config.offset,
        limit := if c.limit != 0 then c.limit else s.config.limit,
        maxMatches := MaxMatchesAfter(c, s.config.maxMatches),
        cutOff := CutOffAfter(c, s.config.cutOff),
        groupBy := if Truthy(c.groupBy) then Some(GroupSetting(c.groupBy, c.groupByFunc, c.groupBySort)) else s.config.groupBy),
      s.queue)
  {
    var q := s.queue;
    var p1 := SelectOps(c);
    var c1 := s.config.(select := if |c.select| > 0 then c.select else s.config.select);
    assert Run(s, p1) == Session(c1, q) by { SelectRun(s, c); }
    var p2 := p1 + LimitOps(c);
    var c2 := c1.(offset := if c.limit != 0 then c.offset else c1.offset,
                  limit := if c.limit != 0 then c.limit else c1.limit,
                  maxMatches := MaxMatchesAfter(c, c1.maxMatches),
                  cutOff := CutOffAfter(c, c1.cutOff));
    assert Run(s, p2) == Session(c2, q) by { RunAppend(s, p1, LimitOps(c)); LimitRun(Session(c1, q), c); }
    RunAppend(s, p2, GroupOps(c));
    GroupRun(Session(c2, q), c);
  }

  lemma ShapeRun(s: Session, c: Criteria)
    ensures Run(s, ShapeOps(c)) == Session(
      s.config.(
        select := if |c.select| > 0 then c.select else s.config.select,
        offset := if c.limit != 0 then c.offset else s.config.offset,
        limit := if c.limit != 0 then c.limit else s.config.limit,
        maxMatches := MaxMatchesAfter(c, s.config.maxMatches),
        cutOff := CutOffAfter(c, s.config.cutOff),
        groupBy := if Truthy(c.groupBy) then Some(GroupSetting(c.groupBy, c.groupByFunc, c.groupBySort)) else s.config.groupBy,
        groupDistinct := if Truthy(c.groupDistinct) then c.groupDistinct else s.config.groupDistinct,
        idMin := if c.idRange.Some? then c.idRange.value.min else s.config.idMin,
        idMax := if c.idRange.Some? then c.idRange.value.max else s.config.idMax),
      s.queue)
  {
    var q := s.queue;
    var p3 := SelectOps(c) + LimitOps(c) + GroupOps(c);
    var c3 := s.config.(
        select := if |c.select| > 0 then c.select else s.config.select,
        offset := if c.limit != 0 then c.offset else s.config.offset,
        limit := if c.limit != 0 then c.limit else s.config.limit,
        maxMatches := MaxMatchesAfter(c, s.config.maxMatches),
        cutOff := CutOffAfter(c, s.config.cutOff),
        groupBy := if Truthy(c.groupBy) then Some(GroupSetting(c.groupBy, c.groupByFunc, c.groupBySort)) else s.config.groupBy);
    assert Run(s, p3) == Session(c3, q) by { PageRun(s, c); }
    var p4 := p3 + DistinctOps(c);
    var c4 := c3.(groupDistinct := if Truthy(c.groupDistinct) then c.groupDistinct else c3.groupDistinct);
    assert Run(s, p4) == Session(c4, q) by { RunAppend(s, p3, DistinctOps(c)); DistinctRun(Session(c3, q), c); }
    RunAppend(s, p4, IdRangeOps(c));
    IdRangeRun(Session(c4, q), c);
  }

  lemma ContentRun(s: Session, c: Criteria, version: int, defaultQueryTime: int)
    ensures Run(s, ContentOps(c, version, defaultQueryTime)) == Session(
      s.config.(
        fieldWeights := CastWeights(c.fieldWeights),
        indexWeights := CastWeights(c.indexWeights),
        filters := s.config.filters + FilterStates(c.filters) + RangeStates(c.rangeFilters),
        maxQueryTime := MaxQueryTime(c, defaultQueryTime),
        flags := if version >= MinFlagVersion then s.config.flags + FlagMap(c) else s.config.flags),
      s.queue)
  {
    var q := s.queue;
    var p6 := WeightOps(c);
    var c6 := s.config.(fieldWeights := CastWeights(c.fieldWeights), indexWeights := CastWeights(c.indexWeights));
    assert Run(s, p6) == Session(c6, q) by { WeightRun(s, c); }
    var p7 := p6 + FilterOps(c.filters);
    var c7 := c6.(filters := c6.filters + FilterStates(c.filters));
    assert Run(s, p7) == Session(c7, q) by { RunAppend(s, p6, FilterOps(c.filters)); FilterRun(Session(c6, q), c.filters); }
    var p8 := p7 + RangeOps(c.rangeFilters);
    var c8 := c7.(filters := c7.filters + RangeStates(c.rangeFilters));
    assert Run(s, p8) == Session(c8, q) by { RunAppend(s, p7, RangeOps(c.rangeFilters)); RangeRun(Session(c7, q), c.rangeFilters); }
    var mqt := SetMaxQueryTime(MaxQueryTime(c, defaultQueryTime));
    var p9 := p8 + [mqt];
    var c9 := c8.(maxQueryTime := MaxQueryTime(c, defaultQueryTime));
    assert Run(s, p9) == Session(c9, q) by { StepThen(s, p8, mqt, c8); MaxTimeStep(c8, MaxQueryTime(c, defaultQueryTime)); }
    var c10 := c9.(flags := if version >= MinFlagVersion then c9.flags + FlagMap(c) else c9.flags);
    assert Run(s, p9 + OptionOps(c, version)) == Session(c10, q) by {
      RunAppend(s, p9, OptionOps(c, version)); OptionRun(Session(c9, q), c, version);
    }
  }

  /** The calls applyCriteria issues after the sort mode: each setting the
      criteria carries is written, every other setting is left as it was. */
  lemma SettingsRun(s: Session, c: Criteria, version: int, defaultQueryTime: int)
    ensures Run(s, SettingOps(c, version, defaultQueryTime))
         == Session(WithSettings(s.config, c, version, defaultQueryTime), s.queue)
  {
    RunAppend(s, ShapeOps(c), ContentOps(c, version, defaultQueryTime));
    ShapeRun(s, c);
    ContentRun(Run(s, ShapeOps(c)), c, version, defaultQueryTime);
  }

  /** After resetClient and applyCriteria, the client holds exactly the
      configuration the criteria stands for: of what a previous query set,
      only max matches, cut-off and (below version 0x11D) the flags survive
      the reset, and only where the criteria does not set them. */
  lemma CompiledConfig(s: Session, c: Criteria, version: int, defaultQueryTime: int)
    requires CompileCriteria(c, version, defaultQueryTime).error.None?
    ensures Run(s, ResetOps(version) + CompileCriteria(c, version, defaultQueryTime).ops) == Session(
      ExpectedConfig(c, version, defaultQueryTime, s.config), s.queue)
  {
    var m := ModeCalls(c);
    var rest := SettingOps(c, version, defaultQueryTime);
    assert ModeStage(c).ops == m;
    assert CompileCriteria(c, version, defaultQueryTime).ops == m + rest;
    assert ResetOps(version) + (m + rest) == ResetOps(version) + m + rest;
    CompiledRun(s, c, version, defaultQueryTime);
  }

  lemma CompiledRun(s: Session, c: Criteria, version: int, defaultQueryTime: int)
    ensures Run(s, ResetOps(version) + ModeCalls(c) + SettingOps(c, version, defaultQueryTime)) == Session(
      ExpectedConfig(c, version, defaultQueryTime, s.config), s.queue)
  {
    var q := s.queue;
    var m := ModeCalls(c);
    var c0 := ResetConfig(s.config, version);
    var c1 := WithModes(c0, c);
    assert Run(s, ResetOps(version) + m) == Session(c1, q) by {
      ResetEffect(s, version);
      RunAppend(s, ResetOps(version), m);
      ModeOpsRun(Session(c0, q), c);
    }
    RunAppend(s, ResetOps(version) + m, SettingOps(c, version, defaultQueryTime));
    SettingsRun(Session(c1, q), c, version, defaultQueryTime);
    SettledReset(s.config, c, version, defaultQueryTime);
  }

  lemma SettledReset(cfg: Config, c: Criteria, version: int, defaultQueryTime: int)
    ensures WithSettings(WithModes(ResetConfig(cfg, version), c), c, version, defaultQueryTime)
         == ExpectedConfig(c, version, defaultQueryTime, cfg)
  {
    var c1 := WithModes(ResetConfig(cfg, version), c);
    assert c1.filters + FilterStates(c.filters) + RangeStates(c.rangeFilters)
        == FilterStates(c.filters) + RangeStates(c.rangeFilters);
    if version >= MinFlagVersion {
      assert c1.flags + FlagMap(c) == FlagMap(c);
    }
  }

  // ----- Validation, ranking and the sort string -----

  /** An invalid match code raises before any call; a non-zero invalid rank
      code raises after the match mode only; an invalid sort code raises
      before SetSortMode; otherwise compilation succeeds. */
  lemma ModeValidation(c: Criteria, version: int, defaultQueryTime: int)
    ensures var r := CompileCriteria(c, version, defaultQueryTime);
      && (!IsMatchMode(c.matchMode) ==> r == Compiled([], Some(MatchModeUndefined(c.matchMode))))
      && (IsMatchMode(c.matchMode) && c.rankingMode != 0 && !IsRankMode(c.rankingMode) ==>
            r == Compiled([SetMatchMode(c.matchMode)], Some(RankModeUndefined(c.rankingMode))))
      && (IsMatchMode(c.matchMode) && (c.rankingMode == 0 || IsRankMode(c.rankingMode)) && !IsSortMode(c.sortMode) ==>
            r.error == Some(SortModeUndefined(c.sortMode)) && r.ops == [SetMatchMode(c.matchMode)] + RankOps(c)
            && forall op | op in r.ops :: !op.SetSortMode?)
      && (r.error.None? <==>
            IsMatchMode(c.matchMode) && (c.rankingMode == 0 || IsRankMode(c.rankingMode)) && IsSortMode(c.sortMode))
  {
  }

  /** A zero ranking mode, which is also the code of the proximity-BM25
      ranker, issues no SetRankingMode: the query runs with the reset ranker. */
  lemma ZeroRankKeepsReset(s: Session, c: Criteria, version: int, defaultQueryTime: int)
    requires c.rankingMode == RankProximityBm25
    requires CompileCriteria(c, version, defaultQueryTime).error.None?
    ensures Run(s, ResetOps(version) + CompileCriteria(c, version, defaultQueryTime).ops).config.ranker == RankNone
    ensures forall op | op in CompileCriteria(c, version, defaultQueryTime).ops :: !op.SetRankingMode?
  {
    CompiledConfig(s, c, version, defaultQueryTime);
    assert CompileCriteria(c, version, defaultQueryTime).ops == ModeCalls(c) + SettingOps(c, version, defaultQueryTime);
    assert ModeCalls(c) == [SetMatchMode(c.matchMode), SetSortMode(c.sortMode, SortString(c))];
    forall op | op in SettingOps(c, version, defaultQueryTime) ensures !op.SetRankingMode? {
      SettingsNoRank(c, version, defaultQueryTime, op);
    }
  }

  lemma SettingsNoRank(c: Criteria, version: int, defaultQueryTime: int, op: Op)
    requires op in SettingOps(c, version, defaultQueryTime)
    ensures !op.SetRankingMode?
  {
    if op in ShapeOps(c) {
      ShapeNoRank(c, op);
    } else {
      assert op in ContentOps(c, version, defaultQueryTime);
      ContentNoRank(c, version, defaultQueryTime, op);
    }
  }

  lemma ShapeNoRank(c: Criteria, op: Op)
    requires op in ShapeOps(c)
    ensures !op.SetRankingMode?
  {
  }

  lemma ContentNoRank(c: Criteria, version: int, defaultQueryTime: int, op: Op)
    requires op in ContentOps(c, version, defaultQueryTime)
    ensures !op.SetRankingMode?
  {
    if op in FilterOps(c.filters) {
      var i :| 0 <= i < |c.filters| && FilterOps(c.filters)[i] == op;
    } else if op in RangeOps(c.rangeFilters) {
      var i :| 0 <= i < |c.rangeFilters| && RangeOps(c.rangeFilters)[i] == op;
    } else if op in OptionOps(c, version) {
      OptionsOnlyFlags(c, version, op);
    }
  }


  lemma OptionsOnlyFlags(c: Criteria, version: int, op: Op)
    requires op in OptionOps(c, version)
    ensures op.SetQueryFlag?
  {
    var p1 := FlagCall("boolean_simplify", BoolFlag(c.booleanSimplify));
    var p2 := FlagCall("reverse_scan", ScanFlag(c.reverseScan));
    var p3 := FlagCall("sort_method", TextFlag(c.sortMethod));
    var p4 := FlagCall("global_idf", BoolFlag(c.globalIdf));
    var p5 := FlagCall("idf", TextFlag(c.idf));
    assert op in p1 || op in p2 || op in p3 || op in p4 || op in p5;
  }

  /** In EXTENDED mode the sort string is built from the orders alone; in
      every other mode the orders are not read. */
  lemma SortSource(c: Criteria, orders: seq<Order>, sortBy: Option<string>)
    ensures c.sortMode == SortExtended ==>
      SortString(c) == SortString(c.(sortBy := sortBy)) && SortString(c) == Some(Join(", ", OrderTerms(c.orders)))
    ensures c.sortMode != SortExtended ==>
      SortString(c) == SortString(c.(orders := orders)) && SortString(c) == c.sortBy
  {
  }

  lemma SortStringExamples(c: Criteria)
    requires c.sortMode == SortExtended
    ensures c.orders == [Order("user_id", Asc), Order("id", Desc)] ==> SortString(c) == Some("user_id ASC, id DESC")
    ensures c.orders == [] ==> SortString(c) == Some("")
  {
    if c.orders == [Order("user_id", Asc), Order("id", Desc)] {
      assert OrderTerm(c.orders[0]) == "user_id ASC";
      assert OrderTerm(c.orders[1]) == "id DESC";
      assert OrderTerms(c.orders) == ["user_id ASC", "id DESC"];
      assert Join(", ", ["user_id ASC", "id DESC"]) == "user_id ASC" + ", " + Join(", ", ["id DESC"]);
      assert Join(", ", ["id DESC"]) == "id DESC";
      assert "user_id ASC" + ", " + "id DESC" == "user_id ASC, id DESC";
    }
    if c.orders == [] {
      assert OrderTerms(c.orders) == [];
    }
  }
}
