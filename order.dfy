/** The shape of the trace applyCriteria and applyQuery leave on the client:
    every kind of call has a fixed place in the order, optional calls appear
    exactly when their guard holds, and filters and ranges keep their order. */
module TraceOrder {
  import opened Common
  import opened SearchCriteria
  import opened Client
  import opened Compiler

  /** Where each kind of call sits in the order applyCriteria follows;
      calls applyCriteria never issues come last. */
  function Section(op: Op): nat
  {
    match op
    case SetMatchMode(_) => 0
    case SetRankingMode(_, _) => 1
    case SetSortMode(_, _) => 2
    case SetSelect(_) => 3
    case SetLimits(_, _, _, _) => 4
    case SetGroupBy(_, _, _) => 5
    case SetGroupDistinct(_) => 6
    case SetIDRange(_, _) => 7
    case SetFieldWeights(_) => 8
    case SetIndexWeights(_) => 9
    case SetFilter(_, _, _) => 10
    case SetFilterRange(_, _, _, _) => 11
    case SetFilterFloatRange(_, _, _, _) => 11
    case SetMaxQueryTime(_) => 12
    case SetQueryFlag(_, _) => 13
    case AddQuery(_, _, _) => 14
    case _ => 15
  }

  const RankSection := 1
  const SelectSection := 3
  const LimitSection := 4
  const GroupSection := 5
  const DistinctSection := 6
  const IdRangeSection := 7
  const FlagSection := 13

  predicate Ordered(ops: seq<Op>)
  {
    forall i, j :: 0 <= i < j < |ops| ==> Section(ops[i]) <= Section(ops[j])
  }

  predicate Within(ops: seq<Op>, lo: nat, hi: nat)
  {
    forall op | op in ops :: lo <= Section(op) <= hi
  }

  /** Some call of the given kind is issued. */
  predicate Issued(ops: seq<Op>, section: nat)
  {
    exists op | op in ops :: Section(op) == section
  }

  lemma OrderedAppend(a: seq<Op>, b: seq<Op>, m: nat)
    requires Ordered(a) && Ordered(b)
    requires Within(a, 0, m) && Within(b, m, 15)
    ensures Ordered(a + b)
  {
    forall i, j | 0 <= i < j < |a + b|
      ensures Section((a + b)[i]) <= Section((a + b)[j])
    {
      if j < |a| {
        assert (a + b)[i] == a[i] && (a + b)[j] == a[j];
      } else if i >= |a| {
        assert (a + b)[i] == b[i - |a|] && (a + b)[j] == b[j - |a|];
      } else {
        assert (a + b)[i] == a[i] && a[i] in a;
        assert (a + b)[j] == b[j - |a|] && b[j - |a|] in b;
      }
    }
  }

  lemma SingleSectionOrdered(ops: seq<Op>, k: nat)
    requires Within(ops, k, k)
    ensures Ordered(ops)
  {
    forall i, j | 0 <= i < j < |ops|
      ensures Section(ops[i]) <= Section(ops[j])
    {
      assert ops[i] in ops && ops[j] in ops;
    }
  }

  lemma FilterSections(fs: seq<Filter>)
    ensures Within(FilterOps(fs), 10, 10)
  {
    forall op | op in FilterOps(fs) ensures Section(op) == 10 {
      var i :| 0 <= i < |fs| && FilterOps(fs)[i] == op;
    }
  }

  lemma RangeSections(rs: seq<RangeFilter>)
    ensures Within(RangeOps(rs), 11, 11)
  {
    forall op | op in RangeOps(rs) ensures Section(op) == 11 {
      var i :| 0 <= i < |rs| && RangeOps(rs)[i] == op;
    }
  }

  lemma WithinAppend(a: seq<Op>, b: seq<Op>, lo: nat, hi: nat)
    requires Within(a, lo, hi) && Within(b, lo, hi)
    ensures Within(a + b, lo, hi)
  {
  }

  lemma FlagSections(c: Criteria, version: int)
    ensures Within(OptionOps(c, version), 13, 13)
  {
    if version >= MinFlagVersion {
      var p1 := FlagCall("boolean_simplify", BoolFlag(c.booleanSimplify));
      var p2 := FlagCall("reverse_scan", ScanFlag(c.reverseScan));
      var p3 := FlagCall("sort_method", TextFlag(c.sortMethod));
      var p4 := FlagCall("global_idf", BoolFlag(c.globalIdf));
      var p5 := FlagCall("idf", TextFlag(c.idf));
      WithinAppend(p1, p2, 13, 13);
      WithinAppend(p1 + p2, p3, 13, 13);
      WithinAppend(p1 + p2 + p3, p4, 13, 13);
      WithinAppend(p1 + p2 + p3 + p4, p5, 13, 13);
    }
  }

  lemma ModeSections(c: Criteria)
    ensures Ordered(ModeCalls(c)) && Within(ModeCalls(c), 0, 2)
  {
    var m := [SetMatchMode(c.matchMode)];
    SingleSectionOrdered(m, 0);
    SingleSectionOrdered(RankOps(c), 1);
    OrderedAppend(m, RankOps(c), 0);
    OrderedAppend(m + RankOps(c), [SetSortMode(c.sortMode, SortString(c))], 1);
  }

  /** Two ordered runs of calls, the first ending where the second begins. */
  lemma Joined(a: seq<Op>, b: seq<Op>, lo: nat, m: nat, hi: nat)
    requires lo <= m <= hi
    requires Ordered(a) && Ordered(b)
    requires Within(a, lo, m) && Within(b, m, hi)
    ensures Ordered(a + b) && Within(a + b, lo, hi)
  {
    OrderedAppend(a, b, m);
    forall op | op in a + b ensures lo <= Section(op) <= hi {
      if op in a {} else { assert op in b; }
    }
  }

  lemma Single(ops: seq<Op>, k: nat)
    requires Within(ops, k, k)
    ensures Ordered(ops) && Within(ops, k, k)
  {
    SingleSectionOrdered(ops, k);
  }

  lemma ShapeOrdered(c: Criteria)
    ensures Ordered(ShapeOps(c)) && Within(ShapeOps(c), 3, 7)
  {
    Single(SelectOps(c), 3);
    Single(LimitOps(c), 4);
    Joined(SelectOps(c), LimitOps(c), 3, 3, 4);
    Single(GroupOps(c), 5);
    Joined(SelectOps(c) + LimitOps(c), GroupOps(c), 3, 4, 5);
    Single(DistinctOps(c), 6);
    Joined(SelectOps(c) + LimitOps(c) + GroupOps(c), DistinctOps(c), 3, 5, 6);
    Single(IdRangeOps(c), 7);
    Joined(SelectOps(c) + LimitOps(c) + GroupOps(c) + DistinctOps(c), IdRangeOps(c), 3, 6, 7);
  }

  lemma ContentOrdered(c: Criteria, version: int, defaultQueryTime: int)
    ensures Ordered(ContentOps(c, version, defaultQueryTime)) && Within(ContentOps(c, version, defaultQueryTime), 8, 13)
  {
    var w := WeightOps(c);
    Single([w[0]], 8);
    Single([w[1]], 9);
    assert w == [w[0]] + [w[1]];
    Joined([w[0]], [w[1]], 8, 8, 9);
    FilterSections(c.filters);
    Single(FilterOps(c.filters), 10);
    Joined(w, FilterOps(c.filters), 8, 9, 10);
    RangeSections(c.rangeFilters);
    Single(RangeOps(c.rangeFilters), 11);
    Joined(w + FilterOps(c.filters), RangeOps(c.rangeFilters), 8, 10, 11);
    var mqt := [SetMaxQueryTime(MaxQueryTime(c, defaultQueryTime))];
    Single(mqt, 12);
    Joined(w + FilterOps(c.filters) + RangeOps(c.rangeFilters), mqt, 8, 11, 12);
    FlagSections(c, version);
    Single(OptionOps(c, version), 13);
    Joined(w + FilterOps(c.filters) + RangeOps(c.rangeFilters) + mqt, OptionOps(c, version), 8, 12, 13);
  }

  /** The compile order: match, rank, sort, select, limits, group, distinct,
      id range, field weights, index weights, filters, ranges, query time,
      flags, and AddQuery last. */
  lemma CompileOrder(c: Criteria, version: int, defaultQueryTime: int, text: string, indexes: string)
    requires CompileCriteria(c, version, defaultQueryTime).error.None?
    ensures Ordered(CompileCriteria(c, version, defaultQueryTime).ops + [AddQuery(text, indexes, c.comment)])
  {
    var shape := ShapeOps(c);
    var content := ContentOps(c, version, defaultQueryTime);
    assert CompileCriteria(c, version, defaultQueryTime).ops == ModeCalls(c) + (shape + content);
    ModeSections(c);
    ShapeOrdered(c);
    ContentOrdered(c, version, defaultQueryTime);
    Joined(shape, content, 3, 7, 13);
    Joined(ModeCalls(c), shape + content, 0, 2, 13);
    Single([AddQuery(text, indexes, c.comment)], 14);
    Joined(ModeCalls(c) + (shape + content), [AddQuery(text, indexes, c.comment)], 0, 13, 14);
  }

  lemma IssuedAppend(a: seq<Op>, b: seq<Op>, k: nat)
    ensures Issued(a + b, k) <==> Issued(a, k) || Issued(b, k)
  {
    if Issued(a + b, k) {
      var op :| op in a + b && Section(op) == k;
      assert op in a || op in b;
    }
    if Issued(a, k) {
      var op :| op in a && Section(op) == k;
      assert op in a + b;
    }
    if Issued(b, k) {
      var op :| op in b && Section(op) == k;
      assert op in a + b;
    }
  }

  /** A run of calls of one kind issues that kind exactly when it is not empty. */
  lemma IssuedSingle(ops: seq<Op>, j: nat, k: nat)
    requires Within(ops, j, j)
    ensures Issued(ops, k) <==> k == j && ops != []
  {
    if ops != [] && k == j {
      assert ops[0] in ops;
    }
  }

  /** One of the five query options is set. */
  predicate AnyOption(c: Criteria)
  {
    c.booleanSimplify.Some? || c.reverseScan.Some? || c.sortMethod.Some? || c.globalIdf.Some? || c.idf.Some?
  }

  lemma OptionsNonEmpty(c: Criteria, version: int)
    ensures OptionOps(c, version) != [] <==> version >= MinFlagVersion && AnyOption(c)
  {
    if version >= MinFlagVersion && AnyOption(c) {
      assert |FlagOps(c)| > 0;
    }
  }

  lemma ModeIssued(c: Criteria, k: nat)
    ensures Issued(ModeCalls(c), k) <==> k == 0 || (k == 1 && c.rankingMode != 0) || k == 2
  {
    var m := [SetMatchMode(c.matchMode)];
    var sort := [SetSortMode(c.sortMode, SortString(c))];
    IssuedAppend(m + RankOps(c), sort, k);
    IssuedAppend(m, RankOps(c), k);
    IssuedSingle(m, 0, k);
    IssuedSingle(RankOps(c), 1, k);
    IssuedSingle(sort, 2, k);
  }

  lemma PageIssued(c: Criteria, k: nat)
    ensures Issued(SelectOps(c) + LimitOps(c) + GroupOps(c), k) <==>
      (k == SelectSection && |c.select| > 0) || (k == LimitSection && c.limit != 0)
      || (k == GroupSection && Truthy(c.groupBy))
  {
    IssuedAppend(SelectOps(c) + LimitOps(c), GroupOps(c), k);
    IssuedAppend(SelectOps(c), LimitOps(c), k);
    IssuedSingle(SelectOps(c), SelectSection, k);
    IssuedSingle(LimitOps(c), LimitSection, k);
    IssuedSingle(GroupOps(c), GroupSection, k);
  }

  lemma ShapeIssued(c: Criteria, k: nat)
    ensures Issued(ShapeOps(c), k) <==>
      (k == SelectSection && |c.select| > 0) || (k == LimitSection && c.limit != 0)
      || (k == GroupSection && Truthy(c.groupBy)) || (k == DistinctSection && Truthy(c.groupDistinct))
      || (k == IdRangeSection && c.idRange.Some?)
  {
    var page := SelectOps(c) + LimitOps(c) + GroupOps(c);
    PageIssued(c, k);
    IssuedAppend(page + DistinctOps(c), IdRangeOps(c), k);
    IssuedAppend(page, DistinctOps(c), k);
    IssuedSingle(DistinctOps(c), DistinctSection, k);
    IssuedSingle(IdRangeOps(c), IdRangeSection, k);
  }

  /** Weights, filters and ranges: both weight calls always, the filter and
      range calls exactly when there are entries. */
  lemma EntriesIssued(c: Criteria, k: nat)
    ensures Issued(WeightOps(c) + FilterOps(c.filters) + RangeOps(c.rangeFilters), k) <==>
      k == 8 || k == 9 || (k == 10 && c.filters != []) || (k == 11 && c.rangeFilters != [])
  {
    var w := WeightOps(c);
    var f := FilterOps(c.filters);
    var r := RangeOps(c.rangeFilters);
    IssuedAppend(w + f, r, k);
    IssuedAppend(w, f, k);
    assert w == [w[0]] + [w[1]];
    IssuedAppend([w[0]], [w[1]], k);
    IssuedSingle([w[0]], 8, k);
    IssuedSingle([w[1]], 9, k);
    FilterSections(c.filters);
    IssuedSingle(f, 10, k);
    RangeSections(c.rangeFilters);
    IssuedSingle(r, 11, k);
  }

  lemma ContentIssued(c: Criteria, version: int, defaultQueryTime: int, k: nat)
    ensures Issued(ContentOps(c, version, defaultQueryTime), k) <==>
      k == 8 || k == 9 || (k == 10 && c.filters != []) || (k == 11 && c.rangeFilters != [])
      || k == 12 || (k == FlagSection && version >= MinFlagVersion && AnyOption(c))
  {
    var e := WeightOps(c) + FilterOps(c.filters) + RangeOps(c.rangeFilters);
    var mqt := [SetMaxQueryTime(MaxQueryTime(c, defaultQueryTime))];
    var o := OptionOps(c, version);
    assert Issued(e, k) <==>
      k == 8 || k == 9 || (k == 10 && c.filters != []) || (k == 11 && c.rangeFilters != []) by {
      EntriesIssued(c, k);
    }
    assert Issued(mqt, k) <==> k == 12 by {
      IssuedSingle(mqt, 12, k);
    }
    assert Issued(o, k) <==> k == FlagSection && version >= MinFlagVersion && AnyOption(c) by {
      OptionIssued(c, version, k);
    }
    IssuedAppend(e + mqt, o, k);
    IssuedAppend(e, mqt, k);
  }

  lemma OptionIssued(c: Criteria, version: int, k: nat)
    ensures Issued(OptionOps(c, version), k) <==> k == FlagSection && version >= MinFlagVersion && AnyOption(c)
  {
    FlagSections(c, version);
    IssuedSingle(OptionOps(c, version), FlagSection, k);
    OptionsNonEmpty(c, version);
  }


  /** The sections a successful compile issues, section by section. */
  lemma CompiledIssued(c: Criteria, version: int, defaultQueryTime: int, k: nat)
    requires CompileCriteria(c, version, defaultQueryTime).error.None?
    ensures Issued(CompileCriteria(c, version, defaultQueryTime).ops, k) <==>
      k == 0 || (k == 1 && c.rankingMode != 0) || k == 2
      || (k == SelectSection && |c.select| > 0) || (k == LimitSection && c.limit != 0)
      || (k == GroupSection && Truthy(c.groupBy)) || (k == DistinctSection && Truthy(c.groupDistinct))
      || (k == IdRangeSection && c.idRange.Some?)
      || k == 8 || k == 9 || (k == 10 && c.filters != []) || (k == 11 && c.rangeFilters != [])
      || k == 12 || (k == FlagSection && version >= MinFlagVersion && AnyOption(c))
  {
    var shape := ShapeOps(c);
    var content := ContentOps(c, version, defaultQueryTime);
    assert CompileCriteria(c, version, defaultQueryTime).ops == ModeCalls(c) + (shape + content);
    IssuedAppend(ModeCalls(c), shape + content, k);
    IssuedAppend(shape, content, k);
    ModeIssued(c, k);
    ShapeIssued(c, k);
    ContentIssued(c, version, defaultQueryTime, k);
  }

  /** Which calls a successful applyCriteria issues: match mode, sort mode,
      both weight calls and the query time always; the others exactly when
      the criteria carries the setting. */
  lemma OptionalCalls(c: Criteria, version: int, defaultQueryTime: int)
    requires CompileCriteria(c, version, defaultQueryTime).error.None?
    ensures var ops := CompileCriteria(c, version, defaultQueryTime).ops;
      && Issued(ops, 0) && Issued(ops, 2) && Issued(ops, 8) && Issued(ops, 9) && Issued(ops, 12)
      && (Issued(ops, RankSection) <==> c.rankingMode != 0)
      && (Issued(ops, SelectSection) <==> |c.select| > 0)
      && (Issued(ops, LimitSection) <==> c.limit != 0)
      && (Issued(ops, GroupSection) <==> Truthy(c.groupBy))
      && (Issued(ops, DistinctSection) <==> Truthy(c.groupDistinct))
      && (Issued(ops, IdRangeSection) <==> c.idRange.Some?)
      && (Issued(ops, 10) <==> c.filters != [])
      && (Issued(ops, 11) <==> c.rangeFilters != [])
      && (Issued(ops, FlagSection) <==> version >= MinFlagVersion && AnyOption(c))
      && !Issued(ops, 14) && !Issued(ops, 15)
  {
    CompiledIssued(c, version, defaultQueryTime, 0);
    CompiledIssued(c, version, defaultQueryTime, 1);
    CompiledIssued(c, version, defaultQueryTime, 2);
    CompiledIssued(c, version, defaultQueryTime, 3);
    CompiledIssued(c, version, defaultQueryTime, 4);
    CompiledIssued(c, version, defaultQueryTime, 5);
    CompiledIssued(c, version, defaultQueryTime, 6);
    CompiledIssued(c, version, defaultQueryTime, 7);
    CompiledIssued(c, version, defaultQueryTime, 8);
    CompiledIssued(c, version, defaultQueryTime, 9);
    CompiledIssued(c, version, defaultQueryTime, 10);
    CompiledIssued(c, version, defaultQueryTime, 11);
    CompiledIssued(c, version, defaultQueryTime, 12);
    CompiledIssued(c, version, defaultQueryTime, 13);
    CompiledIssued(c, version, defaultQueryTime, 14);
    CompiledIssued(c, version, defaultQueryTime, 15);
  }
}
