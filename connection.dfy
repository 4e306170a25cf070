/** ApiConnection: drives the Sphinx client call by call. Exceptions the
    connection throws are returned as `Failure` values (or `Some` error for
    the helpers that return nothing on success). */
module Connection {
  import opened Common
  import opened Enums
  import opened SearchCriteria
  import opened Client
  import opened Compiler
  import opened Queries
  import opened Batches

  datatype Error =
    | CompileFailed(cause: CompileError)
    | ClientError(message: string)
    | ClientWarning(message: string)
    | NotAnArray
    | ResponseError(message: string)

  /** A Result built from one response entry; how Result reads the entry is
      not part of this model. */
  datatype SearchResult = SearchResult(entry: Entry)

  /** The loop of execute over the response entries: one result per entry, in
      order, unless some entry carries a non-empty error. */
  function WrapEntries(es: seq<Entry>): Result<seq<SearchResult>, string>
    decreases |es|
  {
    if es == [] then Success([])
    else if Truthy(es[0].error) then Failure(es[0].error)
    else
      match WrapEntries(es[1..])
      case Success(rs) => Success([SearchResult(es[0])] + rs)
      case Failure(e) => Failure(e)
  }

  /** execute after RunQueries: the last error, then the last warning, then a
      non-array value, then the first failing entry. */
  function ParseReply(reply: Reply): Result<seq<SearchResult>, Error>
  {
    if Truthy(reply.lastError) then Failure(ClientError(reply.lastError))
    else if Truthy(reply.lastWarning) then Failure(ClientWarning(reply.lastWarning))
    else if reply.responses.None? then Failure(NotAnArray)
    else
      match WrapEntries(reply.responses.value)
      case Success(rs) => Success(rs)
      case Failure(e) => Failure(ResponseError(e))
  }

  /** `results` already built, followed by the outcome of the rest. */
  function Prefixed(results: seq<SearchResult>, rest: Result<seq<SearchResult>, string>): Result<seq<SearchResult>, string>
  {
    match rest
    case Success(rs) => Success(results + rs)
    case Failure(e) => Failure(e)
  }

  /** executeQuery returns element 0 of the results; PHP yields null when
      there is none. */
  function First(r: Result<seq<SearchResult>, Error>): Result<Option<SearchResult>, Error>
  {
    match r
    case Success(rs) => Success(if |rs| > 0 then Some(rs[0]) else None)
    case Failure(e) => Failure(e)
  }

  /** The entries convert exactly when none carries an error, and then into
      one result per entry, positionally. */
  lemma {:induction false} WrapSuccess(es: seq<Entry>)
    ensures WrapEntries(es).Success? <==> forall i :: 0 <= i < |es| ==> !Truthy(es[i].error)
    ensures WrapEntries(es).Success? ==>
      |WrapEntries(es).value| == |es| && forall i :: 0 <= i < |es| ==> WrapEntries(es).value[i] == SearchResult(es[i])
    decreases |es|
  {
    if es != [] {
      WrapSuccess(es[1..]);
      assert forall i :: 1 <= i < |es| ==> es[1..][i - 1] == es[i];
    }
  }

  /** A failure reports the error of the first entry that has one. */
  lemma {:induction false} WrapFirstError(es: seq<Entry>)
    requires WrapEntries(es).Failure?
    ensures exists k :: (0 <= k < |es| && Truthy(es[k].error) && WrapEntries(es).error == es[k].error
                         && forall j :: 0 <= j < k ==> !Truthy(es[j].error))
    decreases |es|
  {
    if !Truthy(es[0].error) {
      WrapFirstError(es[1..]);
      var k :| 0 <= k < |es[1..]| && Truthy(es[1..][k].error) && WrapEntries(es[1..]).error == es[1..][k].error
        && forall j :: 0 <= j < k ==> !Truthy(es[1..][j].error);
      assert forall j :: 1 <= j < k + 1 ==> es[j] == es[1..][j - 1];
      assert es[k + 1] == es[1..][k];
    }
  }

  /** The reply yields results exactly when there is no error, no warning, an
      array, and no failing entry; then one result per entry, in order. */
  lemma ParseReplySuccess(reply: Reply)
    ensures ParseReply(reply).Success? <==>
      !Truthy(reply.lastError) && !Truthy(reply.lastWarning) && reply.responses.Some?
      && forall i :: 0 <= i < |reply.responses.value| ==> !Truthy(reply.responses.value[i].error)
    ensures ParseReply(reply).Success? ==>
      |ParseReply(reply).value| == |reply.responses.value|
      && forall i :: 0 <= i < |reply.responses.value| ==> ParseReply(reply).value[i] == SearchResult(reply.responses.value[i])
  {
    if reply.responses.Some? {
      WrapSuccess(reply.responses.value);
    }
  }

  lemma WrapStep(es: seq<Entry>, i: int, results: seq<SearchResult>)
    requires 0 <= i < |es| && !Truthy(es[i].error)
    ensures Prefixed(results, WrapEntries(es[i..])) == Prefixed(results + [SearchResult(es[i])], WrapEntries(es[i + 1..]))
  {
    assert es[i..][1..] == es[i + 1..];
    assert es[i..][0] == es[i];
    match WrapEntries(es[i + 1..])
    case Success(rs) =>
      assert results + ([SearchResult(es[i])] + rs) == results + [SearchResult(es[i])] + rs;
    case Failure(e) =>
  }

  lemma Regroup(t0: seq<Op>, a: seq<Op>, b: seq<Op>)
    ensures t0 + a + b == t0 + (a + b)
  {
  }

  /** A criteria whose modes are valid compiles to its mode calls, then its
      shape calls, then its content calls. */
  lemma CompiledOps(c: Criteria, version: int, defaultQueryTime: int)
    requires ModeStage(c).error.None?
    ensures CompileCriteria(c, version, defaultQueryTime).error.None?
    ensures CompileCriteria(c, version, defaultQueryTime).ops
            == ModeStage(c).ops + ShapeOps(c) + ContentOps(c, version, defaultQueryTime)
  {
    var m := ModeStage(c).ops;
    assert m + (ShapeOps(c) + ContentOps(c, version, defaultQueryTime))
           == m + ShapeOps(c) + ContentOps(c, version, defaultQueryTime);
  }

  class ApiConnection {
    /** The Sphinx client this connection owns. */
    const client: SphinxClient
    /** VER_COMMAND_SEARCH of the client library. */
    const version: int
    /** `_queryTimeout`: the fallback for SetMaxQueryTime. */
    var defaultQueryTime: int
    /** The `queryTimeout` property that setQueryTimeout writes as written;
        nothing reads it. */
    var queryTimeout: Option<int>

    constructor (initial: Config, daemon: seq<Queued> -> Reply, version: int)
      ensures this.version == version && defaultQueryTime == 0 && queryTimeout == None
      ensures fresh(client) && client.daemon == daemon
      ensures client.trace == [SetArrayResult(true)] && client.queue == []
      ensures client.config == initial.(arrayResult := true)
    {
      var c := new SphinxClient(initial, daemon);
      c.Call(SetArrayResult(true));
      client := c;
      this.version := version;
      defaultQueryTime := 0;
      queryTimeout := None;
    }

    /** setQueryTimeout with the field it evidently means: `_queryTimeout`. */
    method SetQueryTimeout(timeout: int)
      modifies this
      ensures defaultQueryTime == timeout && queryTimeout == old(queryTimeout)
    {
      defaultQueryTime := timeout;
    }

    /** setQueryTimeout as written: it sets the `queryTimeout` property, which
        is not the `_queryTimeout` that applyCriteria reads. */
    method SetQueryTimeoutAsWritten(timeout: int)
      modifies this
      ensures queryTimeout == Some(timeout) && defaultQueryTime == old(defaultQueryTime)
    {
      queryTimeout := Some(timeout);
    }

    /** One call on the client, tracked against the calls issued so far. */
    method Send(op: Op, ghost s0: Session, ghost t0: seq<Op>, ghost sent: seq<Op>)
      requires !op.RunQueries?
      requires client.State() == Run(s0, sent) && client.trace == t0 + sent
      modifies client
      ensures client.State() == Run(s0, sent + [op]) && client.trace == t0 + (sent + [op])
    {
      client.Call(op);
      RunSnoc(s0, sent, op);
    }

    /** The first six calls of resetClient: filters, grouping, overrides,
        limits, array results and field weights. */
    method ResetState()
      modifies client
      ensures client.trace == old(client.trace) + ResetStateOps()
      ensures client.State() == Run(old(client.State()), ResetStateOps())
    {
      ghost var s0 := client.State();
      ghost var t0 := client.trace;
      ghost var sent: seq<Op> := [];
      assert client.trace == t0 + sent;
      Send(ResetFilters, s0, t0, sent); sent := sent + [ResetFilters];
      Send(ResetGroupBy, s0, t0, sent); sent := sent + [ResetGroupBy];
      Send(ResetOverrides, s0, t0, sent); sent := sent + [ResetOverrides];
      Send(SetLimits(0, 20, 0, 0), s0, t0, sent); sent := sent + [SetLimits(0, 20, 0, 0)];
      Send(SetArrayResult(true), s0, t0, sent); sent := sent + [SetArrayResult(true)];
      Send(SetFieldWeights(map[]), s0, t0, sent); sent := sent + [SetFieldWeights(map[])];
      assert sent == ResetStateOps();
    }

    /** The next six calls of resetClient: id range, index weights, the three
        modes and the select list. */
    method ResetModes()
      modifies client
      ensures client.trace == old(client.trace) + ResetModeOps()
      ensures client.State() == Run(old(client.State()), ResetModeOps())
    {
      ghost var s0 := client.State();
      ghost var t0 := client.trace;
      ghost var sent: seq<Op> := [];
      assert client.trace == t0 + sent;
      Send(SetIDRange(0, 0), s0, t0, sent); sent := sent + [SetIDRange(0, 0)];
      Send(SetIndexWeights(map[]), s0, t0, sent); sent := sent + [SetIndexWeights(map[])];
      Send(SetMatchMode(MatchExtended2), s0, t0, sent); sent := sent + [SetMatchMode(MatchExtended2)];
      Send(SetRankingMode(RankNone, ""), s0, t0, sent); sent := sent + [SetRankingMode(RankNone, "")];
      Send(SetSortMode(SortRelevance, Some("")), s0, t0, sent); sent := sent + [SetSortMode(SortRelevance, Some(""))];
      Send(SetSelect("*"), s0, t0, sent); sent := sent + [SetSelect("*")];
      assert sent == ResetModeOps();
    }

    /** resetClient: the fixed reset calls, and ResetQueryFlag from version
        0x11D on. */
    method ResetClient()
      modifies client
      ensures client.trace == old(client.trace) + ResetOps(version)
      ensures client.State() == Run(old(client.State()), ResetOps(version))
      ensures client.State() == Session(ResetConfig(old(client.config), version), old(client.queue))
    {
      ghost var s0 := client.State();
      ghost var t0 := client.trace;
      ResetState();
      ResetModes();
      ghost var base := ResetStateOps() + ResetModeOps();
      RunAppend(s0, ResetStateOps(), ResetModeOps());
      assert client.trace == t0 + base;
      if version >= MinFlagVersion {
        Send(ResetQueryFlag, s0, t0, base);
        assert base + [ResetQueryFlag] == ResetOps(version);
      } else {
        assert base == ResetOps(version);
      }
      ResetEffect(s0, version);
    }

    /** execute: one round trip, then the checks of ParseReply in order. */
    method Execute() returns (res: Result<seq<SearchResult>, Error>)
      modifies client
      ensures res == ParseReply(client.daemon(old(client.queue)))
      ensures client.trace == old(client.trace) + [Op.RunQueries]
      ensures client.config == old(client.config)
      ensures client.queue == if client.daemon(old(client.queue)).responses.Some? then [] else old(client.queue)
    {
      var reply := client.RunQueries();
      if Truthy(reply.lastError) {
        return Failure(ClientError(reply.lastError));
      }
      if Truthy(reply.lastWarning) {
        return Failure(ClientWarning(reply.lastWarning));
      }
      if reply.responses.None? {
        return Failure(NotAnArray);
      }
      var wrapped := WrapResults(reply.responses.value);
      match wrapped
      case Success(rs) => return Success(rs);
      case Failure(e) => return Failure(ResponseError(e));
    }

    /** The loop of execute that wraps each response entry in a result and
        stops at the first entry with an error. */
    static method WrapResults(sph: seq<Entry>) returns (res: Result<seq<SearchResult>, string>)
      ensures res == WrapEntries(sph)
    {
      var results: seq<SearchResult> := [];
      var i := 0;
      assert sph[0..] == sph;
      assert WrapEntries(sph) == Prefixed([], WrapEntries(sph)) by {
        match WrapEntries(sph)
        case Success(rs) => assert [] + rs == rs;
        case Failure(e) =>
      }
      while i < |sph|
        invariant 0 <= i <= |sph|
        invariant WrapEntries(sph) == Prefixed(results, WrapEntries(sph[i..]))
      {
        if Truthy(sph[i].error) {
          assert WrapEntries(sph[i..]) == Failure(sph[i].error) by { assert sph[i..][0] == sph[i]; }
          return Failure(sph[i].error);
        }
        WrapStep(sph, i, results);
        results := results + [SearchResult(sph[i])];
        i := i + 1;
      }
      assert sph[i..] == [];
      assert results + [] == results;
      return Success(results);
    }

    /** applyMatchMode. */
    method ApplyMatchMode(mode: int) returns (err: Option<CompileError>)
      modifies client
      ensures err == (if IsMatchMode(mode) then None else Some(MatchModeUndefined(mode)))
      ensures var sent := if err.None? then [SetMatchMode(mode)] else [];
        client.trace == old(client.trace) + sent && client.State() == Run(old(client.State()), sent)
    {
      if !IsMatchMode(mode) {
        return Some(MatchModeUndefined(mode));
      }
      ghost var s0 := client.State();
      assert client.trace == client.trace + [];
      Send(SetMatchMode(mode), s0, client.trace, []);
      assert [] + [SetMatchMode(mode)] == [SetMatchMode(mode)];
      return None;
    }

    /** applyRankMode: nothing for a zero mode, an error for an unknown one. */
    method ApplyRankMode(c: Criteria) returns (err: Option<CompileError>)
      modifies client
      ensures err == (if c.rankingMode != 0 && !IsRankMode(c.rankingMode) then Some(RankModeUndefined(c.rankingMode)) else None)
      ensures var sent := if err.None? then RankOps(c) else [];
        client.trace == old(client.trace) + sent && client.State() == Run(old(client.State()), sent)
    {
      if c.rankingMode == 0 {
        assert client.trace == client.trace + [];
        return None;
      }
      if !IsRankMode(c.rankingMode) {
        assert client.trace == client.trace + [];
        return Some(RankModeUndefined(c.rankingMode));
      }
      ghost var s0 := client.State();
      assert client.trace == client.trace + [];
      Send(SetRankingMode(c.rankingMode, c.rankingExpression), s0, client.trace, []);
      assert [] + [SetRankingMode(c.rankingMode, c.rankingExpression)] == RankOps(c);
      return None;
    }

    /** applySortMode. */
    method ApplySortMode(mode: int, sortBy: Option<string>) returns (err: Option<CompileError>)
      modifies client
      ensures err == (if IsSortMode(mode) then None else Some(SortModeUndefined(mode)))
      ensures var sent := if err.None? then [SetSortMode(mode, sortBy)] else [];
        client.trace == old(client.trace) + sent && client.State() == Run(old(client.State()), sent)
    {
      if !IsSortMode(mode) {
        assert client.trace == client.trace + [];
        return Some(SortModeUndefined(mode));
      }
      ghost var s0 := client.State();
      assert client.trace == client.trace + [];
      Send(SetSortMode(mode, sortBy), s0, client.trace, []);
      assert [] + [SetSortMode(mode, sortBy)] == [SetSortMode(mode, sortBy)];
      return None;
    }

    /** The EXTENDED branch of applyCriteria: one "attr DIR" term per order,
        joined by ", " (the empty string when there are no orders). */
    static method RenderOrders(orders: seq<Order>) returns (s: string)
      ensures s == Join(", ", OrderTerms(orders))
    {
      var fields: seq<string> := [];
      var i := 0;
      while i < |orders|
        invariant 0 <= i <= |orders|
        invariant |fields| == i
        invariant forall j :: 0 <= j < i ==> fields[j] == OrderTerm(orders[j])
      {
        fields := fields + [orders[i].attribute + " " + orders[i].direction.Name()];
        i := i + 1;
      }
      assert fields == OrderTerms(orders);
      s := Join(", ", fields);
    }

    /** The loop of applyFieldWeights and applyIndexWeights: every weight
        cast to an integer, key by key. */
    static method CastAll(w: map<string, Number>) returns (r: map<string, int>)
      ensures r == CastWeights(w)
      ensures r.Keys == w.Keys && forall k :: k in w ==> r[k] == IntCast(w[k])
    {
      r := map[];
      var remaining := w.Keys;
      while remaining != {}
        invariant remaining <= w.Keys
        invariant r.Keys == w.Keys - remaining
        invariant forall k :: k in r ==> r[k] == IntCast(w[k])
        decreases remaining
      {
        var k :| k in remaining;
        r := r[k := IntCast(w[k])];
        remaining := remaining - {k};
      }
      assert r.Keys == CastWeights(w).Keys;
    }

    /** applyFieldWeights. */
    method ApplyFieldWeights(w: map<string, Number>)
      modifies client
      ensures client.trace == old(client.trace) + [SetFieldWeights(CastWeights(w))]
      ensures client.State() == Run(old(client.State()), [SetFieldWeights(CastWeights(w))])
    {
      var cast := CastAll(w);
      client.Call(SetFieldWeights(cast));
      RunSingle(old(client.State()), SetFieldWeights(cast));
    }

    /** applyIndexWeights. */
    method ApplyIndexWeights(w: map<string, Number>)
      modifies client
      ensures client.trace == old(client.trace) + [SetIndexWeights(CastWeights(w))]
      ensures client.State() == Run(old(client.State()), [SetIndexWeights(CastWeights(w))])
    {
      var cast := CastAll(w);
      client.Call(SetIndexWeights(cast));
      RunSingle(old(client.State()), SetIndexWeights(cast));
    }

    /** applyFilters: one SetFilter per filter, in order. */
    method ApplyFilters(fs: seq<Filter>)
      modifies client
      ensures client.trace == old(client.trace) + FilterOps(fs)
      ensures client.State() == Run(old(client.State()), FilterOps(fs))
    {
      ghost var s0 := client.State();
      ghost var t0 := client.trace;
      var i := 0;
      assert client.trace == t0 + FilterOps(fs[..0]);
      while i < |fs|
        invariant 0 <= i <= |fs|
        invariant client.trace == t0 + FilterOps(fs[..i])
        invariant client.State() == Run(s0, FilterOps(fs[..i]))
      {
        Send(FilterOp(fs[i]), s0, t0, FilterOps(fs[..i]));
        assert FilterOps(fs[..i + 1]) == FilterOps(fs[..i]) + [FilterOp(fs[i])];
        i := i + 1;
      }
      assert fs[..i] == fs;
    }

    /** applyRanges: SetFilterFloatRange or SetFilterRange per range, in order. */
    method ApplyRanges(rs: seq<RangeFilter>)
      modifies client
      ensures client.trace == old(client.trace) + RangeOps(rs)
      ensures client.State() == Run(old(client.State()), RangeOps(rs))
    {
      ghost var s0 := client.State();
      ghost var t0 := client.trace;
      var i := 0;
      assert client.trace == t0 + RangeOps(rs[..0]);
      while i < |rs|
        invariant 0 <= i <= |rs|
        invariant client.trace == t0 + RangeOps(rs[..i])
        invariant client.State() == Run(s0, RangeOps(rs[..i]))
      {
        var op := if rs[i].isFloat then SetFilterFloatRange(rs[i].attribute, rs[i].min, rs[i].max, rs[i].exclude)
                  else SetFilterRange(rs[i].attribute, rs[i].min, rs[i].max, rs[i].exclude);
        Send(op, s0, t0, RangeOps(rs[..i]));
        assert RangeOps(rs[..i + 1]) == RangeOps(rs[..i]) + [RangeOp(rs[i])];
        i := i + 1;
      }
      assert rs[..i] == rs;
    }

    /** One conditional SetQueryFlag of applyOptions. */
    method SendFlag(name: string, value: Option<Scalar>, ghost s0: Session, ghost t0: seq<Op>, ghost sent: seq<Op>)
      requires client.State() == Run(s0, sent) && client.trace == t0 + sent
      modifies client
      ensures client.State() == Run(s0, sent + FlagCall(name, value))
      ensures client.trace == t0 + (sent + FlagCall(name, value))
    {
      if value.Some? {
        Send(SetQueryFlag(name, value.value), s0, t0, sent);
      } else {
        assert sent + [] == sent;
      }
    }

    /** applyOptions: one SetQueryFlag per option that is set. */
    method ApplyOptions(c: Criteria)
      modifies client
      ensures client.trace == old(client.trace) + FlagOps(c)
      ensures client.State() == Run(old(client.State()), FlagOps(c))
    {
      ghost var s0 := client.State();
      ghost var t0 := client.trace;
      ghost var sent: seq<Op> := [];
      assert client.trace == t0 + sent;
      SendFlag("boolean_simplify", BoolFlag(c.booleanSimplify), s0, t0, sent);
      sent := sent + FlagCall("boolean_simplify", BoolFlag(c.booleanSimplify));
      SendFlag("reverse_scan", ScanFlag(c.reverseScan), s0, t0, sent);
      sent := sent + FlagCall("reverse_scan", ScanFlag(c.reverseScan));
      SendFlag("sort_method", TextFlag(c.sortMethod), s0, t0, sent);
      sent := sent + FlagCall("sort_method", TextFlag(c.sortMethod));
      SendFlag("global_idf", BoolFlag(c.globalIdf), s0, t0, sent);
      sent := sent + FlagCall("global_idf", BoolFlag(c.globalIdf));
      SendFlag("idf", TextFlag(c.idf), s0, t0, sent);
      sent := sent + FlagCall("idf", TextFlag(c.idf));
      assert sent == FlagOps(c);
    }

    /** The mode part of applyCriteria: match mode, rank mode, then the sort
        mode with its sort string. */
    method ApplyModes(c: Criteria) returns (err: Option<CompileError>)
      modifies client
      ensures err == ModeStage(c).error
      ensures client.trace == old(client.trace) + ModeStage(c).ops
      ensures client.State() == Run(old(client.State()), ModeStage(c).ops)
    {
      ghost var s0 := client.State();
      ghost var t0 := client.trace;
      err := ApplyMatchMode(c.matchMode);
      if err.Some? {
        return;
      }
      ghost var match_ := [SetMatchMode(c.matchMode)];
      ghost var s1 := client.State();
      err := ApplyRankMode(c);
      if err.Some? {
        assert t0 + match_ + [] == t0 + match_;
        return;
      }
      RunAppend(s0, match_, RankOps(c));
      ghost var s2 := client.State();
      var sortBy: Option<string>;
      if c.sortMode == SortExtended {
        var orders := RenderOrders(c.orders);
        sortBy := Some(orders);
      } else {
        sortBy := c.sortBy;
      }
      assert sortBy == SortString(c);
      err := ApplySortMode(c.sortMode, sortBy);
      if err.Some? {
        assert t0 + match_ + RankOps(c) + [] == t0 + (match_ + RankOps(c));
        return;
      }
      RunAppend(s0, match_ + RankOps(c), [SetSortMode(c.sortMode, sortBy)]);
      assert t0 + match_ + RankOps(c) + [SetSortMode(c.sortMode, sortBy)] == t0 + ModeCalls(c);
    }

    /** Select, limits, grouping and id range, each only when the criteria
        sets it. */
    method ApplyShape(c: Criteria)
      modifies client
      ensures client.trace == old(client.trace) + ShapeOps(c)
      ensures client.State() == Run(old(client.State()), ShapeOps(c))
    {
      ghost var s0 := client.State();
      ghost var t0 := client.trace;
      ApplyPaging(c);
      ghost var paging := SelectOps(c) + LimitOps(c);
      ghost var grouping := GroupOps(c) + DistinctOps(c) + IdRangeOps(c);
      ApplyGrouping(c);
      RunAppend(s0, paging, grouping);
      Regroup(t0, paging, grouping);
      assert paging + grouping == ShapeOps(c);
    }

    /** The select list and the limits. */
    method ApplyPaging(c: Criteria)
      modifies client
      ensures client.trace == old(client.trace) + (SelectOps(c) + LimitOps(c))
      ensures client.State() == Run(old(client.State()), SelectOps(c) + LimitOps(c))
    {
      ghost var s0 := client.State();
      ghost var t0 := client.trace;
      ghost var sent: seq<Op> := [];
      assert client.trace == t0 + sent;
      if |c.select| > 0 {
        Send(SetSelect(c.select), s0, t0, sent);
      } else {
        assert sent + [] == sent;
      }
      sent := sent + SelectOps(c);
      if c.limit != 0 {
        Send(SetLimits(c.offset, c.limit, c.maxMatches, c.cutOff), s0, t0, sent);
      } else {
        assert sent + [] == sent;
      }
      sent := sent + LimitOps(c);
    }

    /** Grouping, distinct and the id range. */
    method ApplyGrouping(c: Criteria)
      modifies client
      ensures client.trace == old(client.trace) + (GroupOps(c) + DistinctOps(c) + IdRangeOps(c))
      ensures client.State() == Run(old(client.State()), GroupOps(c) + DistinctOps(c) + IdRangeOps(c))
    {
      ghost var s0 := client.State();
      ghost var t0 := client.trace;
      ghost var sent: seq<Op> := [];
      assert client.trace == t0 + sent;
      if Truthy(c.groupBy) {
        Send(SetGroupBy(c.groupBy, c.groupByFunc, c.groupBySort), s0, t0, sent);
      } else {
        assert sent + [] == sent;
      }
      sent := sent + GroupOps(c);
      if Truthy(c.groupDistinct) {
        Send(SetGroupDistinct(c.groupDistinct), s0, t0, sent);
      } else {
        assert sent + [] == sent;
      }
      sent := sent + DistinctOps(c);
      if c.idRange.Some? {
        Send(SetIDRange(c.idRange.value.min, c.idRange.value.max), s0, t0, sent);
      } else {
        assert sent + [] == sent;
      }
      sent := sent + IdRangeOps(c);
    }

    /** Weights, filters, ranges, the query time (the criteria's own or the
        connection's) and, from version 0x11D on, the flags. */
    method ApplyContent(c: Criteria)
      modifies client
      ensures client.trace == old(client.trace) + ContentOps(c, version, defaultQueryTime)
      ensures client.State() == Run(old(client.State()), ContentOps(c, version, defaultQueryTime))
    {
      ghost var s0 := client.State();
      ghost var t0 := client.trace;
      ApplyFieldWeights(c.fieldWeights);
      ApplyIndexWeights(c.indexWeights);
      ghost var sent := [SetFieldWeights(CastWeights(c.fieldWeights))] + [SetIndexWeights(CastWeights(c.indexWeights))];
      RunAppend(s0, [SetFieldWeights(CastWeights(c.fieldWeights))], [SetIndexWeights(CastWeights(c.indexWeights))]);
      assert sent == WeightOps(c);
      assert client.trace == t0 + sent;
      ApplyFilters(c.filters);
      RunAppend(s0, sent, FilterOps(c.filters));
      Regroup(t0, sent, FilterOps(c.filters));
      sent := sent + FilterOps(c.filters);
      ApplyRanges(c.rangeFilters);
      RunAppend(s0, sent, RangeOps(c.rangeFilters));
      Regroup(t0, sent, RangeOps(c.rangeFilters));
      sent := sent + RangeOps(c.rangeFilters);
      var millis := if c.queryTimeout.Some? then c.queryTimeout.value else defaultQueryTime;
      Send(SetMaxQueryTime(millis), s0, t0, sent);
      sent := sent + [SetMaxQueryTime(MaxQueryTime(c, defaultQueryTime))];
      if version >= MinFlagVersion {
        ApplyOptions(c);
        RunAppend(s0, sent, FlagOps(c));
        Regroup(t0, sent, FlagOps(c));
      } else {
        assert sent + [] == sent;
      }
      sent := sent + OptionOps(c, version);
      assert sent == ContentOps(c, version, defaultQueryTime);
    }

    /** applyCriteria: the calls of CompileCriteria, stopping at the first
        invalid mode code. */
    method ApplyCriteria(c: Criteria) returns (err: Option<CompileError>)
      modifies client
      ensures err == CompileCriteria(c, version, defaultQueryTime).error
      ensures client.trace == old(client.trace) + CompileCriteria(c, version, defaultQueryTime).ops
      ensures client.State() == Run(old(client.State()), CompileCriteria(c, version, defaultQueryTime).ops)
    {
      ghost var s0 := client.State();
      ghost var t0 := client.trace;
      err := ApplyModes(c);
      if err.Some? {
        return;
      }
      ghost var modes := ModeStage(c).ops;
      ApplyShape(c);
      RunAppend(s0, modes, ShapeOps(c));
      Regroup(t0, modes, ShapeOps(c));
      ApplyContent(c);
      RunAppend(s0, modes + ShapeOps(c), ContentOps(c, version, defaultQueryTime));
      Regroup(t0, modes + ShapeOps(c), ContentOps(c, version, defaultQueryTime));
      CompiledOps(c, version, defaultQueryTime);
    }

    /** applyQuery: the criteria, then AddQuery with the query's text,
        indexes and the criteria's comment. */
    method ApplyQuery(q: Query) returns (err: Option<CompileError>)
      modifies client
      ensures err == CompileCriteria(q.criteria, version, defaultQueryTime).error
      ensures var ops := CompileCriteria(q.criteria, version, defaultQueryTime).ops
                         + (if err.None? then [AddQuery(q.text, q.indexes, q.criteria.comment)] else []);
        client.trace == old(client.trace) + ops && client.State() == Run(old(client.State()), ops)
    {
      ghost var s0 := client.State();
      ghost var t0 := client.trace;
      err := ApplyCriteria(GetCriteria(q));
      ghost var ops := CompileCriteria(q.criteria, version, defaultQueryTime).ops;
      if err.Some? {
        assert ops + [] == ops;
        return;
      }
      Send(AddQuery(GetText(q), GetIndexes(q), q.criteria.comment), s0, t0, ops);
    }

    /** executeQuery: reset, apply the query, run, and return the first
        result (none when the daemon answered with no entries). */
    method ExecuteQuery(q: Query) returns (res: Result<Option<SearchResult>, Error>)
      modifies client
      ensures var qt := QueryTrace(q, version, defaultQueryTime);
        qt.error.Some? ==>
          && res == Failure(CompileFailed(qt.error.value))
          && client.trace == old(client.trace) + qt.ops
          && client.State() == Run(old(client.State()), qt.ops)
      ensures var qt := QueryTrace(q, version, defaultQueryTime);
        qt.error.None? ==>
          && var entry := QueuedFor(q, version, defaultQueryTime, old(client.config));
             var sent := old(client.queue) + [entry];
          && res == First(ParseReply(client.daemon(sent)))
          && client.trace == old(client.trace) + qt.ops + [Op.RunQueries]
          && client.config == entry.config
          && client.queue == if client.daemon(sent).responses.Some? then [] else sent
    {
      ghost var s0 := client.State();
      var err := QueryOnce(q);
      if err.Some? {
        return Failure(CompileFailed(err.value));
      }
      QueryRun(s0, q, version, defaultQueryTime);
      var results := Execute();
      return First(results);
    }

    /** executeQueries: reset and apply each query in turn, then one round
        trip. A query that raises stops the loop; the queries already
        added stay in the client's queue. */
    method ExecuteQueries(qs: seq<Query>) returns (res: Result<seq<SearchResult>, Error>)
      modifies client
      ensures var b := BatchTrace(qs, version, defaultQueryTime);
        b.error.Some? ==>
          && res == Failure(CompileFailed(b.error.value))
          && client.trace == old(client.trace) + b.ops
          && client.State() == Run(old(client.State()), b.ops)
      ensures var b := BatchTrace(qs, version, defaultQueryTime);
        b.error.None? ==>
          && var sent := old(client.queue) + QueuedAll(qs, version, defaultQueryTime, old(client.config));
          && res == ParseReply(client.daemon(sent))
          && client.trace == old(client.trace) + b.ops + [Op.RunQueries]
          && client.config == BatchConfig(qs, version, defaultQueryTime, old(client.config))
          && client.queue == if client.daemon(sent).responses.Some? then [] else sent
    {
      ghost var s0 := client.State();
      ghost var t0 := client.trace;
      var i := 0;
      assert qs[..0] == [];
      assert client.trace == t0 + [];
      while i < |qs|
        invariant 0 <= i <= |qs|
        invariant BatchTrace(qs[..i], version, defaultQueryTime).error.None?
        invariant client.trace == t0 + BatchTrace(qs[..i], version, defaultQueryTime).ops
        invariant client.State() == Run(s0, BatchTrace(qs[..i], version, defaultQueryTime).ops)
      {
        ghost var prev := BatchTrace(qs[..i], version, defaultQueryTime).ops;
        ghost var s1 := client.State();
        ghost var t1 := client.trace;
        var err := QueryOnce(qs[i]);
        RunAppend(s0, prev, QueryTrace(qs[i], version, defaultQueryTime).ops);
        Regroup(t0, prev, QueryTrace(qs[i], version, defaultQueryTime).ops);
        assert qs[..i + 1][..i] == qs[..i];
        if err.Some? {
          BatchErrorSticks(qs, i + 1, version, defaultQueryTime);
          return Failure(CompileFailed(err.value));
        }
        i := i + 1;
      }
      assert qs[..i] == qs;
      BatchRun(s0, qs, version, defaultQueryTime);
      res := Execute();
    }

    /** One pass of the executeQueries loop: resetClient, then applyQuery. */
    method QueryOnce(q: Query) returns (err: Option<CompileError>)
      modifies client
      ensures err == QueryTrace(q, version, defaultQueryTime).error
      ensures client.trace == old(client.trace) + QueryTrace(q, version, defaultQueryTime).ops
      ensures client.State() == Run(old(client.State()), QueryTrace(q, version, defaultQueryTime).ops)
    {
      ghost var s0 := client.State();
      ghost var t0 := client.trace;
      ResetClient();
      err := ApplyQuery(q);
      ghost var cc := CompileCriteria(q.criteria, version, defaultQueryTime);
      ghost var tail := cc.ops + (if err.None? then [AddQuery(q.text, q.indexes, q.criteria.comment)] else []);
      RunAppend(s0, ResetOps(version), tail);
      Regroup(t0, ResetOps(version), tail);
      if err.Some? {
        assert ResetOps(version) + tail == ResetOps(version) + cc.ops;
      } else {
        assert ResetOps(version) + tail == ResetOps(version) + cc.ops + [AddQuery(q.text, q.indexes, q.criteria.comment)];
      }
    }
  }
}
