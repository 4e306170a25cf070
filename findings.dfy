/** Three places where ApiConnection does not do what it evidently means to:
    each as written, and corrected. */
module Findings {
  import opened Common
  import opened SearchCriteria
  import opened Client
  import opened Compiler
  import opened Queries
  import opened Batches
  import opened Connection

  // ----- setQueryTimeout writes a property applyCriteria never reads -----

  /** As written: after setQueryTimeout(timeout), a criteria without its own
      timeout still sends SetMaxQueryTime(0). */
  method SentTimeoutAsWritten(initial: Config, daemon: seq<Queued> -> Reply, version: int, timeout: int, c: Criteria)
    returns (sent: int)
    requires c.queryTimeout.None? && ModeStage(c).error.None?
    ensures sent == 0
  {
    var conn := new ApiConnection(initial, daemon, version);
    conn.SetQueryTimeoutAsWritten(timeout);
    sent := SentMaxQueryTime(conn, c);
  }

  /** Corrected: the connection's default query time reaches SetMaxQueryTime. */
  method SentTimeout(initial: Config, daemon: seq<Queued> -> Reply, version: int, timeout: int, c: Criteria)
    returns (sent: int)
    requires c.queryTimeout.None? && ModeStage(c).error.None?
    ensures sent == timeout
  {
    var conn := new ApiConnection(initial, daemon, version);
    conn.SetQueryTimeout(timeout);
    sent := SentMaxQueryTime(conn, c);
  }

  /** resetClient and applyCriteria, then the query time the client holds. */
  method SentMaxQueryTime(conn: ApiConnection, c: Criteria) returns (sent: int)
    requires c.queryTimeout.None? && ModeStage(c).error.None?
    modifies conn.client
    ensures sent == conn.defaultQueryTime
  {
    ghost var s0 := conn.client.State();
    conn.ResetClient();
    CompiledOps(c, conn.version, conn.defaultQueryTime);
    var err := conn.ApplyCriteria(c);
    RunAppend(s0, ResetOps(conn.version), CompileCriteria(c, conn.version, conn.defaultQueryTime).ops);
    CompiledConfig(s0, c, conn.version, conn.defaultQueryTime);
    sent := conn.client.config.maxQueryTime;
  }

  // ----- A failed executeQueries leaves its queries queued -----

  /** Mode calls touch neither the queue nor what the reset carries over:
      max matches, cut-off and the query flags. */
  lemma {:induction false} ModeCallsKeep(s: Session, ops: seq<Op>)
    requires forall i :: 0 <= i < |ops| ==> ops[i].SetMatchMode? || ops[i].SetRankingMode?
    ensures Run(s, ops).queue == s.queue && Run(s, ops).config.flags == s.config.flags
    ensures Run(s, ops).config.maxMatches == s.config.maxMatches && Run(s, ops).config.cutOff == s.config.cutOff
    decreases |ops|
  {
    if ops != [] {
      ModeCallsKeep(s, ops[..|ops| - 1]);
    }
  }

  /** A query that raises adds nothing to the queue and leaves max matches,
      cut-off and, below version 0x11D, the flags as they were. */
  lemma FailedQueryKeeps(s: Session, q: Query, version: int, defaultQueryTime: int)
    requires QueryTrace(q, version, defaultQueryTime).error.Some?
    ensures Run(s, QueryTrace(q, version, defaultQueryTime).ops).queue == s.queue
    ensures SameCarry(Run(s, QueryTrace(q, version, defaultQueryTime).ops).config, s.config, version)
  {
    var m := ModeStage(q.criteria).ops;
    FailedQueryOps(q, version, defaultQueryTime);
    ResetEffect(s, version);
    RunAppend(s, ResetOps(version), m);
    ModeCallsKeep(Run(s, ResetOps(version)), m);
  }

  /** A query that raises sends the reset and then only mode calls. */
  lemma FailedQueryOps(q: Query, version: int, defaultQueryTime: int)
    requires QueryTrace(q, version, defaultQueryTime).error.Some?
    ensures QueryTrace(q, version, defaultQueryTime).ops == ResetOps(version) + ModeStage(q.criteria).ops
    ensures forall i :: 0 <= i < |ModeStage(q.criteria).ops| ==>
      ModeStage(q.criteria).ops[i].SetMatchMode? || ModeStage(q.criteria).ops[i].SetRankingMode?
  {
    assert ModeStage(q.criteria).error.Some?;
  }

  /** As written: a batch whose second query raises leaves the first query
      in the queue. */
  lemma StaleQueue(s: Session, good: Query, bad: Query, version: int, defaultQueryTime: int)
    requires CompileCriteria(good.criteria, version, defaultQueryTime).error.None?
    requires CompileCriteria(bad.criteria, version, defaultQueryTime).error.Some?
    ensures BatchTrace([good, bad], version, defaultQueryTime).error.Some?
    ensures Run(s, BatchTrace([good, bad], version, defaultQueryTime).ops).queue
         == s.queue + [QueuedFor(good, version, defaultQueryTime, s.config)]
    ensures SameCarry(Run(s, BatchTrace([good, bad], version, defaultQueryTime).ops).config,
                      QueuedFor(good, version, defaultQueryTime, s.config).config, version)
  {
    assert [good, bad][..1] == [good];
    SingleBatch(good, version, defaultQueryTime);
    var first := QueryTrace(good, version, defaultQueryTime).ops;
    var second := QueryTrace(bad, version, defaultQueryTime).ops;
    assert BatchTrace([good, bad], version, defaultQueryTime).ops == first + second;
    QueryRun(s, good, version, defaultQueryTime);
    RunAppend(s, first, second);
    FailedQueryKeeps(Run(s, first), bad, version, defaultQueryTime);
  }

  /** As written: executeQueries([good, bad]) raises, and the next
      executeQuery(next) sends `good` along with `next` and returns the
      first result, which answers `good`. */
  method StaleResultAsWritten(initial: Config, daemon: seq<Queued> -> Reply, version: int, good: Query, bad: Query, next: Query)
    returns (batch: Result<seq<SearchResult>, Error>, first: Result<Option<SearchResult>, Error>)
    requires CompileCriteria(good.criteria, version, 0).error.None?
    requires CompileCriteria(bad.criteria, version, 0).error.Some?
    requires CompileCriteria(next.criteria, version, 0).error.None?
    ensures batch.Failure?
    ensures var stale := QueuedFor(good, version, 0, initial);
      first == First(ParseReply(daemon([stale, QueuedFor(next, version, 0, stale.config)])))
  {
    var conn := new ApiConnection(initial, daemon, version);
    ghost var start := initial.(arrayResult := true);
    assert conn.client.queue == [] && conn.client.config == start;
    batch := FailedBatch(conn, good, bad);
    ghost var stale := QueuedFor(good, version, 0, start);
    QueuedForCarried(good, version, 0, start, initial);
    assert [] + [stale] == [stale];
    assert conn.client.queue == [stale];
    ghost var after := conn.client.config;
    QueuedForCarried(next, version, 0, after, stale.config);
    assert QueryTrace(next, version, 0).error.None?;
    first := conn.ExecuteQuery(next);
    assert [stale] + [QueuedFor(next, version, 0, after)] == [stale, QueuedFor(next, version, 0, stale.config)];
  }

  /** As written: executeQueries([good, bad]) raises and leaves `good`
      queued. */
  method FailedBatch(conn: ApiConnection, good: Query, bad: Query) returns (batch: Result<seq<SearchResult>, Error>)
    requires CompileCriteria(good.criteria, conn.version, conn.defaultQueryTime).error.None?
    requires CompileCriteria(bad.criteria, conn.version, conn.defaultQueryTime).error.Some?
    modifies conn.client
    ensures batch.Failure?
    ensures var stale := QueuedFor(good, conn.version, conn.defaultQueryTime, old(conn.client.config));
      && conn.client.queue == old(conn.client.queue) + [stale]
      && SameCarry(conn.client.config, stale.config, conn.version)
  {
    StaleQueue(conn.client.State(), good, bad, conn.version, conn.defaultQueryTime);
    batch := conn.ExecuteQueries([good, bad]);
  }

  /** Corrected executeQueries: every criteria is validated before the first
      call, so a batch that raises leaves the client as it was. */
  method ExecuteQueriesChecked(conn: ApiConnection, qs: seq<Query>) returns (res: Result<seq<SearchResult>, Error>)
    modifies conn.client
    ensures var b := BatchTrace(qs, conn.version, conn.defaultQueryTime);
      b.error.Some? ==>
        && res == Failure(CompileFailed(b.error.value))
        && conn.client.trace == old(conn.client.trace)
        && conn.client.State() == old(conn.client.State())
    ensures var b := BatchTrace(qs, conn.version, conn.defaultQueryTime);
      b.error.None? ==>
        && var sent := old(conn.client.queue) + QueuedAll(qs, conn.version, conn.defaultQueryTime, old(conn.client.config));
        && res == ParseReply(conn.client.daemon(sent))
        && conn.client.trace == old(conn.client.trace) + b.ops + [Op.RunQueries]
        && conn.client.config == BatchConfig(qs, conn.version, conn.defaultQueryTime, old(conn.client.config))
        && conn.client.queue == if conn.client.daemon(sent).responses.Some? then [] else sent
  {
    var err := FirstInvalid(qs, conn.version, conn.defaultQueryTime);
    if err.Some? {
      return Failure(CompileFailed(err.value));
    }
    res := conn.ExecuteQueries(qs);
  }

  /** The error of the first query whose criteria does not compile. */
  method FirstInvalid(qs: seq<Query>, version: int, defaultQueryTime: int) returns (err: Option<CompileError>)
    ensures err == BatchTrace(qs, version, defaultQueryTime).error
  {
    var i := 0;
    while i < |qs|
      invariant 0 <= i <= |qs|
      invariant forall j :: 0 <= j < i ==> CompileCriteria(qs[j].criteria, version, defaultQueryTime).error.None?
    {
      err := CompileCriteria(qs[i].criteria, version, defaultQueryTime).error;
      if err.Some? {
        FirstFailure(qs, i, version, defaultQueryTime);
        return;
      }
      i := i + 1;
    }
    BatchSucceedsIff(qs, version, defaultQueryTime);
    return None;
  }

  /** The first query that does not compile decides the batch's error. */
  lemma FirstFailure(qs: seq<Query>, i: int, version: int, defaultQueryTime: int)
    requires 0 <= i < |qs|
    requires forall j :: 0 <= j < i ==> CompileCriteria(qs[j].criteria, version, defaultQueryTime).error.None?
    requires CompileCriteria(qs[i].criteria, version, defaultQueryTime).error.Some?
    ensures BatchTrace(qs, version, defaultQueryTime).error == CompileCriteria(qs[i].criteria, version, defaultQueryTime).error
  {
    var pre := qs[..i];
    assert forall j :: 0 <= j < |pre| ==> pre[j] == qs[j];
    BatchSucceedsIff(pre, version, defaultQueryTime);
    assert qs[..i + 1][..i] == pre;
    BatchErrorSticks(qs, i + 1, version, defaultQueryTime);
  }

  /** Corrected: after the failed batch, executeQuery(next) sends only `next`. */
  method StaleResultCorrected(initial: Config, daemon: seq<Queued> -> Reply, version: int, good: Query, bad: Query, next: Query)
    returns (batch: Result<seq<SearchResult>, Error>, first: Result<Option<SearchResult>, Error>)
    requires CompileCriteria(good.criteria, version, 0).error.None?
    requires CompileCriteria(bad.criteria, version, 0).error.Some?
    requires CompileCriteria(next.criteria, version, 0).error.None?
    ensures batch.Failure?
    ensures first == First(ParseReply(daemon([QueuedFor(next, version, 0, initial)])))
  {
    var conn := new ApiConnection(initial, daemon, version);
    ghost var start := initial.(arrayResult := true);
    assert conn.client.queue == [] && conn.client.config == start;
    StaleQueue(conn.client.State(), good, bad, version, 0);
    batch := ExecuteQueriesChecked(conn, [good, bad]);
    assert conn.client.queue == [] && conn.client.config == start;
    QueuedForCarried(next, version, 0, start, initial);
    first := conn.ExecuteQuery(next);
    assert [] + [QueuedFor(next, version, 0, start)] == [QueuedFor(next, version, 0, initial)];
  }

  // ----- resetClient does not restore max matches or cut-off -----

  /** The client library's own max matches, which a reset evidently means to
      restore. */
  const DefaultMaxMatches := 1000

  /** As written: when the first query of a batch sets max matches and the
      second does not, the second is sent with the first one's max matches. */
  lemma MaxMatchesLeak(prior: Config, first: Query, second: Query, version: int, defaultQueryTime: int)
    requires first.criteria.limit != 0 && first.criteria.maxMatches > 0
    requires !(second.criteria.limit != 0 && second.criteria.maxMatches > 0)
    ensures var sent := QueuedAll([first, second], version, defaultQueryTime, prior);
      |sent| == 2 && sent[1].config.maxMatches == first.criteria.maxMatches
  {
    var carried := BatchConfig([first], version, defaultQueryTime, prior);
    assert carried.maxMatches == first.criteria.maxMatches by {
      assert [] + [first] == [first];
      QueuedAllSnoc([], first, version, defaultQueryTime, prior);
    }
    var entry := QueuedFor(second, version, defaultQueryTime, carried);
    assert entry.config.maxMatches == carried.maxMatches;
    assert QueuedAll([first, second], version, defaultQueryTime, prior)
        == QueuedAll([first], version, defaultQueryTime, prior) + [entry] by {
      assert [first] + [second] == [first, second];
      QueuedAllSnoc([first], second, version, defaultQueryTime, prior);
    }
    assert |QueuedAll([first], version, defaultQueryTime, prior)| == 1 by {
      assert [first][..0] == [];
    }
  }

  /** Corrected resetClient: after SetLimits(0, 20) it passes the library's
      default max matches, SetLimits(0, 20, 1000). */
  function CorrectedResetOps(version: int): seq<Op>
  {
    ResetOps(version) + [SetLimits(0, 20, DefaultMaxMatches, 0)]
  }

  /** Corrected resetClient on a connection: the reset, then the default max
      matches. */
  method CorrectedResetClient(conn: ApiConnection)
    modifies conn.client
    ensures conn.client.trace == old(conn.client.trace) + CorrectedResetOps(conn.version)
    ensures conn.client.State() == Run(old(conn.client.State()), CorrectedResetOps(conn.version))
    ensures conn.client.config.maxMatches == DefaultMaxMatches && conn.client.queue == old(conn.client.queue)
  {
    ghost var s0 := conn.client.State();
    conn.ResetClient();
    conn.client.Call(SetLimits(0, 20, DefaultMaxMatches, 0));
    RunSnoc(s0, ResetOps(conn.version), SetLimits(0, 20, DefaultMaxMatches, 0));
  }

  /** Corrected: a compiled query is sent as if max matches had been the
      default before it, so its max matches is its own or the default,
      whatever the queries before it set. */
  lemma CorrectedMaxMatches(s: Session, c: Criteria, version: int, defaultQueryTime: int)
    requires CompileCriteria(c, version, defaultQueryTime).error.None?
    ensures var ops := CorrectedResetOps(version) + CompileCriteria(c, version, defaultQueryTime).ops;
      && Run(s, ops) == Session(ExpectedConfig(c, version, defaultQueryTime, s.config.(maxMatches := DefaultMaxMatches)), s.queue)
      && Run(s, ops).config.maxMatches == MaxMatchesAfter(c, DefaultMaxMatches)
  {
    var cc := CompileCriteria(c, version, defaultQueryTime).ops;
    var s1 := Session(s.config.(maxMatches := DefaultMaxMatches), s.queue);
    assert Run(s, CorrectedResetOps(version)) == Run(s1, ResetOps(version)) by {
      RunSnoc(s, ResetOps(version), SetLimits(0, 20, DefaultMaxMatches, 0));
      ResetEffect(s, version);
      ResetEffect(s1, version);
    }
    assert Run(s, CorrectedResetOps(version) + cc) == Run(s1, ResetOps(version) + cc) by {
      RunAppend(s, CorrectedResetOps(version), cc);
      RunAppend(s1, ResetOps(version), cc);
    }
    CompiledConfig(s1, c, version, defaultQueryTime);
  }
}
