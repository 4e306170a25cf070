/** executeQueries before the round trip: every query is reset and compiled in
    turn, and each enqueued query carries the configuration of its own
    criteria plus what the reset does not restore: max matches, cut-off and,
    below version 0x11D, the flags. */
module Batches {
  import opened Common
  import opened SearchCriteria
  import opened Client
  import opened Compiler
  import opened Queries
  import opened TraceOrder

  /** The entry a compiled query leaves in the queue, when the client held
      `prior` before the query's reset. */
  function QueuedFor(q: Query, version: int, defaultQueryTime: int, prior: Config): Queued
  {
    Queued(q.text, q.indexes, q.criteria.comment, ExpectedConfig(q.criteria, version, defaultQueryTime, prior))
  }

  /** The client's configuration after a batch that compiles. */
  function BatchConfig(qs: seq<Query>, version: int, defaultQueryTime: int, prior: Config): Config
    decreases |qs|
  {
    if qs == [] then prior
    else QueuedFor(qs[|qs| - 1], version, defaultQueryTime, BatchConfig(qs[..|qs| - 1], version, defaultQueryTime, prior)).config
  }

  /** The entries a batch that compiles enqueues: each query's entry under
      the configuration the queries before it left. */
  function QueuedAll(qs: seq<Query>, version: int, defaultQueryTime: int, prior: Config): seq<Queued>
    decreases |qs|
  {
    if qs == [] then []
    else
      var init := qs[..|qs| - 1];
      QueuedAll(init, version, defaultQueryTime, prior)
        + [QueuedFor(qs[|qs| - 1], version, defaultQueryTime, BatchConfig(init, version, defaultQueryTime, prior))]
  }

  /** What a configuration hands on to the next query through the reset. */
  predicate SameCarry(a: Config, b: Config, version: int)
  {
    a.maxMatches == b.maxMatches && a.cutOff == b.cutOff && (version >= MinFlagVersion || a.flags == b.flags)
  }

  /** A queued entry depends on the configuration before it only through max
      matches, cut-off and, below version 0x11D, the flags. */
  lemma QueuedForCarried(q: Query, version: int, defaultQueryTime: int, p1: Config, p2: Config)
    requires SameCarry(p1, p2, version)
    ensures QueuedFor(q, version, defaultQueryTime, p1) == QueuedFor(q, version, defaultQueryTime, p2)
  {
  }

  /** One query: reset, compile, enqueue. */
  lemma QueryRun(s: Session, q: Query, version: int, defaultQueryTime: int)
    requires QueryTrace(q, version, defaultQueryTime).error.None?
    ensures Run(s, QueryTrace(q, version, defaultQueryTime).ops) == Session(
      QueuedFor(q, version, defaultQueryTime, s.config).config,
      s.queue + [QueuedFor(q, version, defaultQueryTime, s.config)])
  {
    var c := q.criteria;
    var pre := ResetOps(version) + CompileCriteria(c, version, defaultQueryTime).ops;
    var add := AddQuery(q.text, q.indexes, c.comment);
    var cfg := ExpectedConfig(c, version, defaultQueryTime, s.config);
    assert QueryTrace(q, version, defaultQueryTime).ops == pre + [add];
    assert Run(s, pre) == Session(cfg, s.queue) by {
      CompiledConfig(s, c, version, defaultQueryTime);
    }
    RunSnoc(s, pre, add);
  }

  /** A batch that compiles enqueues exactly one entry per query, in order,
      each under its own criteria's configuration and what the queries
      before it carried over; the client ends with the last one's. */
  lemma {:induction false} BatchRun(s: Session, qs: seq<Query>, version: int, defaultQueryTime: int)
    requires BatchTrace(qs, version, defaultQueryTime).error.None?
    ensures Run(s, BatchTrace(qs, version, defaultQueryTime).ops)
         == Session(BatchConfig(qs, version, defaultQueryTime, s.config),
                    s.queue + QueuedAll(qs, version, defaultQueryTime, s.config))
    decreases |qs|
  {
    if qs == [] {
      assert s.queue + [] == s.queue;
    } else {
      var init := qs[..|qs| - 1];
      var last := qs[|qs| - 1];
      assert init + [last] == qs;
      assert BatchTrace(init, version, defaultQueryTime).error.None?;
      assert QueryTrace(last, version, defaultQueryTime).error.None?;
      assert BatchTrace(qs, version, defaultQueryTime).ops
          == BatchTrace(init, version, defaultQueryTime).ops + QueryTrace(last, version, defaultQueryTime).ops;
      BatchRun(s, init, version, defaultQueryTime);
      BatchStep(s, init, last, version, defaultQueryTime);
    }
  }

  lemma BatchStep(s: Session, init: seq<Query>, last: Query, version: int, defaultQueryTime: int)
    requires QueryTrace(last, version, defaultQueryTime).error.None?
    requires Run(s, BatchTrace(init, version, defaultQueryTime).ops)
          == Session(BatchConfig(init, version, defaultQueryTime, s.config),
                     s.queue + QueuedAll(init, version, defaultQueryTime, s.config))
    ensures Run(s, BatchTrace(init, version, defaultQueryTime).ops + QueryTrace(last, version, defaultQueryTime).ops)
         == Session(BatchConfig(init + [last], version, defaultQueryTime, s.config),
                    s.queue + QueuedAll(init + [last], version, defaultQueryTime, s.config))
  {
    var prevOps := BatchTrace(init, version, defaultQueryTime).ops;
    var entry := QueuedFor(last, version, defaultQueryTime, BatchConfig(init, version, defaultQueryTime, s.config));
    var done := QueuedAll(init, version, defaultQueryTime, s.config);
    assert Run(s, prevOps + QueryTrace(last, version, defaultQueryTime).ops)
        == Session(entry.config, s.queue + done + [entry]) by {
      QueryAfter(s, prevOps, last, version, defaultQueryTime);
    }
    assert QueuedAll(init + [last], version, defaultQueryTime, s.config) == done + [entry]
        && BatchConfig(init + [last], version, defaultQueryTime, s.config) == entry.config by {
      QueuedAllSnoc(init, last, version, defaultQueryTime, s.config);
    }
    QueueJoin(s.queue, done, entry);
  }

  lemma QueueJoin(queue: seq<Queued>, done: seq<Queued>, entry: Queued)
    ensures queue + done + [entry] == queue + (done + [entry])
  {
  }

  /** A compiling query after earlier calls enqueues its entry under the
      configuration those calls left. */
  lemma QueryAfter(s: Session, prevOps: seq<Op>, last: Query, version: int, defaultQueryTime: int)
    requires QueryTrace(last, version, defaultQueryTime).error.None?
    ensures var mid := Run(s, prevOps);
      var entry := QueuedFor(last, version, defaultQueryTime, mid.config);
      Run(s, prevOps + QueryTrace(last, version, defaultQueryTime).ops) == Session(entry.config, mid.queue + [entry])
  {
    RunAppend(s, prevOps, QueryTrace(last, version, defaultQueryTime).ops);
    QueryRun(Run(s, prevOps), last, version, defaultQueryTime);
  }

  lemma QueuedAllSnoc(init: seq<Query>, last: Query, version: int, defaultQueryTime: int, prior: Config)
    ensures var before := BatchConfig(init, version, defaultQueryTime, prior);
      && QueuedAll(init + [last], version, defaultQueryTime, prior)
         == QueuedAll(init, version, defaultQueryTime, prior) + [QueuedFor(last, version, defaultQueryTime, before)]
      && BatchConfig(init + [last], version, defaultQueryTime, prior) == QueuedFor(last, version, defaultQueryTime, before).config
  {
    assert (init + [last])[..|init|] == init;
  }

  /** A batch compiles exactly when every query's criteria does. */
  lemma {:induction false} BatchSucceedsIff(qs: seq<Query>, version: int, defaultQueryTime: int)
    ensures BatchTrace(qs, version, defaultQueryTime).error.None? <==>
      forall i :: 0 <= i < |qs| ==> CompileCriteria(qs[i].criteria, version, defaultQueryTime).error.None?
    decreases |qs|
  {
    if qs != [] {
      var init := qs[..|qs| - 1];
      BatchSucceedsIff(init, version, defaultQueryTime);
      assert forall i :: 0 <= i < |init| ==> init[i] == qs[i];
    }
  }

  /** A batch that fails stops at its first failing query: the calls up to and
      including that query's failing compile are issued, nothing after. */
  lemma {:induction false} BatchFirstError(qs: seq<Query>, version: int, defaultQueryTime: int)
    requires BatchTrace(qs, version, defaultQueryTime).error.Some?
    ensures exists k :: (
      && 0 <= k < |qs|
      && BatchTrace(qs[..k], version, defaultQueryTime).error.None?
      && CompileCriteria(qs[k].criteria, version, defaultQueryTime).error.Some?
      && BatchTrace(qs, version, defaultQueryTime) == Compiled(
           BatchTrace(qs[..k], version, defaultQueryTime).ops + QueryTrace(qs[k], version, defaultQueryTime).ops,
           CompileCriteria(qs[k].criteria, version, defaultQueryTime).error))
    decreases |qs|
  {
    var init := qs[..|qs| - 1];
    var prev := BatchTrace(init, version, defaultQueryTime);
    if prev.error.Some? {
      BatchFirstError(init, version, defaultQueryTime);
      var k :| 0 <= k < |init|
        && BatchTrace(init[..k], version, defaultQueryTime).error.None?
        && CompileCriteria(init[k].criteria, version, defaultQueryTime).error.Some?
        && prev == Compiled(
             BatchTrace(init[..k], version, defaultQueryTime).ops + QueryTrace(init[k], version, defaultQueryTime).ops,
             CompileCriteria(init[k].criteria, version, defaultQueryTime).error);
      assert init[..k] == qs[..k];
      assert init[k] == qs[k];
    } else {
      var k := |qs| - 1;
      assert qs[..k] == init;
    }
  }

  lemma ResetNoRun(version: int)
    ensures Op.RunQueries !in ResetOps(version)
  {
    assert Op.RunQueries !in ResetStateOps();
    assert Op.RunQueries !in ResetModeOps();
  }

  lemma NoRunWithin(ops: seq<Op>)
    requires Within(ops, 0, 14)
    ensures Op.RunQueries !in ops
  {
  }

  lemma ModeStageNoRun(c: Criteria)
    ensures Op.RunQueries !in ModeStage(c).ops
  {
    ModeSections(c);
    NoRunWithin(ModeCalls(c));
    NoRunWithin([SetMatchMode(c.matchMode)] + RankOps(c));
  }

  lemma CompileNoRun(c: Criteria, version: int, defaultQueryTime: int)
    ensures Op.RunQueries !in CompileCriteria(c, version, defaultQueryTime).ops
  {
    ModeStageNoRun(c);
    var shape := ShapeOps(c);
    var content := ContentOps(c, version, defaultQueryTime);
    ShapeOrdered(c);
    ContentOrdered(c, version, defaultQueryTime);
    Joined(shape, content, 3, 7, 13);
    NoRunWithin(shape + content);
  }

  /** One query's calls contain no RunQueries. */
  lemma QueryTraceCalls(q: Query, version: int, defaultQueryTime: int)
    ensures Op.RunQueries !in QueryTrace(q, version, defaultQueryTime).ops
  {
    ResetNoRun(version);
    CompileNoRun(q.criteria, version, defaultQueryTime);
  }

  /** The batch itself never runs the queue: executeQueries calls RunQueries
      once, after the loop. */
  lemma {:induction false} BatchNoRunQueries(qs: seq<Query>, version: int, defaultQueryTime: int)
    ensures Op.RunQueries !in BatchTrace(qs, version, defaultQueryTime).ops
    decreases |qs|
  {
    if qs != [] {
      BatchNoRunQueries(qs[..|qs| - 1], version, defaultQueryTime);
      QueryTraceCalls(qs[|qs| - 1], version, defaultQueryTime);
    }
  }

  /** executeQuery is executeQueries on one query. */
  lemma SingleBatch(q: Query, version: int, defaultQueryTime: int)
    ensures BatchTrace([q], version, defaultQueryTime) == QueryTrace(q, version, defaultQueryTime)
  {
    assert [q][..0] == [];
  }

  /** Once a prefix of the batch fails, the rest of the batch is never
      compiled: the batch is that prefix. */
  lemma {:induction false} BatchErrorSticks(qs: seq<Query>, j: int, version: int, defaultQueryTime: int)
    requires 0 <= j <= |qs|
    requires BatchTrace(qs[..j], version, defaultQueryTime).error.Some?
    ensures BatchTrace(qs, version, defaultQueryTime) == BatchTrace(qs[..j], version, defaultQueryTime)
    decreases |qs|
  {
    if j == |qs| {
      assert qs[..j] == qs;
    } else {
      var init := qs[..|qs| - 1];
      assert init[..j] == qs[..j];
      BatchErrorSticks(init, j, version, defaultQueryTime);
    }
  }
}
