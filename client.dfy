/** The stateful Sphinx client the connection drives. The real client is
    the Sphinx PHP API (sphinxapi.php); here it is a recorder: it keeps the
    configuration it has been given, the queue of enqueued queries and the
    trace of every call it received. The network round trip is the `daemon`
    oracle. */
module Client {
  import opened Common
  import opened SearchCriteria

  /** One call on the client, with its arguments. */
  datatype Op =
    | ResetFilters
    | ResetGroupBy
    | ResetOverrides
    | SetLimits(offset: int, limit: int, maxMatches: int, cutOff: int)
    | SetArrayResult(on: bool)
    | SetFieldWeights(weights: map<string, int>)
    | SetIDRange(low: int, high: int)
    | SetIndexWeights(weights: map<string, int>)
    | SetMatchMode(mode: int)
    | SetRankingMode(ranker: int, expression: string)
    | SetSortMode(mode: int, sortBy: Option<string>)
    | SetSelect(select: string)
    | SetGroupBy(attribute: string, func: int, groupSort: string)
    | SetGroupDistinct(attribute: string)
    | SetFilter(attribute: string, values: seq<Scalar>, exclude: bool)
    | SetFilterRange(attribute: string, min: Number, max: Number, exclude: bool)
    | SetFilterFloatRange(attribute: string, min: Number, max: Number, exclude: bool)
    | SetMaxQueryTime(millis: int)
    | ResetQueryFlag
    | SetQueryFlag(name: string, value: Scalar)
    | AddQuery(text: string, indexes: string, comment: string)
    | RunQueries

  datatype GroupSetting = GroupSetting(attribute: string, func: int, groupSort: string)

  /** A filter as the client holds it, in the order it was added. */
  datatype ActiveFilter =
    | ValuesFilter(attribute: string, values: seq<Scalar>, exclude: bool)
    | IntRange(attribute: string, min: Number, max: Number, exclude: bool)
    | FloatRange(attribute: string, min: Number, max: Number, exclude: bool)

  /** The client's per-query configuration. */
  datatype Config = Config(
    arrayResult: bool,
    matchMode: int,
    ranker: int,
    rankExpression: string,
    sortMode: int,
    sortBy: Option<string>,
    select: string,
    offset: int,
    limit: int,
    maxMatches: int,
    cutOff: int,
    groupBy: Option<GroupSetting>,
    groupDistinct: string,
    idMin: int,
    idMax: int,
    fieldWeights: map<string, int>,
    indexWeights: map<string, int>,
    filters: seq<ActiveFilter>,
    maxQueryTime: int,
    flags: map<string, Scalar>)

  /** An enqueued query with the configuration it was enqueued under. */
  datatype Queued = Queued(text: string, indexes: string, comment: string, config: Config)

  datatype Session = Session(config: Config, queue: seq<Queued>)

  /** One raw per-query response: its `error` entry and the rest of the record. */
  datatype Entry = Entry(error: string, record: map<string, Scalar>)

  /** What a round trip leaves behind: the value RunQueries returned (None when
      it is not an array) and the client's last error and warning. */
  datatype Reply = Reply(responses: Option<seq<Entry>>, lastError: string, lastWarning: string)

  /** How one configuration call changes the configuration. As in the Sphinx
      PHP API, SetLimits stores its max matches and cut-off only when they are
      positive, and SetFilter ignores an empty value list. */
  function ApplyOp(cfg: Config, op: Op): Config
  {
    match op
    case ResetFilters => cfg.(filters := [])
    case ResetGroupBy => cfg.(groupBy := None, groupDistinct := "")
    case ResetOverrides => cfg
    case SetLimits(o, l, m, c) =>
      cfg.(offset := o, limit := l,
           maxMatches := if m > 0 then m else cfg.maxMatches,
           cutOff := if c > 0 then c else cfg.cutOff)
    case SetArrayResult(on) => cfg.(arrayResult := on)
    case SetFieldWeights(w) => cfg.(fieldWeights := w)
    case SetIDRange(lo, hi) => cfg.(idMin := lo, idMax := hi)
    case SetIndexWeights(w) => cfg.(indexWeights := w)
    case SetMatchMode(m) => cfg.(matchMode := m)
    case SetRankingMode(r, e) => cfg.(ranker := r, rankExpression := e)
    case SetSortMode(m, s) => cfg.(sortMode := m, sortBy := s)
    case SetSelect(s) => cfg.(select := s)
    case SetGroupBy(a, f, s) => cfg.(groupBy := Some(GroupSetting(a, f, s)))
    case SetGroupDistinct(a) => cfg.(groupDistinct := a)
    case SetFilter(a, v, e) => if |v| > 0 then cfg.(filters := cfg.filters + [ValuesFilter(a, v, e)]) else cfg
    case SetFilterRange(a, lo, hi, e) => cfg.(filters := cfg.filters + [IntRange(a, lo, hi, e)])
    case SetFilterFloatRange(a, lo, hi, e) => cfg.(filters := cfg.filters + [FloatRange(a, lo, hi, e)])
    case SetMaxQueryTime(ms) => cfg.(maxQueryTime := ms)
    case ResetQueryFlag => cfg.(flags := map[])
    case SetQueryFlag(n, v) => cfg.(flags := cfg.flags[n := v])
    case AddQuery(_, _, _) => cfg
    case RunQueries => cfg
  }

  /** How one call changes the whole session: AddQuery snapshots the
      configuration into the queue, and RunQueries, on a round trip that
      the daemon answers, empties the queue. */
  function Step(s: Session, op: Op): Session
  {
    match op
    case AddQuery(t, i, c) => Session(s.config, s.queue + [Queued(t, i, c, s.config)])
    case RunQueries => Session(s.config, [])
    case _ => Session(ApplyOp(s.config, op), s.queue)
  }

  /** The session after a sequence of calls, the last call applied last. */
  function Run(s: Session, ops: seq<Op>): Session
    decreases |ops|
  {
    if ops == [] then s else Step(Run(s, ops[..|ops| - 1]), ops[|ops| - 1])
  }

  lemma {:induction false} RunAppend(s: Session, a: seq<Op>, b: seq<Op>)
    ensures Run(s, a + b) == Run(Run(s, a), b)
    decreases |b|
  {
    if b == [] {
      assert a + b == a;
    } else {
      var b' := b[..|b| - 1];
      assert (a + b)[..|a + b| - 1] == a + b';
      RunAppend(s, a, b');
    }
  }

  lemma RunSnoc(s: Session, a: seq<Op>, op: Op)
    ensures Run(s, a + [op]) == Step(Run(s, a), op)
  {
    assert (a + [op])[..|a|] == a;
  }

  /** Three calls in a row. */
  lemma RunThree(s: Session, x: Op, y: Op, z: Op)
    ensures Run(s, [x] + [y] + [z]) == Step(Step(Step(s, x), y), z)
  {
    RunSnoc(s, [x] + [y], z);
    RunSnoc(s, [x], y);
    RunSnoc(s, [], x);
    assert [] + [x] == [x];
  }

  predicate QueueNeutral(op: Op)
  {
    !op.AddQuery? && !op.RunQueries?
  }

  /** Calls other than AddQuery and RunQueries leave the queue alone. */
  lemma {:induction false} RunKeepsQueue(s: Session, ops: seq<Op>)
    requires forall i :: 0 <= i < |ops| ==> QueueNeutral(ops[i])
    ensures Run(s, ops).queue == s.queue
    decreases |ops|
  {
    if ops != [] {
      RunKeepsQueue(s, ops[..|ops| - 1]);
    }
  }

  class SphinxClient {
    var config: Config
    var queue: seq<Queued>
    var trace: seq<Op>
    /** The daemon's answer to a batch of enqueued queries. */
    const daemon: seq<Queued> -> Reply

    function State(): Session
      reads this
    {
      Session(config, queue)
    }

    constructor (initial: Config, daemon: seq<Queued> -> Reply)
      ensures config == initial && queue == [] && trace == []
      ensures this.daemon == daemon
    {
      config := initial;
      queue := [];
      trace := [];
      this.daemon := daemon;
    }

    /** Any call except RunQueries. */
    method Call(op: Op)
      requires !op.RunQueries?
      modifies this
      ensures trace == old(trace) + [op]
      ensures State() == Step(old(State()), op)
    {
      if op.AddQuery? {
        queue := queue + [Queued(op.text, op.indexes, op.comment, config)];
      } else {
        config := ApplyOp(config, op);
      }
      trace := trace + [op];
    }

    /** Sends the queue in one round trip. The queue is emptied only when the
        daemon answered (RunQueries returned an array); a failed connection
        or exchange leaves it queued. */
    method RunQueries() returns (reply: Reply)
      modifies this
      ensures reply == daemon(old(queue))
      ensures trace == old(trace) + [Op.RunQueries]
      ensures State() == if reply.responses.Some? then Step(old(State()), Op.RunQueries) else old(State())
    {
      reply := daemon(queue);
      if reply.responses.Some? {
        queue := [];
      }
      trace := trace + [Op.RunQueries];
    }
  }
}
