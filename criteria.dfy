/** The search criteria record: exactly the fields that the compiler of
    ApiConnection reads. The SearchCriteria class itself is not part of this
    model; what its setters guarantee is taken from its tests and stated as
    the record invariant `Valid`. */
module SearchCriteria {
  import opened Common
  import opened Enums

  /** A filter value as the client passes it on. */
  datatype Scalar = IntValue(i: int) | StringValue(s: string) | BoolValue(b: bool)

  /** A range bound: a PHP integer or a PHP float (kept as an exact real). */
  datatype Number = IntNumber(i: int) | FloatNumber(x: real)

  datatype Direction = Asc | Desc {
    /** Directions are stored upper-case. */
    function Name(): string
    {
      match this
      case Asc => "ASC"
      case Desc => "DESC"
    }
  }

  /** PHP's `(int)` cast of a number: a float is truncated toward zero. */
  function IntCast(n: Number): (r: int)
    ensures n.IntNumber? ==> r == n.i
    ensures n.FloatNumber? && n.x >= 0.0 ==> 0 <= r && r as real <= n.x < r as real + 1.0
    ensures n.FloatNumber? && n.x < 0.0 ==> r <= 0 && r as real - 1.0 < n.x <= r as real
  {
    match n
    case IntNumber(i) => i
    case FloatNumber(x) => if x >= 0.0 then x.Floor else -((-x).Floor)
  }

  /** Every weight cast to an integer, under the same key. */
  function CastWeights(w: map<string, Number>): map<string, int>
  {
    map k | k in w :: IntCast(w[k])
  }

  datatype Order = Order(attribute: string, direction: Direction)

  datatype Filter = Filter(attribute: string, values: seq<Scalar>, exclude: bool)

  datatype RangeFilter = RangeFilter(attribute: string, min: Number, max: Number, exclude: bool, isFloat: bool)

  datatype IdRange = IdRange(min: int, max: int)

  /** Modes are the integer codes after the `(int)` cast; `rankingMode == 0`
      stands for both PHP falsy values 0 and null, `limit == 0` likewise. */
  datatype Criteria = Criteria(
    matchMode: int,
    rankingMode: int,
    rankingExpression: string,
    sortMode: int,
    orders: seq<Order>,
    sortBy: Option<string>,
    select: string,
    limit: int,
    offset: int,
    maxMatches: int,
    cutOff: int,
    groupBy: string,
    groupByFunc: int,
    groupBySort: string,
    groupDistinct: string,
    idRange: Option<IdRange>,
    fieldWeights: map<string, Number>,
    indexWeights: map<string, Number>,
    filters: seq<Filter>,
    rangeFilters: seq<RangeFilter>,
    queryTimeout: Option<int>,
    booleanSimplify: Option<bool>,
    reverseScan: Option<bool>,
    sortMethod: Option<string>,
    globalIdf: Option<bool>,
    idf: Option<string>,
    comment: string)

  /** The numeric value of a bound, whatever its representation. */
  function NumberValue(n: Number): real
  {
    match n
    case IntNumber(i) => i as real
    case FloatNumber(x) => x
  }

  function ToFloat(n: Number): (f: Number)
    ensures f.FloatNumber? && NumberValue(f) == NumberValue(n)
  {
    FloatNumber(NumberValue(n))
  }

  predicate ValidFilter(f: Filter)
  {
    |f.attribute| > 0 && |f.values| > 0
  }

  /** A range entry is float exactly when its bounds are, and then both are. */
  predicate ValidRange(r: RangeFilter)
  {
    |r.attribute| > 0 && r.min.FloatNumber? == r.isFloat && r.max.FloatNumber? == r.isFloat
  }

  predicate DistinctOrders(orders: seq<Order>)
  {
    forall i, j :: 0 <= i < j < |orders| ==> orders[i].attribute != orders[j].attribute
  }

  /** The weight setters accept only PHP integers. */
  predicate IntWeights(w: map<string, Number>)
  {
    forall k :: k in w ==> w[k].IntNumber?
  }

  /** On integer weights the `(int)` cast of applyFieldWeights and
      applyIndexWeights changes nothing. */
  lemma IntWeightsUncast(w: map<string, Number>)
    requires IntWeights(w)
    ensures CastWeights(w) == map k | k in w :: w[k].i
  {
  }

  /** What the criteria setters guarantee about every stored entry. */
  predicate Valid(c: Criteria)
  {
    && IntWeights(c.fieldWeights) && IntWeights(c.indexWeights)
    && (forall i :: 0 <= i < |c.filters| ==> ValidFilter(c.filters[i]))
    && (forall i :: 0 <= i < |c.rangeFilters| ==> ValidRange(c.rangeFilters[i]))
    && (forall i :: 0 <= i < |c.orders| ==> |c.orders[i].attribute| > 0)
    && DistinctOrders(c.orders)
  }

  /** The entry `addRangeFilter(attribute, min, max, exclude)` stores: the
      float flag is set when either bound is a float, and then both bounds
      are stored as floats. An empty attribute is rejected. */
  function PromoteRange(attribute: string, min: Number, max: Number, exclude: bool): (r: Option<RangeFilter>)
    ensures r.None? <==> attribute == ""
    ensures r.Some? ==> ValidRange(r.value)
    ensures r.Some? ==> (r.value.isFloat <==> min.FloatNumber? || max.FloatNumber?)
    ensures r.Some? ==> NumberValue(r.value.min) == NumberValue(min) && NumberValue(r.value.max) == NumberValue(max)
    ensures r.Some? ==> r.value.attribute == attribute && r.value.exclude == exclude
  {
    if attribute == "" then None
    else if min.FloatNumber? || max.FloatNumber? then
      Some(RangeFilter(attribute, ToFloat(min), ToFloat(max), exclude, true))
    else
      Some(RangeFilter(attribute, min, max, exclude, false))
  }

  /** A default-constructed criteria: nothing set beyond the client defaults. */
  const DefaultCriteria: Criteria := Criteria(
    matchMode := MatchExtended2,
    rankingMode := 0,
    rankingExpression := "",
    sortMode := SortRelevance,
    orders := [],
    sortBy := None,
    select := "",
    limit := 0,
    offset := 0,
    maxMatches := 0,
    cutOff := 0,
    groupBy := "",
    groupByFunc := GroupByDay,
    groupBySort := "",
    groupDistinct := "",
    idRange := None,
    fieldWeights := map[],
    indexWeights := map[],
    filters := [],
    rangeFilters := [],
    queryTimeout := None,
    booleanSimplify := None,
    reverseScan := None,
    sortMethod := None,
    globalIdf := None,
    idf := None,
    comment := "")

  /** The range entries the criteria tests expect for mixed bounds. */
  lemma PromotionExamples()
    ensures PromoteRange("attribute", IntNumber(1), IntNumber(10), false)
         == Some(RangeFilter("attribute", IntNumber(1), IntNumber(10), false, false))
    ensures PromoteRange("attribute", FloatNumber(1.1), IntNumber(10), true)
         == Some(RangeFilter("attribute", FloatNumber(1.1), FloatNumber(10.0), true, true))
    ensures PromoteRange("attribute1", IntNumber(1), FloatNumber(100.0), false)
         == Some(RangeFilter("attribute1", FloatNumber(1.0), FloatNumber(100.0), false, true))
    ensures PromoteRange("", IntNumber(1), IntNumber(2), false) == None
  {
  }
}
