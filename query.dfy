/** The Query value: search text, index list and the criteria it was built
    with. All three are fixed by the constructor and only read afterwards. */
module Queries {
  import opened Common
  import opened SearchCriteria

  /** The `$indexes` constructor argument: an array of names or a single value. */
  datatype IndexesArg = IndexList(names: seq<string>) | IndexName(name: string)

  /** The `$criteria` constructor argument. A SearchCriteria object is kept as
      given; an array goes to `new SearchCriteria(array)`, whose decoding is
      not part of this model, so the argument carries the criteria that
      constructor builds; any other value gives a default criteria. */
  datatype CriteriaArg = CriteriaObject(criteria: Criteria) | SettingsArray(built: Criteria) | OtherValue

  const DefaultIndexes: IndexesArg := IndexName("*")

  datatype Query = Query(text: string, indexes: string, criteria: Criteria)

  /** Query::__construct. */
  function NewQuery(text: string, indexes: IndexesArg, criteria: CriteriaArg): (q: Query)
    ensures q.text == text
    ensures indexes.IndexName? ==> q.indexes == indexes.name
    ensures indexes.IndexList? && |indexes.names| == 1 ==> q.indexes == indexes.names[0]
    ensures criteria.CriteriaObject? ==> q.criteria == criteria.criteria
    ensures criteria.SettingsArray? ==> q.criteria == criteria.built
    ensures criteria.OtherValue? ==> q.criteria == DefaultCriteria
  {
    var c := match criteria
      case CriteriaObject(given) => given
      case SettingsArray(built) => built
      case OtherValue => DefaultCriteria;
    var names := match indexes
      case IndexList(list) => Join(" ", list)
      case IndexName(name) => name;
    Query(text, names, c)
  }

  function GetText(q: Query): string { q.text }
  function GetIndexes(q: Query): string { q.indexes }
  function GetCriteria(q: Query): Criteria { q.criteria }

  /** Splitting on single spaces, the inverse of joining index names. */
  function Split(s: string): (parts: seq<string>)
    ensures |parts| > 0
    decreases |s|
  {
    if s == [] then [""]
    else
      var rest := Split(s[1..]);
      if s[0] == ' ' then [""] + rest else [[s[0]] + rest[0]] + rest[1..]
  }

  predicate NoSpace(w: string)
  {
    forall i :: 0 <= i < |w| ==> w[i] != ' '
  }

  lemma {:induction false} SplitWord(w: string, tail: string)
    requires NoSpace(w)
    ensures Split(w + " " + tail) == [w] + Split(tail)
    ensures Split(w) == [w]
    decreases |w|
  {
    if w == [] {
      assert (w + " " + tail)[1..] == tail;
    } else {
      assert NoSpace(w[1..]);
      SplitWord(w[1..], tail);
      assert (w + " " + tail)[1..] == w[1..] + " " + tail;
      assert [w[0]] + w[1..] == w;
    }
  }

  /** The stored index string gives back the index list: names are joined by
      one space each, so a list of space-free names is recovered by splitting. */
  lemma {:induction false} IndexesRoundTrip(names: seq<string>, criteria: CriteriaArg)
    requires |names| > 0
    requires forall i :: 0 <= i < |names| ==> NoSpace(names[i])
    ensures Split(GetIndexes(NewQuery("", IndexList(names), criteria))) == names
  {
    JoinSplit(names);
  }

  lemma {:induction false} JoinSplit(names: seq<string>)
    requires |names| > 0
    requires forall i :: 0 <= i < |names| ==> NoSpace(names[i])
    ensures Split(Join(" ", names)) == names
    decreases |names|
  {
    if |names| == 1 {
      SplitWord(names[0], "");
    } else {
      JoinSplit(names[1..]);
      SplitWord(names[0], Join(" ", names[1..]));
      assert [names[0]] + names[1..] == names;
    }
  }

  /** The defaults of the constructor, as the query tests see them. */
  lemma QueryDefaults(text: string)
    ensures GetText(NewQuery(text, DefaultIndexes, OtherValue)) == text
    ensures GetIndexes(NewQuery(text, DefaultIndexes, OtherValue)) == "*"
    ensures GetIndexes(NewQuery(text, IndexName("index"), OtherValue)) == "index"
    ensures GetIndexes(NewQuery(text, IndexList(["a", "b"]), OtherValue)) == "a b"
    ensures GetCriteria(NewQuery(text, DefaultIndexes, OtherValue)) == DefaultCriteria
  {
  }
}
