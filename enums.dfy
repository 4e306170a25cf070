/** The four closed code sets of the client library (enum\Match, enum\Rank,
    enum\Sort, enum\Group). Their tables are not part of this model; the codes
    are the protocol constants of the Sphinx PHP API that the tables mirror,
    and `isValid` is membership in the listed items. */
module Enums {

  const MatchAll := 0
  const MatchAny := 1
  const MatchPhrase := 2
  const MatchBoolean := 3
  const MatchExtended := 4
  const MatchFullscan := 5
  const MatchExtended2 := 6

  const MatchCodes: set<int> :=
    {MatchAll, MatchAny, MatchPhrase, MatchBoolean, MatchExtended, MatchFullscan, MatchExtended2}

  const RankProximityBm25 := 0
  const RankBm25 := 1
  const RankNone := 2
  const RankWordCount := 3
  const RankProximity := 4
  const RankMatchAny := 5
  const RankFieldMask := 6
  const RankSph04 := 7
  const RankExpr := 8
  /** TOTAL names the number of rankers; it is not one of the items. */
  const RankTotal := 9

  const RankCodes: set<int> :=
    {RankProximityBm25, RankBm25, RankNone, RankWordCount, RankProximity,
     RankMatchAny, RankFieldMask, RankSph04, RankExpr}

  const SortRelevance := 0
  const SortAttrDesc := 1
  const SortAttrAsc := 2
  const SortTimeSegments := 3
  const SortExtended := 4
  const SortExpr := 5

  const SortCodes: set<int> :=
    {SortRelevance, SortAttrDesc, SortAttrAsc, SortTimeSegments, SortExtended, SortExpr}

  const GroupByDay := 0
  const GroupByWeek := 1
  const GroupByMonth := 2
  const GroupByYear := 3
  const GroupByAttr := 4

  const GroupCodes: set<int> := {GroupByDay, GroupByWeek, GroupByMonth, GroupByYear, GroupByAttr}

  predicate IsMatchMode(code: int) { code in MatchCodes }
  predicate IsRankMode(code: int) { code in RankCodes }
  predicate IsSortMode(code: int) { code in SortCodes }
  predicate IsGroupFunction(code: int) { code in GroupCodes }

  /** The item counts the enum classes report, with TOTAL outside the rankers. */
  lemma EnumSizes()
    ensures |MatchCodes| == 7 && |RankCodes| == 9 && |SortCodes| == 6 && |GroupCodes| == 5
    ensures !IsRankMode(RankTotal)
  {
  }
}
