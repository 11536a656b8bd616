/** The team-name matching of fuzzy_matching.py, which accepts every pick: there is no
    distance threshold and no list of rejected matches. */
module FuzzyMatchingAll {
  import opened Seqs
  import opened TeamMatching
  import FuzzyMatching

  /** `match_team_names(games1, games2)`: the name-conversion map built from all picks,
      and the picks. */
  method MatchTeamNames(games1: seq<Matchup>, games2: seq<Matchup>, dist: (string, string) -> real)
    returns (conversion: map<string, string>, matched: seq<Candidate>)
    ensures matched == Picks(games1, games2, dist)
    ensures Disjoint(matched) && SortedBy(matched, Distance)
    ensures forall c :: c in matched ==> exists i, j :: 0 <= i < |games1| && 0 <= j < |games2| && c == Pairing(games1[i], games2[j], dist)
    ensures conversion == ConversionMap(NamePairs(matched))
  {
    var potential := SortBy(Candidates(games1, games2, dist), Distance);
    matched := GreedyMatch(potential);
    PicksMatching(games1, games2, dist);
    conversion := BuildConversion(NamePairs(matched));
  }

  /** With a threshold no pick exceeds, the thresholded matching of fuzzymatching.py
      accepts exactly these picks, rejects none and builds the same conversion map. */
  lemma AgreesWithThresholded(games1: seq<Matchup>, games2: seq<Matchup>, dist: (string, string) -> real, maxDistance: real)
    requires forall k :: 0 <= k < |Picks(games1, games2, dist)| ==> Picks(games1, games2, dist)[k].distance <= maxDistance
    ensures Filter(Picks(games1, games2, dist), FuzzyMatching.Within(maxDistance)) == Picks(games1, games2, dist)
    ensures Filter(Picks(games1, games2, dist), FuzzyMatching.Beyond(maxDistance)) == []
  {
    var picks := Picks(games1, games2, dist);
    FilterAll(picks, FuzzyMatching.Within(maxDistance));
    FilterNone(picks, FuzzyMatching.Beyond(maxDistance));
  }
}
