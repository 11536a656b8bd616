/** Greedy matching of sportsbook games to league games by team-name distance, as both
    `match_team_names` functions do it (fuzzymatching.py and fuzzy_matching.py): every
    pairing of a sportsbook game with a league game is a candidate scored by the summed
    home and away name distances; the closest candidate is taken and every candidate
    sharing one of its four names is discarded, until none is left. The distance (a
    Jaro-Winkler distance in the source) is a parameter. Also the name-conversion map
    built from accepted matches and the conversion it defines. */
module TeamMatching {
  import opened Seqs

  /** A game as the two name columns `home_team`, `away_team`. */
  datatype Matchup = Matchup(home: string, away: string)

  /** A candidate pairing: the sportsbook game's names (`home1`, `away1`), the league
      game's names (`home2`, `away2`), and their combined distance. */
  datatype Candidate = Candidate(home1: string, away1: string, home2: string, away2: string, distance: real)

  function Distance(c: Candidate): real { c.distance }

  /** Pairs the sportsbook game `g1` with the league game `g2`. */
  function Pairing(g1: Matchup, g2: Matchup, dist: (string, string) -> real): Candidate
  {
    Candidate(g1.home, g1.away, g2.home, g2.away, dist(g1.home, g2.home) + dist(g1.away, g2.away))
  }

  function PairingsWith(g1: Matchup, games2: seq<Matchup>, dist: (string, string) -> real): (cs: seq<Candidate>)
    ensures |cs| == |games2| && forall j :: 0 <= j < |games2| ==> cs[j] == Pairing(g1, games2[j], dist)
  {
    seq(|games2|, j requires 0 <= j < |games2| => Pairing(g1, games2[j], dist))
  }

  /** `itertools.product(games1, games2)` scored: for each sportsbook game in turn, its
      pairings with every league game. */
  function Candidates(games1: seq<Matchup>, games2: seq<Matchup>, dist: (string, string) -> real): seq<Candidate>
  {
    if games1 == [] then [] else PairingsWith(games1[0], games2, dist) + Candidates(games1[1..], games2, dist)
  }

  /** The candidates are exactly the pairings of a sportsbook game with a league game,
      `|games1| * |games2|` of them. */
  lemma CandidatesExactly(games1: seq<Matchup>, games2: seq<Matchup>, dist: (string, string) -> real, c: Candidate)
    ensures |Candidates(games1, games2, dist)| == |games1| * |games2|
    ensures c in Candidates(games1, games2, dist) <==>
      exists i, j :: 0 <= i < |games1| && 0 <= j < |games2| && c == Pairing(games1[i], games2[j], dist)
  {
    CandidatesCount(games1, games2, dist);
    CandidatesMembers(games1, games2, dist, c);
  }

  lemma {:induction false} CandidatesCount(games1: seq<Matchup>, games2: seq<Matchup>, dist: (string, string) -> real)
    ensures |Candidates(games1, games2, dist)| == |games1| * |games2|
  {
    if games1 != [] {
      CandidatesCount(games1[1..], games2, dist);
      assert |games1| * |games2| == |games2| + (|games1| - 1) * |games2|;
    }
  }

  lemma {:induction false} CandidatesMembers(games1: seq<Matchup>, games2: seq<Matchup>, dist: (string, string) -> real, c: Candidate)
    ensures c in Candidates(games1, games2, dist) <==>
      exists i, j :: 0 <= i < |games1| && 0 <= j < |games2| && c == Pairing(games1[i], games2[j], dist)
  {
    if games1 != [] {
      CandidatesMembers(games1[1..], games2, dist, c);
      if c in PairingsWith(games1[0], games2, dist) {
        var j :| 0 <= j < |games2| && PairingsWith(games1[0], games2, dist)[j] == c;
        assert c == Pairing(games1[0], games2[j], dist);
      } else if c in Candidates(games1[1..], games2, dist) {
        var i, j :| 0 <= i < |games1[1..]| && 0 <= j < |games2| && c == Pairing(games1[1..][i], games2[j], dist);
        assert games1[1..][i] == games1[i + 1];
      }
      if exists i, j :: 0 <= i < |games1| && 0 <= j < |games2| && c == Pairing(games1[i], games2[j], dist) {
        var i, j :| 0 <= i < |games1| && 0 <= j < |games2| && c == Pairing(games1[i], games2[j], dist);
        if i == 0 {
          assert PairingsWith(games1[0], games2, dist)[j] == c;
        } else {
          assert games1[1..][i - 1] == games1[i];
        }
      }
    }
  }

  /** Whether `c` survives the pick of `b`: it shares none of `b`'s four names, each on
      its own side (`~(m1|m2|m3|m4)`). */
  function Compatible(b: Candidate): Candidate -> bool
  {
    (c: Candidate) => c.home1 != b.home1 && c.home2 != b.home2 && c.away1 != b.away1 && c.away2 != b.away2
  }

  /** The candidates left once `b` is picked. `b` itself is not among them. */
  function Remaining(s: seq<Candidate>, b: Candidate): (r: seq<Candidate>)
    ensures forall c :: c in r <==> c in s && Compatible(b)(c)
  {
    Filter(s, Compatible(b))
  }

  /** The picks the loop makes from the distance-sorted candidates `s`: the first
      candidate, then the picks from what remains. */
  function GreedyPicks(s: seq<Candidate>): seq<Candidate>
    decreases |s|
  {
    if s == [] then []
    else
      assert |Remaining(s, s[0])| < |s| by {
        assert !Compatible(s[0])(s[0]);
        assert Filter(s, Compatible(s[0])) == Filter(s[1..], Compatible(s[0]));
      }
      [s[0]] + GreedyPicks(Remaining(s, s[0]))
  }

  /** No two picks share a name on the same side. */
  ghost predicate Disjoint(picks: seq<Candidate>)
  {
    forall i, j :: 0 <= i < j < |picks| ==> Compatible(picks[i])(picks[j])
  }

  /** `c` shares no name with any of `picks`. */
  ghost predicate CompatibleWithAll(c: Candidate, picks: seq<Candidate>)
  {
    forall i :: 0 <= i < |picks| ==> Compatible(picks[i])(c)
  }

  lemma {:induction false} GreedyPicksFrom(s: seq<Candidate>)
    ensures forall c :: c in GreedyPicks(s) ==> c in s
    decreases |s|
  {
    if s != [] {
      GreedyPicksFrom(Remaining(s, s[0]));
    }
  }

  /** Picks never share a name on the same side. */
  lemma {:induction false} GreedyPicksDisjoint(s: seq<Candidate>)
    ensures Disjoint(GreedyPicks(s))
    decreases |s|
  {
    if s != [] {
      var rest := Remaining(s, s[0]);
      GreedyPicksDisjoint(rest);
      GreedyPicksFrom(rest);
      var picks := GreedyPicks(s);
      var tail := GreedyPicks(rest);
      forall i, j | 0 <= i < j < |picks| ensures Compatible(picks[i])(picks[j]) {
        assert picks[j] == tail[j - 1] && tail[j - 1] in tail;
        if i > 0 {
          assert picks[i] == tail[i - 1];
        }
      }
    }
  }

  /** Picks come out in nondecreasing distance. */
  lemma {:induction false} GreedyPicksSorted(s: seq<Candidate>)
    requires SortedBy(s, Distance)
    ensures SortedBy(GreedyPicks(s), Distance)
    decreases |s|
  {
    if s != [] {
      var rest := Remaining(s, s[0]);
      FilterSorted(s, Compatible(s[0]), Distance);
      GreedyPicksSorted(rest);
      GreedyPicksFrom(rest);
      var picks := GreedyPicks(s);
      var tail := GreedyPicks(rest);
      forall i, j | 0 <= i < j < |picks| ensures picks[i].distance <= picks[j].distance {
        assert picks[j] == tail[j - 1] && tail[j - 1] in tail;
        if i > 0 {
          assert picks[i] == tail[i - 1];
          assert Distance(tail[i - 1]) <= Distance(tail[j - 1]);
        } else {
          var m :| 0 <= m < |s| && s[m] == picks[j];
          if m > 0 { assert Distance(s[0]) <= Distance(s[m]); }
        }
      }
    }
  }

  /** The loop stops only when every candidate conflicts with some pick: no candidate
      could be added to the matching. */
  lemma {:induction false} GreedyPicksMaximal(s: seq<Candidate>, c: Candidate)
    requires c in s
    ensures !CompatibleWithAll(c, GreedyPicks(s))
    decreases |s|
  {
    var picks := GreedyPicks(s);
    if Compatible(s[0])(c) {
      var rest := Remaining(s, s[0]);
      GreedyPicksMaximal(rest, c);
      var tail := GreedyPicks(rest);
      var i :| 0 <= i < |tail| && !Compatible(tail[i])(c);
      assert picks[i + 1] == tail[i];
    } else {
      assert picks[0] == s[0];
    }
  }

  /** Each pick is a closest candidate among those that share no name with the earlier
      picks. */
  lemma {:induction false} GreedyPicksClosest(s: seq<Candidate>, k: nat, c: Candidate)
    requires SortedBy(s, Distance)
    requires k < |GreedyPicks(s)|
    requires c in s && CompatibleWithAll(c, GreedyPicks(s)[..k])
    ensures GreedyPicks(s)[k].distance <= c.distance
    decreases |s|
  {
    var picks := GreedyPicks(s);
    var m :| 0 <= m < |s| && s[m] == c;
    if k == 0 {
      if m > 0 { assert Distance(s[0]) <= Distance(s[m]); }
    } else {
      var rest := Remaining(s, s[0]);
      var tail := GreedyPicks(rest);
      assert Compatible(picks[0])(c);
      assert c in rest;
      FilterSorted(s, Compatible(s[0]), Distance);
      var before := tail[..k - 1];
      assert CompatibleWithAll(c, before) by {
        forall i | 0 <= i < k - 1 ensures Compatible(before[i])(c) {
          assert before[i] == picks[..k][i + 1];
        }
      }
      GreedyPicksClosest(rest, k - 1, c);
      assert picks[k] == tail[k - 1];
    }
  }

  /** The matching loop over the sorted candidates (`while len(potential_matches) > 0`):
      take the first remaining candidate, drop everything that shares a name with it. */
  method GreedyMatch(sorted: seq<Candidate>) returns (matches: seq<Candidate>)
    requires SortedBy(sorted, Distance)
    ensures matches == GreedyPicks(sorted)
    ensures forall c :: c in matches ==> c in sorted
    ensures Disjoint(matches) && SortedBy(matches, Distance)
    ensures forall c :: c in sorted ==> !CompatibleWithAll(c, matches)
  {
    var potential := sorted;
    matches := [];
    while |potential| > 0
      invariant matches + GreedyPicks(potential) == GreedyPicks(sorted)
      decreases |potential|
    {
      var best := potential[0];
      matches := matches + [best];
      potential := Remaining(potential, best);
    }
    GreedyPicksFrom(sorted);
    GreedyPicksDisjoint(sorted);
    GreedyPicksSorted(sorted);
    forall c | c in sorted ensures !CompatibleWithAll(c, matches) {
      GreedyPicksMaximal(sorted, c);
    }
  }

  /** The picks for two game lists: the greedy matching over the candidates in order
      of distance. */
  function Picks(games1: seq<Matchup>, games2: seq<Matchup>, dist: (string, string) -> real): (picks: seq<Candidate>)
  {
    GreedyPicks(SortBy(Candidates(games1, games2, dist), Distance))
  }

  /** Every pick pairs a sportsbook game with a league game, no two picks share a name on
      the same side, they come in nondecreasing distance, and for every sportsbook game
      and every league game some pick already uses one of their names: no further pair
      could be added. */
  lemma PicksMatching(games1: seq<Matchup>, games2: seq<Matchup>, dist: (string, string) -> real)
    ensures Disjoint(Picks(games1, games2, dist)) && SortedBy(Picks(games1, games2, dist), Distance)
    ensures forall c :: c in Picks(games1, games2, dist) ==>
      exists i, j :: 0 <= i < |games1| && 0 <= j < |games2| && c == Pairing(games1[i], games2[j], dist)
    ensures forall i, j :: 0 <= i < |games1| && 0 <= j < |games2| ==>
      !CompatibleWithAll(Pairing(games1[i], games2[j], dist), Picks(games1, games2, dist))
  {
    var all := Candidates(games1, games2, dist);
    var sorted := SortBy(all, Distance);
    GreedyPicksDisjoint(sorted);
    GreedyPicksSorted(sorted);
    GreedyPicksFrom(sorted);
    forall c | c in Picks(games1, games2, dist)
      ensures exists i, j :: 0 <= i < |games1| && 0 <= j < |games2| && c == Pairing(games1[i], games2[j], dist)
    {
      assert c in multiset(sorted);
      CandidatesExactly(games1, games2, dist, c);
    }
    forall i, j | 0 <= i < |games1| && 0 <= j < |games2|
      ensures !CompatibleWithAll(Pairing(games1[i], games2[j], dist), Picks(games1, games2, dist))
    {
      var c := Pairing(games1[i], games2[j], dist);
      CandidatesExactly(games1, games2, dist, c);
      assert c in multiset(all);
      GreedyPicksMaximal(sorted, c);
    }
  }

  // ---------------------------------------------------------------------------
  // Name conversion

  /** The name pairs a list of matches contributes: each match's `home1 -> home2`, then
      each match's `away1 -> away2` (`pd.concat([part1, part2])`). */
  function NamePairs(matches: seq<Candidate>): (pairs: seq<(string, string)>)
    ensures |pairs| == 2 * |matches|
    ensures forall i :: 0 <= i < |matches| ==>
      pairs[i] == (matches[i].home1, matches[i].home2) &&
      pairs[|matches| + i] == (matches[i].away1, matches[i].away2)
  {
    seq(|matches|, i requires 0 <= i < |matches| => (matches[i].home1, matches[i].home2)) +
    seq(|matches|, i requires 0 <= i < |matches| => (matches[i].away1, matches[i].away2))
  }

  /** The map the conversion loop leaves: each pair in turn overwrites its source name's
      entry, so a name maps to the target of its last pair. */
  function ConversionMap(pairs: seq<(string, string)>): (m: map<string, string>)
    ensures forall n :: n in m <==> exists k :: 0 <= k < |pairs| && pairs[k].0 == n
  {
    if pairs == [] then map[]
    else
      var init := pairs[..|pairs| - 1];
      assert forall k :: 0 <= k < |pairs| - 1 ==> init[k] == pairs[k];
      ConversionMap(init)[pairs[|pairs| - 1].0 := pairs[|pairs| - 1].1]
  }

  /** `name` is the source of exactly one pair, pair `k`. */
  ghost predicate OnlySource(pairs: seq<(string, string)>, k: int)
  {
    0 <= k < |pairs| && forall l :: 0 <= l < |pairs| && pairs[l].0 == pairs[k].0 ==> l == k
  }

  /** A name that is the source of one pair only maps to that pair's target. */
  lemma {:induction false} ConversionMapOnly(pairs: seq<(string, string)>, k: nat)
    requires OnlySource(pairs, k)
    ensures pairs[k].0 in ConversionMap(pairs) && ConversionMap(pairs)[pairs[k].0] == pairs[k].1
  {
    var n := |pairs|;
    if k < n - 1 {
      var init := pairs[..n - 1];
      assert OnlySource(init, k);
      ConversionMapOnly(init, k);
    }
  }

  /** Every entry of the map is the target of some pair with that source. */
  lemma {:induction false} ConversionMapFromPairs(pairs: seq<(string, string)>, name: string)
    requires name in ConversionMap(pairs)
    ensures exists k :: 0 <= k < |pairs| && pairs[k] == (name, ConversionMap(pairs)[name])
  {
    var n := |pairs|;
    var init := pairs[..n - 1];
    if pairs[n - 1].0 != name {
      ConversionMapFromPairs(init, name);
      var k :| 0 <= k < |init| && init[k] == (name, ConversionMap(init)[name]);
      assert pairs[k] == init[k];
    }
  }

  /** The conversion loop (`for ... in ...iterrows(): name_conversion_dict[name1] = name2`). */
  method BuildConversion(pairs: seq<(string, string)>) returns (m: map<string, string>)
    ensures m == ConversionMap(pairs)
    ensures forall n :: n in m <==> exists k :: 0 <= k < |pairs| && pairs[k].0 == n
  {
    m := map[];
    for k := 0 to |pairs|
      invariant m == ConversionMap(pairs[..k])
    {
      assert pairs[..k + 1][..k] == pairs[..k];
      m := m[pairs[k].0 := pairs[k].1];
    }
    assert pairs[..|pairs|] == pairs;
  }

  /** `conversion_func`: the mapped name where there is one, the name itself otherwise. */
  function Convert(m: map<string, string>, name: string): string
  {
    if name in m then m[name] else name
  }

  /** Names the map does not know are left alone... */
  lemma ConvertUnmapped(pairs: seq<(string, string)>, name: string)
    requires forall k :: 0 <= k < |pairs| ==> pairs[k].0 != name
    ensures Convert(ConversionMap(pairs), name) == name
  {
  }

  /** ...and when no sportsbook name is both a home and an away name among the matches,
      every match's names convert to its league game's names. */
  lemma ConvertMatches(matches: seq<Candidate>, i: nat)
    requires Disjoint(matches) && i < |matches|
    requires forall a, b :: 0 <= a < |matches| && 0 <= b < |matches| ==> matches[a].home1 != matches[b].away1
    ensures Convert(ConversionMap(NamePairs(matches)), matches[i].home1) == matches[i].home2
    ensures Convert(ConversionMap(NamePairs(matches)), matches[i].away1) == matches[i].away2
  {
    var pairs := NamePairs(matches);
    var n := |matches|;
    assert OnlySource(pairs, i);
    ConversionMapOnly(pairs, i);
    assert OnlySource(pairs, n + i);
    ConversionMapOnly(pairs, n + i);
  }
}
