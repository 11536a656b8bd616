/** The thresholded team-name matching of fuzzymatching.py and the harmonisation of a
    sportsbook odds table with the league schedule built on it. */
module FuzzyMatching {
  import opened Seqs
  import opened TeamMatching

  /** Default `max_distance` of `match_team_names`: the largest combined distance accepted. */
  const DefaultMaxDistance: real := 0.67

  /** Default `max_hours_difference` of `harmonize_team_names`. */
  const DefaultMaxHours: real := 1.5

  function Within(maxDistance: real): Candidate -> bool
  {
    (c: Candidate) => c.distance <= maxDistance
  }

  function Beyond(maxDistance: real): Candidate -> bool
  {
    (c: Candidate) => !(c.distance <= maxDistance)
  }

  /** The accepted picks (`match_df`) and the rejected ones (`unmatch_df`) split the
      picks: every pick is on exactly one side, accepted ones within `maxDistance`,
      rejected ones beyond it. */
  lemma SplitPicks(picks: seq<Candidate>, maxDistance: real)
    ensures |Filter(picks, Within(maxDistance))| + |Filter(picks, Beyond(maxDistance))| == |picks|
    ensures forall c :: c in Filter(picks, Within(maxDistance)) <==> c in picks && c.distance <= maxDistance
    ensures forall c :: c in Filter(picks, Beyond(maxDistance)) <==> c in picks && c.distance > maxDistance
  {
    FilterComplement(picks, Within(maxDistance), Beyond(maxDistance));
  }

  /** `match_team_names(games1, games2, max_distance)`: the name-conversion map built from
      the accepted matches, the accepted matches and the rejected ones. */
  method MatchTeamNames(games1: seq<Matchup>, games2: seq<Matchup>, dist: (string, string) -> real, maxDistance: real)
    returns (conversion: map<string, string>, matched: seq<Candidate>, unmatched: seq<Candidate>)
    ensures matched == Filter(Picks(games1, games2, dist), Within(maxDistance))
    ensures unmatched == Filter(Picks(games1, games2, dist), Beyond(maxDistance))
    ensures |matched| + |unmatched| == |Picks(games1, games2, dist)|
    ensures Disjoint(matched) && SortedBy(matched, Distance)
    ensures conversion == ConversionMap(NamePairs(matched))
  {
    var potential := SortBy(Candidates(games1, games2, dist), Distance);
    var matches := GreedyMatch(potential);
    matched := Filter(matches, Within(maxDistance));
    unmatched := Filter(matches, Beyond(maxDistance));
    SplitPicks(matches, maxDistance);
    DisjointFilter(matches, Within(maxDistance));
    FilterSorted(matches, Within(maxDistance), Distance);
    conversion := BuildConversion(NamePairs(matched));
  }

  /** Dropping picks keeps them pairwise disjoint. */
  lemma {:induction false} DisjointFilter(picks: seq<Candidate>, p: Candidate -> bool)
    requires Disjoint(picks)
    ensures Disjoint(Filter(picks, p))
  {
    if picks != [] {
      var tail := Filter(picks[1..], p);
      assert Disjoint(picks[1..]) by {
        forall i, j | 0 <= i < j < |picks[1..]| ensures Compatible(picks[1..][i])(picks[1..][j]) {
          assert picks[1..][i] == picks[i + 1] && picks[1..][j] == picks[j + 1];
        }
      }
      DisjointFilter(picks[1..], p);
      if p(picks[0]) {
        var r := [picks[0]] + tail;
        forall i, j | 0 <= i < j < |r| ensures Compatible(r[i])(r[j]) {
          assert r[j] == tail[j - 1] && tail[j - 1] in tail;
          if i > 0 {
            assert r[i] == tail[i - 1];
          } else {
            var m :| 0 <= m < |picks[1..]| && picks[1..][m] == r[j];
            assert picks[m + 1] == r[j];
          }
        }
        assert Filter(picks, p) == r;
      } else {
        assert Filter(picks, p) == tail;
      }
    }
  }

  /** An accepted match renames its sportsbook game to its league game, provided no
      sportsbook name is used both as a home and as an away name among the accepted
      matches. */
  lemma MatchedRenamed(games1: seq<Matchup>, games2: seq<Matchup>, dist: (string, string) -> real, maxDistance: real, i: nat)
    requires i < |Filter(Picks(games1, games2, dist), Within(maxDistance))|
    requires NoSideSwap(Filter(Picks(games1, games2, dist), Within(maxDistance)))
    ensures var matched := Filter(Picks(games1, games2, dist), Within(maxDistance));
      var m := ConversionMap(NamePairs(matched));
      Convert(m, matched[i].home1) == matched[i].home2 && Convert(m, matched[i].away1) == matched[i].away2
  {
    var picks := Picks(games1, games2, dist);
    PicksMatching(games1, games2, dist);
    DisjointFilter(picks, Within(maxDistance));
    ConvertMatches(Filter(picks, Within(maxDistance)), i);
  }

  /** No sportsbook name is a home name in one match and an away name in another. */
  ghost predicate NoSideSwap(matches: seq<Candidate>)
  {
    forall a, b :: 0 <= a < |matches| && 0 <= b < |matches| ==> matches[a].home1 != matches[b].away1
  }

  // ---------------------------------------------------------------------------
  // harmonize_team_names

  /** A row of the odds table: the sportsbook, the listed start time (seconds), the two
      team names and every other column, which harmonisation never touches. */
  datatype OddsRow = OddsRow(book: string, datetime: int, home: string, away: string, rest: seq<string>)

  /** A row of `game_datetime`, `home_team`, `away_team`. */
  datatype Fixture = Fixture(datetime: int, home: string, away: string)

  function FixtureOf(r: OddsRow): Fixture { Fixture(r.datetime, r.home, r.away) }

  function Fixtures(rows: seq<OddsRow>): (fs: seq<Fixture>)
    ensures |fs| == |rows| && forall i :: 0 <= i < |rows| ==> fs[i] == FixtureOf(rows[i])
  {
    seq(|rows|, i requires 0 <= i < |rows| => FixtureOf(rows[i]))
  }

  function Matchups(fs: seq<Fixture>): (ms: seq<Matchup>)
    ensures |ms| == |fs| && forall i :: 0 <= i < |fs| ==> ms[i] == Matchup(fs[i].home, fs[i].away)
  {
    seq(|fs|, i requires 0 <= i < |fs| => Matchup(fs[i].home, fs[i].away))
  }

  function Books(odds: seq<OddsRow>): (bs: seq<string>)
    ensures forall b :: b in bs <==> exists i :: 0 <= i < |odds| && odds[i].book == b
    ensures forall i, j :: 0 <= i < j < |bs| ==> bs[i] != bs[j]
  {
    var column := seq(|odds|, i requires 0 <= i < |odds| => odds[i].book);
    assert forall i :: 0 <= i < |odds| ==> column[i] == odds[i].book;
    Distinct(column)
  }

  function OfBook(b: string): OddsRow -> bool { (r: OddsRow) => r.book == b }

  /** `book_games`: the distinct games a sportsbook lists. */
  function BookGames(odds: seq<OddsRow>, b: string): seq<Fixture>
  {
    Distinct(Fixtures(Filter(odds, OfBook(b))))
  }

  /** The distinct start times of a list of games (`book_games['game_datetime'].unique()`). */
  function Datetimes(games: seq<Fixture>): (ds: seq<int>)
    ensures forall d :: d in ds <==> exists i :: 0 <= i < |games| && games[i].datetime == d
    ensures forall i, j :: 0 <= i < j < |ds| ==> ds[i] != ds[j]
  {
    var column := seq(|games|, i requires 0 <= i < |games| => games[i].datetime);
    assert forall i :: 0 <= i < |games| ==> column[i] == games[i].datetime;
    Distinct(column)
  }

  function At(d: int): Fixture -> bool { (f: Fixture) => f.datetime == d }

  /** The schedule's start time is at most `maxHours` hours from `d`. */
  function Near(d: int, maxHours: real): Fixture -> bool
  {
    (f: Fixture) => (if f.datetime >= d then f.datetime - d else d - f.datetime) as real <= maxHours * 3600.0
  }

  /** The picks for the games a book lists at `d` against the league games near `d`. */
  function GroupPicks(odds: seq<OddsRow>, schedule: seq<Fixture>, dist: (string, string) -> real, maxHours: real, b: string, d: int): seq<Candidate>
  {
    Picks(Matchups(Filter(BookGames(odds, b), At(d))), Matchups(Filter(Distinct(schedule), Near(d, maxHours))), dist)
  }

  /** The sportsbook names of the rejected picks of a group. */
  function RejectedPairs(unmatched: seq<Candidate>): (pairs: seq<(string, string)>)
    ensures |pairs| == |unmatched| && forall k :: 0 <= k < |unmatched| ==> pairs[k] == (unmatched[k].home1, unmatched[k].away1)
  {
    seq(|unmatched|, k requires 0 <= k < |unmatched| => (unmatched[k].home1, unmatched[k].away1))
  }

  /** What matching decides for the rows of one book at one start time: the name
      conversion, and the sportsbook games whose match was rejected. */
  datatype Group = Group(conversion: map<string, string>, rejected: seq<(string, string)>)

  /** The decision for each book and start time. */
  type Plan = (string, int) -> Group

  function GroupOf(odds: seq<OddsRow>, schedule: seq<Fixture>, dist: (string, string) -> real, maxHours: real, b: string, d: int): Group
  {
    var picks := GroupPicks(odds, schedule, dist, maxHours, b, d);
    Group(ConversionMap(NamePairs(Filter(picks, Within(DefaultMaxDistance)))), RejectedPairs(Filter(picks, Beyond(DefaultMaxDistance))))
  }

  /** The plan `harmonize_team_names` follows for `odds`, matching every group with
      `match_team_names` at its default `max_distance`. */
  function GroupPlan(odds: seq<OddsRow>, schedule: seq<Fixture>, dist: (string, string) -> real, maxHours: real): Plan
  {
    (b: string, d: int) => GroupOf(odds, schedule, dist, maxHours, b, d)
  }

  /** A row whose game was paired, but too far, with a league game. */
  predicate Bad(plan: Plan, r: OddsRow)
  {
    (r.home, r.away) in plan(r.book, r.datetime).rejected
  }

  function Kept(plan: Plan): OddsRow -> bool
  {
    (r: OddsRow) => !Bad(plan, r)
  }

  /** A row with both names converted by a map. */
  function Rename(r: OddsRow, m: map<string, string>): OddsRow
  {
    r.(home := Convert(m, r.home), away := Convert(m, r.away))
  }

  /** A row with both names converted by its group's map. */
  function RenameRow(plan: Plan, r: OddsRow): OddsRow
  {
    Rename(r, plan(r.book, r.datetime).conversion)
  }

  function Renamed(plan: Plan, rows: seq<OddsRow>): (out: seq<OddsRow>)
    ensures |out| == |rows| && forall i :: 0 <= i < |rows| ==> out[i] == RenameRow(plan, rows[i])
  {
    seq(|rows|, i requires 0 <= i < |rows| => RenameRow(plan, rows[i]))
  }

  /** The table `harmonize_team_names` returns, before its start-time harmonisation:
      the rows that are not rejected matches, in order, with their names converted. */
  function Harmonized(plan: Plan, odds: seq<OddsRow>): seq<OddsRow>
  {
    Renamed(plan, Filter(odds, Kept(plan)))
  }

  /** Harmonisation only drops rows and renames teams: every row of the result is a
      kept row of the input with its names converted and every other column as it was,
      and every kept row is there. */
  lemma HarmonizedRows(plan: Plan, odds: seq<OddsRow>, r: OddsRow)
    ensures |Harmonized(plan, odds)| <= |odds|
    ensures r in Harmonized(plan, odds) <==>
      exists i :: 0 <= i < |odds| && !Bad(plan, odds[i]) && r == RenameRow(plan, odds[i])
    ensures r in Harmonized(plan, odds) ==>
      exists i :: 0 <= i < |odds| && r.book == odds[i].book && r.datetime == odds[i].datetime && r.rest == odds[i].rest
  {
    var kept := Filter(odds, Kept(plan));
    var out := Harmonized(plan, odds);
    if r in out {
      var k :| 0 <= k < |out| && out[k] == r;
      assert kept[k] in kept;
      var i :| 0 <= i < |odds| && odds[i] == kept[k];
      assert r == RenameRow(plan, odds[i]);
    }
    if exists i :: 0 <= i < |odds| && !Bad(plan, odds[i]) && r == RenameRow(plan, odds[i]) {
      var i :| 0 <= i < |odds| && !Bad(plan, odds[i]) && r == RenameRow(plan, odds[i]);
      assert odds[i] in kept;
      var k :| 0 <= k < |kept| && kept[k] == odds[i];
      assert out[k] == r;
    }
  }

  /** A row whose game is an accepted match of its group carries the league's names
      afterwards (when no name of the group's accepted matches changes sides); a row
      whose game is a rejected match is dropped. */
  lemma HarmonizedMatchedRow(odds: seq<OddsRow>, schedule: seq<Fixture>, dist: (string, string) -> real, maxHours: real, r: OddsRow, c: Candidate)
    requires c in GroupPicks(odds, schedule, dist, maxHours, r.book, r.datetime)
    requires c.home1 == r.home && c.away1 == r.away
    requires NoSideSwap(Filter(GroupPicks(odds, schedule, dist, maxHours, r.book, r.datetime), Within(DefaultMaxDistance)))
    ensures c.distance <= DefaultMaxDistance ==>
      RenameRow(GroupPlan(odds, schedule, dist, maxHours), r).home == c.home2 &&
      RenameRow(GroupPlan(odds, schedule, dist, maxHours), r).away == c.away2
    ensures c.distance > DefaultMaxDistance ==> Bad(GroupPlan(odds, schedule, dist, maxHours), r)
  {
    var picks := GroupPicks(odds, schedule, dist, maxHours, r.book, r.datetime);
    var group := GroupPlan(odds, schedule, dist, maxHours)(r.book, r.datetime);
    assert group == GroupOf(odds, schedule, dist, maxHours, r.book, r.datetime);
    if c.distance <= DefaultMaxDistance {
      var matched := Filter(picks, Within(DefaultMaxDistance));
      assert c in matched;
      var i :| 0 <= i < |matched| && matched[i] == c;
      var g1 := Matchups(Filter(BookGames(odds, r.book), At(r.datetime)));
      var g2 := Matchups(Filter(Distinct(schedule), Near(r.datetime, maxHours)));
      MatchedRenamed(g1, g2, dist, DefaultMaxDistance, i);
    } else {
      var unmatched := Filter(picks, Beyond(DefaultMaxDistance));
      assert c in unmatched;
      var k :| 0 <= k < |unmatched| && unmatched[k] == c;
      assert RejectedPairs(unmatched)[k] == (r.home, r.away);
    }
  }

  /** The rows of book `b` at time `d` of the current table whose names are a rejected
      pair (the inner merge on `sportsbook_id`, `game_datetime` and both names). */
  method BadIndices(odds: array<OddsRow>, b: string, d: int, pairs: seq<(string, string)>) returns (idx: seq<int>)
    ensures forall i :: i in idx <==> 0 <= i < odds.Length && odds[i].book == b && odds[i].datetime == d && (odds[i].home, odds[i].away) in pairs
  {
    idx := [];
    for i := 0 to odds.Length
      invariant forall k :: k in idx <==> 0 <= k < i && odds[k].book == b && odds[k].datetime == d && (odds[k].home, odds[k].away) in pairs
    {
      if odds[i].book == b && odds[i].datetime == d && (odds[i].home, odds[i].away) in pairs {
        idx := idx + [i];
      }
    }
  }

  /** Converts the names of the rows of book `b` at time `d` in place. */
  method ConvertGroup(odds: array<OddsRow>, b: string, d: int, m: map<string, string>)
    modifies odds
    ensures forall i :: 0 <= i < odds.Length ==>
      odds[i] == if old(odds[i]).book == b && old(odds[i]).datetime == d then Rename(old(odds[i]), m) else old(odds[i])
  {
    for i := 0 to odds.Length
      invariant forall k :: 0 <= k < odds.Length ==>
        odds[k] == if k < i && old(odds[k]).book == b && old(odds[k]).datetime == d then Rename(old(odds[k]), m) else old(odds[k])
    {
      if odds[i].book == b && odds[i].datetime == d {
        odds[i] := Rename(odds[i], m);
      }
    }
  }

  /** The current table agrees with `orig` on every row's book and start time, and on
      every row of book `b`. */
  ghost predicate Untouched(cur: seq<OddsRow>, orig: seq<OddsRow>, b: string)
  {
    |cur| == |orig| &&
    forall i :: 0 <= i < |orig| ==>
      cur[i].book == orig[i].book && cur[i].datetime == orig[i].datetime && (orig[i].book == b ==> cur[i] == orig[i])
  }

  /** Every row's start time is one its book lists. */
  lemma RowDatetime(odds: seq<OddsRow>, i: nat)
    requires i < |odds|
    ensures odds[i].datetime in Datetimes(BookGames(odds, odds[i].book))
  {
    var rows := Filter(odds, OfBook(odds[i].book));
    assert odds[i] in rows;
    var k :| 0 <= k < |rows| && rows[k] == odds[i];
    assert Fixtures(rows)[k] == FixtureOf(odds[i]);
    var games := BookGames(odds, odds[i].book);
    assert FixtureOf(odds[i]) in games;
    var j :| 0 <= j < |games| && games[j] == FixtureOf(odds[i]);
  }

  /** Matching the games book `b` lists at `d` is the plan's decision for that group. */
  lemma GroupPlanAt(odds: seq<OddsRow>, schedule: seq<Fixture>, dist: (string, string) -> real, maxHours: real, b: string, d: int,
                    matched: seq<Candidate>, unmatched: seq<Candidate>)
    requires matched == Filter(GroupPicks(odds, schedule, dist, maxHours, b, d), Within(DefaultMaxDistance))
    requires unmatched == Filter(GroupPicks(odds, schedule, dist, maxHours, b, d), Beyond(DefaultMaxDistance))
    ensures GroupPlan(odds, schedule, dist, maxHours)(b, d) == Group(ConversionMap(NamePairs(matched)), RejectedPairs(unmatched))
  {
  }

  /** One iteration of the inner loop: matches the games book `b` lists at `d`, records
      the rows of rejected matches and converts the names of the group's rows. */
  method HarmonizeGroup(odds: array<OddsRow>, ghost orig: seq<OddsRow>, ghost plan: Plan,
                        schedule: seq<Fixture>, dist: (string, string) -> real, maxHours: real,
                        b: string, bookGames: seq<Fixture>, d: int)
    returns (bad: seq<int>)
    requires plan == GroupPlan(orig, schedule, dist, maxHours) && bookGames == BookGames(orig, b)
    requires |orig| == odds.Length
    requires forall i :: 0 <= i < |orig| ==> odds[i].book == orig[i].book && odds[i].datetime == orig[i].datetime
    requires forall i :: 0 <= i < |orig| && orig[i].book == b && orig[i].datetime == d ==> odds[i] == orig[i]
    modifies odds
    ensures forall i :: 0 <= i < odds.Length ==>
      odds[i] == if orig[i].book == b && orig[i].datetime == d then RenameRow(plan, orig[i]) else old(odds[i])
    ensures forall i :: i in bad <==> 0 <= i < |orig| && orig[i].book == b && orig[i].datetime == d && Bad(plan, orig[i])
  {
    var games1 := Matchups(Filter(bookGames, At(d)));
    var games2 := Matchups(Filter(Distinct(schedule), Near(d, maxHours)));
    var conversion, matched, unmatched := MatchTeamNames(games1, games2, dist, DefaultMaxDistance);
    GroupPlanAt(orig, schedule, dist, maxHours, b, d, matched, unmatched);
    bad := [];
    if |unmatched| > 0 {
      bad := BadIndices(odds, b, d, RejectedPairs(unmatched));
    }
    ConvertGroup(odds, b, d, conversion);
  }

  /** One iteration of the outer loop: every start time book `b` lists, matched and
      renamed in turn; returns the rejected rows of the book. */
  method HarmonizeBook(odds: array<OddsRow>, ghost orig: seq<OddsRow>, ghost plan: Plan,
                       schedule: seq<Fixture>, dist: (string, string) -> real, maxHours: real, b: string)
    returns (bad: seq<int>)
    requires plan == GroupPlan(orig, schedule, dist, maxHours)
    requires Untouched(odds[..], orig, b)
    modifies odds
    ensures forall i :: 0 <= i < odds.Length ==>
      odds[i] == if orig[i].book == b then RenameRow(plan, orig[i]) else old(odds[i])
    ensures forall i :: i in bad <==> 0 <= i < |orig| && orig[i].book == b && Bad(plan, orig[i])
  {
    assert Filter(odds[..], OfBook(b)) == Filter(orig, OfBook(b)) by {
      FilterSame(odds[..], orig, OfBook(b));
    }
    var bookGames := BookGames(odds[..], b);
    var datetimes := Datetimes(bookGames);
    bad := [];
    for k := 0 to |datetimes|
      invariant forall i :: 0 <= i < odds.Length ==>
        odds[i] == if orig[i].book == b && orig[i].datetime in datetimes[..k] then RenameRow(plan, orig[i]) else old(odds[i])
      invariant forall i :: i in bad <==> 0 <= i < |orig| && orig[i].book == b && orig[i].datetime in datetimes[..k] && Bad(plan, orig[i])
    {
      var d := datetimes[k];
      assert d !in datetimes[..k];
      var idx := HarmonizeGroup(odds, orig, plan, schedule, dist, maxHours, b, bookGames, d);
      bad := bad + idx;
      assert datetimes[..k + 1] == datetimes[..k] + [d];
    }
    forall i | 0 <= i < |orig| && orig[i].book == b ensures orig[i].datetime in datetimes {
      RowDatetime(orig, i);
    }
    assert datetimes[..|datetimes|] == datetimes;
  }

  /** One step of the loop over the sportsbooks: with the books of `done` renamed, book
      `b` is renamed too and its rejected rows returned. */
  method RenameBook(odds: array<OddsRow>, ghost orig: seq<OddsRow>, ghost plan: Plan,
                    schedule: seq<Fixture>, dist: (string, string) -> real, maxHours: real, ghost done: seq<string>, b: string,
                    badBefore: seq<int>)
    returns (bad: seq<int>)
    requires plan == GroupPlan(orig, schedule, dist, maxHours)
    requires |orig| == odds.Length && b !in done
    requires forall i :: 0 <= i < odds.Length ==> odds[i] == if orig[i].book in done then RenameRow(plan, orig[i]) else orig[i]
    requires forall i :: i in badBefore <==> 0 <= i < |orig| && orig[i].book in done && Bad(plan, orig[i])
    modifies odds
    ensures forall i :: 0 <= i < odds.Length ==> odds[i] == if orig[i].book in done + [b] then RenameRow(plan, orig[i]) else orig[i]
    ensures forall i :: i in bad <==> 0 <= i < |orig| && orig[i].book in done + [b] && Bad(plan, orig[i])
  {
    assert Untouched(odds[..], orig, b);
    var badBook := HarmonizeBook(odds, orig, plan, schedule, dist, maxHours, b);
    bad := badBefore + badBook;
  }

  /** The loop over the sportsbooks: every book's rows matched and renamed in turn;
      returns the rows of rejected matches. */
  method RenameBooks(odds: array<OddsRow>, ghost plan: Plan, schedule: seq<Fixture>, dist: (string, string) -> real, maxHours: real)
    returns (bad: seq<int>)
    requires plan == GroupPlan(odds[..], schedule, dist, maxHours)
    modifies odds
    ensures forall i :: 0 <= i < odds.Length ==> odds[i] == RenameRow(plan, old(odds[i]))
    ensures forall i :: i in bad <==> 0 <= i < odds.Length && Bad(plan, old(odds[i]))
  {
    ghost var orig := odds[..];
    var books := Books(odds[..]);
    bad := [];
    for k := 0 to |books|
      invariant forall i :: 0 <= i < odds.Length ==>
        odds[i] == if orig[i].book in books[..k] then RenameRow(plan, orig[i]) else orig[i]
      invariant forall i :: i in bad <==> 0 <= i < |orig| && orig[i].book in books[..k] && Bad(plan, orig[i])
    {
      assert books[k] !in books[..k];
      bad := RenameBook(odds, orig, plan, schedule, dist, maxHours, books[..k], books[k], bad);
      assert books[..k + 1] == books[..k] + [books[k]];
    }
    assert books[..|books|] == books;
    assert forall i :: 0 <= i < |orig| ==> orig[i].book in books;
  }

  /** `harmonize_team_names(odds_df, schedule_df, max_hours_difference)` up to its
      start-time harmonisation: the caller's table has its names converted in place,
      and the result is that table without the rows of rejected matches. */
  method HarmonizeTeamNames(odds: array<OddsRow>, schedule: seq<Fixture>, dist: (string, string) -> real, maxHours: real)
    returns (result: seq<OddsRow>)
    modifies odds
    ensures odds[..] == Renamed(GroupPlan(old(odds[..]), schedule, dist, maxHours), old(odds[..]))
    ensures result == Harmonized(GroupPlan(old(odds[..]), schedule, dist, maxHours), old(odds[..]))
  {
    ghost var orig := odds[..];
    ghost var plan := GroupPlan(orig, schedule, dist, maxHours);
    var bad := RenameBooks(odds, plan, schedule, dist, maxHours);
    assert odds[..] == Renamed(plan, orig);
    result := DropRejected(odds, orig, plan, bad);
  }

  /** Harmonising one more row appends its renamed copy unless it is rejected. */
  lemma HarmonizedSnoc(plan: Plan, rows: seq<OddsRow>, r: OddsRow)
    ensures Harmonized(plan, rows + [r]) ==
      Harmonized(plan, rows) + (if Bad(plan, r) then [] else [RenameRow(plan, r)])
  {
    FilterAppend(rows, [r], Kept(plan));
    assert [r][1..] == [];
    RenamedAppend(plan, Filter(rows, Kept(plan)), Filter([r], Kept(plan)));
  }

  lemma RenamedAppend(plan: Plan, a: seq<OddsRow>, b: seq<OddsRow>)
    ensures Renamed(plan, a + b) == Renamed(plan, a) + Renamed(plan, b)
  {
    assert forall i :: 0 <= i < |a + b| ==> (a + b)[i] == if i < |a| then a[i] else b[i - |a|];
  }

  /** `odds_df[~odds_df.index.isin(bad_match_indices)]` on the renamed table. */
  method DropRejected(odds: array<OddsRow>, ghost orig: seq<OddsRow>, ghost plan: Plan, bad: seq<int>) returns (result: seq<OddsRow>)
    requires |orig| == odds.Length
    requires forall i :: 0 <= i < odds.Length ==> odds[i] == RenameRow(plan, orig[i])
    requires forall i :: i in bad <==> 0 <= i < |orig| && Bad(plan, orig[i])
    ensures result == Harmonized(plan, orig)
  {
    result := [];
    for i := 0 to odds.Length
      invariant result == Harmonized(plan, orig[..i])
    {
      assert orig[..i + 1] == orig[..i] + [orig[i]];
      HarmonizedSnoc(plan, orig[..i], orig[i]);
      if i !in bad {
        result := result + [odds[i]];
      }
    }
    assert orig[..odds.Length] == orig;
  }
}
