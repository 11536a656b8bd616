/** The scoring pass of the combination script: the odds table is cleared of duplicated
    lines, each game's sportsbook quotes are combined at the game's lead time, and every
    line of the game becomes two bets, one per side, with the hit probability the
    combination gives that side and the expected return on a unit stake. */
module GameReturns {
  import opened Seqs
  import opened Combination
  import Interp1d

  /** One row of the odds table: a sportsbook's moneyline on a game, observed at a
      (rounded) time, with the decimal odds of each side, the home side's implied win
      probability and the lead time `t` in hours (negative before the start). */
  datatype Line = Line(gameId: string, book: string, observed: int, homeTeam: string, awayTeam: string,
                       homeOdds: real, awayOdds: real, homeProb: real, t: real)

  /** The columns the duplicate check looks at. */
  datatype LineKey = LineKey(gameId: string, book: string, observed: int)

  function KeyOf(l: Line): LineKey
  {
    LineKey(l.gameId, l.book, l.observed)
  }

  /** `drop_duplicates(subset=['game_id','sportsbook_name','observation_datetime'], keep=False)`:
      a line survives exactly when no other line shares its game, book and time. */
  function DropDuplicatedLines(lines: seq<Line>): (kept: seq<Line>)
    ensures forall l :: l in kept <==> l in lines && KeyCount(lines, KeyOf, KeyOf(l)) == 1
    ensures forall i, j :: 0 <= i < |kept| && 0 <= j < |kept| && KeyOf(kept[i]) == KeyOf(kept[j]) ==> i == j
  {
    DropAllDuplicates(lines, KeyOf)
  }

  /** A second pass over the cleaned table drops nothing. */
  lemma DropDuplicatedLinesIdempotent(lines: seq<Line>)
    ensures DropDuplicatedLines(DropDuplicatedLines(lines)) == DropDuplicatedLines(lines)
  {
    DropAllDuplicatesIdempotent(lines, KeyOf);
  }

  /** The game ids of the lines, in table order. */
  function Games(lines: seq<Line>): (gs: seq<string>)
    ensures |gs| == |lines| && forall i :: 0 <= i < |lines| ==> gs[i] == lines[i].gameId
  {
    seq(|lines|, i requires 0 <= i < |lines| => lines[i].gameId)
  }

  /** `prob_df[prob_df['game_id'] == game_id]` */
  function GameLines(lines: seq<Line>, g: string): (r: seq<Line>)
    ensures forall l :: l in r <==> l in lines && l.gameId == g
  {
    Filter(lines, (l: Line) => l.gameId == g)
  }

  /** `prob_df['game_id'].unique()` as the script computes it: on the table BEFORE the
      duplicated lines are dropped. */
  function GameIdsAsWritten(lines: seq<Line>): (ids: seq<string>)
    ensures forall g :: g in ids <==> exists i :: 0 <= i < |lines| && lines[i].gameId == g
  {
    var ids := Distinct(Games(lines));
    assert forall i :: 0 <= i < |lines| ==> Games(lines)[i] in ids;
    ids
  }

  /** A game whose only lines are a duplicated pair is still listed, but none of its lines
      is left to read the lead time from (`.iloc[0]` on an empty selection). */
  lemma GameIdsAsWrittenListEmptyGame()
    ensures var l := Line("g", "book", 0, "home", "away", 2.0, 2.0, 0.5, -1.0);
            var lines := [l, l];
            "g" in GameIdsAsWritten(lines) && GameLines(DropDuplicatedLines(lines), "g") == []
  {
    var l := Line("g", "book", 0, "home", "away", 2.0, 2.0, 0.5, -1.0);
    var lines := [l, l];
    KeyCountTwo(lines, KeyOf, 0, 1);
    assert lines[0].gameId == "g";
    assert DropDuplicatedLines(lines) == [] by {
      forall x | x in DropDuplicatedLines(lines) ensures false {
      }
    }
  }

  /** The game ids of the cleaned table: every listed game keeps at least one line. */
  function GameIds(kept: seq<Line>): (ids: seq<string>)
    ensures forall g :: g in ids <==> exists i :: 0 <= i < |kept| && kept[i].gameId == g
    ensures forall k, j :: 0 <= k < j < |ids| ==> ids[k] != ids[j]
  {
    var ids := Distinct(Games(kept));
    assert forall i :: 0 <= i < |kept| ==> Games(kept)[i] in ids;
    ids
  }

  lemma GameIdsHaveLines(kept: seq<Line>, g: string)
    requires g in GameIds(kept)
    ensures GameLines(kept, g) != []
  {
    var i :| 0 <= i < |kept| && kept[i].gameId == g;
    assert kept[i] in GameLines(kept, g);
  }

  /** No line of `lines` after position `i` is quoted by the same book. */
  ghost predicate LastOfBook(lines: seq<Line>, i: nat)
  {
    i < |lines| && forall j :: i < j < |lines| ==> lines[j].book != lines[i].book
  }

  /** `set_index('sportsbook_name').to_dict()['moneyline_home_prob']`: one quote per book of
      the game, the book's last line winning when a book quotes it more than once. */
  function BookQuotes(lines: seq<Line>): (q: map<string, real>)
    ensures forall b :: b in q <==> exists i :: 0 <= i < |lines| && lines[i].book == b
  {
    if lines == [] then map[]
    else
      var init := lines[..|lines| - 1];
      var last := lines[|lines| - 1];
      assert forall i :: 0 <= i < |lines| - 1 ==> init[i] == lines[i];
      BookQuotes(init)[last.book := last.homeProb]
  }

  /** The quote of a book is the home probability of its last line. */
  lemma {:induction false} BookQuotesLast(lines: seq<Line>, i: nat)
    requires LastOfBook(lines, i)
    ensures lines[i].book in BookQuotes(lines) && BookQuotes(lines)[lines[i].book] == lines[i].homeProb
  {
    var n := |lines|;
    if i < n - 1 {
      var init := lines[..n - 1];
      assert LastOfBook(init, i);
      BookQuotesLast(init, i);
    }
  }

  /** Every book of the game has a last line, so every quote is one of the game's
      implied probabilities. */
  lemma BookQuotesFromLines(lines: seq<Line>, b: string)
    requires b in BookQuotes(lines)
    ensures exists i :: 0 <= i < |lines| && LastOfBook(lines, i) && lines[i].book == b &&
                        BookQuotes(lines)[b] == lines[i].homeProb
  {
    var i :| 0 <= i < |lines| && lines[i].book == b;
    while !LastOfBook(lines, i)
      invariant 0 <= i < |lines| && lines[i].book == b
      decreases |lines| - i
    {
      var next :| i < next < |lines| && lines[next].book == b;
      i := next;
    }
    BookQuotesLast(lines, i);
  }

  /** A bet on one side of one line. */
  datatype Bet = Bet(book: string, side: string, odds: real, hitProb: real, eroi: real)

  /** Expected return on a unit stake at decimal odds `odds`: win `odds` with probability
      `hitProb`, lose the stake always. */
  function Eroi(hitProb: real, odds: real): real
  {
    hitProb * odds - 1.0
  }

  /** The return is positive exactly when the hit probability beats the probability the
      odds imply. */
  lemma EroiPositive(hitProb: real, odds: real)
    requires odds > 0.0
    ensures Eroi(hitProb, odds) > 0.0 <==> hitProb > 1.0 / odds
  {
    DivisionThreshold(hitProb, odds);
  }

  lemma DivisionThreshold(p: real, odds: real)
    requires odds > 0.0
    ensures p * odds > 1.0 <==> p > 1.0 / odds
  {
    Threshold(p, 1.0 / odds, odds);
  }

  lemma Threshold(p: real, r: real, odds: real)
    requires odds > 0.0 && r * odds == 1.0
    ensures p * odds > 1.0 <==> p > r
  {
    if p > r {
      MulPositive(p - r, odds);
      assert (p - r) * odds == p * odds - r * odds;
      assert p * odds > 1.0;
    } else {
      Interp1d.MulNonNegative(r - p, odds);
      assert (r - p) * odds == r * odds - p * odds;
      assert p * odds <= 1.0;
    }
  }

  lemma MulPositive(a: real, b: real)
    requires a > 0.0 && b > 0.0
    ensures a * b > 0.0
  {
  }

  /** `home_df`, `away_df` and their concatenation: the home side of every line with hit
      probability `fBar`, then the away side of every line with `1 - fBar`. */
  function GameBets(lines: seq<Line>, fBar: real): (bets: seq<Bet>)
  {
    var n := |lines|;
    seq(2 * n, k requires 0 <= k < 2 * n =>
      if k < n then Bet(lines[k].book, lines[k].homeTeam, lines[k].homeOdds, fBar, Eroi(fBar, lines[k].homeOdds))
      else Bet(lines[k - n].book, lines[k - n].awayTeam, lines[k - n].awayOdds, 1.0 - fBar, Eroi(1.0 - fBar, lines[k - n].awayOdds)))
  }

  /** Each line gives its two sides, home first, at complementary hit probabilities. */
  lemma GameBetsSides(lines: seq<Line>, fBar: real, i: nat)
    requires i < |lines|
    ensures var bets := GameBets(lines, fBar);
            var n := |lines|;
            |bets| == 2 * n &&
            bets[i].book == bets[i + n].book == lines[i].book &&
            bets[i].side == lines[i].homeTeam && bets[i + n].side == lines[i].awayTeam &&
            bets[i].odds == lines[i].homeOdds && bets[i + n].odds == lines[i].awayOdds &&
            bets[i].hitProb + bets[i + n].hitProb == 1.0 &&
            bets[i].hitProb == fBar
  {
  }

  /** A bet is favourable exactly when its hit probability beats the probability its odds
      imply. */
  lemma FavourableBet(lines: seq<Line>, fBar: real, k: nat)
    requires k < |GameBets(lines, fBar)| && GameBets(lines, fBar)[k].odds > 0.0
    ensures var b := GameBets(lines, fBar)[k];
            b.eroi == b.hitProb * b.odds - 1.0 &&
            (b.eroi > 0.0 <==> b.hitProb > 1.0 / b.odds)
  {
    var b := GameBets(lines, fBar)[k];
    EroiPositive(b.hitProb, b.odds);
  }

  /** When a book's two implied probabilities add up to at least 1 (its margin), the two
      sides of its line are never both favourable, whatever the combined forecast. */
  lemma NoFavourablePair(lines: seq<Line>, fBar: real, i: nat)
    requires i < |lines| && lines[i].homeOdds > 0.0 && lines[i].awayOdds > 0.0
    requires 1.0 / lines[i].homeOdds + 1.0 / lines[i].awayOdds >= 1.0
    ensures !(GameBets(lines, fBar)[i].eroi > 0.0 && GameBets(lines, fBar)[i + |lines|].eroi > 0.0)
  {
    var bets := GameBets(lines, fBar);
    var n := |lines|;
    assert bets[i].eroi == Eroi(fBar, lines[i].homeOdds);
    assert bets[i + n].eroi == Eroi(1.0 - fBar, lines[i].awayOdds);
    EroiPositive(fBar, lines[i].homeOdds);
    EroiPositive(1.0 - fBar, lines[i].awayOdds);
  }

  /** What the combination is called with for one game: the availability flags and
      quotes `f_dict` fills in, and the lead time of the game's first line. */
  datatype GameInput = GameInput(v: seq<int>, f: seq<real>, t: real)

  function GameInputOf(models: seq<string>, gameLines: seq<Line>): (g: GameInput)
    ensures |g.v| == |g.f| == |models|
  {
    var quotes := BookQuotes(gameLines);
    GameInput(Availability(models, quotes), QuoteVector(models, quotes), if gameLines == [] then 0.0 else gameLines[0].t)
  }

  /** Every model the combination needs at the game's lead time is quoted. */
  ghost predicate Scorable(ts: seq<real>, dist: seq<seq<seq<real>>>, models: seq<string>, gameLines: seq<Line>)
  {
    WellFormed(ts, dist, |models|) && gameLines != [] &&
    Covered(ts, dist, GameInputOf(models, gameLines).v, gameLines[0].t)
  }

  /** `bets` is what the script derives for one game: the combination `c` of the game's
      quotes at the lead time of its first line, spread over both sides of every line. */
  ghost predicate Scored(ts: seq<real>, dist: seq<seq<seq<real>>>, models: seq<string>, gameLines: seq<Line>,
                         alpha: real, c: Combined, bets: seq<Bet>)
  {
    gameLines != [] &&
    var g := GameInputOf(models, gameLines);
    CombinesTo(ts, dist, g.v, g.f, g.t, alpha, c) && bets == GameBets(gameLines, c.estimate)
  }

  /** With every book's implied probability in [0, 1], so is the hit probability of every
      bet of the game. */
  lemma ScoredHitProbsInUnit(ts: seq<real>, dist: seq<seq<seq<real>>>, models: seq<string>, gameLines: seq<Line>,
                             alpha: real, c: Combined, bets: seq<Bet>)
    requires Scored(ts, dist, models, gameLines, alpha, c, bets)
    requires forall i :: 0 <= i < |gameLines| ==> 0.0 <= gameLines[i].homeProb <= 1.0
    ensures forall k :: 0 <= k < |bets| ==> 0.0 <= bets[k].hitProb <= 1.0
  {
    var g := GameInputOf(models, gameLines);
    QuotesInUnit(models, gameLines, g.v, g.f);
    CombineWithinQuotes(ts, dist, g.v, g.f, g.t, alpha, c, 0.0, 1.0);
    GameBetsInUnit(gameLines, c.estimate);
  }

  lemma GameBetsInUnit(lines: seq<Line>, fBar: real)
    requires 0.0 <= fBar <= 1.0
    ensures forall k :: 0 <= k < |GameBets(lines, fBar)| ==> 0.0 <= GameBets(lines, fBar)[k].hitProb <= 1.0
  {
  }

  lemma QuotesInUnit(models: seq<string>, gameLines: seq<Line>, v: seq<int>, f: seq<real>)
    requires forall i :: 0 <= i < |gameLines| ==> 0.0 <= gameLines[i].homeProb <= 1.0
    requires v == Availability(models, BookQuotes(gameLines)) && f == QuoteVector(models, BookQuotes(gameLines))
    ensures forall j :: 0 <= j < |v| && v[j] == 1 ==> 0.0 <= f[j] <= 1.0
  {
    forall j | 0 <= j < |v| && v[j] == 1 ensures 0.0 <= f[j] <= 1.0 {
      BookQuotesFromLines(gameLines, models[j]);
    }
  }

  /** The body of the script's loop for one game: combine the game's quotes at its lead
      time and price both sides of every line. */
  method ScoreGame(mc: ModelCombination, gameLines: seq<Line>, alpha: real) returns (bets: seq<Bet>, c: Combined)
    requires mc.Valid() && Scorable(mc.timepoints, mc.posteriorDist, mc.models, gameLines)
    ensures var g := GameInputOf(mc.models, gameLines);
            CombinesTo(mc.timepoints, mc.posteriorDist, g.v, g.f, g.t, alpha, c)
    ensures bets == GameBets(gameLines, c.estimate)
  {
    var quotes := BookQuotes(gameLines);
    var t := gameLines[0].t;
    var fBar, lower, upper := mc.CombineForecasts(quotes, t, alpha);
    c := Combined(fBar, lower, upper);
    bets := GameBets(gameLines, fBar);
  }

  /** The lines of each game of the cleaned table, in the order of its game ids. */
  function GameTables(kept: seq<Line>): (tables: seq<seq<Line>>)
    ensures |tables| == |GameIds(kept)|
    ensures forall k :: 0 <= k < |tables| ==> tables[k] == GameLines(kept, GameIds(kept)[k]) && tables[k] != []
  {
    var ids := GameIds(kept);
    var tables := seq(|ids|, k requires 0 <= k < |ids| => GameLines(kept, ids[k]));
    assert forall k :: 0 <= k < |tables| ==> tables[k] != [] by {
      forall k | 0 <= k < |tables| ensures tables[k] != [] {
        assert ids[k] in ids;
        GameIdsHaveLines(kept, ids[k]);
      }
    }
    tables
  }

  function GameInputs(models: seq<string>, tables: seq<seq<Line>>): (gs: seq<GameInput>)
    ensures |gs| == |tables| && forall k :: 0 <= k < |tables| ==> gs[k] == GameInputOf(models, tables[k])
  {
    seq(|tables|, k requires 0 <= k < |tables| => GameInputOf(models, tables[k]))
  }

  /** `cs[k]` is what the combination returns for `inputs[k]`, for every `k` (stated from
      the last game back). */
  ghost predicate CombinesAll(ts: seq<real>, dist: seq<seq<seq<real>>>, inputs: seq<GameInput>, alpha: real,
                              cs: seq<Combined>)
  {
    |cs| == |inputs| &&
    (inputs != [] ==>
       var n := |inputs| - 1;
       CombinesAll(ts, dist, inputs[..n], alpha, cs[..n]) &&
       CombinesTo(ts, dist, inputs[n].v, inputs[n].f, inputs[n].t, alpha, cs[n]))
  }

  lemma CombinesAllExtend(ts: seq<real>, dist: seq<seq<seq<real>>>, inputs: seq<GameInput>, k: nat, alpha: real,
                          cs: seq<Combined>, c: Combined)
    requires k < |inputs| && CombinesAll(ts, dist, inputs[..k], alpha, cs)
    requires CombinesTo(ts, dist, inputs[k].v, inputs[k].f, inputs[k].t, alpha, c)
    ensures CombinesAll(ts, dist, inputs[..k + 1], alpha, cs + [c])
  {
    assert inputs[..k + 1][..k] == inputs[..k];
    assert (cs + [c])[..k] == cs;
  }

  lemma {:induction false} CombinesAllAt(ts: seq<real>, dist: seq<seq<seq<real>>>, inputs: seq<GameInput>,
                                         alpha: real, cs: seq<Combined>, k: nat)
    requires CombinesAll(ts, dist, inputs, alpha, cs) && k < |inputs|
    ensures CombinesTo(ts, dist, inputs[k].v, inputs[k].f, inputs[k].t, alpha, cs[k])
  {
    var n := |inputs| - 1;
    if k < n {
      CombinesAllAt(ts, dist, inputs[..n], alpha, cs[..n], k);
      assert inputs[..n][k] == inputs[k] && cs[..n][k] == cs[k];
    } else {
      assert k == n;
    }
  }

  /** The bets of each game for its combination result. */
  function BetsOf(tables: seq<seq<Line>>, cs: seq<Combined>): (roi: seq<seq<Bet>>)
    requires |cs| <= |tables|
    ensures |roi| == |cs|
  {
    seq(|cs|, j requires 0 <= j < |cs| => GameBets(tables[j], cs[j].estimate))
  }

  lemma BetsOfExtend(tables: seq<seq<Line>>, cs: seq<Combined>, c: Combined)
    requires |cs| < |tables|
    ensures BetsOf(tables, cs + [c]) == BetsOf(tables, cs) + [GameBets(tables[|cs|], c.estimate)]
  {
  }

  /** The script's loop over the games: per game table, in order, the combination
      result and the bets on both sides of every line. */
  method ScoreTables(mc: ModelCombination, tables: seq<seq<Line>>, alpha: real) returns (cs: seq<Combined>, roi: seq<seq<Bet>>)
    requires mc.Valid()
    requires forall k :: 0 <= k < |tables| ==> Scorable(mc.timepoints, mc.posteriorDist, mc.models, tables[k])
    ensures |roi| == |tables|
    ensures CombinesAll(mc.timepoints, mc.posteriorDist, GameInputs(mc.models, tables), alpha, cs)
    ensures |cs| == |tables| && roi == BetsOf(tables, cs)
  {
    var inputs := GameInputs(mc.models, tables);
    cs, roi := [], [];
    for k := 0 to |tables|
      invariant |roi| == |cs| == k
      invariant CombinesAll(mc.timepoints, mc.posteriorDist, inputs[..k], alpha, cs)
      invariant roi == BetsOf(tables, cs)
    {
      var bets, c := ScoreGame(mc, tables[k], alpha);
      CombinesAllExtend(mc.timepoints, mc.posteriorDist, inputs, k, alpha, cs, c);
      BetsOfExtend(tables, cs, c);
      cs, roi := cs + [c], roi + [bets];
    }
    assert inputs[..|tables|] == inputs;
  }

  /** The whole scoring pass: drop the duplicated lines, list the games that remain, and
      score each of them. */
  method ScoreGames(mc: ModelCombination, lines: seq<Line>, alpha: real)
      returns (ids: seq<string>, cs: seq<Combined>, roi: seq<seq<Bet>>)
    requires mc.Valid()
    requires forall g :: g in GameIds(DropDuplicatedLines(lines)) ==>
               Scorable(mc.timepoints, mc.posteriorDist, mc.models, GameLines(DropDuplicatedLines(lines), g))
    ensures ids == GameIds(DropDuplicatedLines(lines)) && |roi| == |ids|
    ensures CombinesAll(mc.timepoints, mc.posteriorDist, GameInputs(mc.models, GameTables(DropDuplicatedLines(lines))),
                        alpha, cs)
    ensures |cs| == |ids| && roi == BetsOf(GameTables(DropDuplicatedLines(lines)), cs)
  {
    var kept := DropDuplicatedLines(lines);
    ids := GameIds(kept);
    var tables := GameTables(kept);
    forall k | 0 <= k < |tables| ensures Scorable(mc.timepoints, mc.posteriorDist, mc.models, tables[k]) {
      assert ids[k] in ids;
    }
    cs, roi := ScoreTables(mc, tables, alpha);
  }

  /** Every game's bets come from a combination of that game's quotes. */
  lemma ScoreGamesEach(ts: seq<real>, dist: seq<seq<seq<real>>>, models: seq<string>, kept: seq<Line>,
                       alpha: real, cs: seq<Combined>, roi: seq<seq<Bet>>, k: nat)
    requires CombinesAll(ts, dist, GameInputs(models, GameTables(kept)), alpha, cs)
    requires |cs| == |GameIds(kept)| && roi == BetsOf(GameTables(kept), cs)
    requires k < |roi|
    ensures Scored(ts, dist, models, GameTables(kept)[k], alpha, cs[k], roi[k])
  {
    CombinesAllAt(ts, dist, GameInputs(models, GameTables(kept)), alpha, cs, k);
  }
}
