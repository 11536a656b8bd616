/** Training data for the weight estimation (estimate_weights.py): the pass that turns
    the table of past betting lines and outcomes into the availability matrix `v`, the
    quote matrix `f`, the outcome vector `y` and the included sportsbooks; the combined
    forecast of one training row; the pooling of sampler chains; and the loop over
    pre-game time buckets that stacks the posterior draws into one weight table with
    missing books filled by 0. The sampler itself is outside the model: its draws are
    an input. */
module Preprocess {
  import opened Seqs
  import opened Forecast
  import Combination

  /** One row of the outcome table: a quote of one sportsbook for one game, observed at
      one time, with the game's result. Times are in seconds, dates in days. */
  datatype Record = Record(
    gameDate: int, gameTime: int, homeTeam: string, awayTeam: string,
    observed: int, book: string, homeProb: real, homeWon: int)

  // ---------------------------------------------------------------------------
  // Look back over the most recent games

  datatype Game = Game(date: int, homeTeam: string, awayTeam: string)

  function GameOf(r: Record): Game { Game(r.gameDate, r.homeTeam, r.awayTeam) }

  function DateOf(g: Game): real { g.date as real }

  /** The distinct games of the table (`drop_duplicates` on date and teams). */
  function RecentGames(outcome: seq<Record>): (games: seq<Game>)
    ensures forall g :: g in games <==> exists i :: 0 <= i < |outcome| && GameOf(outcome[i]) == g
  {
    var all := seq(|outcome|, i requires 0 <= i < |outcome| => GameOf(outcome[i]));
    assert forall i :: 0 <= i < |outcome| ==> all[i] == GameOf(outcome[i]);
    Distinct(all)
  }

  /** `drop_duplicates()` lists no game twice. */
  lemma RecentGamesDistinct(outcome: seq<Record>)
    ensures forall i, j :: 0 <= i < j < |RecentGames(outcome)| ==> RecentGames(outcome)[i] != RecentGames(outcome)[j]
  {
  }

  /** The date of the earliest of the `nGames` latest games, taken from the games sorted
      by date (`iloc[-n_games:]['game_date'].min()`). Python reads `iloc[-0:]` as the
      whole table, so `nGames == 0` keeps every game, as does an `nGames` beyond the
      number of games. No games, no cutoff. */
  function CutoffDate(outcome: seq<Record>, nGames: nat): Option<int>
  {
    if RecentGames(outcome) == [] then None
    else Some(SortBy(RecentGames(outcome), DateOf)[CutoffIndex(|RecentGames(outcome)|, nGames)].date)
  }

  /** The position of the cutoff game among `n > 0` date-sorted games. */
  function CutoffIndex(n: nat, nGames: nat): (k: nat)
    requires n > 0
    ensures k < n
  {
    if nGames == 0 || nGames >= n then 0 else n - nGames
  }

  function OnOrAfter(c: int): Record -> bool { (r: Record) => r.gameDate >= c }

  function GameOnOrAfter(c: int): Game -> bool { (g: Game) => g.date >= c }

  function GameBefore(c: int): Game -> bool { (g: Game) => g.date < c }

  /** The rows of the games played on or after the cutoff date. */
  function Lookback(outcome: seq<Record>, nGames: nat): (kept: seq<Record>)
    ensures forall r :: r in kept ==> r in outcome
  {
    match CutoffDate(outcome, nGames)
    case None => []
    case Some(c) => Filter(outcome, OnOrAfter(c))
  }

  /** A row is kept exactly when its game is no older than the cutoff. */
  lemma LookbackKeeps(outcome: seq<Record>, nGames: nat, r: Record)
    requires outcome != []
    ensures CutoffDate(outcome, nGames).Some?
    ensures r in Lookback(outcome, nGames) <==> r in outcome && r.gameDate >= CutoffDate(outcome, nGames).value
  {
    assert GameOf(outcome[0]) in RecentGames(outcome);
    assert GameOf(outcome[0]) in multiset(SortBy(RecentGames(outcome), DateOf));
  }

  /** With `0 < nGames <=` the number of games, at least `nGames` games are on or after
      the cutoff and at most the rest are before it: the cutoff keeps the `nGames`
      latest games and drops only games older than all of them. */
  lemma CutoffKeepsLatest(outcome: seq<Record>, nGames: nat)
    requires 0 < nGames <= |RecentGames(outcome)|
    ensures CutoffDate(outcome, nGames).Some?
    ensures |Filter(RecentGames(outcome), GameOnOrAfter(CutoffDate(outcome, nGames).value))| >= nGames
    ensures |Filter(RecentGames(outcome), GameBefore(CutoffDate(outcome, nGames).value))| <= |RecentGames(outcome)| - nGames
  {
    var games := RecentGames(outcome);
    var s := SortBy(games, DateOf);
    var k := |s| - nGames;
    assert CutoffDate(outcome, nGames) == Some(s[k].date);
    SortedCutoff(games, s, k);
  }

  /** In a date-sorted copy `s` of `games`, the date at position `k` has the `|s| - k`
      games from `k` on at or after it, and only the `k` before `k` may be earlier. */
  lemma SortedCutoff(games: seq<Game>, s: seq<Game>, k: nat)
    requires multiset(s) == multiset(games) && SortedBy(s, DateOf) && k < |s|
    ensures |Filter(games, GameOnOrAfter(s[k].date))| >= |s| - k
    ensures |Filter(games, GameBefore(s[k].date))| <= k
  {
    var c := s[k].date;
    forall i | k <= i < |s| ensures GameOnOrAfter(c)(s[i]) && !GameBefore(c)(s[i]) {
      if k < i { assert DateOf(s[k]) <= DateOf(s[i]); }
    }
    FilterSuffixLowerBound(s, k, GameOnOrAfter(c));
    FilterSuffixUpperBound(s, k, GameBefore(c));
    FilterCountPermutation(s, games, GameOnOrAfter(c));
    FilterCountPermutation(s, games, GameBefore(c));
  }

  /** `n_games == 0` (read as `iloc[-0:]`) and an `n_games` beyond the number of games
      keep the whole table. */
  lemma LookbackKeepsAll(outcome: seq<Record>, nGames: nat)
    requires nGames == 0 || nGames >= |RecentGames(outcome)|
    ensures Lookback(outcome, nGames) == outcome
  {
    var s := SortBy(RecentGames(outcome), DateOf);
    if outcome != [] {
      assert GameOf(outcome[0]) in RecentGames(outcome);
      assert GameOf(outcome[0]) in multiset(s);
      var c := s[0].date;
      forall i | 0 <= i < |outcome| ensures OnOrAfter(c)(outcome[i]) {
        var g := GameOf(outcome[i]);
        assert g in RecentGames(outcome);
        assert g in multiset(s);
        var m :| 0 <= m < |s| && s[m] == g;
        if m > 0 { assert DateOf(s[0]) <= DateOf(s[m]); }
      }
      FilterAll(outcome, OnOrAfter(c));
    }
  }

  // ---------------------------------------------------------------------------
  // Observation times and the pre-game window

  /** `dt.floor('10min')` on a time in seconds. */
  function Floor10(s: int): (r: int)
    ensures r % 600 == 0 && r <= s < r + 600
  {
    s - s % 600
  }

  function FlooredRecord(r: Record): (f: Record)
    ensures f == r.(observed := Floor10(r.observed))
  {
    r.(observed := Floor10(r.observed))
  }

  /** `observation_datetime.dt.floor('10min')` on every row: each observation time
      becomes the latest multiple of 600 s at or before it, and nothing else in
      the row changes. */
  function Floored(outcome: seq<Record>): (rs: seq<Record>)
    ensures |rs| == |outcome|
    ensures forall i :: 0 <= i < |outcome| ==> rs[i] == FlooredRecord(outcome[i])
    ensures forall i :: 0 <= i < |outcome| ==>
      rs[i].observed % 600 == 0 && rs[i].observed <= outcome[i].observed < rs[i].observed + 600 &&
      rs[i] == outcome[i].(observed := rs[i].observed)
  {
    seq(|outcome|, i requires 0 <= i < |outcome| => FlooredRecord(outcome[i]))
  }

  /** Seconds from the game's start to the (floored) observation: negative before the
      game. `hours_remaining` is this over 3600. */
  function SecondsRemaining(r: Record): int { r.observed - r.gameTime }

  /** The window `[-max(hoursBefore), -min(hoursBefore))` in hours remaining, in
      whichever order the two bounds are given. */
  function InWindow(a: int, b: int): Record -> bool
  {
    var hi := if a >= b then a else b;
    var lo := if a >= b then b else a;
    (r: Record) => -hi * 3600 <= SecondsRemaining(r) < -lo * 3600
  }

  /** The window does not depend on the order of the pair. */
  lemma InWindowSymmetric(a: int, b: int, r: Record)
    ensures InWindow(a, b)(r) == InWindow(b, a)(r)
  {
  }

  /** A row observed between `lo` and `hi` hours before the start, `lo <= hi`, lies in
      the window exactly when its time left is at most `hi` hours and more than `lo`. */
  lemma InWindowMeaning(lo: int, hi: int, r: Record)
    requires lo <= hi
    ensures InWindow(lo, hi)(r) <==>
      (r.gameTime - r.observed) <= hi * 3600 && (r.gameTime - r.observed) > lo * 3600
  {
  }

  function FromBooks(books: seq<string>): Record -> bool { (r: Record) => r.book in books }

  /** The rows that survive the look-back, the flooring, the window and the book filter. */
  function Selected(outcome: seq<Record>, a: int, b: int, nGames: nat, books: seq<string>): (rs: seq<Record>)
    ensures forall r :: r in rs ==> r.book in books && InWindow(a, b)(r) && r.observed % 600 == 0
  {
    Filter(Filter(Floored(Lookback(outcome, nGames)), InWindow(a, b)), FromBooks(books))
  }

  /** Every selected row is a floored row of the look-back. */
  lemma SelectedFromLookback(outcome: seq<Record>, a: int, b: int, nGames: nat, books: seq<string>, r: Record)
    requires r in Selected(outcome, a, b, nGames, books)
    ensures exists q :: q in Lookback(outcome, nGames) && r == FlooredRecord(q)
  {
    var fl := Floored(Lookback(outcome, nGames));
    assert r in fl;
    var i :| 0 <= i < |fl| && fl[i] == r;
    assert Lookback(outcome, nGames)[i] in Lookback(outcome, nGames);
  }

  // ---------------------------------------------------------------------------
  // Forecast and sportsbook indices, duplicate drop

  /** A forecast: the quotes for one game observed at one (floored) time. */
  datatype ForecastKey = ForecastKey(observed: int, gameDate: int, homeTeam: string, awayTeam: string)

  function ForecastOf(r: Record): ForecastKey { ForecastKey(r.observed, r.gameDate, r.homeTeam, r.awayTeam) }

  /** The distinct forecasts in order of first appearance; a forecast's index is its
      position here. */
  function Forecasts(rs: seq<Record>): (fs: seq<ForecastKey>)
    ensures forall r :: r in rs ==> ForecastOf(r) in fs
    ensures forall i, j :: 0 <= i < j < |fs| ==> fs[i] != fs[j]
  {
    var all := seq(|rs|, i requires 0 <= i < |rs| => ForecastOf(rs[i]));
    assert forall i :: 0 <= i < |rs| ==> all[i] == ForecastOf(rs[i]);
    Distinct(all)
  }

  /** One row after the merge: its forecast index, its sportsbook index, the row. */
  datatype Cell = Cell(forecast: nat, book: nat, rec: Record)

  function CellKey(c: Cell): (nat, nat) { (c.forecast, c.book) }

  function CellOf(fs: seq<ForecastKey>, books: seq<string>, r: Record): (c: Cell)
    requires ForecastOf(r) in fs && r.book in books
    ensures c.rec == r && c.forecast < |fs| && fs[c.forecast] == ForecastOf(r)
    ensures c.book < |books| && books[c.book] == r.book
  {
    Cell(IndexOf(fs, ForecastOf(r)), IndexOf(books, r.book), r)
  }

  /** The indexed rows (`sportsbook_index` and the merge on the forecast columns). */
  function Cells(rs: seq<Record>, books: seq<string>): (cs: seq<Cell>)
    requires forall r :: r in rs ==> r.book in books
    ensures |cs| == |rs|
    ensures forall i :: 0 <= i < |rs| ==> cs[i] == CellOf(Forecasts(rs), books, rs[i])
  {
    var fs := Forecasts(rs);
    seq(|rs|, i requires 0 <= i < |rs| => CellOf(fs, books, rs[i]))
  }

  /** `drop_duplicates(subset=['forecast_index','sportsbook_index'], keep=False)`. */
  function Survivors(outcome: seq<Record>, a: int, b: int, nGames: nat, books: seq<string>): (cs: seq<Cell>)
    ensures UniqueCells(cs)
    ensures forall c :: c in cs ==> c.book < |books| && books[c.book] == c.rec.book
  {
    var rs := Selected(outcome, a, b, nGames, books);
    DropAllDuplicates(Cells(rs, books), CellKey)
  }

  /** No two cells share a forecast and a sportsbook. */
  ghost predicate UniqueCells(cs: seq<Cell>)
  {
    forall i, j :: 0 <= i < |cs| && 0 <= j < |cs| && CellKey(cs[i]) == CellKey(cs[j]) ==> i == j
  }

  /** A cell survives exactly when no other selected row quotes the same forecast at the
      same sportsbook. */
  lemma SurvivorsExactly(outcome: seq<Record>, a: int, b: int, nGames: nat, books: seq<string>, c: Cell)
    ensures c in Survivors(outcome, a, b, nGames, books) <==>
      var cs := Cells(Selected(outcome, a, b, nGames, books), books);
      c in cs && KeyCount(cs, CellKey, CellKey(c)) == 1
  {
  }

  // ---------------------------------------------------------------------------
  // Pivot

  /** The values below `n` that occur in `xs`, ascending: the sorted index or column
      labels of a pivot. */
  function Present(xs: seq<nat>, n: nat): (ids: seq<nat>)
    ensures forall i, j :: 0 <= i < j < |ids| ==> ids[i] < ids[j]
    ensures forall k :: k in ids <==> k < n && k in xs
    ensures forall i :: 0 <= i < |ids| ==> ids[i] < n
  {
    if n == 0 then []
    else
      var init := Present(xs, n - 1);
      assert forall i :: 0 <= i < |init| ==> init[i] < n - 1 by {
        forall i | 0 <= i < |init| ensures init[i] < n - 1 { assert init[i] in init; }
      }
      init + (if n - 1 in xs then [n - 1] else [])
  }

  function ForecastIds(cs: seq<Cell>): (xs: seq<nat>)
    ensures |xs| == |cs| && forall i :: 0 <= i < |cs| ==> xs[i] == cs[i].forecast
  {
    seq(|cs|, i requires 0 <= i < |cs| => cs[i].forecast)
  }

  function BookIds(cs: seq<Cell>): (xs: seq<nat>)
    ensures |xs| == |cs| && forall i :: 0 <= i < |cs| ==> xs[i] == cs[i].book
  {
    seq(|cs|, i requires 0 <= i < |cs| => cs[i].book)
  }

  /** The first cell satisfying `p`. */
  function FirstWhere(cs: seq<Cell>, p: Cell -> bool): Option<Cell>
  {
    if cs == [] then None
    else if p(cs[0]) then Some(cs[0])
    else FirstWhere(cs[1..], p)
  }

  /** The search finds a cell exactly when one satisfies `p`, and what it finds does. */
  lemma {:induction false} FirstWhereFinds(cs: seq<Cell>, p: Cell -> bool)
    ensures FirstWhere(cs, p).None? <==> forall k :: 0 <= k < |cs| ==> !p(cs[k])
    ensures FirstWhere(cs, p).Some? ==> FirstWhere(cs, p).value in cs && p(FirstWhere(cs, p).value)
  {
    if cs != [] && !p(cs[0]) {
      FirstWhereFinds(cs[1..], p);
      assert forall k :: 1 <= k < |cs| ==> cs[k] == cs[1..][k - 1];
    }
  }

  function At(fi: nat, bi: nat): Cell -> bool { (c: Cell) => c.forecast == fi && c.book == bi }

  function OfForecast(fi: nat): Cell -> bool { (c: Cell) => c.forecast == fi }

  /** One row of the training arrays: the forecast it stands for, its availability and
      quote rows, and the game's outcome. */
  datatype TrainingRow = TrainingRow(forecast: nat, v: seq<int>, f: seq<real>, y: int)

  /** Row `fi` of the pivot over the columns `cols`: 1 and the quote where a cell exists,
      0 and 0.0 (`nan_to_num`) where none does; and the outcome of the forecast's game.
      `pivot` refuses a table with two values for one row and column, hence the
      requirement. */
  function PivotRow(cs: seq<Cell>, fi: nat, cols: seq<nat>): (row: TrainingRow)
    requires UniqueCells(cs)
    ensures row.forecast == fi && |row.v| == |cols| && |row.f| == |cols|
  {
    var found := seq(|cols|, j requires 0 <= j < |cols| => FirstWhere(cs, At(fi, cols[j])));
    var v := seq(|cols|, j requires 0 <= j < |cols| => if found[j].Some? then 1 else 0);
    var f := seq(|cols|, j requires 0 <= j < |cols| => if found[j].Some? then found[j].value.rec.homeProb else 0.0);
    var first := FirstWhere(cs, OfForecast(fi));
    var y := if first.Some? then first.value.rec.homeWon else 0;
    TrainingRow(fi, v, f, y)
  }

  /** What a pivot row holds: a 0/1 availability per column, 1 exactly where a cell of
      the forecast quotes that column's book, that cell's quote there and 0.0 elsewhere,
      and the outcome recorded with one of the forecast's cells. */
  ghost predicate PivotRowOf(row: TrainingRow, cs: seq<Cell>, cols: seq<nat>)
  {
    |row.v| == |cols| && |row.f| == |cols| && IsAvailability(row.v) &&
    (forall j :: 0 <= j < |cols| ==>
      (row.v[j] == 1 <==> exists c :: c in cs && c.forecast == row.forecast && c.book == cols[j])) &&
    (forall j :: 0 <= j < |cols| && row.v[j] == 0 ==> row.f[j] == 0.0) &&
    (forall j, c :: 0 <= j < |cols| && c in cs && c.forecast == row.forecast && c.book == cols[j] ==>
      row.f[j] == c.rec.homeProb) &&
    (exists c :: c in cs && c.forecast == row.forecast && row.y == c.rec.homeWon)
  }

  lemma PivotRowFacts(cs: seq<Cell>, fi: nat, cols: seq<nat>)
    requires UniqueCells(cs) && exists c :: c in cs && c.forecast == fi
    ensures PivotRowOf(PivotRow(cs, fi, cols), cs, cols)
  {
    var row := PivotRow(cs, fi, cols);
    forall j, c | 0 <= j < |cols| && c in cs && c.forecast == fi && c.book == cols[j]
      ensures row.v[j] == 1 && row.f[j] == c.rec.homeProb
    {
      var found := FirstWhere(cs, At(fi, cols[j]));
      FirstWhereFinds(cs, At(fi, cols[j]));
      var k :| 0 <= k < |cs| && cs[k] == c;
      assert At(fi, cols[j])(cs[k]);
      var m :| 0 <= m < |cs| && cs[m] == found.value;
      assert CellKey(cs[k]) == CellKey(cs[m]);
    }
    forall j | 0 <= j < |cols| && row.v[j] == 1
      ensures exists c :: c in cs && c.forecast == fi && c.book == cols[j]
    {
      var found := FirstWhere(cs, At(fi, cols[j]));
      FirstWhereFinds(cs, At(fi, cols[j]));
      assert found.value in cs && At(fi, cols[j])(found.value);
    }
    var first := FirstWhere(cs, OfForecast(fi));
    FirstWhereFinds(cs, OfForecast(fi));
    var c :| c in cs && c.forecast == fi;
    var k :| 0 <= k < |cs| && cs[k] == c;
    assert OfForecast(fi)(cs[k]);
    assert first.value in cs && OfForecast(fi)(first.value);
  }

  /** How many forecasters quote in an availability row (`v.sum(axis=1)`). */
  function BooksQuoting(v: seq<int>): (n: nat)
    ensures n <= |v|
  {
    if v == [] then 0 else (if v[0] == 1 then 1 else 0) + BooksQuoting(v[1..])
  }

  /** A row quoted by some forecaster has an available column. */
  lemma {:induction false} SomeBookQuotes(v: seq<int>) returns (j: nat)
    requires BooksQuoting(v) > 0
    ensures j < |v| && v[j] == 1
  {
    if v[0] == 1 {
      j := 0;
    } else {
      j := SomeBookQuotes(v[1..]);
      j := j + 1;
    }
  }

  /** The mask: only rows quoted by at least two sportsbooks inform the weights. */
  function MultiBook(row: TrainingRow): bool { BooksQuoting(row.v) > 1 }

  function ForecastIndex(row: TrainingRow): int { row.forecast }

  /** The training arrays: `v`, `f` and `y` are the rows' fields, in row order, and
      `books` names their columns (`included_books`). */
  datatype Training = Training(rows: seq<TrainingRow>, books: seq<string>)

  function RowIds(cs: seq<Cell>, nForecasts: nat): seq<nat> { Present(ForecastIds(cs), nForecasts) }

  function ColIds(cs: seq<Cell>, nBooks: nat): seq<nat> { Present(BookIds(cs), nBooks) }

  function PivotRows(cs: seq<Cell>, rowIds: seq<nat>, cols: seq<nat>): (rows: seq<TrainingRow>)
    requires UniqueCells(cs)
    ensures |rows| == |rowIds| && forall i :: 0 <= i < |rowIds| ==> rows[i] == PivotRow(cs, rowIds[i], cols)
  {
    seq(|rowIds|, i requires 0 <= i < |rowIds| => PivotRow(cs, rowIds[i], cols))
  }

  function BookNames(books: seq<string>, cols: seq<nat>): (names: seq<string>)
    requires forall j :: 0 <= j < |cols| ==> cols[j] < |books|
    ensures |names| == |cols| && forall j :: 0 <= j < |cols| ==> names[j] == books[cols[j]]
  {
    seq(|cols|, j requires 0 <= j < |cols| => books[cols[j]])
  }

  /** The pivot of the surviving cells `cs` of `nForecasts` forecasts, masked: the
      arrays and the included sportsbooks. */
  function Pivoted(cs: seq<Cell>, nForecasts: nat, books: seq<string>): Training
    requires UniqueCells(cs)
  {
    var cols := ColIds(cs, |books|);
    var rows := PivotRows(cs, RowIds(cs, nForecasts), cols);
    Training(Filter(rows, MultiBook), BookNames(books, cols))
  }

  /** `preprocess_outcome_data`, as one expression over the table. */
  function Preprocessed(outcome: seq<Record>, a: int, b: int, nGames: nat, books: seq<string>): Training
  {
    var rs := Selected(outcome, a, b, nGames, books);
    Pivoted(Survivors(outcome, a, b, nGames, books), |Forecasts(rs)|, books)
  }

  /** What the training arrays satisfy, given the surviving cells `cs` and the included
      sportsbook indices `cols`. */
  ghost predicate TrainingOf(t: Training, books: seq<string>, cs: seq<Cell>, cols: seq<nat>)
  {
    // included_books: the sportsbooks, in list order, that quote some surviving row
    |t.books| == |cols| &&
    (forall j :: 0 <= j < |cols| ==> cols[j] < |books| && t.books[j] == books[cols[j]]) &&
    (forall i, j :: 0 <= i < j < |cols| ==> cols[i] < cols[j]) &&
    (forall k :: k in cols <==> exists c :: c in cs && c.book == k) &&
    // rows: surviving forecasts quoted by at least two books, in index order
    IncreasingBy(t.rows, ForecastIndex) &&
    (forall i :: 0 <= i < |t.rows| ==> PivotRowOf(t.rows[i], cs, cols) && MultiBook(t.rows[i]))
  }

  /** The included sportsbooks are exactly those quoting a surviving cell. */
  lemma ColIdsExactly(cs: seq<Cell>, nBooks: nat)
    requires forall c :: c in cs ==> c.book < nBooks
    ensures forall k :: k in ColIds(cs, nBooks) <==> exists c :: c in cs && c.book == k
  {
    forall k ensures k in ColIds(cs, nBooks) <==> exists c :: c in cs && c.book == k {
      if exists c :: c in cs && c.book == k {
        var c :| c in cs && c.book == k;
        var m :| 0 <= m < |cs| && cs[m] == c;
        assert BookIds(cs)[m] == k;
      }
      if k in ColIds(cs, nBooks) {
        var m :| 0 <= m < |cs| && BookIds(cs)[m] == k;
        assert cs[m] in cs;
      }
    }
  }

  /** Pivot rows follow the order of their (increasing) forecast indices. */
  lemma PivotRowsIncreasing(cs: seq<Cell>, rowIds: seq<nat>, cols: seq<nat>)
    requires UniqueCells(cs)
    requires forall i, j :: 0 <= i < j < |rowIds| ==> rowIds[i] < rowIds[j]
    ensures IncreasingBy(PivotRows(cs, rowIds, cols), ForecastIndex)
  {
  }

  lemma PivotedShape(cs: seq<Cell>, nForecasts: nat, books: seq<string>)
    requires UniqueCells(cs)
    requires forall c :: c in cs ==> c.book < |books|
    ensures TrainingOf(Pivoted(cs, nForecasts, books), books, cs, ColIds(cs, |books|))
  {
    var cols := ColIds(cs, |books|);
    var rows := PivotRows(cs, RowIds(cs, nForecasts), cols);
    assert Pivoted(cs, nForecasts, books).rows == Filter(rows, MultiBook);
    ColIdsExactly(cs, |books|);
    PivotRowsIncreasing(cs, RowIds(cs, nForecasts), cols);
    FilterIncreasing(rows, MultiBook, ForecastIndex);
    PivotedRows(cs, nForecasts, books);
  }

  /** Each row of the masked pivot is the pivot row of a surviving forecast, quoted by
      at least two books. */
  lemma PivotedRows(cs: seq<Cell>, nForecasts: nat, books: seq<string>)
    requires UniqueCells(cs)
    ensures var t := Pivoted(cs, nForecasts, books);
      forall i :: 0 <= i < |t.rows| ==> PivotRowOf(t.rows[i], cs, ColIds(cs, |books|)) && MultiBook(t.rows[i])
  {
    var cols := ColIds(cs, |books|);
    var ids := RowIds(cs, nForecasts);
    var rows := PivotRows(cs, ids, cols);
    var t := Pivoted(cs, nForecasts, books);
    assert t.rows == Filter(rows, MultiBook);
    forall i | 0 <= i < |t.rows| ensures PivotRowOf(t.rows[i], cs, cols) && MultiBook(t.rows[i]) {
      var row := t.rows[i];
      assert row in rows;
      var m :| 0 <= m < |rows| && rows[m] == row;
      assert ids[m] in ForecastIds(cs);
      var q :| 0 <= q < |cs| && ForecastIds(cs)[q] == ids[m];
      assert cs[q] in cs;
      PivotRowFacts(cs, ids[m], cols);
    }
  }

  /** The arrays `preprocess_outcome_data` returns satisfy `TrainingOf` for the cells
      that survive the duplicate drop. */
  lemma PreprocessedShape(outcome: seq<Record>, a: int, b: int, nGames: nat, books: seq<string>)
    ensures var cs := Survivors(outcome, a, b, nGames, books);
      TrainingOf(Preprocessed(outcome, a, b, nGames, books), books, cs, ColIds(cs, |books|))
  {
    var rs := Selected(outcome, a, b, nGames, books);
    PivotedShape(Survivors(outcome, a, b, nGames, books), |Forecasts(rs)|, books);
  }

  /** Every forecast of a surviving cell gets a pivot row, and the mask keeps it exactly
      when at least two sportsbooks quote it. */
  lemma PivotedComplete(cs: seq<Cell>, nForecasts: nat, books: seq<string>, fi: nat)
    requires UniqueCells(cs) && fi < nForecasts
    requires exists c :: c in cs && c.forecast == fi
    ensures var row := PivotRow(cs, fi, ColIds(cs, |books|));
      MultiBook(row) <==> row in Pivoted(cs, nForecasts, books).rows
  {
    var cols := ColIds(cs, |books|);
    var ids := RowIds(cs, nForecasts);
    var rows := PivotRows(cs, ids, cols);
    var c :| c in cs && c.forecast == fi;
    var m :| 0 <= m < |cs| && cs[m] == c;
    assert ForecastIds(cs)[m] == fi;
    assert fi in ids;
    var k :| 0 <= k < |ids| && ids[k] == fi;
    assert rows[k] == PivotRow(cs, fi, cols);
  }

  lemma PreprocessedComplete(outcome: seq<Record>, a: int, b: int, nGames: nat, books: seq<string>, fi: nat)
    requires exists c :: c in Survivors(outcome, a, b, nGames, books) && c.forecast == fi
    ensures var cs := Survivors(outcome, a, b, nGames, books);
      var row := PivotRow(cs, fi, ColIds(cs, |books|));
      MultiBook(row) <==> row in Preprocessed(outcome, a, b, nGames, books).rows
  {
    var rs := Selected(outcome, a, b, nGames, books);
    var cs := Survivors(outcome, a, b, nGames, books);
    var c :| c in cs && c.forecast == fi;
    SurvivorsExactly(outcome, a, b, nGames, books, c);
    PivotedComplete(cs, |Forecasts(rs)|, books, fi);
  }

  /** `preprocess_outcome_data(outcome_df, hours_before, n_games, sportsbooks)`: the table
      narrowed step by step, then indexed, de-duplicated, pivoted and masked. */
  method PreprocessOutcomeData(outcome: seq<Record>, hoursBefore: (int, int), nGames: nat, sportsbooks: seq<string>)
    returns (training: Training)
    ensures training == Preprocessed(outcome, hoursBefore.0, hoursBefore.1, nGames, sportsbooks)
    ensures var cs := Survivors(outcome, hoursBefore.0, hoursBefore.1, nGames, sportsbooks);
      TrainingOf(training, sportsbooks, cs, ColIds(cs, |sportsbooks|))
    ensures forall i :: 0 <= i < |training.rows| ==> UsableRow(training.rows[i], |training.books|)
  {
    var (a, b) := hoursBefore;
    var table := Lookback(outcome, nGames);
    table := Floored(table);
    table := Filter(table, InWindow(a, b));
    table := Filter(table, FromBooks(sportsbooks));
    var forecasts := Forecasts(table);
    var cells := Cells(table, sportsbooks);
    cells := DropAllDuplicates(cells, CellKey);
    var cols := ColIds(cells, |sportsbooks|);
    var rows := PivotRows(cells, RowIds(cells, |forecasts|), cols);
    assert cells == Survivors(outcome, a, b, nGames, sportsbooks);
    rows := Filter(rows, MultiBook);
    training := Training(rows, BookNames(sportsbooks, cols));
    PreprocessedShape(outcome, a, b, nGames, sportsbooks);
    PreprocessedUsable(outcome, a, b, nGames, sportsbooks);
  }

  // ---------------------------------------------------------------------------
  // The likelihood's combined forecast and the pooled chains

  /** Draws of a Dirichlet distribution lie inside the simplex: every weight positive. */
  ghost predicate Positive(w: seq<real>)
  {
    forall j :: 0 <= j < |w| ==> w[j] > 0.0
  }

  /** A training row the likelihood can use with `m` weights. */
  ghost predicate UsableRow(row: TrainingRow, m: nat)
  {
    |row.v| == m && |row.f| == m && IsAvailability(row.v) && BooksQuoting(row.v) > 0
  }

  /** `f_bar` for one training row under the weight vector `w`: the quotes of the books
      that quoted, averaged with their weights renormalised. */
  function RowForecast(w: seq<real>, row: TrainingRow): real
    requires Positive(w) && UsableRow(row, |w|)
  {
    assert AvailableWeight(w, row.v) > 0.0 by {
      var j := SomeBookQuotes(row.v);
      AvailableWeightPositive(w, row.v, j);
    }
    CombinedForecast(w, row.v, row.f)
  }

  /** `f_bar = sum(w*v*f, axis=1) / sum(w*v, axis=1)` over the training rows. */
  function FBar(w: seq<real>, rows: seq<TrainingRow>): (p: seq<real>)
    requires Positive(w) && forall i :: 0 <= i < |rows| ==> UsableRow(rows[i], |w|)
    ensures |p| == |rows|
  {
    seq(|rows|, i requires 0 <= i < |rows| => RowForecast(w, rows[i]))
  }

  /** Every quote of the row's available books lies in `[lo, hi]`. */
  ghost predicate QuotesWithin(row: TrainingRow, lo: real, hi: real)
  {
    forall j :: 0 <= j < |row.v| && j < |row.f| && row.v[j] == 1 ==> lo <= row.f[j] <= hi
  }

  /** The Bernoulli parameter is a probability whenever the quotes are: each `f_bar`
      lies between the smallest and the largest quote of its row. */
  lemma FBarBounds(w: seq<real>, rows: seq<TrainingRow>, lo: real, hi: real)
    requires Positive(w) && forall i :: 0 <= i < |rows| ==> UsableRow(rows[i], |w|)
    requires forall i :: 0 <= i < |rows| ==> QuotesWithin(rows[i], lo, hi)
    ensures forall i :: 0 <= i < |rows| ==> lo <= FBar(w, rows)[i] <= hi
  {
    forall i | 0 <= i < |rows| ensures lo <= FBar(w, rows)[i] <= hi {
      var row := rows[i];
      assert NonNegative(w);
      var j := SomeBookQuotes(row.v);
      AvailableWeightPositive(w, row.v, j);
      CombinedForecastBounds(w, row.v, row.f, lo, hi);
    }
  }

  /** Each usable row of the preprocessed arrays is one the likelihood accepts. */
  lemma PreprocessedUsable(outcome: seq<Record>, a: int, b: int, nGames: nat, books: seq<string>)
    ensures var t := Preprocessed(outcome, a, b, nGames, books);
      forall i :: 0 <= i < |t.rows| ==> UsableRow(t.rows[i], |t.books|)
  {
    PreprocessedShape(outcome, a, b, nGames, books);
  }

  /** `np.concatenate([ww[i,:,:] for i in range(nchains)])`: the chains one after the
      other. */
  function PoolChains(ww: seq<seq<seq<real>>>): seq<seq<real>>
  {
    if ww == [] then [] else ww[0] + PoolChains(ww[1..])
  }

  ghost predicate ChainsOfLength(ww: seq<seq<seq<real>>>, draws: nat)
  {
    forall c :: 0 <= c < |ww| ==> |ww[c]| == draws
  }

  lemma {:induction false} PoolChainsLength(ww: seq<seq<seq<real>>>, draws: nat)
    requires ChainsOfLength(ww, draws)
    ensures |PoolChains(ww)| == |ww| * draws
  {
    if ww != [] {
      PoolChainsLength(ww[1..], draws);
      assert |ww| * draws == draws + (|ww| - 1) * draws;
    }
  }

  /** Draw `d` of chain `c` is row `c * draws + d` of the pooled sample. */
  lemma {:induction false} PoolChainsIndex(ww: seq<seq<seq<real>>>, draws: nat, c: nat, d: nat)
    requires ChainsOfLength(ww, draws) && c < |ww| && d < draws
    ensures c * draws + d < |PoolChains(ww)| && PoolChains(ww)[c * draws + d] == ww[c][d]
  {
    PoolChainsLength(ww, draws);
    IndexBound(c, |ww|, draws, d);
    if c > 0 {
      PoolChainsIndex(ww[1..], draws, c - 1, d);
      Shift(c, draws, d);
    }
  }

  lemma IndexBound(c: nat, n: nat, draws: nat, d: nat)
    requires c < n && d < draws
    ensures c * draws + d < n * draws
  {
    assert (c + 1) * draws == c * draws + draws;
    assert n * draws == (c + 1) * draws + (n - c - 1) * draws;
    assert (n - c - 1) * draws >= 0;
  }

  lemma Shift(c: nat, draws: nat, d: nat)
    requires c > 0
    ensures c * draws + d == draws + ((c - 1) * draws + d)
  {
  }

  // ---------------------------------------------------------------------------
  // The loop over pre-game time buckets

  const TMin := 0
  const TMax := 24
  const Increment := 4

  /** `np.arange(tmin, tmax, increment)`: the lower ends of the buckets. */
  function TLowers(): seq<int>
  {
    seq((TMax - TMin + Increment - 1) / Increment, k => TMin + k * Increment)
  }

  /** The buckets start at `tmin`, step by `increment` and stop before `tmax`. */
  lemma TLowersArange()
    ensures forall k :: 0 <= k < |TLowers()| ==> TLowers()[k] == TMin + k * Increment
    ensures TLowers()[|TLowers()| - 1] < TMax <= TLowers()[|TLowers()| - 1] + Increment
  {
  }

  /** `-1 * np.mean(hours_before)` for the bucket `(tLower, tLower + increment)`. */
  function AnchorOf(tLower: int): real
  {
    -((tLower as real + (tLower + Increment) as real) / 2.0)
  }

  /** Each bucket is anchored at its midpoint, and later buckets (further before the
      game) get earlier anchors. */
  lemma AnchorsOrdered(k: nat, l: nat)
    requires k < l < 6
    ensures AnchorOf(TLowers()[k]) == -((TLowers()[k] + 2) as real)
    ensures AnchorOf(TLowers()[l]) < AnchorOf(TLowers()[k])
  {
  }

  /** One bucket's result: its anchor, the included books, and the pooled draws, one
      weight per included book (`w_post_df`). */
  datatype Frame = Frame(t: real, books: seq<string>, draws: seq<seq<real>>)

  ghost predicate FrameFits(fr: Frame)
  {
    forall i :: 0 <= i < |fr.draws| ==> |fr.draws[i]| == |fr.books| && NonNegative(fr.draws[i])
  }

  /** The frame of a bucket starting `tLower` hours before the game: its anchor, the
      books its training arrays include, and the sampler's draws for it. */
  function FrameOf(tLower: int, t: Training, draws: seq<seq<real>>): (fr: Frame)
    ensures fr.t == AnchorOf(tLower) && fr.books == t.books && fr.draws == draws
  {
    Frame(AnchorOf(tLower), t.books, draws)
  }

  /** `preprocess_outcome_data`'s default `n_games`. */
  const DefaultGames := 1000

  /** Every book of the stacked frames, frame by frame. */
  function AllBooks(frames: seq<Frame>): (names: seq<string>)
    ensures forall b :: b in names <==> exists k :: 0 <= k < |frames| && b in frames[k].books
  {
    if frames == [] then []
    else
      var rest := AllBooks(frames[1..]);
      assert forall b :: b in rest <==> exists k :: 1 <= k < |frames| && b in frames[k].books by {
        forall b ensures b in rest <==> exists k :: 1 <= k < |frames| && b in frames[k].books {
          if b in rest {
            var k :| 0 <= k < |frames[1..]| && b in frames[1..][k].books;
            assert frames[k + 1] == frames[1..][k];
          }
          if exists k :: 1 <= k < |frames| && b in frames[k].books {
            var k :| 1 <= k < |frames| && b in frames[k].books;
            assert frames[1..][k - 1] == frames[k];
          }
        }
      }
      frames[0].books + rest
  }

  /** The columns of `pd.concat`: every book that some frame has, once, in order of
      first appearance. */
  function StackedColumns(frames: seq<Frame>): (columns: seq<string>)
    ensures forall b :: b in columns <==> exists k :: 0 <= k < |frames| && b in frames[k].books
    ensures forall i, j :: 0 <= i < j < |columns| ==> columns[i] != columns[j]
  {
    Distinct(AllBooks(frames))
  }

  /** One draw laid out over `columns`: a book's own weight where the frame has that book,
      0 (`fillna(0)`) where it does not. */
  function Realign(books: seq<string>, w: seq<real>, columns: seq<string>): (r: seq<real>)
    requires |w| == |books|
    ensures |r| == |columns|
    ensures forall j :: 0 <= j < |columns| && columns[j] in books ==> r[j] == w[IndexOf(books, columns[j])]
    ensures forall j :: 0 <= j < |columns| && columns[j] !in books ==> r[j] == 0.0
  {
    seq(|columns|, j requires 0 <= j < |columns| =>
      if columns[j] in books then w[IndexOf(books, columns[j])] else 0.0)
  }

  /** `x` at position `p` of `n` places, 0 elsewhere. */
  function UnitAt(n: nat, p: nat, x: real): (r: seq<real>)
    ensures |r| == n && forall j :: 0 <= j < n ==> r[j] == (if j == p then x else 0.0)
  {
    seq(n, j => if j == p then x else 0.0)
  }

  lemma {:induction false} SumUnitAt(n: nat, p: nat, x: real)
    requires p < n
    ensures Sum(UnitAt(n, p, x)) == x
  {
    if p == 0 {
      assert UnitAt(n, p, x)[1..] == Constant(n - 1, 0.0);
      SumConstant(n - 1, 0.0);
    } else {
      assert UnitAt(n, p, x)[1..] == UnitAt(n - 1, p - 1, x);
      SumUnitAt(n - 1, p - 1, x);
    }
  }

  /** Laying out a draw is laying out its tail plus its first book's weight in that
      book's column. */
  lemma RealignSplit(books: seq<string>, w: seq<real>, columns: seq<string>, p: nat)
    requires |w| == |books| && books != []
    requires forall i, j :: 0 <= i < j < |books| ==> books[i] != books[j]
    requires forall i, j :: 0 <= i < j < |columns| ==> columns[i] != columns[j]
    requires p < |columns| && columns[p] == books[0]
    ensures Realign(books, w, columns) == Plus(Realign(books[1..], w[1..], columns), UnitAt(|columns|, p, w[0]))
  {
    var a, b := Realign(books, w, columns), Plus(Realign(books[1..], w[1..], columns), UnitAt(|columns|, p, w[0]));
    forall j | 0 <= j < |columns| ensures a[j] == b[j] {
      if j == p {
        assert books[0] !in books[1..];
      } else if columns[j] in books {
        assert columns[j] in books[1..];
        assert IndexOf(books, columns[j]) == 1 + IndexOf(books[1..], columns[j]);
      }
    }
  }

  /** A draw whose books are distinct and all among the columns keeps its total weight
      once laid out over them: `fillna(0)` adds only zeros. */
  lemma {:induction false} RealignSum(books: seq<string>, w: seq<real>, columns: seq<string>)
    requires |w| == |books|
    requires forall i, j :: 0 <= i < j < |books| ==> books[i] != books[j]
    requires forall i, j :: 0 <= i < j < |columns| ==> columns[i] != columns[j]
    requires forall b :: b in books ==> b in columns
    ensures Sum(Realign(books, w, columns)) == Sum(w)
  {
    if books == [] {
      assert Realign(books, w, columns) == Constant(|columns|, 0.0);
      SumConstant(|columns|, 0.0);
    } else {
      var p := IndexOf(columns, books[0]);
      RealignSplit(books, w, columns, p);
      SumPlus(Realign(books[1..], w[1..], columns), UnitAt(|columns|, p, w[0]));
      SumUnitAt(|columns|, p, w[0]);
      RealignSum(books[1..], w[1..], columns);
    }
  }

  function FrameRows(fr: Frame, columns: seq<string>): (rows: seq<Combination.WeightRow>)
    requires FrameFits(fr)
    ensures |rows| == |fr.draws|
    ensures forall i :: 0 <= i < |fr.draws| ==> rows[i] == Combination.WeightRow(fr.t, Realign(fr.books, fr.draws[i], columns))
  {
    seq(|fr.draws|, i requires 0 <= i < |fr.draws| => Combination.WeightRow(fr.t, Realign(fr.books, fr.draws[i], columns)))
  }

  /** `pd.concat(weights_df_list).fillna(0)`: the frames' rows one after the other, each
      laid out over the same columns. */
  function Stacked(frames: seq<Frame>, columns: seq<string>): seq<Combination.WeightRow>
    requires forall k :: 0 <= k < |frames| ==> FrameFits(frames[k])
  {
    if frames == [] then [] else FrameRows(frames[0], columns) + Stacked(frames[1..], columns)
  }

  /** `r` is draw `i` of frame `k` laid out over `columns`. */
  ghost predicate DrawOf(frames: seq<Frame>, columns: seq<string>, r: Combination.WeightRow, k: int, i: int)
  {
    0 <= k < |frames| && 0 <= i < |frames[k].draws| && |frames[k].draws[i]| == |frames[k].books| &&
    r == Combination.WeightRow(frames[k].t, Realign(frames[k].books, frames[k].draws[i], columns))
  }

  /** Each stacked row is some frame's draw laid out over the columns. */
  lemma {:induction false} StackedRowFrom(frames: seq<Frame>, columns: seq<string>, r: Combination.WeightRow)
    requires forall k :: 0 <= k < |frames| ==> FrameFits(frames[k])
    requires r in Stacked(frames, columns)
    ensures exists k, i :: DrawOf(frames, columns, r, k, i)
  {
    var head := FrameRows(frames[0], columns);
    if r in head {
      var i :| 0 <= i < |head| && head[i] == r;
      assert DrawOf(frames, columns, r, 0, i);
    } else {
      StackedRowFrom(frames[1..], columns, r);
      var k, i :| DrawOf(frames[1..], columns, r, k, i);
      assert frames[1..][k] == frames[k + 1];
      assert DrawOf(frames, columns, r, k + 1, i);
    }
  }

  /** ...and each frame's draw is a stacked row. */
  lemma {:induction false} StackedRowOf(frames: seq<Frame>, columns: seq<string>, k: nat, i: nat)
    requires forall m :: 0 <= m < |frames| ==> FrameFits(frames[m])
    requires k < |frames| && i < |frames[k].draws| && |frames[k].draws[i]| == |frames[k].books|
    ensures Combination.WeightRow(frames[k].t, Realign(frames[k].books, frames[k].draws[i], columns)) in Stacked(frames, columns)
  {
    if k == 0 {
      assert FrameRows(frames[0], columns)[i] in FrameRows(frames[0], columns);
    } else {
      assert frames[1..][k - 1] == frames[k];
      StackedRowOf(frames[1..], columns, k - 1, i);
    }
  }

  /** Two distinct times in a table make at least two anchors. */
  lemma TwoTimes(rows: seq<Combination.WeightRow>, x: Combination.WeightRow, y: Combination.WeightRow)
    requires x in rows && y in rows && x.t != y.t
    ensures |SortedUnique(Combination.Times(rows))| >= 2
  {
    var ts := Combination.Times(rows);
    var i :| 0 <= i < |rows| && rows[i] == x;
    var j :| 0 <= j < |rows| && rows[j] == y;
    assert ts[i] == x.t && ts[j] == y.t;
    var u := SortedUnique(ts);
    assert x.t in u && y.t in u;
  }

  /** The stacked table is one `ModelCombination` accepts: every row has one nonnegative
      weight per column, and two frames with draws at different anchors give it at least
      two anchors. */
  lemma StackedTable(frames: seq<Frame>, k: nat, l: nat)
    requires forall k :: 0 <= k < |frames| ==> FrameFits(frames[k])
    requires k < |frames| && l < |frames| && |frames[k].draws| > 0 && |frames[l].draws| > 0
    requires frames[k].t != frames[l].t
    ensures Combination.WeightTable(Stacked(frames, StackedColumns(frames)), StackedColumns(frames))
  {
    var columns := StackedColumns(frames);
    var rows := Stacked(frames, columns);
    forall r | r in rows ensures |r.weights| == |columns| && NonNegative(r.weights) {
      StackedRowFrom(frames, columns, r);
      var k, i :| DrawOf(frames, columns, r, k, i);
      var w := frames[k].draws[i];
      assert NonNegative(w);
      forall j | 0 <= j < |columns| ensures r.weights[j] >= 0.0 {
        if columns[j] in frames[k].books {
          var m := IndexOf(frames[k].books, columns[j]);
          assert r.weights[j] == w[m];
        }
      }
    }
    StackedRowOf(frames, columns, k, 0);
    StackedRowOf(frames, columns, l, 0);
    TwoTimes(rows,
      Combination.WeightRow(frames[k].t, Realign(frames[k].books, frames[k].draws[0], columns)),
      Combination.WeightRow(frames[l].t, Realign(frames[l].books, frames[l].draws[0], columns)));
  }

  /** The training arrays of the first `n` buckets, in bucket order. */
  function Trainings(outcome: seq<Record>, sportsbooks: seq<string>, n: nat): (ts: seq<Training>)
    requires n <= |TLowers()|
    ensures |ts| == n
  {
    if n == 0 then []
    else
      var tLower := TLowers()[n - 1];
      Trainings(outcome, sportsbooks, n - 1) + [Preprocessed(outcome, tLower, tLower + Increment, DefaultGames, sportsbooks)]
  }

  /** Bucket `k`'s training arrays follow those of the buckets before it. */
  lemma TrainingsSnoc(outcome: seq<Record>, sportsbooks: seq<string>, k: nat)
    requires k < |TLowers()|
    ensures Trainings(outcome, sportsbooks, k + 1) ==
      Trainings(outcome, sportsbooks, k) + [Preprocessed(outcome, TLowers()[k], TLowers()[k] + Increment, DefaultGames, sportsbooks)]
  {
    var n := k + 1;
    assert n - 1 == k;
  }

  /** The frames of the buckets with training arrays `trainings`. */
  function Frames(trainings: seq<Training>, posterior: seq<seq<seq<real>>>): (frames: seq<Frame>)
    requires |trainings| <= |TLowers()| && |trainings| <= |posterior|
    ensures |frames| == |trainings|
    ensures forall k :: 0 <= k < |trainings| ==> frames[k] == FrameOf(TLowers()[k], trainings[k], posterior[k])
  {
    seq(|trainings|, k requires 0 <= k < |trainings| => FrameOf(TLowers()[k], trainings[k], posterior[k]))
  }

  /** One more bucket adds its frame at the end. */
  lemma FramesSnoc(trainings: seq<Training>, t: Training, posterior: seq<seq<seq<real>>>)
    requires |trainings| < |TLowers()| && |trainings| < |posterior|
    ensures Frames(trainings + [t], posterior) ==
      Frames(trainings, posterior) + [FrameOf(TLowers()[|trainings|], t, posterior[|trainings|])]
  {
    var n := |trainings|;
    var lhs := Frames(trainings + [t], posterior);
    var rhs := Frames(trainings, posterior) + [FrameOf(TLowers()[n], t, posterior[n])];
    forall k | 0 <= k < n + 1 ensures lhs[k] == rhs[k] {
      if k < n {
        assert (trainings + [t])[k] == trainings[k];
      }
    }
  }

  /** The sampler's draws for every bucket have one nonnegative weight per book that the
      bucket's training arrays include. */
  ghost predicate PosteriorFits(trainings: seq<Training>, posterior: seq<seq<seq<real>>>)
  {
    |trainings| == |TLowers()| && |posterior| == |TLowers()| &&
    forall k :: 0 <= k < |posterior| ==> FrameFits(FrameOf(TLowers()[k], trainings[k], posterior[k]))
  }

  /** One pass of the main loop: preprocess the table for bucket `k` and label the
      sampler's draws for it with the included books and the bucket's anchor. */
  method Bucket(outcome: seq<Record>, sportsbooks: seq<string>, k: nat, draws: seq<seq<real>>)
    returns (training: Training, frame: Frame)
    requires k < |TLowers()|
    ensures training == Preprocessed(outcome, TLowers()[k], TLowers()[k] + Increment, DefaultGames, sportsbooks)
    ensures frame == FrameOf(TLowers()[k], training, draws)
  {
    training := PreprocessOutcomeData(outcome, (TLowers()[k], TLowers()[k] + Increment), DefaultGames, sportsbooks);
    frame := FrameOf(TLowers()[k], training, draws);
  }

  /** The main loop for one league: for every bucket, preprocess the table and attach
      the sampler's draws `posterior[k]` under the bucket's anchor. */
  method BucketFrames(outcome: seq<Record>, sportsbooks: seq<string>, posterior: seq<seq<seq<real>>>)
    returns (ghost trainings: seq<Training>, frames: seq<Frame>)
    requires |posterior| == |TLowers()|
    ensures trainings == Trainings(outcome, sportsbooks, |TLowers()|)
    ensures frames == Frames(trainings, posterior)
  {
    trainings, frames := [], [];
    for k := 0 to |TLowers()|
      invariant trainings == Trainings(outcome, sportsbooks, k)
      invariant frames == Frames(trainings, posterior)
    {
      var training, frame := Bucket(outcome, sportsbooks, k, posterior[k]);
      TrainingsSnoc(outcome, sportsbooks, k);
      FramesSnoc(trainings, training, posterior);
      trainings, frames := trainings + [training], frames + [frame];
    }
  }

  /** Every frame has one nonnegative weight per book in each draw; with draws in every
      bucket, the stacked frames are a table `ModelCombination` accepts. */
  lemma FramesTable(trainings: seq<Training>, posterior: seq<seq<seq<real>>>)
    requires PosteriorFits(trainings, posterior)
    ensures var frames := Frames(trainings, posterior);
      (forall k :: 0 <= k < |frames| ==> FrameFits(frames[k])) &&
      ((forall k :: 0 <= k < |posterior| ==> |posterior[k]| > 0) ==>
        Combination.WeightTable(Stacked(frames, StackedColumns(frames)), StackedColumns(frames)))
  {
    var frames := Frames(trainings, posterior);
    if forall k :: 0 <= k < |posterior| ==> |posterior[k]| > 0 {
      assert |frames[0].draws| > 0 && |frames[1].draws| > 0;
      AnchorsOrdered(0, 1);
      StackedTable(frames, 0, 1);
    }
  }

  /** `estimate_weights` for one league: the bucket frames stacked with missing books
      filled by 0. When every bucket has draws, the result is a table
      `ModelCombination` accepts. */
  method EstimateWeights(outcome: seq<Record>, sportsbooks: seq<string>, posterior: seq<seq<seq<real>>>)
    returns (rows: seq<Combination.WeightRow>, columns: seq<string>)
    requires PosteriorFits(Trainings(outcome, sportsbooks, |TLowers()|), posterior)
    ensures var frames := Frames(Trainings(outcome, sportsbooks, |TLowers()|), posterior);
      (forall k :: 0 <= k < |frames| ==> FrameFits(frames[k])) &&
      columns == StackedColumns(frames) && rows == Stacked(frames, columns)
    ensures (forall k :: 0 <= k < |posterior| ==> |posterior[k]| > 0) ==> Combination.WeightTable(rows, columns)
  {
    ghost var trainings;
    var frames;
    trainings, frames := BucketFrames(outcome, sportsbooks, posterior);
    FramesTable(trainings, posterior);
    columns := StackedColumns(frames);
    rows := Stacked(frames, columns);
  }
}
