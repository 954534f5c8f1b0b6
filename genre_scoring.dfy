/** The genre-popularity scoring engine shared by the region reports:
    accumulate one row's values per genre, rank them with a stable
    descending sort, and normalise the first ten against the top score. */
module GenreScoring {

  import opened Wrappers
  import opened Sequences
  import opened ColumnNames

  /** The text column holding the region name; every other column is numeric. */
  const REGION_COLUMN: string := "Nom_region"

  /** How many genres a report lists (`sorted_genres[:10]`). */
  const TOP_COUNT: nat := 10

  /** One row of the genre/region/age table. */
  datatype Row = Row(regionName: string, cells: map<string, real>)

  /** The table as loaded: its column names in order and its rows. */
  datatype Table = Table(columns: seq<string>, rows: seq<Row>)

  /** The region column exists and every other column has a value in every row. */
  predicate WellFormed(t: Table) {
    && REGION_COLUMN in t.columns
    && forall i, c :: 0 <= i < |t.rows| && c in t.columns && c != REGION_COLUMN ==> c in t.rows[i].cells
  }

  predicate IsGenreColumn(col: string) {
    col != REGION_COLUMN
  }

  /** `[col for col in df.columns if col != 'Nom_region']`. */
  function GenreColumns(columns: seq<string>): (cols: seq<string>)
    ensures forall c :: c in cols <==> c in columns && c != REGION_COLUMN
  {
    var cols := Filter(columns, IsGenreColumn);
    forall c ensures c in cols <==> c in columns && c != REGION_COLUMN {
      FilterMembers(columns, IsGenreColumn, c);
    }
    cols
  }

  predicate CellsFor(row: Row, cols: seq<string>) {
    forall c :: c in cols ==> c in row.cells
  }

  /** No age restriction, or only the columns whose second token equals the
      requested group; a missing group (`None`) equals no token. */
  datatype AgeFilter = AnyAge | OnlyAge(group: Option<string>)

  predicate Admits(filter: AgeFilter, age: string) {
    filter.AnyAge? || filter.group == Some(age)
  }

  /** The genre a column adds to, if it adds to any. */
  function ColumnGenre(col: string, filter: AgeFilter): Option<string> {
    match Decode(col)
    case None => None
    case Some(key) => if Admits(filter, key.age) then Some(key.genre) else None
  }

  /** The genres in the order they are first met among the columns
      (the insertion order of the `genres_scores` dictionary). */
  function GenreOrder(cols: seq<string>, filter: AgeFilter): seq<string>
    decreases |cols|
  {
    if |cols| == 0 then []
    else
      var earlier := GenreOrder(cols[..|cols| - 1], filter);
      match ColumnGenre(cols[|cols| - 1], filter)
      case None => earlier
      case Some(g) => if g in earlier then earlier else earlier + [g]
  }

  /** The sum of the row's values over the columns that add to genre `g`. */
  function GenreTotal(row: Row, cols: seq<string>, filter: AgeFilter, g: string): real
    requires CellsFor(row, cols)
    decreases |cols|
  {
    if |cols| == 0 then 0.0
    else
      var c := cols[|cols| - 1];
      GenreTotal(row, cols[..|cols| - 1], filter, g) + (if ColumnGenre(c, filter) == Some(g) then row.cells[c] else 0.0)
  }

  /** A genre is listed exactly when some column adds to it. */
  lemma {:induction false} GenreOrderMembers(cols: seq<string>, filter: AgeFilter, g: string)
    ensures g in GenreOrder(cols, filter) <==> exists i :: 0 <= i < |cols| && ColumnGenre(cols[i], filter) == Some(g)
    decreases |cols|
  {
    if |cols| > 0 {
      var init := cols[..|cols| - 1];
      GenreOrderMembers(init, filter, g);
      assert forall i :: 0 <= i < |init| ==> init[i] == cols[i];
      if ColumnGenre(cols[|cols| - 1], filter) == Some(g) {
        assert g in GenreOrder(cols, filter);
      } else if g in GenreOrder(cols, filter) {
        var i :| 0 <= i < |init| && ColumnGenre(init[i], filter) == Some(g);
        assert ColumnGenre(cols[i], filter) == Some(g);
      }
    }
  }

  /** Each genre is listed once. */
  lemma {:induction false} GenreOrderDistinct(cols: seq<string>, filter: AgeFilter)
    ensures forall i, j :: 0 <= i < j < |GenreOrder(cols, filter)| ==> GenreOrder(cols, filter)[i] != GenreOrder(cols, filter)[j]
    decreases |cols|
  {
    if |cols| > 0 {
      GenreOrderDistinct(cols[..|cols| - 1], filter);
    }
  }

  /** With no age group, no column passes `age_group == age`. */
  lemma {:induction false} NoAgeGroupNoGenres(cols: seq<string>)
    ensures GenreOrder(cols, OnlyAge(None)) == []
    decreases |cols|
  {
    if |cols| > 0 {
      NoAgeGroupNoGenres(cols[..|cols| - 1]);
      assert ColumnGenre(cols[|cols| - 1], OnlyAge(None)) == None;
    }
  }

  /** A genre no column adds to totals zero. */
  lemma {:induction false} UnlistedGenreTotal(row: Row, cols: seq<string>, filter: AgeFilter, g: string)
    requires CellsFor(row, cols)
    requires g !in GenreOrder(cols, filter)
    ensures GenreTotal(row, cols, filter, g) == 0.0
    decreases |cols|
  {
    if |cols| > 0 {
      UnlistedGenreTotal(row, cols[..|cols| - 1], filter, g);
    }
  }

  /** Totals of non-negative cells are non-negative. */
  lemma {:induction false} GenreTotalNonNegative(row: Row, cols: seq<string>, filter: AgeFilter, g: string)
    requires CellsFor(row, cols)
    requires forall c :: c in cols ==> row.cells[c] >= 0.0
    ensures GenreTotal(row, cols, filter, g) >= 0.0
    decreases |cols|
  {
    if |cols| > 0 {
      GenreTotalNonNegative(row, cols[..|cols| - 1], filter, g);
    }
  }

  /** A (genre, raw score) pair of `genres_scores.items()`. */
  datatype Item = Item(genre: string, score: real)

  /** The items in dictionary order: each genre with its total. */
  function Totals(row: Row, cols: seq<string>, filter: AgeFilter): (items: seq<Item>)
    requires CellsFor(row, cols)
  {
    var order := GenreOrder(cols, filter);
    seq(|order|, i requires 0 <= i < |order| => Item(order[i], GenreTotal(row, cols, filter, order[i])))
  }

  /** The accumulation loop: one pass over the genre columns, adding each
      admitted value to its genre's entry, created at 0 on first sight. */
  method AccumulateScores(row: Row, cols: seq<string>, filter: AgeFilter) returns (order: seq<string>, scores: map<string, real>)
    requires CellsFor(row, cols)
    ensures order == GenreOrder(cols, filter)
    ensures forall g :: g in scores <==> g in order
    ensures forall g :: g in scores ==> scores[g] == GenreTotal(row, cols, filter, g)
  {
    order, scores := [], map[];
    var i := 0;
    while i < |cols|
      invariant 0 <= i <= |cols|
      invariant order == GenreOrder(cols[..i], filter)
      invariant forall g :: g in scores <==> g in order
      invariant forall g :: g in scores ==> scores[g] == GenreTotal(row, cols[..i], filter, g)
    {
      var col := cols[i];
      assert cols[..i + 1][..i] == cols[..i];
      assert cols[..i + 1][i] == col;
      ghost var before := scores;
      var parts := Split(col, SEPARATOR);
      if |parts| >= 2 {
        var genre, age := parts[0], parts[1];
        if Admits(filter, age) {
          if genre !in scores {
            scores := scores[genre := 0.0];
            order := order + [genre];
          }
          scores := scores[genre := scores[genre] + row.cells[col]];
        }
      }
      ghost var added := ColumnGenre(col, filter);
      assert added == if |parts| >= 2 && Admits(filter, parts[1]) then Some(parts[0]) else None;
      forall g | g in scores
        ensures scores[g] == GenreTotal(row, cols[..i + 1], filter, g)
      {
        assert GenreTotal(row, cols[..i + 1], filter, g)
          == GenreTotal(row, cols[..i], filter, g) + (if added == Some(g) then row.cells[col] else 0.0);
        if added != Some(g) {
          assert g in before && scores[g] == before[g];
        } else if g !in before {
          UnlistedGenreTotal(row, cols[..i], filter, g);
        }
      }
      i := i + 1;
    }
    assert cols[..i] == cols;
  }

  /** `genres_scores.items()` for the dictionary built above. */
  function Items(order: seq<string>, scores: map<string, real>): seq<Item>
    requires forall g :: g in order ==> g in scores
  {
    seq(|order|, i requires 0 <= i < |order| => Item(order[i], scores[order[i]]))
  }

  predicate SortedDesc(s: seq<Item>) {
    forall i, j :: 0 <= i < j < |s| ==> s[i].score >= s[j].score
  }

  /** Put `x` after every leading entry scoring at least as much as it, so
      that an entry never overtakes an equal one met before it. */
  function InsertDesc(x: Item, s: seq<Item>): (r: seq<Item>)
    requires SortedDesc(s)
    ensures SortedDesc(r)
    ensures |r| == |s| + 1 && (r[0] == x || (|s| > 0 && r[0] == s[0]))
  {
    if |s| == 0 then [x]
    else if s[0].score >= x.score then
      SortedTail(s);
      var rest := InsertDesc(x, s[1..]);
      SortedCons(s[0], rest);
      [s[0]] + rest
    else
      SortedCons(x, s);
      [x] + s
  }

  /** Insertion adds exactly `x` and loses nothing. */
  lemma {:induction false} InsertDescPermutes(x: Item, s: seq<Item>)
    requires SortedDesc(s)
    ensures multiset(InsertDesc(x, s)) == multiset(s) + multiset{x}
  {
    if |s| > 0 && s[0].score >= x.score {
      InsertDescBehind(x, s);
      InsertDescPermutes(x, s[1..]);
      assert s == [s[0]] + s[1..];
    }
  }

  lemma SortedTail(s: seq<Item>)
    requires SortedDesc(s) && |s| > 0
    ensures SortedDesc(s[1..])
    ensures |s| > 1 ==> s[0].score >= s[1].score
  {
    forall i, j | 0 <= i < j < |s| - 1
      ensures s[1..][i].score >= s[1..][j].score
    {
      assert s[1..][i] == s[i + 1] && s[1..][j] == s[j + 1];
    }
  }

  /** An entry scoring at least the head of a sorted sequence can lead it. */
  lemma SortedCons(h: Item, t: seq<Item>)
    requires SortedDesc(t)
    requires |t| > 0 ==> h.score >= t[0].score
    ensures SortedDesc([h] + t)
  {
    var r := [h] + t;
    forall i, j | 0 <= i < j < |r|
      ensures r[i].score >= r[j].score
    {
      assert r[j] == t[j - 1];
      if i > 0 {
        assert r[i] == t[i - 1];
      } else {
        assert t[0].score >= t[j - 1].score;
      }
    }
  }

  /** `sorted(items, key=lambda x: x[1], reverse=True)`: Python's sort is
      stable also when reversed, as insertion in this order is. */
  function SortDesc(items: seq<Item>): (r: seq<Item>)
    ensures SortedDesc(r)
    ensures |r| == |items|
    decreases |items|
  {
    if |items| == 0 then []
    else InsertDesc(items[|items| - 1], SortDesc(items[..|items| - 1]))
  }

  /** Sorting reorders the items and nothing else. */
  lemma {:induction false} SortDescPermutes(items: seq<Item>)
    ensures multiset(SortDesc(items)) == multiset(items)
    decreases |items|
  {
    if |items| > 0 {
      var init := items[..|items| - 1];
      SortDescPermutes(init);
      InsertDescPermutes(items[|items| - 1], SortDesc(init));
      MultisetOfLast(items);
    }
  }

  lemma MultisetOfLast(items: seq<Item>)
    requires |items| > 0
    ensures multiset(items) == multiset(items[..|items| - 1]) + multiset{items[|items| - 1]}
  {
    assert items == items[..|items| - 1] + [items[|items| - 1]];
  }

  function ScoreIs(v: real): Item -> bool {
    (it: Item) => it.score == v
  }

  lemma {:induction false} InsertDescKeepsTies(x: Item, s: seq<Item>, v: real)
    requires SortedDesc(s)
    ensures Filter(InsertDesc(x, s), ScoreIs(v)) == Filter(s, ScoreIs(v)) + (if x.score == v then [x] else [])
  {
    if |s| == 0 {
      assert InsertDesc(x, s) == [x];
      FilterSingleton(x, ScoreIs(v));
    } else if s[0].score >= x.score {
      InsertDescKeepsTies(x, s[1..], v);
      InsertBehindKeepsTies(x, s, v);
    } else {
      InsertInFrontKeepsTies(x, s, v);
    }
  }

  lemma InsertBehindKeepsTies(x: Item, s: seq<Item>, v: real)
    requires SortedDesc(s) && |s| > 0 && s[0].score >= x.score
    requires Filter(InsertDesc(x, s[1..]), ScoreIs(v)) == Filter(s[1..], ScoreIs(v)) + (if x.score == v then [x] else [])
    ensures Filter(InsertDesc(x, s), ScoreIs(v)) == Filter(s, ScoreIs(v)) + (if x.score == v then [x] else [])
  {
    InsertDescBehind(x, s);
    assert s == [s[0]] + s[1..];
    ConsKeepsSurplus(s[0], InsertDesc(x, s[1..]), s[1..], if x.score == v then [x] else [], ScoreIs(v));
  }

  lemma InsertDescBehind(x: Item, s: seq<Item>)
    requires SortedDesc(s) && |s| > 0 && s[0].score >= x.score
    ensures SortedDesc(s[1..])
    ensures InsertDesc(x, s) == [s[0]] + InsertDesc(x, s[1..])
  {
    SortedTail(s);
  }

  /** Putting the same element in front of two sequences keeps the
      difference between their filtered forms. */
  lemma ConsKeepsSurplus<T>(h: T, a: seq<T>, b: seq<T>, extra: seq<T>, p: T -> bool)
    requires Filter(a, p) == Filter(b, p) + extra
    ensures Filter([h] + a, p) == Filter([h] + b, p) + extra
  {
    FilterCons(h, a, p);
    FilterCons(h, b, p);
    ConcatAssoc(if p(h) then [h] else [], Filter(b, p), extra);
  }

  lemma InsertInFrontKeepsTies(x: Item, s: seq<Item>, v: real)
    requires SortedDesc(s) && |s| > 0 && s[0].score < x.score
    ensures Filter(InsertDesc(x, s), ScoreIs(v)) == Filter(s, ScoreIs(v)) + (if x.score == v then [x] else [])
  {
    var p := ScoreIs(v);
    assert InsertDesc(x, s) == [x] + s;
    FilterConcat([x], s, p);
    FilterSingleton(x, p);
    if x.score == v {
      assert forall i :: 0 <= i < |s| ==> s[i].score <= s[0].score < v;
      FilterNone(s, p);
    }
  }

  /** Stability: for every score value, the entries with that score keep
      their relative order, so ties stay in first-seen order. */
  lemma {:induction false} SortDescKeepsTies(items: seq<Item>, v: real)
    ensures Filter(SortDesc(items), ScoreIs(v)) == Filter(items, ScoreIs(v))
    decreases |items|
  {
    if |items| > 0 {
      var init, x := items[..|items| - 1], items[|items| - 1];
      assert items == init + [x];
      SortDescKeepsTies(init, v);
      InsertDescKeepsTies(x, SortDesc(init), v);
      FilterConcat(init, [x], ScoreIs(v));
      FilterSingleton(x, ScoreIs(v));
    }
  }

  /** Python's `round(x)` on an exact value: to the nearest integer, ties to even. */
  function RoundHalfEven(x: real): int {
    var f := x.Floor;
    var frac := x - f as real;
    if frac < 0.5 then f
    else if frac > 0.5 then f + 1
    else if f % 2 == 0 then f else f + 1
  }

  lemma RoundHalfEvenOfInteger(n: int)
    ensures RoundHalfEven(n as real) == n
  {
  }

  lemma RoundHalfEvenMonotone(x: real, y: real)
    requires x <= y
    ensures RoundHalfEven(x) <= RoundHalfEven(y)
  {
    var fx, fy := x.Floor, y.Floor;
    assert fx <= fy;
    if fx == fy {
      assert x - fx as real <= y - fy as real;
    } else {
      assert fx + 1 <= fy;
    }
  }

  /** The value of `min(10, round(score / max_score * 10, 1))`: the integer
      10 when the rounded value reaches 10 (Python's `min` keeps its first
      argument on a tie), otherwise the rounded value in tenths. */
  datatype Mark = Ten | Tenths(tenths: int)

  /** `score / max_score` needs a non-zero top score; with a zero one the
      caller raises `ZeroDivisionError` instead. */
  function Normalize(score: real, top: real): (m: Mark)
    requires top != 0.0
    ensures m.Tenths? ==> m.tenths < 100
    ensures score / top >= 1.0 ==> m == Ten
  {
    var y := score / top * 10.0 * 10.0;
    var t := RoundHalfEven(y);
    RoundHalfEvenOfInteger(100);
    assert y >= 100.0 ==> t >= 100 by {
      if y >= 100.0 {
        RoundHalfEvenMonotone(100.0, y);
      }
    }
    if t >= 100 then Ten else Tenths(t)
  }

  function MarkValue(m: Mark): real {
    if m.Ten? then 10.0 else m.tenths as real / 10.0
  }

  /** A product with a positive factor keeps the sign of the other factor. */
  lemma NonNegativeFactor(a: real, b: real)
    requires 0.0 < b && 0.0 <= a * b
    ensures 0.0 <= a
  {
  }

  /** Against a positive top score, a score between 0 and the top gets a
      mark between 0 and 10, and the top itself gets 10. */
  lemma NormalizeInRange(score: real, top: real)
    requires 0.0 < top && 0.0 <= score <= top
    ensures 0.0 <= MarkValue(Normalize(score, top)) <= 10.0
    ensures score == top ==> Normalize(score, top) == Ten
  {
    var q := score / top;
    assert q * top == score;
    assert (1.0 - q) * top == top - score;
    NonNegativeFactor(q, top);
    NonNegativeFactor(1.0 - q, top);
    var y := q * 10.0 * 10.0;
    assert 0.0 <= y <= 100.0;
    RoundHalfEvenMonotone(0.0, y);
    RoundHalfEvenMonotone(y, 100.0);
    RoundHalfEvenOfInteger(0);
    RoundHalfEvenOfInteger(100);
    if score == top {
      assert (q - 1.0) * top == 0.0;
      NonNegativeFactor(q - 1.0, top);
    }
  }

  /** One entry of a report: `{'genre', 'score', 'raw_score'}`. */
  datatype GenreScore = GenreScore(genre: string, score: Mark, rawScore: real)

  /** The `age_group` key: absent from plain region reports. */
  datatype AgeTag = Untagged | Tagged(group: Option<string>)

  /** The `region_data` dictionary. */
  datatype Report = Report(region: string, genres: seq<GenreScore>, ageGroup: AgeTag)

  function Min(a: nat, b: nat): nat {
    if a <= b then a else b
  }

  /** `max_score`: the first ranked score, or 1 when nothing was accumulated. */
  function TopScore(ranked: seq<Item>): real {
    if |ranked| > 0 then ranked[0].score else 1.0
  }

  /** The first ten ranked items, normalised against `top`. */
  function ScoredTop(ranked: seq<Item>, top: real): (genres: seq<GenreScore>)
    requires |ranked| > 0 ==> top != 0.0
  {
    seq(Min(TOP_COUNT, |ranked|), i requires 0 <= i < Min(TOP_COUNT, |ranked|) =>
      GenreScore(ranked[i].genre, Normalize(ranked[i].score, top), ranked[i].score))
  }

  /** The append loop over `sorted_genres[:10]`; `None` when its first
      division by a zero top score raises `ZeroDivisionError`. */
  method ScoreTop(ranked: seq<Item>, top: real) returns (genres: Option<seq<GenreScore>>)
    ensures genres.None? <==> |ranked| > 0 && top == 0.0
    ensures genres.Some? ==> |genres.value| == Min(TOP_COUNT, |ranked|)
    ensures genres.Some? ==> forall i :: 0 <= i < |genres.value| ==>
      genres.value[i] == GenreScore(ranked[i].genre, Normalize(ranked[i].score, top), ranked[i].score)
    ensures genres.Some? ==> genres.value == ScoredTop(ranked, top)
  {
    var head := if |ranked| <= TOP_COUNT then ranked else ranked[..TOP_COUNT];
    var appended := [];
    for i := 0 to |head|
      invariant |appended| == i
      invariant i > 0 ==> top != 0.0
      invariant forall k :: 0 <= k < i ==>
        appended[k] == GenreScore(ranked[k].genre, Normalize(ranked[k].score, top), ranked[k].score)
    {
      var item := head[i];
      if top == 0.0 {
        return None;
      }
      appended := appended + [GenreScore(item.genre, Normalize(item.score, top), item.score)];
    }
    genres := Some(appended);
  }

  function TagOf(filter: AgeFilter): AgeTag {
    match filter
    case AnyAge => Untagged
    case OnlyAge(group) => Tagged(group)
  }

  function LastRow(df: Table): Row
    requires |df.rows| > 0
  {
    df.rows[|df.rows| - 1]
  }

  lemma LastRowCells(df: Table)
    requires WellFormed(df) && |df.rows| > 0
    ensures CellsFor(LastRow(df), GenreColumns(df.columns))
  {
  }

  /** The ranked items of the row the report is built from. */
  function Ranked(df: Table, filter: AgeFilter): seq<Item>
    requires WellFormed(df) && |df.rows| > 0
  {
    LastRowCells(df);
    SortDesc(Totals(LastRow(df), GenreColumns(df.columns), filter))
  }

  /** Some genre contributes and the best total is zero, so the first
      `score / max_score` raises `ZeroDivisionError`. */
  predicate DividesByZero(df: Table, filter: AgeFilter) {
    && WellFormed(df) && |df.rows| > 0
    && var ranked := Ranked(df, filter);
      |ranked| > 0 && ranked[0].score == 0.0
  }

  /** The report the source builds: the loop over the rows only rebinds
      `row` and `region_data`, so the scores are those of the last row. */
  function ReportOf(df: Table, filter: AgeFilter): (report: Report)
    requires WellFormed(df) && |df.rows| > 0 && !DividesByZero(df, filter)
    ensures report.region == df.rows[|df.rows| - 1].regionName
    ensures report.ageGroup == TagOf(filter)
    ensures |report.genres| == Min(TOP_COUNT, |GenreOrder(GenreColumns(df.columns), filter)|)
  {
    var ranked := Ranked(df, filter);
    Report(LastRow(df).regionName, ScoredTop(ranked, TopScore(ranked)), TagOf(filter))
  }

  /** Lines 55-100 (and 120-168 for the age variant): the row loop, the
      accumulation, the sort, the top score and the append loop. */
  method BuildReport(df: Table, filter: AgeFilter) returns (report: Option<Report>)
    requires WellFormed(df) && |df.rows| > 0
    ensures report.None? <==> DividesByZero(df, filter)
    ensures report.Some? ==> report.value == ReportOf(df, filter)
  {
    var row := df.rows[0];
    var regionName := row.regionName;
    var i := 1;
    while i < |df.rows|
      invariant 1 <= i <= |df.rows|
      invariant row == df.rows[i - 1] && regionName == row.regionName
    {
      row := df.rows[i];
      regionName := row.regionName;
      i := i + 1;
    }
    var cols := GenreColumns(df.columns);
    var order, scores := AccumulateScores(row, cols, filter);
    var items := Items(order, scores);
    assert items == Totals(row, cols, filter);
    var ranked := SortDesc(items);
    var top := if |ranked| > 0 then ranked[0].score else 1.0;
    var genres := ScoreTop(ranked, top);
    if genres.None? {
      return None;
    }
    report := Some(Report(regionName, genres.value, TagOf(filter)));
  }

  /** The emitted raw scores never increase down the report. */
  lemma ReportIsRanked(df: Table, filter: AgeFilter)
    requires WellFormed(df) && |df.rows| > 0 && !DividesByZero(df, filter)
    ensures var g := ReportOf(df, filter).genres;
      forall i, j :: 0 <= i < j < |g| ==> g[i].rawScore >= g[j].rawScore
  {
  }

  /** The report lists the first `min(10, n)` ranked genres, in rank order,
      where `n` is the number of distinct contributing genres. */
  lemma ReportIsTopPrefix(df: Table, filter: AgeFilter)
    requires WellFormed(df) && |df.rows| > 0 && !DividesByZero(df, filter)
    ensures var g, ranked := ReportOf(df, filter).genres, Ranked(df, filter);
      && |ranked| == |GenreOrder(GenreColumns(df.columns), filter)|
      && |g| == Min(TOP_COUNT, |ranked|)
      && forall i :: 0 <= i < |g| ==> g[i].genre == ranked[i].genre && g[i].rawScore == ranked[i].score
  {
    LastRowCells(df);
    var items := Totals(LastRow(df), GenreColumns(df.columns), filter);
  }

  /** Each emitted genre is a contributing genre of the last row, and its
      raw score is the sum of that row over the genre's admitted columns. */
  lemma ReportScoresAreTotals(df: Table, filter: AgeFilter)
    requires WellFormed(df) && |df.rows| > 0 && !DividesByZero(df, filter)
    ensures var g, cols := ReportOf(df, filter).genres, GenreColumns(df.columns);
      forall i :: 0 <= i < |g| ==>
        && g[i].genre in GenreOrder(cols, filter)
        && g[i].rawScore == GenreTotal(LastRow(df), cols, filter, g[i].genre)
  {
    LastRowCells(df);
    var cols := GenreColumns(df.columns);
    var items := Totals(LastRow(df), cols, filter);
    var ranked := Ranked(df, filter);
    var g := ReportOf(df, filter).genres;
    forall i | 0 <= i < |g|
      ensures g[i].genre in GenreOrder(cols, filter)
      ensures g[i].rawScore == GenreTotal(LastRow(df), cols, filter, g[i].genre)
    {
      SortDescPermutes(items);
      assert ranked[i] in multiset(items);
      var k :| 0 <= k < |items| && items[k] == ranked[i];
    }
  }

  /** With non-negative cells every mark lies in [0, 10] and the first
      genre gets exactly 10 whenever the report is built at all. */
  lemma ReportMarksInRange(df: Table, filter: AgeFilter)
    requires WellFormed(df) && |df.rows| > 0 && !DividesByZero(df, filter)
    requires forall c :: c in GenreColumns(df.columns) ==> LastRow(df).cells[c] >= 0.0
    ensures var g := ReportOf(df, filter).genres;
      && (forall i :: 0 <= i < |g| ==> 0.0 <= MarkValue(g[i].score) <= 10.0)
      && (|g| > 0 ==> g[0].score == Ten)
  {
    ReportScoresAreTotals(df, filter);
    var g := ReportOf(df, filter).genres;
    var ranked := Ranked(df, filter);
    var top := TopScore(ranked);
    if |g| > 0 {
      GenreTotalNonNegative(LastRow(df), GenreColumns(df.columns), filter, g[0].genre);
      assert top == g[0].rawScore;
    }
    forall i | 0 <= i < |g|
      ensures 0.0 <= MarkValue(g[i].score) <= 10.0
      ensures i == 0 ==> g[i].score == Ten
    {
      GenreTotalNonNegative(LastRow(df), GenreColumns(df.columns), filter, g[i].genre);
      NormalizeInRange(ranked[i].score, top);
    }
  }

  /** With non-negative cells, the division by zero happens exactly when
      some genre contributes and every contributing genre totals zero. */
  lemma ZeroTopIffAllZero(df: Table, filter: AgeFilter)
    requires WellFormed(df) && |df.rows| > 0
    requires forall c :: c in GenreColumns(df.columns) ==> LastRow(df).cells[c] >= 0.0
    ensures var cols := GenreColumns(df.columns);
      DividesByZero(df, filter) <==>
        && |GenreOrder(cols, filter)| > 0
        && forall g :: g in GenreOrder(cols, filter) ==> GenreTotal(LastRow(df), cols, filter, g) == 0.0
  {
    LastRowCells(df);
    var cols, row := GenreColumns(df.columns), LastRow(df);
    var order := GenreOrder(cols, filter);
    var items := Totals(row, cols, filter);
    var ranked := Ranked(df, filter);
    SortDescPermutes(items);
    assert |ranked| == |items| == |order| by {
      assert |multiset(ranked)| == |multiset(items)|;
    }
    if DividesByZero(df, filter) {
      forall g | g in order
        ensures GenreTotal(row, cols, filter, g) == 0.0
      {
        var k :| 0 <= k < |order| && order[k] == g;
        assert items[k] in multiset(ranked);
        var j :| 0 <= j < |ranked| && ranked[j] == items[k];
        assert j == 0 || ranked[0].score >= ranked[j].score;
        GenreTotalNonNegative(row, cols, filter, g);
      }
    }
    if |order| > 0 && forall g :: g in order ==> GenreTotal(row, cols, filter, g) == 0.0 {
      assert ranked[0] in multiset(items);
      var k :| 0 <= k < |items| && items[k] == ranked[0];
      assert order[k] in order;
    }
  }

  /** Without an age group the age report lists no genre at all. */
  lemma ReportWithoutAgeGroupIsEmpty(df: Table)
    requires WellFormed(df) && |df.rows| > 0
    ensures !DividesByZero(df, OnlyAge(None))
    ensures ReportOf(df, OnlyAge(None)).genres == []
  {
    NoAgeGroupNoGenres(GenreColumns(df.columns));
  }
}
