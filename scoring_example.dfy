/** The scoring engine on a one-row table with three genre columns. */
module ScoringExample {

  import opened Wrappers
  import opened Sequences
  import opened ColumnNames
  import opened GenreScoring

  /** A name written `genre_age` decodes to that genre and age band. */
  lemma DecodeOf(genre: string, age: string, col: string)
    requires SEPARATOR !in genre && SEPARATOR !in age
    requires col == genre + [SEPARATOR] + age
    ensures Decode(col) == Some(ColumnKey(genre, age))
  {
    assert Join([genre, age], SEPARATOR) == col;
    SplitJoin([genre, age], SEPARATOR);
  }

  /** Three columns: `a` adds to `x`, `b` to `x` when `bCounts` and to
      nothing otherwise, `c` to `y`. */
  predicate ThreeColumns(filter: AgeFilter, a: string, b: string, c: string, bCounts: bool, x: string, y: string) {
    && ColumnGenre(a, filter) == Some(x) && ColumnGenre(c, filter) == Some(y) && x != y
    && ColumnGenre(b, filter) == if bCounts then Some(x) else None
  }

  lemma ThreeColumnOrder(filter: AgeFilter, a: string, b: string, c: string, bCounts: bool, x: string, y: string)
    requires ThreeColumns(filter, a, b, c, bCounts, x, y)
    ensures GenreOrder([a, b, c], filter) == [x, y]
  {
    assert [a][..0] == [] && [a, b][..1] == [a] && [a, b, c][..2] == [a, b];
    assert GenreOrder([a], filter) == [x];
    assert GenreOrder([a, b], filter) == [x];
  }

  lemma ThreeColumnTotals(row: Row, filter: AgeFilter, a: string, b: string, c: string, bCounts: bool, x: string, y: string)
    requires ThreeColumns(filter, a, b, c, bCounts, x, y)
    requires CellsFor(row, [a, b, c])
    ensures GenreTotal(row, [a, b, c], filter, x) == row.cells[a] + (if bCounts then row.cells[b] else 0.0)
    ensures GenreTotal(row, [a, b, c], filter, y) == row.cells[c]
  {
    assert [a][..0] == [] && [a, b][..1] == [a] && [a, b, c][..2] == [a, b];
    assert GenreTotal(row, [a], filter, x) == row.cells[a];
    assert GenreTotal(row, [a], filter, y) == 0.0;
  }

  lemma ThreeColumnItems(row: Row, filter: AgeFilter, a: string, b: string, c: string, bCounts: bool, x: string, y: string)
    requires ThreeColumns(filter, a, b, c, bCounts, x, y)
    requires CellsFor(row, [a, b, c])
    ensures Totals(row, [a, b, c], filter) ==
      [Item(x, row.cells[a] + (if bCounts then row.cells[b] else 0.0)), Item(y, row.cells[c])]
  {
    ThreeColumnOrder(filter, a, b, c, bCounts, x, y);
    ThreeColumnTotals(row, filter, a, b, c, bCounts, x, y);
  }

  lemma GenreColumnsOfThree(a: string, b: string, c: string)
    requires a != REGION_COLUMN && b != REGION_COLUMN && c != REGION_COLUMN
    ensures GenreColumns([REGION_COLUMN, a, b, c]) == [a, b, c]
  {
    FilterCons(REGION_COLUMN, [a, b, c], IsGenreColumn);
    FilterAll([a, b, c], IsGenreColumn);
  }

  /** Two items already in descending order stay as they are. */
  lemma SortTwo(p: Item, q: Item)
    requires p.score >= q.score
    ensures SortDesc([p, q]) == [p, q]
  {
    assert [p, q][..1] == [p];
    assert SortDesc([p]) == [p];
  }

  lemma ThreeColumnRanked(df: Table, filter: AgeFilter, a: string, b: string, c: string, bCounts: bool, x: string, y: string)
    requires df.columns == [REGION_COLUMN, a, b, c] && a != REGION_COLUMN && b != REGION_COLUMN && c != REGION_COLUMN
    requires WellFormed(df) && |df.rows| == 1 && CellsFor(df.rows[0], [a, b, c])
    requires ThreeColumns(filter, a, b, c, bCounts, x, y)
    requires var cells := df.rows[0].cells;
      cells[a] + (if bCounts then cells[b] else 0.0) >= cells[c]
    ensures var cells := df.rows[0].cells;
      Ranked(df, filter) == [Item(x, cells[a] + (if bCounts then cells[b] else 0.0)), Item(y, cells[c])]
  {
    var row := df.rows[0];
    GenreColumnsOfThree(a, b, c);
    assert LastRow(df) == row;
    assert Ranked(df, filter) == SortDesc(Totals(row, [a, b, c], filter));
    ThreeColumnItems(row, filter, a, b, c, bCounts, x, y);
    SortTwo(Item(x, row.cells[a] + (if bCounts then row.cells[b] else 0.0)), Item(y, row.cells[c]));
  }

  /** A one-row table with three genre columns reports both genres, the
      larger total first and normalised against itself; a zero larger total
      divides by zero instead. */
  lemma ThreeColumnReport(df: Table, filter: AgeFilter, a: string, b: string, c: string, bCounts: bool, x: string, y: string)
    requires df.columns == [REGION_COLUMN, a, b, c] && a != REGION_COLUMN && b != REGION_COLUMN && c != REGION_COLUMN
    requires WellFormed(df) && |df.rows| == 1 && CellsFor(df.rows[0], [a, b, c])
    requires ThreeColumns(filter, a, b, c, bCounts, x, y)
    requires var cells := df.rows[0].cells;
      cells[a] + (if bCounts then cells[b] else 0.0) >= cells[c]
    ensures var cells := df.rows[0].cells;
      DividesByZero(df, filter) <==> cells[a] + (if bCounts then cells[b] else 0.0) == 0.0
    ensures var cells := df.rows[0].cells;
      var vx, vy := cells[a] + (if bCounts then cells[b] else 0.0), cells[c];
      vx != 0.0 ==> ReportOf(df, filter) == Report(df.rows[0].regionName,
        [GenreScore(x, Normalize(vx, vx), vx), GenreScore(y, Normalize(vy, vx), vy)], TagOf(filter))
  {
    ThreeColumnRanked(df, filter, a, b, c, bCounts, x, y);
  }
}

/** The two reports of a one-region table, with and without an age group. */
module NorthExample {

  import opened Wrappers
  import opened ColumnNames
  import opened GenreScoring
  import opened ScoringExample

  /** One region with `rock_young` 10, `rock_old` 4 and `pop_young` 8. */
  function North(region: string): Table {
    Table([REGION_COLUMN, "rock_young", "rock_old", "pop_young"],
      [Row(region, map["rock_young" := 10.0, "rock_old" := 4.0, "pop_young" := 8.0])])
  }

  lemma NorthShape(region: string)
    ensures WellFormed(North(region)) && CellsFor(North(region).rows[0], ["rock_young", "rock_old", "pop_young"])
  {
  }

  lemma RockYoung(filter: AgeFilter)
    ensures ColumnGenre("rock_young", filter) == if Admits(filter, "young") then Some("rock") else None
  {
    DecodeOf("rock", "young", "rock_young");
  }

  lemma RockOld(filter: AgeFilter)
    ensures ColumnGenre("rock_old", filter) == if Admits(filter, "old") then Some("rock") else None
  {
    DecodeOf("rock", "old", "rock_old");
  }

  lemma PopYoung(filter: AgeFilter)
    ensures ColumnGenre("pop_young", filter) == if Admits(filter, "young") then Some("pop") else None
  {
    DecodeOf("pop", "young", "pop_young");
  }

  lemma NorthColumnsAllAges()
    ensures ThreeColumns(AnyAge, "rock_young", "rock_old", "pop_young", true, "rock", "pop")
  {
    RockYoung(AnyAge);
    RockOld(AnyAge);
    PopYoung(AnyAge);
  }

  lemma NorthColumnsYoung()
    ensures ThreeColumns(OnlyAge(Some("young")), "rock_young", "rock_old", "pop_young", false, "rock", "pop")
  {
    RockYoung(OnlyAge(Some("young")));
    RockOld(OnlyAge(Some("young")));
    PopYoung(OnlyAge(Some("young")));
  }

  /** `round(8 / 14 * 10, 1)` is 5.7 and `round(8 / 10 * 10, 1)` is 8.0. */
  lemma NorthMarks()
    ensures Normalize(14.0, 14.0) == Ten && Normalize(8.0, 14.0) == Tenths(57)
    ensures Normalize(10.0, 10.0) == Ten && Normalize(8.0, 10.0) == Tenths(80)
  {
    assert RoundHalfEven(8.0 / 14.0 * 10.0 * 10.0) == 57;
  }

  lemma NorthRanked(region: string, filter: AgeFilter)
    ensures WellFormed(North(region))
    ensures Ranked(North(region), filter) == SortDesc(Totals(North(region).rows[0], ["rock_young", "rock_old", "pop_young"], filter))
  {
    NorthShape(region);
    GenreColumnsOfThree("rock_young", "rock_old", "pop_young");
  }

  lemma NorthTotalsAllAges(region: string)
    ensures Totals(North(region).rows[0], ["rock_young", "rock_old", "pop_young"], AnyAge) == [Item("rock", 14.0), Item("pop", 8.0)]
  {
    NorthShape(region);
    NorthColumnsAllAges();
    ThreeColumnItems(North(region).rows[0], AnyAge, "rock_young", "rock_old", "pop_young", true, "rock", "pop");
  }

  lemma NorthTotalsYoung(region: string)
    ensures Totals(North(region).rows[0], ["rock_young", "rock_old", "pop_young"], OnlyAge(Some("young"))) == [Item("rock", 10.0), Item("pop", 8.0)]
  {
    NorthShape(region);
    NorthColumnsYoung();
    ThreeColumnItems(North(region).rows[0], OnlyAge(Some("young")), "rock_young", "rock_old", "pop_young", false, "rock", "pop");
  }

  lemma NorthRankedAllAges(region: string)
    ensures WellFormed(North(region))
    ensures Ranked(North(region), AnyAge) == [Item("rock", 14.0), Item("pop", 8.0)]
  {
    NorthRanked(region, AnyAge);
    NorthTotalsAllAges(region);
    SortTwo(Item("rock", 14.0), Item("pop", 8.0));
  }

  lemma NorthRankedYoung(region: string)
    ensures WellFormed(North(region))
    ensures Ranked(North(region), OnlyAge(Some("young"))) == [Item("rock", 10.0), Item("pop", 8.0)]
  {
    NorthRanked(region, OnlyAge(Some("young")));
    NorthTotalsYoung(region);
    SortTwo(Item("rock", 10.0), Item("pop", 8.0));
  }

  /** Over all ages rock totals 14 and gets 10/10, pop totals 8 and gets 5.7/10. */
  lemma NorthAllAges(region: string)
    ensures WellFormed(North(region)) && !DividesByZero(North(region), AnyAge)
    ensures ReportOf(North(region), AnyAge) ==
      Report(region, [GenreScore("rock", Ten, 14.0), GenreScore("pop", Tenths(57), 8.0)], Untagged)
  {
    NorthRankedAllAges(region);
    NorthMarks();
  }

  /** For the `young` band rock totals 10 and gets 10/10, pop totals 8 and
      gets 8.0/10, and the report carries the band. */
  lemma NorthYoung(region: string)
    ensures WellFormed(North(region)) && !DividesByZero(North(region), OnlyAge(Some("young")))
    ensures ReportOf(North(region), OnlyAge(Some("young"))) ==
      Report(region, [GenreScore("rock", Ten, 10.0), GenreScore("pop", Tenths(80), 8.0)], Tagged(Some("young")))
  {
    NorthRankedYoung(region);
    NorthMarks();
  }
}
