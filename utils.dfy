/** The two report entry points of the recommendations helpers: the guards
    on the loaded table and on the requested region, the region filter, and
    the shape of the answer (one bare report, or a list of one report). */
module Utils {

  import opened Wrappers
  import opened Sequences
  import opened GenreScoring

  /** What an entry point hands back: an `{"error": …}` dictionary, the bare
      report of a requested region, the list of reports without a region,
      or an exception escaping the call. */
  datatype Response =
    | Failure(message: string)
    | Single(report: Report)
    | Listing(reports: seq<Report>)
    | Raised(exception: string)

  /** Python truthiness of the optional `region` argument. */
  predicate Truthy(region: Option<string>) {
    region.Some? && region.value != ""
  }

  /** The values of the `Nom_region` column, in row order. */
  function RegionNames(t: Table): (names: seq<string>)
    ensures |names| == |t.rows|
    ensures forall i :: 0 <= i < |t.rows| ==> names[i] == t.rows[i].regionName
  {
    seq(|t.rows|, i requires 0 <= i < |t.rows| => t.rows[i].regionName)
  }

  function InRegion(name: string): Row -> bool {
    (r: Row) => r.regionName == name
  }

  /** `df[df['Nom_region'] == name]`. */
  function OnlyRegion(t: Table, name: string): Table {
    Table(t.columns, Filter(t.rows, InRegion(name)))
  }

  /** The two entry points word the missing-data error differently. */
  function NotLoadedMessage(filter: AgeFilter): string {
    if filter.AnyAge? then "Données non chargées." else "Données pas chargées"
  }

  function NotFoundMessage(region: string): string {
    "Région '" + region + "' non trouvée."
  }

  /** A truthy region that no row carries is refused by the region guard. */
  predicate Rejected(t: Table, region: Option<string>) {
    Truthy(region) && region.value !in RegionNames(t)
  }

  /** The rows the report loops run over: the region's rows for a truthy
      region, the whole table otherwise. */
  function Selected(t: Table, region: Option<string>): Table {
    if Truthy(region) then OnlyRegion(t, region.value) else t
  }

  /** The answer for a loaded table, from the region guard on. With no row
      left, the row loop never binds the locals `row` and `region_data`, and
      reading them raises `UnboundLocalError`; a zero best total raises
      `ZeroDivisionError` in the normalisation. */
  function RespondLoaded(t: Table, region: Option<string>, filter: AgeFilter): (r: Response)
    requires WellFormed(t)
    ensures r.Single? ==> Truthy(region)
    ensures r.Listing? ==> !Truthy(region) && |r.reports| == 1
    ensures r.Failure? <==> Rejected(t, region)
    ensures r == Raised("UnboundLocalError") <==> !Rejected(t, region) && |Selected(t, region).rows| == 0
    ensures r == Raised("ZeroDivisionError") <==> !Rejected(t, region) && DividesByZero(Selected(t, region), filter)
    ensures r.Raised? ==> r.exception == "UnboundLocalError" || r.exception == "ZeroDivisionError"
  {
    if Rejected(t, region) then Failure(NotFoundMessage(region.value))
    else
      var df := Selected(t, region);
      OnlyRegionWellFormed(t, if Truthy(region) then region.value else "");
      if |df.rows| == 0 then Raised("UnboundLocalError")
      else if DividesByZero(df, filter) then Raised("ZeroDivisionError")
      else if Truthy(region) then Single(ReportOf(df, filter))
      else Listing([ReportOf(df, filter)])
  }

  /** `get_popular_genres_by_region` (filter `AnyAge`) and
      `get_popular_genres_by_region_and_age` (filter `OnlyAge(age_group)`):
      an absent table or one without rows is refused first. */
  function GenresResponse(table: Option<Table>, region: Option<string>, filter: AgeFilter): (r: Response)
    requires table.Some? ==> WellFormed(table.value)
    ensures r.Failure? && r.message == NotLoadedMessage(filter) <==> table.None? || |table.value.rows| == 0
  {
    if table.None? || |table.value.rows| == 0 then Failure(NotLoadedMessage(filter))
    else
      NotFoundIsNotNotLoaded(if region.Some? then region.value else "", filter);
      RespondLoaded(table.value, region, filter)
  }

  lemma NotFoundIsNotNotLoaded(region: string, filter: AgeFilter)
    ensures NotFoundMessage(region) != NotLoadedMessage(filter)
  {
    assert NotFoundMessage(region)[0] == 'R';
    assert NotLoadedMessage(filter)[0] == 'D';
  }

  /** Filtering rows keeps the columns and keeps every row complete. */
  lemma OnlyRegionWellFormed(t: Table, name: string)
    requires WellFormed(t)
    ensures WellFormed(OnlyRegion(t, name))
  {
    var rows := OnlyRegion(t, name).rows;
    forall i, c | 0 <= i < |rows| && c in t.columns && c != REGION_COLUMN
      ensures c in rows[i].cells
    {
      FilterMembers(t.rows, InRegion(name), rows[i]);
      var k :| 0 <= k < |t.rows| && t.rows[k] == rows[i];
    }
  }

  /** A region that occurs keeps at least one row, and every kept row is
      one of that region. */
  lemma OnlyRegionRows(t: Table, name: string)
    ensures forall i :: 0 <= i < |OnlyRegion(t, name).rows| ==> OnlyRegion(t, name).rows[i].regionName == name
    ensures name in RegionNames(t) <==> |OnlyRegion(t, name).rows| > 0
  {
    var rows := OnlyRegion(t, name).rows;
    forall i | 0 <= i < |rows|
      ensures rows[i].regionName == name
    {
      FilterMembers(t.rows, InRegion(name), rows[i]);
    }
    if name in RegionNames(t) {
      var k :| 0 <= k < |t.rows| && RegionNames(t)[k] == name;
      FilterMembers(t.rows, InRegion(name), t.rows[k]);
    }
    if |rows| > 0 {
      FilterMembers(t.rows, InRegion(name), rows[0]);
      var k :| 0 <= k < |t.rows| && t.rows[k] == rows[0];
      assert RegionNames(t)[k] == name;
    }
  }

  /** The region guard rejects a requested region that no row carries. */
  lemma UnknownRegionIsRejected(table: Option<Table>, region: Option<string>, filter: AgeFilter)
    requires table.Some? ==> WellFormed(table.value)
    requires table.Some? && |table.value.rows| > 0
    requires Truthy(region) && region.value !in RegionNames(table.value)
    ensures GenresResponse(table, region, filter) == Failure(NotFoundMessage(region.value))
  {
  }

  /** A requested region that occurs gets exactly one bare report, built
      from the last of that region's rows and named after it, unless its
      best total is zero. */
  lemma KnownRegionGetsItsReport(table: Option<Table>, region: Option<string>, filter: AgeFilter)
    requires table.Some? ==> WellFormed(table.value)
    requires table.Some? && |table.value.rows| > 0
    requires Truthy(region) && region.value in RegionNames(table.value)
    ensures var df := OnlyRegion(table.value, region.value);
      && WellFormed(df) && |df.rows| > 0
      && (DividesByZero(df, filter) ==> GenresResponse(table, region, filter) == Raised("ZeroDivisionError"))
      && (!DividesByZero(df, filter) ==>
        && GenresResponse(table, region, filter) == Single(ReportOf(df, filter))
        && ReportOf(df, filter).region == region.value)
  {
    var df := OnlyRegion(table.value, region.value);
    OnlyRegionWellFormed(table.value, region.value);
    OnlyRegionRows(table.value, region.value);
    assert LastRow(df).regionName == region.value;
  }

  /** An empty or absent region skips the filter: a one-element list whose
      report comes from the last row of the whole table, unless its best
      total is zero. */
  lemma NoRegionListsLastRow(table: Option<Table>, region: Option<string>, filter: AgeFilter)
    requires table.Some? ==> WellFormed(table.value)
    requires table.Some? && |table.value.rows| > 0
    requires !Truthy(region)
    ensures DividesByZero(table.value, filter) ==> GenresResponse(table, region, filter) == Raised("ZeroDivisionError")
    ensures !DividesByZero(table.value, filter) ==>
      && GenresResponse(table, region, filter) == Listing([ReportOf(table.value, filter)])
      && ReportOf(table.value, filter).region == table.value.rows[|table.value.rows| - 1].regionName
  {
  }

  /** Behind the table guard no row is ever missing, so `UnboundLocalError`
      never escapes these entry points (and `Aucune donnée pour la région`
      is never produced); the one exception is the division by a zero best
      total. */
  lemma GenresResponseRaisesOnlyOnZeroTop(table: Option<Table>, region: Option<string>, filter: AgeFilter)
    requires table.Some? ==> WellFormed(table.value)
    ensures GenresResponse(table, region, filter).Raised? ==> GenresResponse(table, region, filter) == Raised("ZeroDivisionError")
    ensures GenresResponse(table, region, filter) == Raised("ZeroDivisionError") <==>
      && table.Some? && |table.value.rows| > 0 && !Rejected(table.value, region)
      && DividesByZero(Selected(table.value, region), filter)
  {
    if table.Some? && |table.value.rows| > 0 && Truthy(region) && region.value in RegionNames(table.value) {
      OnlyRegionRows(table.value, region.value);
    }
  }

  /** The answer for a loaded, well-formed table, computed as the source
      does: the region guard, the filter, then the report loops. */
  method Respond(t: Table, region: Option<string>, filter: AgeFilter) returns (r: Response)
    requires WellFormed(t)
    ensures r == RespondLoaded(t, region, filter)
  {
    var df := t;
    if Truthy(region) {
      if region.value !in RegionNames(t) {
        return Failure(NotFoundMessage(region.value));
      }
      df := OnlyRegion(t, region.value);
    }
    OnlyRegionWellFormed(t, if Truthy(region) then region.value else "");
    if |df.rows| == 0 {
      return Raised("UnboundLocalError");
    }
    var report := BuildReport(df, filter);
    if report.None? {
      return Raised("ZeroDivisionError");
    }
    if Truthy(region) {
      r := Single(report.value);
    } else {
      r := Listing([report.value]);
    }
  }

  /** `get_popular_genres_by_region(df, region)`. */
  method PopularGenresByRegion(table: Option<Table>, region: Option<string>) returns (r: Response)
    requires table.Some? ==> WellFormed(table.value)
    ensures r == GenresResponse(table, region, AnyAge)
  {
    if table.None? || |table.value.rows| == 0 {
      return Failure(NotLoadedMessage(AnyAge));
    }
    r := Respond(table.value, region, AnyAge);
  }

  /** `get_popular_genres_by_region_and_age(df, region, age_group)`. */
  method PopularGenresByRegionAndAge(table: Option<Table>, region: Option<string>, ageGroup: Option<string>) returns (r: Response)
    requires table.Some? ==> WellFormed(table.value)
    ensures r == GenresResponse(table, region, OnlyAge(ageGroup))
  {
    if table.None? || |table.value.rows| == 0 {
      return Failure(NotLoadedMessage(OnlyAge(ageGroup)));
    }
    r := Respond(table.value, region, OnlyAge(ageGroup));
  }
}
