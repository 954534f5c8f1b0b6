/** The recommendation service object: it keeps the table read at start-up
    and a `data_loaded` flag, and answers the same two report requests as
    the helper functions, guarding on the flag instead of on the table. */
module Musique {

  import opened Wrappers
  import opened GenreScoring
  import opened Utils

  /** The answer of a service whose flag is `loaded` and whose stored table
      is `table`. Only the flag is checked: a loaded table without rows
      raises `UnboundLocalError` rather than being refused. */
  function ServiceResponse(loaded: bool, table: Option<Table>, region: Option<string>, filter: AgeFilter): (r: Response)
    requires loaded ==> table.Some? && WellFormed(table.value)
    ensures r.Failure? && r.message == NotLoadedMessage(filter) <==> !loaded
    ensures r == Raised("UnboundLocalError") <==> loaded && |table.value.rows| == 0 && !Truthy(region)
    ensures r == Raised("ZeroDivisionError") <==>
      loaded && !Rejected(table.value, region) && DividesByZero(Selected(table.value, region), filter)
  {
    if !loaded then Failure(NotLoadedMessage(filter))
    else
      var name := if region.Some? then region.value else "";
      NotFoundIsNotNotLoaded(name, filter);
      OnlyRegionRows(table.value, name);
      RespondLoaded(table.value, region, filter)
  }

  /** On a loaded table with rows, the service and the helper functions give
      the same answer. */
  lemma ServiceAgreesWithHelpers(table: Table, region: Option<string>, filter: AgeFilter)
    requires WellFormed(table) && |table.rows| > 0
    ensures ServiceResponse(true, Some(table), region, filter) == GenresResponse(Some(table), region, filter)
  {
  }

  class MusiqueService {
    var dataLoaded: bool
    var genreRegionAge: Option<Table>

    /** A loaded flag always comes with a stored, well-formed table. */
    predicate Valid()
      reads this
    {
      dataLoaded ==> genreRegionAge.Some? && WellFormed(genreRegionAge.value)
    }

    /** `__init__` followed by `load_data`: the outcome of reading the CSV
        file is given, `None` when reading failed. */
    constructor(loaded: Option<Table>)
      requires loaded.Some? ==> WellFormed(loaded.value)
      ensures Valid()
      ensures dataLoaded == loaded.Some? && genreRegionAge == loaded
    {
      dataLoaded := loaded.Some?;
      genreRegionAge := loaded;
    }

    /** `get_popular_genres_by_region(region)`; the stored table is only read. */
    method PopularGenresByRegion(region: Option<string>) returns (r: Response)
      requires Valid()
      ensures r == ServiceResponse(dataLoaded, genreRegionAge, region, AnyAge)
    {
      if !dataLoaded {
        return Failure(NotLoadedMessage(AnyAge));
      }
      r := Respond(genreRegionAge.value, region, AnyAge);
    }

    /** `get_popular_genres_by_region_and_age(region, age_group)`. */
    method PopularGenresByRegionAndAge(region: Option<string>, ageGroup: Option<string>) returns (r: Response)
      requires Valid()
      ensures r == ServiceResponse(dataLoaded, genreRegionAge, region, OnlyAge(ageGroup))
    {
      if !dataLoaded {
        return Failure(NotLoadedMessage(OnlyAge(ageGroup)));
      }
      r := Respond(genreRegionAge.value, region, OnlyAge(ageGroup));
    }
  }
}
