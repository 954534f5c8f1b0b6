/** The artist-side track service: the genre and region filters over the
    track table, the `m:ss` duration rendering, the projection onto the
    display columns, and the selection of the metric columns to analyse. */
module TrackCatalog {

  import opened Wrappers
  import opened Sequences
  import opened Numerals
  import GenreScoring
  import opened Utils

  /** A cell of `all_genres` or `regions_recommandees`: a Python list, or any
      other value, represented by its `str(...)` text. */
  datatype Cell = ListCell(items: seq<string>) | Scalar(text: string)

  predicate IsPrefix(p: string, s: string) {
    |p| <= |s| && s[..|p|] == p
  }

  /** Python's `needle in hay` on strings. */
  predicate IsSubstring(needle: string, hay: string)
    decreases |hay|
  {
    IsPrefix(needle, hay) || (|hay| > 0 && IsSubstring(needle, hay[1..]))
  }

  /** The needle sits in the haystack at offset `k`. */
  predicate OccursAt(needle: string, hay: string, k: int) {
    0 <= k && k + |needle| <= |hay| && hay[k..k + |needle|] == needle
  }

  /** The substring test holds exactly when the needle sits at some offset. */
  lemma {:induction false} IsSubstringAt(needle: string, hay: string)
    ensures IsSubstring(needle, hay) <==> exists k :: OccursAt(needle, hay, k)
    decreases |hay|
  {
    if IsPrefix(needle, hay) {
      assert OccursAt(needle, hay, 0);
    } else if |hay| > 0 {
      IsSubstringAt(needle, hay[1..]);
      if IsSubstring(needle, hay[1..]) {
        var k :| OccursAt(needle, hay[1..], k);
        assert hay[k + 1..k + 1 + |needle|] == hay[1..][k..k + |needle|];
        assert OccursAt(needle, hay, k + 1);
      }
      if exists k :: OccursAt(needle, hay, k) {
        var k :| OccursAt(needle, hay, k);
        assert k != 0;
        assert hay[1..][k - 1..k - 1 + |needle|] == hay[k..k + |needle|];
        assert OccursAt(needle, hay[1..], k - 1);
      }
    }
  }

  /** `contains_genre` / `contains_region`: list membership for a list, a
      substring test on its text otherwise. */
  predicate Contains(cell: Cell, needle: string)
    ensures cell.ListCell? ==> (Contains(cell, needle) <==> needle in cell.items)
    ensures cell.Scalar? ==> (Contains(cell, needle) <==> exists k :: OccursAt(needle, cell.text, k))
  {
    match cell
    case ListCell(items) => needle in items
    case Scalar(text) => IsSubstringAt(needle, text); IsSubstring(needle, text)
  }

  /** One row of the track table; `duration` is a whole number of seconds. */
  datatype Track = Track(title: string, artistName: string, duration: nat, allGenres: Cell, regions: Cell)

  /** The track table: its column names in order and its rows. */
  datatype TrackTable = TrackTable(columns: seq<string>, rows: seq<Track>)

  /** `DataFrame.empty`: the table has no row or no column. */
  predicate IsEmpty(t: TrackTable) {
    |t.rows| == 0 || |t.columns| == 0
  }

  const TRACKS_NOT_LOADED: string := "Données des chansons non chargées"
  const GENRE_ABSENT: string := "Ce genre n'est pas présent dans les données des chansons"
  const REGION_ABSENT: string := "Aucune chanson disponible pour cette région"
  const NO_VALID_METRIC: string := "Aucune métrique valide à analyser"

  /** The four messages are distinct texts. */
  lemma MessagesDistinct()
    ensures TRACKS_NOT_LOADED != GENRE_ABSENT && TRACKS_NOT_LOADED != REGION_ABSENT
    ensures GENRE_ABSENT != REGION_ABSENT && TRACKS_NOT_LOADED != NO_VALID_METRIC
  {
    assert |TRACKS_NOT_LOADED| == 33 && |GENRE_ABSENT| == 56 && |REGION_ABSENT| == 43;
    assert TRACKS_NOT_LOADED[1] == 'o' && NO_VALID_METRIC[1] == 'u';
  }

  const GENRES_COLUMN: string := "all_genres"
  const REGIONS_COLUMN: string := "regions_recommandees"
  const DURATION_COLUMN: string := "duration"
  const DISPLAY_COLUMNS: seq<string> := ["title", "artist_name", "duration"]

  /** The metric columns an analysis may use, in the order they are tried. */
  const METRICS: seq<string> :=
    ["bpm", "gain", "duration_minutes", "danceability", "energy", "acousticness", "instrumentalness", "valence"]

  /** `f"{int(x // 60)}:{int(x % 60):02d}"`. */
  function FormatDuration(seconds: nat): (s: string)
    ensures |s| >= 4 && s[|s| - 3] == ':'
  {
    NatToString(seconds / 60) + ":" + Pad2(seconds % 60)
  }

  /** Read an `m:ss` text back: minutes in plain decimal, then a colon and
      exactly two digits below 60. */
  function ParseDuration(s: string): Option<nat> {
    if |s| < 4 || s[|s| - 3] != ':' then None
    else match (ParseNat(s[..|s| - 3]), ParseNat(s[|s| - 2..]))
      case (Some(m), Some(sec)) => if sec < 60 then Some(m * 60 + sec) else None
      case _ => None
  }

  /** The rendering loses nothing: parsing it gives the seconds back. */
  lemma DurationRoundTrip(seconds: nat)
    ensures ParseDuration(FormatDuration(seconds)) == Some(seconds)
  {
    var s := FormatDuration(seconds);
    assert s[..|s| - 3] == NatToString(seconds / 60);
    assert s[|s| - 2..] == Pad2(seconds % 60);
    ParseNatToString(seconds / 60);
    ParsePad2(seconds % 60);
  }

  lemma DurationExample()
    ensures FormatDuration(137) == "2:17"
    ensures FormatDuration(59) == "0:59"
  {
  }

  function HasGenre(genre: string): Track -> bool {
    (t: Track) => Contains(t.allGenres, genre)
  }

  function HasRegion(region: string): Track -> bool {
    (t: Track) => Contains(t.regions, region)
  }

  predicate IsDisplayColumn(col: string) {
    col in DISPLAY_COLUMNS
  }

  /** `[col for col in tracks.columns if col in ['title', 'artist_name', 'duration']]`. */
  function DisplayColumns(columns: seq<string>): (cols: seq<string>)
    ensures forall c :: c in cols <==> c in columns && c in DISPLAY_COLUMNS
    ensures |cols| <= |columns|
  {
    FilterKeeps(columns, IsDisplayColumn);
    Filter(columns, IsDisplayColumn)
  }

  /** The value a display column shows, after `duration` was rewritten. */
  function FieldText(t: Track, col: string): string {
    if col == "title" then t.title
    else if col == "artist_name" then t.artistName
    else FormatDuration(t.duration)
  }

  /** `{col: row[col] for col in tracks_columns}`. */
  function Record(t: Track, cols: seq<string>): (rec: map<string, string>)
    ensures forall c :: c in rec <==> c in cols
    ensures "title" in cols ==> rec["title"] == t.title
    ensures "artist_name" in cols ==> rec["artist_name"] == t.artistName
    ensures DURATION_COLUMN in cols ==> rec[DURATION_COLUMN] == FormatDuration(t.duration)
  {
    map c | c in cols :: FieldText(t, c)
  }

  function Records(rows: seq<Track>, cols: seq<string>): (records: seq<map<string, string>>)
    ensures |records| == |rows|
  {
    seq(|rows|, i requires 0 <= i < |rows| => Record(rows[i], cols))
  }

  /** A record holds the display columns the table has, and nothing else;
      the duration appears as `m:ss`. */
  lemma RecordFields(t: Track, columns: seq<string>)
    ensures var rec := Record(t, DisplayColumns(columns));
      && (forall c :: c in rec <==> c in columns && c in DISPLAY_COLUMNS)
      && (DURATION_COLUMN in columns ==> rec[DURATION_COLUMN] == FormatDuration(t.duration))
      && ("title" in columns ==> rec["title"] == t.title)
      && ("artist_name" in columns ==> rec["artist_name"] == t.artistName)
  {
    forall c ensures c in DisplayColumns(columns) <==> c in columns && c in DISPLAY_COLUMNS {
      FilterMembers(columns, IsDisplayColumn, c);
    }
  }

  /** What `get_tracks_from_genre_and_region` hands back: an error
      dictionary, the bare `{'tracks': …}` page when both a region and a
      genre are given, a list of one page otherwise, or an exception. */
  datatype TrackResponse =
    | TrackError(message: string)
    | Page(records: seq<map<string, string>>)
    | Pages(pages: seq<seq<map<string, string>>>)
    | TrackRaised(exception: string)

  /** The rows kept by the genre filter (when a genre is given). */
  function GenreRows(rows: seq<Track>, genre: Option<string>): (kept: seq<Track>)
    ensures forall t :: t in kept <==> t in rows && (Truthy(genre) ==> Contains(t.allGenres, genre.value))
    ensures |kept| <= |rows|
  {
    if Truthy(genre) then
      FilterKeeps(rows, HasGenre(genre.value));
      Filter(rows, HasGenre(genre.value))
    else rows
  }

  /** A track passes every filter that was requested. */
  function Passes(region: Option<string>, genre: Option<string>): Track -> bool {
    (t: Track) =>
      && (Truthy(genre) ==> Contains(t.allGenres, genre.value))
      && (Truthy(region) ==> Contains(t.regions, region.value))
  }

  /** The rows kept by the region filter, applied to the genre-filtered rows:
      the two passes select what one pass with both tests selects. */
  function SelectedRows(rows: seq<Track>, region: Option<string>, genre: Option<string>): (kept: seq<Track>)
    ensures kept == Filter(rows, Passes(region, genre))
  {
    var byGenre := GenreRows(rows, genre);
    var both := Passes(region, genre);
    if Truthy(region) then
      if Truthy(genre) then
        FilterTwice(rows, HasGenre(genre.value), HasRegion(region.value), both);
        Filter(byGenre, HasRegion(region.value))
      else
        FilterSame(rows, HasRegion(region.value), both);
        Filter(byGenre, HasRegion(region.value))
    else if Truthy(genre) then
      FilterSame(rows, HasGenre(genre.value), both);
      byGenre
    else
      FilterAll(rows, both);
      byGenre
  }

  /** The answer for a present track table. A missing column that the call
      reads raises `KeyError`. */
  function TracksResponse(t: TrackTable, region: Option<string>, genre: Option<string>): (r: TrackResponse)
    ensures r == TrackError(TRACKS_NOT_LOADED) <==> IsEmpty(t)
    ensures r.Page? ==> Truthy(region) && Truthy(genre)
    ensures r.Pages? ==> !(Truthy(region) && Truthy(genre)) && |r.pages| == 1
  {
    if IsEmpty(t) then TrackError(TRACKS_NOT_LOADED)
    else if Truthy(genre) && GENRES_COLUMN !in t.columns then TrackRaised("KeyError")
    else if Truthy(genre) && |GenreRows(t.rows, genre)| == 0 then TrackError(GENRE_ABSENT)
    else if Truthy(region) && REGIONS_COLUMN !in t.columns then TrackRaised("KeyError")
    else if Truthy(region) && |SelectedRows(t.rows, region, genre)| == 0 then TrackError(REGION_ABSENT)
    else if DURATION_COLUMN !in t.columns then TrackRaised("KeyError")
    else
      var page := Records(SelectedRows(t.rows, region, genre), DisplayColumns(t.columns));
      if Truthy(region) && Truthy(genre) then Page(page) else Pages([page])
  }

  /** The genre error is given exactly when a genre is requested, its column
      exists, and no row contains it. */
  lemma GenreAbsentIff(t: TrackTable, region: Option<string>, genre: Option<string>)
    ensures TracksResponse(t, region, genre) == TrackError(GENRE_ABSENT) <==>
      && !IsEmpty(t) && Truthy(genre) && GENRES_COLUMN in t.columns
      && forall i :: 0 <= i < |t.rows| ==> !Contains(t.rows[i].allGenres, genre.value)
  {
    if Truthy(genre) {
      FilterIsEmpty(t.rows, HasGenre(genre.value));
      MessagesDistinct();
    }
  }

  /** The region error is given exactly when a region is requested, the
      genre stage let rows through, and none of those rows contains it. */
  lemma RegionAbsentIff(t: TrackTable, region: Option<string>, genre: Option<string>)
    ensures TracksResponse(t, region, genre) == TrackError(REGION_ABSENT) <==>
      && !IsEmpty(t) && !(Truthy(genre) && GENRES_COLUMN !in t.columns)
      && |GenreRows(t.rows, genre)| > 0 && Truthy(region) && REGIONS_COLUMN in t.columns
      && forall i :: 0 <= i < |GenreRows(t.rows, genre)| ==> !Contains(GenreRows(t.rows, genre)[i].regions, region.value)
  {
    MessagesDistinct();
    if Truthy(region) {
      FilterIsEmpty(GenreRows(t.rows, genre), HasRegion(region.value));
    }
    if !Truthy(genre) {
      assert GenreRows(t.rows, genre) == t.rows;
    }
  }

  /** After both filters every kept row passes each requested filter, and a
      row of the table that passes them all is kept. */
  lemma SelectedRowsMembers(rows: seq<Track>, region: Option<string>, genre: Option<string>, x: Track)
    ensures x in SelectedRows(rows, region, genre) <==>
      && x in rows
      && (Truthy(genre) ==> Contains(x.allGenres, genre.value))
      && (Truthy(region) ==> Contains(x.regions, region.value))
  {
    if Truthy(genre) {
      FilterMembers(rows, HasGenre(genre.value), x);
    }
    if Truthy(region) {
      FilterMembers(GenreRows(rows, genre), HasRegion(region.value), x);
    }
  }

  /** Both filters keep the table's order: the kept rows of a prefix come
      before those of the rest. */
  lemma SelectedRowsKeepOrder(a: seq<Track>, b: seq<Track>, region: Option<string>, genre: Option<string>)
    ensures SelectedRows(a + b, region, genre) == SelectedRows(a, region, genre) + SelectedRows(b, region, genre)
  {
    if Truthy(genre) {
      FilterConcat(a, b, HasGenre(genre.value));
    }
    if Truthy(region) {
      FilterConcat(GenreRows(a, genre), GenreRows(b, genre), HasRegion(region.value));
    }
  }

  /** Without a genre or a region the rows are all kept. */
  lemma NoFilterKeepsAll(rows: seq<Track>)
    ensures SelectedRows(rows, None, None) == rows
  {
  }

  /** A page has one record per kept row, in order, each showing that row. */
  lemma PageDescribesRows(t: TrackTable, region: Option<string>, genre: Option<string>)
    requires TracksResponse(t, region, genre).Page? || TracksResponse(t, region, genre).Pages?
    ensures var r := TracksResponse(t, region, genre);
      var page := if r.Page? then r.records else r.pages[0];
      var kept := SelectedRows(t.rows, region, genre);
      && |page| == |kept|
      && ((Truthy(region) || Truthy(genre)) ==> |kept| > 0)
      && forall i :: 0 <= i < |page| ==> page[i] == Record(kept[i], DisplayColumns(t.columns))
  {
    var kept := SelectedRows(t.rows, region, genre);
    var page := Records(kept, DisplayColumns(t.columns));
    assert !IsEmpty(t) && DURATION_COLUMN in t.columns;
    assert Truthy(region) ==> |kept| > 0;
    if !Truthy(region) {
      assert kept == GenreRows(t.rows, genre);
    }
    assert TracksResponse(t, region, genre) == if Truthy(region) && Truthy(genre) then Page(page) else Pages([page]);
  }

  /** `valid_metrics`: the metrics the table has a column for, in list order. */
  function ValidMetrics(columns: seq<string>): (valid: seq<string>)
    ensures forall m :: m in valid <==> m in METRICS && m in columns
  {
    var valid := Filter(METRICS, (m: string) => m in columns);
    forall m ensures m in valid <==> m in METRICS && m in columns {
      FilterMembers(METRICS, (m: string) => m in columns, m);
    }
    valid
  }

  /** A table with every metric column keeps the whole list, in order. */
  lemma AllMetricsPresent(columns: seq<string>)
    requires forall i :: 0 <= i < |METRICS| ==> METRICS[i] in columns
    ensures ValidMetrics(columns) == METRICS
  {
    FilterAll(METRICS, (m: string) => m in columns);
  }

  /** Which aggregate is asked for. */
  datatype Aggregate = ByGenre | ByRegion

  /** The call handed to `calculate_genre_metrics` / `calculate_region_metrics`,
      or the error returned before it. */
  datatype MetricsResponse =
    | MetricsError(message: string)
    | Delegated(aggregate: Aggregate, table: TrackTable, key: Option<string>, metrics: seq<string>)

  /** `get_metrics_by_genre` / `get_metrics_by_region`: the table guard first,
      then the metric selection. */
  function MetricsResponseOf(tracks: Option<TrackTable>, aggregate: Aggregate, key: Option<string>): (r: MetricsResponse)
    ensures r == MetricsError(TRACKS_NOT_LOADED) <==> tracks.None? || IsEmpty(tracks.value)
    ensures r == MetricsError(NO_VALID_METRIC) <==>
      tracks.Some? && !IsEmpty(tracks.value) && forall m :: m in METRICS ==> m !in tracks.value.columns
    ensures r.Delegated? ==>
      && tracks.Some? && r.table == tracks.value && r.aggregate == aggregate && r.key == key
      && |r.metrics| > 0 && r.metrics == ValidMetrics(tracks.value.columns)
  {
    MessagesDistinct();
    if tracks.None? || IsEmpty(tracks.value) then MetricsError(TRACKS_NOT_LOADED)
    else
      var valid := ValidMetrics(tracks.value.columns);
      if |valid| == 0 then
        assert forall m :: m in METRICS ==> m !in tracks.value.columns;
        MetricsError(NO_VALID_METRIC)
      else
        assert valid[0] in METRICS && valid[0] in tracks.value.columns;
        Delegated(aggregate, tracks.value, key, valid)
  }

  /** The artist service object: the two tables and the flag read at start-up. */
  class MusicServiceArtist {
    var genreRegionAge: Option<GenreScoring.Table>
    var tracks: Option<TrackTable>
    var dataLoaded: bool

    /** `__init__` with the outcome of `load_data_artists`: both tables and
        `True`, or `None, None, False` when reading failed. */
    constructor(loaded: Option<(GenreScoring.Table, TrackTable)>)
      ensures dataLoaded == loaded.Some?
      ensures genreRegionAge == (if loaded.Some? then Some(loaded.value.0) else None)
      ensures tracks == (if loaded.Some? then Some(loaded.value.1) else None)
    {
      dataLoaded := loaded.Some?;
      genreRegionAge := if loaded.Some? then Some(loaded.value.0) else None;
      tracks := if loaded.Some? then Some(loaded.value.1) else None;
    }

    /** `get_tracks_from_genre_and_region(region, genre)`: it works on a
        copy, so the stored table is only read. */
    method TracksFromGenreAndRegion(region: Option<string>, genre: Option<string>) returns (r: TrackResponse)
      requires tracks.Some?
      ensures r == TracksResponse(tracks.value, region, genre)
    {
      var t := tracks.value;
      var rows := t.rows;
      if IsEmpty(t) {
        return TrackError(TRACKS_NOT_LOADED);
      }
      if Truthy(genre) {
        if GENRES_COLUMN !in t.columns {
          return TrackRaised("KeyError");
        }
        FilterIsEmpty(rows, HasGenre(genre.value));
        if !(exists i :: 0 <= i < |rows| && Contains(rows[i].allGenres, genre.value)) {
          return TrackError(GENRE_ABSENT);
        }
        rows := Filter(rows, HasGenre(genre.value));
      }
      if Truthy(region) {
        if REGIONS_COLUMN !in t.columns {
          return TrackRaised("KeyError");
        }
        FilterIsEmpty(rows, HasRegion(region.value));
        if !(exists i :: 0 <= i < |rows| && Contains(rows[i].regions, region.value)) {
          return TrackError(REGION_ABSENT);
        }
        rows := Filter(rows, HasRegion(region.value));
      }
      if DURATION_COLUMN !in t.columns {
        return TrackRaised("KeyError");
      }
      var page := RecordsOf(rows, DisplayColumns(t.columns));
      if Truthy(region) && Truthy(genre) {
        r := Page(page);
      } else {
        r := Pages([page]);
      }
    }

    /** The loop over the kept rows, appending one record per row. */
    static method RecordsOf(rows: seq<Track>, cols: seq<string>) returns (page: seq<map<string, string>>)
      ensures page == Records(rows, cols)
    {
      page := [];
      for i := 0 to |rows|
        invariant |page| == i
        invariant forall k :: 0 <= k < i ==> page[k] == Record(rows[k], cols)
      {
        var row := rows[i];
        var record := map c | c in cols :: FieldText(row, c);
        page := page + [record];
      }
    }

    /** `get_metrics_by_genre(genre)`. */
    method MetricsByGenre(genre: Option<string>) returns (r: MetricsResponse)
      ensures r == MetricsResponseOf(tracks, ByGenre, genre)
    {
      if tracks.None? || IsEmpty(tracks.value) {
        return MetricsError(TRACKS_NOT_LOADED);
      }
      var valid := ValidMetrics(tracks.value.columns);
      if |valid| == 0 {
        return MetricsError(NO_VALID_METRIC);
      }
      r := Delegated(ByGenre, tracks.value, genre, valid);
    }

    /** `get_metrics_by_region(region)`. */
    method MetricsByRegion(region: Option<string>) returns (r: MetricsResponse)
      ensures r == MetricsResponseOf(tracks, ByRegion, region)
    {
      if tracks.None? || IsEmpty(tracks.value) {
        return MetricsError(TRACKS_NOT_LOADED);
      }
      var valid := ValidMetrics(tracks.value.columns);
      if |valid| == 0 {
        return MetricsError(NO_VALID_METRIC);
      }
      r := Delegated(ByRegion, tracks.value, region, valid);
    }
  }
}
