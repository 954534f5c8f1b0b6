# Regional music recommendations, modelled in Dafny

This project models the decision and scoring logic of a music recommendation
site. It has a Django back end and a Vue client.

**Back end.**
- *Genre-popularity report.* The table has one row per region (column
  `Nom_region`) and numeric columns named `<genre>_<age>`. A report takes
  one row and sums its values per genre, optionally for a single age band.
  It ranks the genres with a stable descending sort and keeps the first ten,
  each with a mark out of 10 relative to the top score.
- Two helper functions (`Utils.py`) and the `MusiqueService` object produce
  this report. They differ in how they guard against missing data.
- *Artist track service.* It filters the track table by genre and by
  recommended region, renders durations as `m:ss`, and projects the rows onto
  the display columns. It also selects the metric columns available for
  analysis.
- *Admin middleware.* It decides which requests may reach the administration
  site.

**Client.**
- The department → region table and its lookups.
- The authentication session kept in the browser's key/value storage, and
  the role-dependent API address.
- The router's table and its navigation guard.

Loops and objects keep the source's form:
- Objects whose fields are set in place are classes: `MusiqueService`,
  `MusicServiceArtist`, and the storage behind the session functions.
- Loops are methods with invariants, each proved equal to a specification
  function: the score accumulation, the append loops, and the loop over the
  rows.
- Everything else is pure functions, with lemmas relating them.

Where the project's documentation and the code disagree, the model follows
the code:
- A report without a region is one report, built from the last row of the
  table, not one report per region.
- The top genre's mark is the integer `10` (`"10/10"`), because
  `min(10, 10.0)` keeps its first argument. It is not `10.0`.
- The artist "full list" mode is not there: those calls pass an argument the
  helpers do not accept.

Behaviour the model makes explicit:
- `MusiqueService` checks only its `data_loaded` flag. When a loaded table
  has no rows and no truthy region is given, the report loop never binds the
  locals `row` and `region_data`. The call then raises `UnboundLocalError`,
  a subclass of `NameError` (`Raised("UnboundLocalError")`). With a truthy
  region, the region guard refuses the call first ("non trouvée").
- When some genre contributes but the best total is zero, `score / max_score`
  divides by zero. The row values come out of `iterrows` as Python scalars,
  so the call raises `ZeroDivisionError` (`Raised("ZeroDivisionError")`).
  With non-negative cells this happens exactly when every contributing genre
  totals zero (`GenreScoring.ZeroTopIffAllZero`).
- The helpers do refuse an empty table. Behind that guard, on a table with
  a `Nom_region` column and a value in every genre column, the division by
  zero is the only exception they can raise, and their fallback error
  "Aucune donnée pour la région" is unreachable
  (`Utils.GenresResponseRaisesOnlyOnZeroTop`).
- A track request whose filter reads an absent column raises `KeyError`
  (`TrackRaised("KeyError")`).
- In the admin middleware, `and` binds tighter than `or`. So the first test
  lets `/admin/` through only for unauthenticated requests. After that,
  `/admin/` is treated like every other admin page except `/admin/login/`:
  it is refused exactly to an authenticated user who is neither a superuser
  nor of role `admin` (`AdminMiddleware.Decide`,
  `AdminMiddleware.AdminRootForAuthenticatedListener`).

Modules:
- `Wrappers`, `Sequences`, `Numerals`: an option type, an order-preserving
  filter, and decimal digits.
- `ColumnNames`: `str.split` and the column-name decoding.
- `GenreScoring`: the scoring engine.
- `ScoringExample` and `NorthExample`: worked tables.
- `Utils`: the helper entry points.
- `Musique`: `MusiqueService`.
- `TrackCatalog`: `MusicServiceArtist`.
- `RegionService`.
- `Auth`.
- `AdminMiddleware`.
- `Router`.

## Model

| member | source | states |
|---|---|---|
| ColumnNames.Split | server/recommendations/Utils.py:71 | `col.split('_')` always yields at least one part |
| ColumnNames.JoinSplit | server/recommendations/Utils.py:71 | joining the split parts with the separator gives the name back |
| ColumnNames.SplitPartsHaveNoSeparator | server/recommendations/Utils.py:71 | no part contains the separator |
| ColumnNames.SplitHasTwoParts | server/recommendations/Utils.py:71-72 | there are at least two parts exactly when the name contains `_` |
| ColumnNames.SplitJoin | server/recommendations/Utils.py:71 | splitting a join of separator-free parts gives those parts back |
| ColumnNames.Decode | server/recommendations/Utils.py:71-73 | a column decodes to (genre, age) exactly when it contains `_`; both tokens are free of `_` and lead the name in that order |
| ColumnNames.DecodeLayout | server/recommendations/Utils.py:135-138 | the genre is the text before the first `_`, and the age follows it up to the next `_` or the end |
| GenreScoring.GenreColumns | server/recommendations/Utils.py:66 | a column is a genre column exactly when it is in the table and is not `Nom_region` |
| GenreScoring.GenreOrderMembers | server/recommendations/Utils.py:70-75 | a genre is in the accumulator exactly when some admitted column's first token is that genre |
| GenreScoring.GenreOrderDistinct | server/recommendations/Utils.py:74-75 | each genre enters the accumulator once |
| GenreScoring.NoAgeGroupNoGenres | server/recommendations/Utils.py:140 | with no `age_group`, no column passes the age test and the accumulator stays empty |
| GenreScoring.UnlistedGenreTotal | server/recommendations/Utils.py:70-76 | a genre that no column adds to totals 0 |
| GenreScoring.GenreTotalNonNegative | server/recommendations/Utils.py:76 | totals over non-negative cells are non-negative |
| GenreScoring.AccumulateScores | server/recommendations/Utils.py:70-76 | the loop's dictionary holds exactly the contributing genres, in first-seen order, each mapped to the sum of the row over that genre's admitted columns |
| GenreScoring.InsertDesc | server/recommendations/Utils.py:79 | inserting into a descending sequence keeps it descending, adds one entry, and leaves the new entry or the old head first |
| GenreScoring.InsertDescPermutes | server/recommendations/Utils.py:79 | insertion adds exactly the new entry and loses none |
| GenreScoring.SortDesc | server/recommendations/Utils.py:79 | `sorted(..., reverse=True)` by score yields a non-increasing sequence of the same length |
| GenreScoring.SortDescPermutes | server/recommendations/Utils.py:79 | the sort is a permutation of its input |
| GenreScoring.SortDescKeepsTies | server/recommendations/Utils.py:79 | stability: for every score value, the entries with that score appear in their original (first-seen) order |
| GenreScoring.RoundHalfEvenOfInteger | server/recommendations/Utils.py:92 | rounding leaves whole numbers unchanged |
| GenreScoring.RoundHalfEvenMonotone | server/recommendations/Utils.py:92 | rounding is monotone |
| GenreScoring.Normalize | server/recommendations/Utils.py:92 | a mark below 10 is a number of tenths under 100, and a score at or above the top score gets exactly `10` |
| GenreScoring.NormalizeInRange | server/recommendations/Utils.py:92 | against a positive top score, a score between 0 and the top gets a mark in [0, 10], and the top score gets exactly 10 |
| GenreScoring.ScoreTop | server/recommendations/Utils.py:82-98 | the append loop raises exactly when there is an entry and the top score is zero; otherwise it emits `min(10, n)` entries, entry i carrying the i-th ranked genre, its normalised mark and its raw score |
| GenreScoring.BuildReport | server/recommendations/Utils.py:58-100 | the whole report pipeline raises `ZeroDivisionError` exactly when some genre contributes and the best total is zero; otherwise it computes the report of the last row: its region name, its ranked and normalised top ten, and its age tag |
| GenreScoring.ReportOf | server/recommendations/Utils.py:58-100 | a built report is named after the last row, carries the request's age tag, and lists `min(10, n)` genres, where n is the number of contributing genres |
| GenreScoring.ReportIsRanked | server/recommendations/Utils.py:79-98 | whenever the report is built, its raw scores never increase down the report |
| GenreScoring.ReportIsTopPrefix | server/recommendations/Utils.py:90 | a built report lists exactly the first `min(10, n)` ranked genres in rank order, where n is the number of contributing genres |
| GenreScoring.ReportScoresAreTotals | server/recommendations/Utils.py:70-98 | in a built report, every emitted genre contributes, and its raw score is its column sum in the last row |
| GenreScoring.ReportMarksInRange | server/recommendations/Utils.py:82-92 | with non-negative cells, whenever the report is built every mark lies in [0, 10] and the first genre gets 10 |
| GenreScoring.ReportWithoutAgeGroupIsEmpty | server/recommendations/Utils.py:140 | an age report without `age_group` never divides by zero and lists no genre |
| GenreScoring.ZeroTopIffAllZero | server/recommendations/Utils.py:82-92 | with non-negative cells, the division by zero happens exactly when some genre contributes and every contributing genre totals 0 |
| ScoringExample.ThreeColumnReport | server/recommendations/Utils.py:66-98 | in a one-row table with three genre columns over two genres, the division by zero happens exactly when the larger total is 0; otherwise the larger total comes first, normalised against itself, and the other comes second with its own total |
| NorthExample.NorthMarks | server/recommendations/Utils.py:92 | 8 against 14 rounds to 5.7, 8 against 10 to 8.0, and the top score gets 10 |
| NorthExample.NorthAllAges | server/recommendations/Utils.py:66-98 | with `rock_young` 10, `rock_old` 4 and `pop_young` 8, the report is rock 14 at 10/10, then pop 8 at 5.7/10 |
| NorthExample.NorthYoung | server/recommendations/Utils.py:134-167 | on the same table, the `young` report is rock 10 at 10/10, then pop 8 at 8.0/10, tagged `young` |
| Utils.RegionNames | server/recommendations/Utils.py:49 | the `Nom_region` values, one per row and in row order |
| Utils.RespondLoaded | server/recommendations/Utils.py:48-105 | an unknown truthy region is refused, exactly; `UnboundLocalError` comes exactly when no row is selected and `ZeroDivisionError` exactly when the selected rows divide by zero; a bare report comes only with a truthy region; without one the answer is a one-element list |
| Utils.GenresResponse | server/recommendations/Utils.py:42-105 | the not-loaded error (worded per entry point) is returned exactly when the table is absent or has no row |
| Utils.NotFoundIsNotNotLoaded | server/recommendations/Utils.py:43-50 | the not-found message never equals a not-loaded message |
| Utils.OnlyRegionWellFormed | server/recommendations/Utils.py:53 | filtering rows keeps the table well formed |
| Utils.OnlyRegionRows | server/recommendations/Utils.py:49-53 | every kept row belongs to the region, and some row is kept exactly when the region occurs |
| Utils.UnknownRegionIsRejected | server/recommendations/Utils.py:48-50 | a truthy region absent from `Nom_region` gets the "Région '…' non trouvée." error |
| Utils.KnownRegionGetsItsReport | server/recommendations/Utils.py:48-103 | a known region gets one bare report, built from the last of its rows and named after it, unless its best total is zero, which raises `ZeroDivisionError` |
| Utils.NoRegionListsLastRow | server/recommendations/Utils.py:55-105 | without a region, the answer is a list of one report, named after the table's last row, unless its best total is zero, which raises `ZeroDivisionError` |
| Utils.GenresResponseRaisesOnlyOnZeroTop | server/recommendations/Utils.py:42-105 | behind the table guard the only exception is `ZeroDivisionError`, raised exactly when a table with rows passes the region guard and its selected rows divide by zero |
| Utils.Respond | server/recommendations/Utils.py:48-105 | the region guard, the filter and the report loops compute `RespondLoaded` |
| Utils.PopularGenresByRegion | server/recommendations/Utils.py:42-105 | `get_popular_genres_by_region` computes `GenresResponse` over all ages |
| Utils.PopularGenresByRegionAndAge | server/recommendations/Utils.py:108-173 | `get_popular_genres_by_region_and_age` computes `GenresResponse` for the requested band |
| Musique.ServiceResponse | server/recommendations/services/MusiqueService.py:30-94 | the not-loaded error comes exactly when the flag is false; `UnboundLocalError` comes exactly when a loaded table has no row and no region is given; `ZeroDivisionError` comes exactly when the selected rows of a loaded table divide by zero |
| Musique.ServiceAgreesWithHelpers | server/recommendations/services/MusiqueService.py:32-94 | on a loaded table with rows, the service answers as the helper functions do |
| Musique.MusiqueService.constructor | server/recommendations/services/MusiqueService.py:11-28 | the flag is set exactly when the table was read, and the table is stored |
| Musique.MusiqueService.PopularGenresByRegion | server/recommendations/services/MusiqueService.py:30-94 | computes `ServiceResponse` over all ages, and modifies nothing |
| Musique.MusiqueService.PopularGenresByRegionAndAge | server/recommendations/services/MusiqueService.py:96-159 | computes `ServiceResponse` for the band, and modifies nothing |
| Numerals.NatToString | server/recommendations/services/MusicServiceArtist.py:47 | `str(n)` is a non-empty run of digits without a leading zero |
| Numerals.ParseNatToString | server/recommendations/services/MusicServiceArtist.py:47 | reading the decimal text back gives the number |
| Numerals.Pad2 | server/recommendations/services/MusicServiceArtist.py:47 | `:02d` yields exactly two digits |
| Numerals.ParsePad2 | server/recommendations/services/MusicServiceArtist.py:47 | reading the two digits back gives the number |
| TrackCatalog.IsSubstringAt | server/recommendations/services/MusicServiceArtist.py:24 | `genre in str(x)` holds exactly when the needle occurs at some offset |
| TrackCatalog.Contains | server/recommendations/services/MusicServiceArtist.py:24 | a list cell contains exactly its items; a text cell contains a needle exactly when the needle occurs in it at some offset |
| TrackCatalog.MessagesDistinct | server/recommendations/services/MusicServiceArtist.py:21-79 | the error messages are pairwise distinct |
| TrackCatalog.FormatDuration | server/recommendations/services/MusicServiceArtist.py:47 | the rendering has at least four characters, with a colon three from the end |
| TrackCatalog.DurationRoundTrip | server/recommendations/services/MusicServiceArtist.py:47 | reading `m:ss` back gives the seconds: the rendering loses nothing |
| TrackCatalog.DurationExample | server/recommendations/services/MusicServiceArtist.py:47 | 137 s renders as `2:17`, and 59 s as `0:59` |
| TrackCatalog.DisplayColumns | server/recommendations/services/MusicServiceArtist.py:49 | a column is shown exactly when the table has it and it is `title`, `artist_name` or `duration` |
| TrackCatalog.Record | server/recommendations/services/MusicServiceArtist.py:47-53 | a record's keys are exactly the shown columns, with the title, the artist name and the duration as `m:ss` |
| TrackCatalog.Records | server/recommendations/services/MusicServiceArtist.py:52-54 | one record per kept row |
| TrackCatalog.RecordFields | server/recommendations/services/MusicServiceArtist.py:47-53 | a record has exactly the display columns present in the table, with the title, the artist and the `m:ss` duration of its row |
| TrackCatalog.TracksResponse | server/recommendations/services/MusicServiceArtist.py:14-62 | the not-loaded error comes exactly for an empty table; a bare page comes only with both genre and region, and otherwise a one-element list |
| TrackCatalog.GenreAbsentIff | server/recommendations/services/MusicServiceArtist.py:23-27 | the genre error comes exactly when a genre is requested, the table is not empty, its column exists, and no row contains the genre |
| TrackCatalog.RegionAbsentIff | server/recommendations/services/MusicServiceArtist.py:33-37 | the region error comes exactly when a region is requested, the genre stage kept rows, and none of them contains the region |
| TrackCatalog.GenreRows | server/recommendations/services/MusicServiceArtist.py:23-30 | with a truthy genre, exactly the rows whose genre cell contains it; otherwise every row |
| TrackCatalog.SelectedRows | server/recommendations/services/MusicServiceArtist.py:23-40 | the genre pass followed by the region pass keeps what a single pass with every requested test keeps, in row order |
| TrackCatalog.SelectedRowsMembers | server/recommendations/services/MusicServiceArtist.py:23-40 | a row survives the filters exactly when it passes every requested filter |
| TrackCatalog.SelectedRowsKeepOrder | server/recommendations/services/MusicServiceArtist.py:30-40 | filtering distributes over concatenation, so row order is kept |
| TrackCatalog.NoFilterKeepsAll | server/recommendations/services/MusicServiceArtist.py:23-40 | without a genre or region, every row is kept |
| TrackCatalog.PageDescribesRows | server/recommendations/services/MusicServiceArtist.py:49-62 | a page has one record per kept row, in order, and is non-empty when a filter was given |
| TrackCatalog.ValidMetrics | server/recommendations/services/MusicServiceArtist.py:76 | a metric is selected exactly when it is in the fixed list and a column of the table |
| TrackCatalog.AllMetricsPresent | server/recommendations/services/MusicServiceArtist.py:72-76 | a table with every metric column keeps the whole list, in list order |
| TrackCatalog.MetricsResponseOf | server/recommendations/services/MusicServiceArtist.py:64-81 | the not-loaded error exactly for an absent or empty table; the no-metric error exactly when no metric column exists; otherwise the table, the key and the non-empty selection are handed on |
| TrackCatalog.MusicServiceArtist.constructor | server/recommendations/services/MusicServiceArtist.py:5-6 | the two tables and the flag come from one load outcome |
| TrackCatalog.MusicServiceArtist.TracksFromGenreAndRegion | server/recommendations/services/MusicServiceArtist.py:14-62 | computes `TracksResponse` on the stored table, which it does not modify |
| TrackCatalog.MusicServiceArtist.RecordsOf | server/recommendations/services/MusicServiceArtist.py:52-54 | the append loop builds `Records` |
| TrackCatalog.MusicServiceArtist.MetricsByGenre | server/recommendations/services/MusicServiceArtist.py:64-81 | computes `MetricsResponseOf` by genre |
| TrackCatalog.MusicServiceArtist.MetricsByRegion | server/recommendations/services/MusicServiceArtist.py:83-100 | computes `MetricsResponseOf` by region |
| RegionService.RegionAt | client/src/services/regionService.ts:5-159 | the table's seventeen entries, in declaration order |
| RegionService.ListedCodesOwned | client/src/services/regionService.ts:5-159 | every listed code belongs to the region that lists it, by a numbering of the codes |
| RegionService.CodesDisjoint | client/src/services/regionService.ts:5-159 | no department code is listed under two regions |
| RegionService.NamesDistinct | client/src/services/regionService.ts:5-159 | no region name is declared twice |
| RegionService.Find | client/src/services/regionService.ts:166-173 | a found region is the name of an entry listing the code |
| RegionService.FindHit | client/src/services/regionService.ts:166-173 | the search returns the first entry, in declaration order, that lists the code |
| RegionService.FindMiss | client/src/services/regionService.ts:166-173 | the search returns `null` exactly when no entry lists the code |
| RegionService.RegionForDepartment | client/src/services/regionService.ts:166-173 | `null` exactly when no region lists the code; a found name is that of a region listing it |
| RegionService.RegionOfListedCode | client/src/services/regionService.ts:5-173 | every listed code leads back to its region |
| RegionService.UnlistedCodeHasNoRegion | client/src/services/regionService.ts:166-173 | a code no region lists gets `null` |
| RegionService.UnownedCodeHasNoRegion | client/src/services/regionService.ts:166-173 | a code outside the numbering of listed codes gets `null` |
| RegionService.RetiredCodes | client/src/services/regionService.ts:5-173 | `20` (now `2A`/`2B`) and `975` have no region |
| RegionService.LookupHit | client/src/services/regionService.ts:180-182 | the lookup by name answers the first entry with that name |
| RegionService.LookupMiss | client/src/services/regionService.ts:180-182 | the lookup by name fails exactly when no entry has that name |
| RegionService.DepartmentsForRegion | client/src/services/regionService.ts:180-182 | a name no region has gets `[]`, and a non-empty answer is the list of the region with that name |
| RegionService.DepartmentsOfDeclaredRegion | client/src/services/regionService.ts:180-182 | a declared region gets its own list |
| RegionService.DepartmentsOfUnknownRegion | client/src/services/regionService.ts:180-182 | an undeclared name gets `[]` |
| RegionService.DepartmentsMapBack | client/src/services/regionService.ts:166-182 | every department of a region maps back to that region |
| RegionService.OverseasRegions | client/src/services/regionService.ts:155-158 | 971–974 map to Guadeloupe, Martinique, Guyane and La Réunion, and La Réunion's list is `["974"]` |
| RegionService.AllRegions | client/src/services/regionService.ts:187-189 | one name per entry, in declaration order |
| RegionService.AllRegionsInOrder | client/src/services/regionService.ts:187-189 | the seventeen names, spelled out in declaration order |
| Auth.CurrentUserIn | client/src/services/authService.ts:199-202 | there is a current user exactly when `user` holds a serialised profile |
| Auth.AccessTokenIn | client/src/services/authService.ts:183-185 | `null` exactly when no access token is stored, the stored item otherwise |
| Auth.IsAuthenticatedIn | client/src/services/authService.ts:191-193 | authenticated exactly when an access token is stored |
| Auth.CurrentUserRoleIn | client/src/services/authService.ts:208-211 | a role other than `guest` is the stored profile's role; with no stored profile or an empty role the answer is `guest` |
| Auth.RoleOr | client/src/services/authService.ts:208-211 | the role when there is a user with a non-empty role, else the fallback |
| Auth.RoleBasedApiUrl | client/src/services/authService.ts:252-267 | the role endpoint goes to the artists' address for role `artist`, and to the listeners' otherwise; any other endpoint gets the generic address |
| Auth.ArtistAddressOnlyForArtists | client/src/services/authService.ts:255-263 | the artists' address is chosen exactly for a user whose role is `artist`; a missing or empty role counts as listener |
| Auth.AfterStore | client/src/services/authService.ts:173-177 | the keys become the old ones plus the three session keys, which hold the access token, the refresh token and the serialised user |
| Auth.AfterLogout | client/src/services/authService.ts:216-220 | the three session keys are removed and every other entry is kept unchanged |
| Auth.StoreThenQuery | client/src/services/authService.ts:173-211 | after storing, the session is authenticated with the new access token, its user is the stored one, and its role is that user's role or `guest` |
| Auth.LogoutThenQuery | client/src/services/authService.ts:199-220 | after logging out: no token, no user, not authenticated, role `guest` |
| Auth.LogoutKeepsOtherKeys | client/src/services/authService.ts:216-220 | logging out leaves every other key as it was |
| Auth.StoreKeepsOtherKeys | client/src/services/authService.ts:173-177 | storing leaves every other key as it was |
| Auth.AuthStore.StoreAuthData | client/src/services/authService.ts:173-177 | the three `setItem` calls: the new storage is `AfterStore` of the old, authenticated, with the given token and user |
| Auth.AuthStore.Logout | client/src/services/authService.ts:216-220 | the three `removeItem` calls: the new storage is `AfterLogout` of the old, unauthenticated, without a user, role `guest` |
| AdminMiddleware.Decide | server/accounts/middleware.py:7-33 | Forbidden exactly for an `/admin/` path other than the login page, requested by an authenticated non-superuser without the `admin` profile role; a refusal always carries the fixed message |
| AdminMiddleware.OutsideAdminPasses | server/accounts/middleware.py:9-33 | a path outside `/admin/` always passes |
| AdminMiddleware.LoginAndAnonymousPass | server/accounts/middleware.py:11-16 | the login page, and any unauthenticated request, always pass |
| AdminMiddleware.AuthenticatedAdminAccess | server/accounts/middleware.py:19-30 | an authenticated request to another admin page passes exactly for a superuser or the `admin` role; a failed profile lookup counts as no role |
| AdminMiddleware.AdminRootForAuthenticatedListener | server/accounts/middleware.py:11-30 | `/admin/` itself is refused to an authenticated plain user |
| Router.SomeRequiresAuth | client/src/router/index.ts:25 | `matched.some(r => r.meta.requiresAuth)` holds exactly when some matched record requires authentication |
| Router.Matched | client/src/router/index.ts:7-25 | a record is matched exactly when it is in the route table with that path |
| Router.BeforeEach | client/src/router/index.ts:23-42 | redirects exactly when a matched record requires authentication and there is no session, always to `/` with `authRequired=true`, and otherwise proceeds |
| Router.RouteTable | client/src/router/index.ts:7-19 | `/` matches only `home`, with no requirement; `/map` matches only `map`, which requires authentication |
| Router.GuardOnRoutes | client/src/router/index.ts:7-42 | `/` always proceeds; `/map` proceeds exactly with a session, and after logging out, a visit to it is sent home |
| Router.MapAfterLogin | client/src/router/index.ts:23-37 | right after a login is stored, `/map` proceeds |

## Left out

- Reading the CSV files (`load_data`, `load_data_artists`), the prints and the broad `except`. This is file I/O. The tables are given values, and a failed read is `None`.
- `calculate_genre_metrics` and `calculate_region_metrics` are imported from `Utils.py`, which does not define them. The metric request stops at the hand-off value `Delegated(...)`.
- The import at `MusicServiceArtist.py` line 1 therefore raises `ImportError`, and the artist service module cannot load as written. The model describes what its methods would do once both functions exist.
- `get_artists_genre_by_region` and `get_artists_genre_by_region_and_age` pass an argument the helpers do not accept, so they raise `TypeError`. No untruncated "full list" behaviour is modelled.
- Floating point. Cells are exact reals, and `round(x, 1)` is rounding half to even of exact `10x`. Binary-float representation errors are not modelled.
- The mark's text `f"{x}/10"` is represented by the `Mark` value (`Ten` or tenths), not by a string.
- Utils.GenresResponse, Utils.GenresResponseRaisesOnlyOnZeroTop, Musique.ServiceResponse: the genre table is assumed to have a `Nom_region` column and a value in every genre column of every row (`GenreScoring.WellFormed`). Without the column, `df['Nom_region']` and `row['Nom_region']` raise `KeyError` (`Utils.py` lines 49 and 59), and that exception is not modelled.
- Non-numeric cells in genre columns, NaN region names, and duplicate column names are not modelled. They concern pandas' input typing.
- TrackCatalog.MusicServiceArtist.TracksFromGenreAndRegion: requires a stored track table. With `None`, the `.copy()` call in the source fails before its own check.
- Auth.CurrentUserIn: a non-empty text under `user` that is not a serialised profile counts as no user. In the source, `JSON.parse` would throw or return another value. Serialising and parsing the profile are taken as exact inverses.
- The network calls of the session service (`registerUser`, `loginUser`, `getUserProfile`, `getDetailedUserProfile`, `completeLoginProcess`) and its console logging. They are I/O.
- RegionService.DepartmentsForRegion: `REGIONS[name]` on a JavaScript object also answers inherited property names such as `constructor`. The model answers `[]` for every undeclared name, and so does `RegionService.DepartmentsOfUnknownRegion`.
- Vue route resolution is reduced to exact path matching over the table. Components and lazy loading are left out. The single `next(...)` call is the one `NextCall` value the guard returns.
- The Django request and response objects are reduced to the fields the middleware reads. `get_response` is the `PassThrough` outcome.
- Views, URL configurations, serializers, ORM models, the admin registration, `UserStatisticsService` and `MusicServiceListener`. They are framework glue or database access.
- The browser integration tests. They drive a UI.
