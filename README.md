# Crowdsourced meal map: a verified model of its logic

The crowdsourced meal map shows food banks, community kitchens and similar
places on a map. Visitors report availability, write reviews and file
reports through a small REST API that persists to a hosted Postgres
database. Most of the repository is UI. This project models the parts that
decide things:

- **Address parser.** It turns a reverse-geocoder reply into an
  address/city/country triple (`AddressParser`, an imperative method
  proved equal to a specification function).
- **Translation lookup.** `t` and `setLocale` (`I18n`: a class holding the
  message table, with a method whose lookup and substitution loops are
  proved against `Translate`).
- **Geography-point text.** `POINT(lng lat)` is read by
  `parseGeographyPoint` and written by `createFoodCenter`. `DatabaseUtils`
  and `Queries` prove that what is written reads back.
- **Request shaping in the database layer.** This covers the clauses,
  order and limit of each query, the single-row lookups, the update merge
  and the notes default (`Queries`). `Select` and `Run` give a query its
  meaning over a table of rows.
- **Shared formatters.** Status colours, today's opening hours and the
  distance text (`SharedUtils`).
- **The zod schemas.** Both the front-end forms' schemas (`Schemas`) and
  the API's (`FoodCenterSchema` and the route modules). They are written
  as data of a small zod interpreter (`Zod`). Each has a plain predicate
  for what it accepts, proved equivalent, and lemmas for the defaults it
  fills in.
- **The API handlers.** As functions from the request and the database
  outcome to a status and body (`Http`, `FoodCenterRoutes`,
  `AvailabilityRoutes`, `ReviewRoutes`, `ReportRoutes`).
- **The sidebar.** Its search filter and filter merge (`Sidebar`).

Some things are passed in as parameters rather than modelled:

- the database's contents (`Outcome<seq<Row>>`: a table, or a failed
  round trip) and the insert call;
- `parseFloat` and JavaScript's number printing;
- zod's e-mail and URL checks;
- the current weekday;
- the profiles' names that a review embeds for its author.

The repository's design notes say the CRUD endpoints round-trip data
unchanged. The code does not, and the model follows the code:

- zod strips undeclared keys and fills in defaults;
- a review is always stored with `helpful_count` 0;
- a report's missing ids are stored as "";
- a location is stored as point text.

## Model

| member | source | states |
|---|---|---|
| AddressParser.ParseAddressFromNominatim | apps/web/hooks/useLocation.ts:16-98 | the parser, with its reassigned locals, growing city-part list and segment-scan loop, returns exactly `ParseAddress(data)`: the record branch when there is a record, else the display-name branch, else the placeholders |
| AddressParser.StreetAddressRules | apps/web/hooks/useLocation.ts:21-28 | address is road + " " + upper-cased house number; road alone without a number; suburb without a road; else "Current Location" |
| AddressParser.RecordOverridesDisplayName | apps/web/hooks/useLocation.ts:17-55 | with a structured record the display name has no influence, and the address is never empty |
| AddressParser.AreaPrecedence | apps/web/hooks/useLocation.ts:34-38 | district is the first city part if present; otherwise the suburb is, but only when it differs from the street line; a suburb already used as the address is not repeated |
| AddressParser.PlacePrecedence | apps/web/hooks/useLocation.ts:41-47 | the place name is city, else town, else village |
| AddressParser.PostcodeAndPlaceRules | apps/web/hooks/useLocation.ts:41-48 | "postcode place" when both exist, either one alone otherwise, nothing when neither |
| AddressParser.JoinFewParts | apps/web/hooks/useLocation.ts:52 | joining at most two non-empty parts with ", " is empty iff there are none, one part alone, else both with ", " between |
| AddressParser.RecordCityAndCountry | apps/web/hooks/useLocation.ts:31-54 | city is the (at most two) city parts joined with ", ", empty exactly when no district, usable suburb, postcode or place exists; country defaults to "Unknown" |
| AddressParser.KnownCityIsNotPostcode | apps/web/hooks/useLocation.ts:67-69 | none of Berlin, Hamburg, München, Köln is five digits, so the branch order does not matter for them |
| AddressParser.PostcodeIsLastFiveDigit | apps/web/hooks/useLocation.ts:66-68 | the scanned postcode is the last five-digit middle segment |
| AddressParser.PostcodeAbsent | apps/web/hooks/useLocation.ts:66-68 | without a five-digit segment the postcode stays "" |
| AddressParser.CityIsLastKnown | apps/web/hooks/useLocation.ts:66-70 | the scanned city is the last segment among the four known cities |
| AddressParser.CityAbsent | apps/web/hooks/useLocation.ts:66-70 | without a known-city segment the city stays "" |
| AddressParser.DistrictFrozenAfterMarker | apps/web/hooks/useLocation.ts:71-72 | once a postcode or known city is seen, later segments never change the district |
| AddressParser.DistrictIsLastCandidate | apps/web/hooks/useLocation.ts:66-73 | before any marker, the district is the last segment longer than two characters |
| AddressParser.DistrictAbsent | apps/web/hooks/useLocation.ts:66-73 | with no marker and no segment longer than two, the district stays "" |
| AddressParser.ScanCity | apps/web/hooks/useLocation.ts:76-84 | the fallback city is district first, then postcode-and-city; at most two parts; empty iff nothing was found |
| AddressParser.DisplayNameEnds | apps/web/hooks/useLocation.ts:58-90 | first ", " segment is the address and last is the country (each with its placeholder when empty); only the middle segments are scanned for the city |
| AddressParser.DisplayNameSingleSegment | apps/web/hooks/useLocation.ts:58-90 | a display name without ", " becomes both address and country, with an empty city |
| AddressParser.NothingKnown | apps/web/hooks/useLocation.ts:93-97 | no record and no display name give exactly ("Current Location", "Unknown", "Unknown") |
| I18n.Translator.constructor | packages/i18n/src/utils.ts:3 | the table starts empty |
| I18n.Translator.SetLocale | packages/i18n/src/utils.ts:5-7 | the loaded table replaces the current one entirely |
| I18n.Translator.T | packages/i18n/src/utils.ts:9-22 | the segment-walking loop and the substitution loop return exactly `Translate(messages, key, vars)` for the current table |
| I18n.LookupSnoc | packages/i18n/src/utils.ts:12-15 | following one more segment descends from where the shorter path led, and a miss stays a miss |
| I18n.LookupMissingPrefix | packages/i18n/src/utils.ts:12-14 | a path whose prefix is missing is missing as a whole |
| I18n.TranslateMissingSegment | packages/i18n/src/utils.ts:14 | if any leading run of segments misses, `t` returns the key unchanged |
| I18n.TranslateSubTable | packages/i18n/src/utils.ts:21 | a key that leads to a sub-table returns the key |
| I18n.TranslateNested | packages/i18n/src/utils.ts:10-15 | `a.b` descends into table `a` and returns its string entry `b` |
| I18n.TranslateTopLevel | packages/i18n/src/utils.ts:10-21 | a key without "." that is absent returns the key; present as a string, returns it |
| I18n.TranslateFound | packages/i18n/src/utils.ts:16-21 | a found string comes back unchanged without vars and substituted with them |
| I18n.SubstituteInOrder | packages/i18n/src/utils.ts:17-19 | the variables are applied one after another in their given order |
| I18n.SubstituteOne | packages/i18n/src/utils.ts:18 | one variable replaces every `{name}`: the text between placeholders rejoined with the value |
| I18n.SubstituteNoBrace | packages/i18n/src/utils.ts:18 | text without '{' is unchanged by any variables |
| I18n.SubstituteIdentity | packages/i18n/src/utils.ts:18 | a variable whose value is its own placeholder changes nothing |
| DatabaseUtils.EmptyIsNoPoint | packages/database/src/utils.ts:6 | the empty string gives undefined |
| DatabaseUtils.MatchAtExact | packages/database/src/utils.ts:8 | where the text `POINT(lng ws lat)` occurs with token groups and white space, the pattern matches there with those two groups |
| DatabaseUtils.MatchAtSound | packages/database/src/utils.ts:8 | every match is such a text: two `[-0-9.]+` tokens with `\s+` between, inside `POINT(` and `)` |
| DatabaseUtils.FirstMatchLeftmost | packages/database/src/utils.ts:8 | the match used is the leftmost one |
| DatabaseUtils.FirstMatchNone | packages/database/src/utils.ts:8-9 | undefined exactly when no position starts a match |
| DatabaseUtils.ReadPointInContext | packages/database/src/utils.ts:8-13 | the match is unanchored: text before (without 'P') and after a point is ignored, and the first group is the longitude |
| DatabaseUtils.ReadPointCoordinates | packages/database/src/utils.ts:8-13 | a point text reads back as lat = parse of the second token and lng = parse of the first |
| DatabaseUtils.TransformFoodCenter | packages/database/src/utils.ts:17-22 | location becomes an object of exactly the item's lat and lng; every other field is as in the item |
| DatabaseUtils.TransformIdempotent | packages/database/src/utils.ts:17-22 | transforming twice is transforming once |
| Queries.BuildFoodCentersQuery | packages/database/src/queries.ts:15-40 | the query built by reassignment equals `FoodCentersQuery(f)`: all columns of food_centers, newest first, no limit |
| Queries.FoodCenterClausesPresent | packages/database/src/queries.ts:20-40 | a type or city clause iff non-empty; a verified clause iff defined, false included; an overlap clause iff the list is non-empty; at most four clauses |
| Queries.NoFiltersNoClauses | packages/database/src/queries.ts:9-18 | without filters the query has no clause |
| Queries.FoodCenterFiltersMeaning | packages/database/src/queries.ts:20-40 | a row passes the clauses iff it has the given type and city, the given verified flag, and shares a dietary restriction with a non-empty list |
| Queries.SelectMembers | packages/database/src/queries.ts:42-45 | the rows returned are exactly the stored rows passing every clause |
| Queries.UpdateFoodCenterMerges | packages/database/src/queries.ts:92-105 | with exactly one row of that id, the result is that row with every update applied and all other columns kept, and its id unchanged unless the update sets one |
| Queries.MissingIdFails | packages/database/src/queries.ts:63-72 | for an id no row has, the `.single()` lookup throws, while a null-answering lookup returns null |
| Queries.ByIdOrNullCases | packages/database/src/queries.ts:63-72 | the null-answering lookup: null iff no row matches, the row iff exactly one matches, and that row carries the id |
| Queries.FoodCenterInsert | packages/database/src/queries.ts:79-83 | all submitted fields are kept except location, which becomes `POINT(lng lat)` text |
| Queries.InsertedLocationReadsBack | packages/database/src/queries.ts:82 | the point text written for a location reads back with `parseGeographyPoint` as the same lat and lng, for decimal-notation numbers that `parseFloat` reads back exactly |
| Queries.AvailabilityInsert | packages/database/src/queries.ts:118-121 | notes absent or null become ""; present notes and every other field are unchanged |
| Queries.AvailabilityInsertSettles | packages/database/src/queries.ts:118-121 | stored notes are never null, and defaulting twice is defaulting once |
| Queries.AvailabilityHistory | packages/database/src/queries.ts:133-143 | exactly the first ten of the center's updates in newest-first order, or all of them when fewer than ten match; every one of the requested center |
| Queries.ReviewsOfCenter | packages/database/src/queries.ts:158-167 | every review of the center, newest first, no limit; each keeps its columns and gains `profiles`, holding the author's `full_name` when a profile has the review's `user_id` and null otherwise |
| SharedUtils.StatusColorMatchesDeclaredColors | packages/shared/src/utils.ts:30-41 | each declared status gets the classes of its declared colour: available green, limited yellow, unavailable red, unknown gray |
| SharedUtils.StatusColorDefault | packages/shared/src/utils.ts:38-39 | any other status string gets the gray classes |
| SharedUtils.StatusColorDistinguishes | packages/shared/src/utils.ts:30-37 | the three coloured statuses get distinct, non-gray classes |
| SharedUtils.DayKeyInjective | packages/shared/src/utils.ts:20-23 | different weekdays look up different keys |
| SharedUtils.OperatingHoursCases | packages/shared/src/utils.ts:15-28 | "Hours not specified" without a table; "Closed today" without today's entry; else exactly open + " - " + close, which is neither message |
| SharedUtils.OperatingHoursOnlyToday | packages/shared/src/utils.ts:23-27 | other days' entries do not affect the line |
| SharedUtils.KilometresAreNearest | packages/shared/src/utils.ts:12 | from 1000 m on, the text is the kilometres rounded to one decimal, within 0.05 of the exact value |
| SharedUtils.DistanceUnit | packages/shared/src/utils.ts:8-13 | the "km" form is used exactly from 1000 metres on, the "m" form below |
| Schemas.LocationFormAccepts | packages/shared/src/schemas.ts:4-36 | the location form is accepted iff name and address are non-empty, type is one of the five kinds, and every other present field has its type (lat/lng any number) |
| Schemas.LocationFormPlaceDefaults | packages/shared/src/schemas.ts:7-8 | missing city becomes "Berlin", missing country "Germany" |
| Schemas.LocationFormListDefaults | packages/shared/src/schemas.ts:20-32 | missing dietary_restrictions and languages become [], operating_hours {} |
| Schemas.LocationFormAccessDefaults | packages/shared/src/schemas.ts:33-35 | missing accessibility becomes false; lat and lng stay absent when absent |
| Schemas.ReviewFormAccepts | packages/shared/src/schemas.ts:39-42 | accepted iff rating is a number in the closed range [1, 5] and any comment is a string |
| Schemas.ReviewFormAcceptsFractionalRating | packages/shared/src/schemas.ts:40 | 2.5 is an accepted rating |
| Schemas.AvailabilityFormAccepts | packages/shared/src/schemas.ts:45-48 | accepted iff status is one of the four statuses and any notes are a string |
| Schemas.FilterFormAccepts | packages/shared/src/schemas.ts:51-55 | accepted iff each present field has its type |
| Schemas.FilterFormEmpty | packages/shared/src/schemas.ts:51-55 | the empty form passes and gets no defaults |
| FoodCenterSchema.CoordinatesAccepted | apps/api/src/routes/foodCenters.ts:30-33 | the location passes iff lat is in [-90, 90] and lng in [-180, 180], bounds included; it comes out as just lat and lng |
| FoodCenterSchema.NamesAccept | apps/api/src/routes/foodCenters.ts:14-25 | name, address, city and country pass iff all four are non-empty strings |
| FoodCenterSchema.ContactAccept | apps/api/src/routes/foodCenters.ts:26-38 | the contact fields pass iff each present one is a string, e-mail and URL in their formats |
| FoodCenterSchema.ServiceAccept | apps/api/src/routes/foodCenters.ts:15-40 | type is one of the five kinds, and hours, lists, description and capacity have their types when present |
| FoodCenterSchema.StateAccept | apps/api/src/routes/foodCenters.ts:30-45 | location is required and in range; availability one of four, verified a boolean, created_by a string when present |
| FoodCenterSchema.FoodCenterAccepts | apps/api/src/routes/foodCenters.ts:13-46 | the create schema accepts an object iff it meets `ValidFoodCenter`, all nineteen fields |
| FoodCenterSchema.FoodCenterNeedsObject | apps/api/src/routes/foodCenters.ts:84 | a body that is not an object is rejected |
| FoodCenterSchema.FoodCenterAvailabilityDefault | apps/api/src/routes/foodCenters.ts:41-43 | missing current_availability becomes "unknown" |
| FoodCenterSchema.FoodCenterVerifiedDefault | apps/api/src/routes/foodCenters.ts:44 | missing verified becomes false |
| FoodCenterSchema.FoodCenterLocation | apps/api/src/routes/foodCenters.ts:30-33 | the location comes out reduced to lat and lng |
| FoodCenterSchema.UpdateAccepts | apps/api/src/routes/foodCenters.ts:97 | the partial schema checks only the present fields and outputs only present, declared ones |
| FoodCenterSchema.EmptyUpdate | apps/api/src/routes/foodCenters.ts:97 | an empty update is accepted unchanged: no defaults are filled in |
| FoodCenterSchema.UpdateKeepsNameCheck | apps/api/src/routes/foodCenters.ts:97 | a present empty name is still rejected by the partial schema |
| FoodCenterSchema.NoIdField | apps/api/src/routes/foodCenters.ts:13-46 | the schema declares no `id` field |
| Http.FetchedStatus | apps/api/src/routes/availability.ts:17-24 | a read answers 200 iff the call returned, else 500 with the handler's message |
| Http.CreatedStatus | apps/api/src/routes/foodCenters.ts:82-93 | a create answers 400 with the issues iff validation fails, 201 with the stored record iff validation, preparation and insert succeed, else 500 |
| Http.UpdatedStatus | apps/api/src/routes/foodCenters.ts:95-106 | an update answers 400 iff validation fails, 200 with the stored record iff the write returns, else 500 |
| FoodCenterRoutes.VerifiedParam | apps/api/src/routes/foodCenters.ts:56-61 | verified is true iff the parameter is "true", false iff it is "false", undefined for any other text or none |
| FoodCenterRoutes.DietaryParam | apps/api/src/routes/foodCenters.ts:52-54 | a list without commas sent comma-joined arrives as that same list and is sent as an overlap clause |
| FoodCenterRoutes.DietaryClause | packages/database/src/queries.ts:32-40 | a non-empty dietary list always produces the overlap clause |
| FoodCenterRoutes.EmptyParamsIgnored | apps/api/src/routes/foodCenters.ts:50-62 | empty or missing type, city and dietary parameters add no clause |
| FoodCenterRoutes.ListFoodCentersAnswer | apps/api/src/routes/foodCenters.ts:48-68 | 200 with exactly the stored rows meeting every filter from the query string, in order; 500 "Failed to fetch food centers" on failure |
| FoodCenterRoutes.NotFoundUnreachable | apps/api/src/routes/foodCenters.ts:70-80 | as written, `GET /:id` never answers 404, and an unknown id gets 500 "Failed to fetch food center" |
| FoodCenterRoutes.GetFoodCenterStatus | apps/api/src/routes/foodCenters.ts:70-80 | with the null-answering lookup: 404 iff no row has the id, 200 with that row iff exactly one does, otherwise 500 |
| FoodCenterRoutes.CreateValidates | apps/api/src/routes/foodCenters.ts:82-93 | `POST /` answers 400 iff the body is not an object meeting `ValidFoodCenter`; the status is always 201, 400 or 500 |
| FoodCenterRoutes.CreateStoresPoint | apps/api/src/routes/foodCenters.ts:82-93 | a valid body is always turned into a row whose location text reads back as the submitted position; 201 iff the insert returns |
| FoodCenterRoutes.UpdateKeepsId | apps/api/src/routes/foodCenters.ts:95-106 | an accepted update of a stored center answers 200 with a row whose id is the requested one, even if the body sent another id |
| FoodCenterRoutes.UpdateMissingIdFails | apps/api/src/routes/foodCenters.ts:95-106 | an update of an unknown id answers 400 or 500, never 200 |
| FoodCenterRoutes.EmptyUpdateChangesNothing | apps/api/src/routes/foodCenters.ts:97-99 | an empty body answers 200 with the stored row as it was |
| AvailabilityRoutes.ReportAccepts | apps/api/src/routes/availability.ts:10-15 | accepted iff food_center_id is a string, status one of the four, notes and reported_by strings when present |
| AvailabilityRoutes.ListUpdatesAnswer | apps/api/src/routes/availability.ts:17-24 | 200 with exactly the center's ten newest updates (all of them when fewer); 500 "Failed to fetch availability updates" on failure |
| AvailabilityRoutes.CreateUpdateStores | apps/api/src/routes/availability.ts:26-37 | 400 iff invalid; a valid update is stored with its center, status and reporter, its notes or "", and no undeclared column; 201 iff the insert returns |
| ReviewRoutes.ReviewAccepts | apps/api/src/routes/reviews.ts:7-12 | accepted iff both ids are strings, rating a number in [1, 5], comment a string when present |
| ReviewRoutes.ListReviewsAnswer | apps/api/src/routes/reviews.ts:14-21 | 200 with every review of the center in order, each with its author embedded; 500 "Failed to fetch reviews" on failure |
| ReviewRoutes.CreateReviewStores | apps/api/src/routes/reviews.ts:23-34 | 400 iff invalid; a valid review is stored with its ids, rating and comment and helpful_count 0 whatever the body sent; 201 iff the insert returns |
| ReportRoutes.ContentAccepted | apps/api/src/routes/reports.ts:11 | content passes iff it is an object, and comes out unchanged |
| ReportRoutes.UserReportAccepts | apps/api/src/routes/reports.ts:7-13 | accepted iff type is a string, content an object, status one of pending/approved/rejected when present, ids strings when present |
| ReportRoutes.ReportOutput | apps/api/src/routes/reports.ts:12 | the parsed status is the given one or "pending"; ids, type and content are as given |
| ReportRoutes.CreateReportStores | apps/api/src/routes/reports.ts:15-30 | 400 iff invalid; a valid report is stored with both ids (given, or ""), its type and content, and its status or "pending"; 201 iff the insert returns |
| Sidebar.VisibleMembers | apps/web/components/Sidebar.tsx:74-76 | a center is listed iff its lower-cased name contains the lower-cased search text |
| Sidebar.VisibleIsSubsequence | apps/web/components/Sidebar.tsx:74-76 | the list is an order-preserving subsequence of the centers |
| Sidebar.EmptySearchKeepsAll | apps/web/components/Sidebar.tsx:75 | an empty or absent search lists every center |
| Sidebar.SearchIgnoresCase | apps/web/components/Sidebar.tsx:75 | upper-, lower- and mixed-case searches list the same centers |
| Sidebar.ApplyFilters | apps/web/components/Sidebar.tsx:78-84 | the city is kept; type becomes the form's type or ""; dietary list the form's list or [] |
| Sidebar.SubmitDefaultsIsIdentity | apps/web/components/Sidebar.tsx:65-84 | submitting the untouched form gives back the current filters |
| Sidebar.ApplyFiltersSettles | apps/web/components/Sidebar.tsx:78-84 | the search text never reaches the filters, and applying a form twice is applying it once |
| Strings.JoinSplit | apps/web/hooks/useLocation.ts:59 | joining the pieces of a split with its separator gives back the string |
| Strings.SplitJoin | apps/api/src/routes/foodCenters.ts:53 | splitting a join on a one-character separator that no piece contains gives back the pieces |
| Strings.ReplaceAllIsSplitJoin | packages/i18n/src/utils.ts:18 | a global replace is the split on the pattern rejoined with the replacement |
| Strings.LowerForgetsCase | apps/web/components/Sidebar.tsx:75 | lower-casing the upper- or lower-cased string gives the same result |
| AddressParser.ParseAddress | apps/web/hooks/useLocation.ts:16-98 | no contract of its own; characterised by AddressParser.RecordOverridesDisplayName, RecordCityAndCountry, DisplayNameEnds, NothingKnown and the loop of ParseAddressFromNominatim |
| I18n.Translate | packages/i18n/src/utils.ts:9-22 | no contract of its own; characterised by I18n.Translator.T and the Translate*/Substitute* lemmas |
| DatabaseUtils.ParseGeographyPoint | packages/database/src/utils.ts:3-15 | no contract of its own; characterised by DatabaseUtils.EmptyIsNoPoint, ReadPointInContext, ReadPointCoordinates and Queries.InsertedLocationReadsBack |
| Queries.FoodCentersQuery | packages/database/src/queries.ts:9-46 | no contract of its own; characterised by Queries.BuildFoodCentersQuery, FoodCenterClausesPresent, NoFiltersNoClauses and FoodCenterFiltersMeaning |
| Queries.ReviewsWithAuthors | packages/database/src/queries.ts:158-167 | no contract of its own; characterised by Queries.ReviewsOfCenter |
| SharedUtils.StatusColor | packages/shared/src/utils.ts:30-41 | no contract of its own; characterised by SharedUtils.StatusColorMatchesDeclaredColors, StatusColorDefault and StatusColorDistinguishes |
| SharedUtils.FormatOperatingHours | packages/shared/src/utils.ts:15-28 | no contract of its own; characterised by SharedUtils.OperatingHoursCases and OperatingHoursOnlyToday |
| SharedUtils.FormatDistance | packages/shared/src/utils.ts:8-13 | no contract of its own; characterised by SharedUtils.KilometresAreNearest and DistanceUnit |
| Sidebar.VisibleCenters | apps/web/components/Sidebar.tsx:74-76 | no contract of its own; characterised by Sidebar.VisibleMembers, VisibleIsSubsequence, EmptySearchKeepsAll and SearchIgnoresCase |
| FoodCenterRoutes.ListFoodCenters | apps/api/src/routes/foodCenters.ts:48-68 | no contract of its own; characterised by FoodCenterRoutes.ListFoodCentersAnswer |
| FoodCenterRoutes.GetFoodCenterAsWritten | apps/api/src/routes/foodCenters.ts:70-80 | no contract of its own; characterised by FoodCenterRoutes.NotFoundUnreachable |
| FoodCenterRoutes.GetFoodCenter | apps/api/src/routes/foodCenters.ts:70-80 | no contract of its own; characterised by FoodCenterRoutes.GetFoodCenterStatus |
| FoodCenterRoutes.CreateFoodCenter | apps/api/src/routes/foodCenters.ts:82-93 | no contract of its own; characterised by FoodCenterRoutes.CreateValidates and CreateStoresPoint |
| FoodCenterRoutes.UpdateFoodCenterRoute | apps/api/src/routes/foodCenters.ts:95-106 | no contract of its own; characterised by FoodCenterRoutes.UpdateKeepsId, UpdateMissingIdFails and EmptyUpdateChangesNothing |
| AvailabilityRoutes.ListUpdates | apps/api/src/routes/availability.ts:17-24 | no contract of its own; characterised by AvailabilityRoutes.ListUpdatesAnswer |
| AvailabilityRoutes.CreateUpdate | apps/api/src/routes/availability.ts:26-37 | no contract of its own; characterised by AvailabilityRoutes.CreateUpdateStores |
| ReviewRoutes.ListReviews | apps/api/src/routes/reviews.ts:14-21 | no contract of its own; characterised by ReviewRoutes.ListReviewsAnswer |
| ReviewRoutes.CreateReview | apps/api/src/routes/reviews.ts:23-34 | no contract of its own; characterised by ReviewRoutes.CreateReviewStores |
| ReportRoutes.CreateReport | apps/api/src/routes/reports.ts:15-30 | no contract of its own; characterised by ReportRoutes.CreateReportStores |

## Left out

- I/O: the hosted database client, auth, the RPC call, `fetch` and geolocation in the location hook, and `loadMessages`. The database is a table of rows or a failed round trip; inserts are a parameter.
- React rendering, component state, and the server wiring.
- Sorting by `created_at` is done by the database. `Run` takes rows already in that order and applies the clauses and the limit.
- `getNearbyFoodCenters` is an RPC call into the database.
- `cn` wraps a foreign library.
- Floating point, i.e. `parseFloat`, `Math.round`, `toFixed` and `${n}` at the edges:
  - numbers are exact reals;
  - `parseFloat` and number printing are parameters;
  - NaN, infinities, exponent notation (which the point pattern does not match) and `toFixed` at 1e21 or more are not modelled;
  - `DatabaseUtils.ReadPointCoordinates` takes a parse function for the token texts.
- zod's e-mail and URL formats are opaque predicates. Its issue messages and paths are reduced to a set of paths. A key present with the value `undefined` is modelled as the key absent.
- Express query parameters given more than once (arrays) are not modelled: each parameter is one string.
- `toLowerCase`, `toUpperCase` and string length are ASCII and per character. There is no Unicode case mapping and no UTF-16 code units.
- I18n.Translator.T: the following are not modelled:
  - a variable name must be a plain identifier, so names with regular-expression metacharacters, or those that make the `RegExp` throw, are not modelled;
  - `$` patterns in the replacement text are inserted literally;
  - indexing into a string leaf or into prototype keys by `value?.[k]` gives a miss;
  - `Object.entries` ordering is the given variable order.
- `FoodCenterRoutes.PrepareCenter` throws when a position lacks a number. The code would write "undefined" into the text instead. The case cannot arise after validation.
- Queries.ReviewsWithAuthors: the `profiles` embed rests on a link from a review's `user_id` to a profile's id that the database's foreign keys define. The schema is not part of this model, so the model takes that link as given, and takes the profiles' names as a parameter. An embed that finds several profiles, or one that fails, is not modelled.
- `updateFoodCenter` passes the location object through unchanged. It is not converted to point text, and the model keeps it as it is.
- `useMapMarkers`, the compiled copies under `dist`, and the configuration files are UI, build output and tooling.

## Findings

| source | as written | input that shows it | evidently intended | confidence | as-written member | corrected member |
|---|---|---|---|---|---|---|
| packages/database/src/queries.ts:63-72 | `getFoodCenterById` ends in `.single()`, which reports an error unless exactly one row matches. The error is rethrown, so `GET /:id` (apps/api/src/routes/foodCenters.ts:70-80) answers 500 "Failed to fetch food center" for an unknown id, and its 404 branch never runs | `GET /:id` with an id that no stored row has | 404 "Food center not found" for an unknown id, as the handler's `!foodCenter` branch says; a lookup that answers null for no rows (`.maybeSingle()`) gives that | medium, not executed | FoodCenterRoutes.NotFoundUnreachable | FoodCenterRoutes.GetFoodCenterStatus |
