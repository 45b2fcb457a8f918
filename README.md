# Lead CRM: a verified model of the discovery and scoring core

The lead CRM keeps sales leads (businesses with a web presence worth
improving), their status in a sales pipeline, and a log of activities per lead.
Its core is a **discovery pipeline**. It runs text searches against the Google
Places service. It turns every place into a new lead with a city, a business
category and a website quality score. It computes an opportunity score for the
lead, and it stores the lead unless an equal one already exists. Around that
core sit:

- the lead repository, an SQL table of leads with a cascade-deleted table of activities;
- the lead service: duplicate check, not-found handling, status-change log, dashboard figures;
- the form and filter validators;
- the HTTP Basic authentication gate in front of the pages;
- the API-key check in front of the `/api/` routes;
- the display helpers.

The Dafny project models each of these as its own module:

| module | file | models |
|---|---|---|
| `Wrappers` | wrappers.dfy | `Option`, `Result` |
| `Text` | text.dfy | JavaScript `trim`, `split`, `join`, `toLowerCase`, `includes`, `startsWith`, UTF-16 `length` |
| `LeadModel` | lead_model.dfy | the enums, rows and column limits of `src/lib/server/db/schema.ts` |
| `Sorting` | sorting.dfy | the row order of an `ORDER BY`, and `LIMIT`/`OFFSET` |
| `LeadRepository` | lead_repository.dfy | `leadRepository`, as a class `LeadStore` over an in-memory table |
| `LeadService` | lead_service.dfy | `leadService`: `calculateScore`, `createLead` and the rest |
| `Discovery` | discovery_service.dfy | `discoveryService`: `extractCity`, `mapPlaceTypes`, `assessWebsite`, `searchGooglePlaces`, `runDiscovery` |
| `LeadSchema` | lead_schema.dfy | the zod schemas of `src/lib/schemas/lead.schema.ts` |
| `Hooks` | hooks.dfy | the `handle` hook of `src/hooks.server.ts` |
| `ApiAuth` | auth.dfy | `requireApiKey` and `getApiKey` |
| `Format` | format.dfy | `formatCurrency`, `formatDate` and `formatDateTime` (both as `FormatWith` with their renderer), `scoreColor` |

The modelling follows these choices:

- **Stateful code is imperative.** The repository and the service operations
  that change it are methods of the class `LeadStore`. Its fields `leads` and
  `activities` are sequences that the methods reassign. The loops of
  `searchGooglePlaces` and `runDiscovery` are `while` loops, proved against
  specification functions (`SearchOf`, `Creations`, `WithFailures`, `Answers`, `Reports`, `FoundIn`, `ErrorsIn`).
- **Pure code is functions with lemmas.** This covers the scoring, parsing,
  validation and formatting.
- **Outside inputs are parameters.** The Places search, the place details
  lookup and the website fetch are oracle functions. So are the environment
  variables, the clock (`now`), `atob`, the zod e-mail and URL checks, and the
  locale renderers.
- **Database refusals are error results.** Where PostgreSQL would refuse a row,
  the repository method returns a `DbError`. This covers an enum value outside
  the column's enum, a `varchar` over its length, and an `integer` outside 32
  bits. Each such error leaves the table unchanged.

Several behaviours follow the code as written:

- `mapPlaceTypes` falls back to `types[0]` even when that tag is the empty
  string.
- `extractCity` takes the second-to-last comma piece even for a two-piece
  address, so "Hauptstraße 1, Wien" gives the street side
  (`Discovery.ExtractCityOfTwoPieces`).
- `updateLeadSchema` is `createLeadSchema.partial()`, and under zod 4 a
  partial schema still fills in the `.default()` values of omitted fields.
  `LeadSchema.ValidateUpdate` follows that, so an edit that leaves out
  `status` reopens a won lead. See "## Findings".
- The form schema's `source` enum accepts `bigl_bot`, which the database enum
  refuses, and refuses `google_places`, which the database takes.
  `LeadSchema.SchemaTakesBiglBot` and `LeadSchema.SchemaRefusesGooglePlaces`
  state this, and `LeadSchema.ValidatedFilterPage` shows that a list query
  filtered on `bigl_bot` fails.
- The schema gives `email` no maximum length and `estimatedValue` no maximum,
  but the columns are `varchar(255)` and `integer`.
  `LeadSchema.ValidatedRowFits` states exactly when a validated lead still
  fails the insert.
- A missing Places API key is reported once per query, so a batch of n queries
  gives n errors.
- zod 4's `.int()` accepts only safe integers, at most 2^53 - 1 in magnitude,
  so `websiteScore`, `estimatedValue`, `limit` and `offset` beyond that are
  refused by the schema (`LeadSchema.IntWithin`, `LeadSchema.UnsafeIntegerRefused`).

## Model

| member | source | states |
|---|---|---|
| `LeadModel.NamesRoundTrip` | src/lib/server/db/schema.ts:4-28 | every status, source and activity type parses back from its database name |
| `LeadModel.ParseStatus` | src/lib/schemas/lead.schema.ts:3 | a parsed status has exactly the given name |
| `LeadModel.ParseSource` | src/lib/server/db/schema.ts:13-19 | a parsed source has exactly the given name |
| `LeadModel.ParseActivityType` | src/lib/schemas/lead.schema.ts:5 | a parsed activity type has exactly the given name |
| `LeadModel.RowViolation` | src/lib/server/db/schema.ts:31-53 | a row is refused exactly when a column limit (varchar length or 32-bit integer) is broken, naming the first such column |
| `LeadModel.RowOf` | src/lib/server/db/schema.ts:31-53 | an inserted row keeps the given fields and takes the column defaults: country Austria, source manual, status new, both timestamps now, no contact date |
| `LeadModel.Patched` | src/lib/server/repositories/lead.repository.ts:94-101 | an update overrides exactly the given fields, keeps the key, creation time and contact date, and sets `updatedAt` to now |
| `Sorting.SortBy` | src/lib/server/repositories/lead.repository.ts:67 | the ordered rows are a permutation of the matching rows and are sorted by the chosen order |
| `Sorting.Insert` | src/lib/server/repositories/lead.repository.ts:67 | inserting one row adds exactly that row to the list (as a multiset) |
| `Sorting.InsertSorted` | src/lib/server/repositories/lead.repository.ts:67 | inserting one row into a sorted list keeps it sorted |
| `Sorting.Window` | src/lib/server/repositories/lead.repository.ts:68-69 | `LIMIT`/`OFFSET` keep at most `limit` rows, the ones starting at `offset`, in order |
| `Sorting.WindowSorted` | src/lib/server/repositories/lead.repository.ts:67-69 | a window of sorted rows is sorted |
| `Text.Trim` | src/lib/server/services/discovery.service.ts:204 | `trim` keeps the slice of the input after its leading whitespace, followed only by whitespace, with no whitespace at either end |
| `Text.TrimChars` | src/lib/server/services/discovery.service.ts:204 | every character `trim` keeps comes from the input |
| `Text.TrimStart` | src/lib/server/services/discovery.service.ts:208 | `trimStart` (the `\s*` after the postal code) drops a run of leading whitespace and stops at the first other character |
| `Text.TrimOfTrimmed` | src/lib/server/services/discovery.service.ts:208 | trimming a string with no whitespace at its ends changes nothing |
| `Text.Split` | src/hooks.server.ts:21 | a split yields at least one piece, and no piece holds the separator |
| `Text.JoinSplit` | src/hooks.server.ts:24-25 | joining the pieces of a split with the same separator gives back the string |
| `Text.SplitJoin` | src/hooks.server.ts:24-25 | splitting a join of separator-free pieces gives back the pieces |
| `Text.SplitCount` | src/lib/server/services/discovery.service.ts:204-205 | a split has two or more pieces exactly when the separator occurs |
| `Text.SplitHead` | src/hooks.server.ts:24 | the first piece is the text before the first separator, and the rest is the split of what follows it |
| `Text.ToLower` | src/lib/server/services/lead.service.ts:123 | lower-casing keeps the length, maps each character on its own, keeps every non-capital and leaves no ASCII capital |
| `Text.ToLowerIdempotent` | src/lib/server/services/lead.service.ts:123 | lower-casing twice is lower-casing once |
| `LeadRepository.Matching` | src/lib/server/repositories/lead.repository.ts:55-66 | the `WHERE` keeps exactly the rows that satisfy every filter, as a sub-multiset of the table |
| `LeadRepository.ConditionsMeanFilters` | src/lib/server/repositories/lead.repository.ts:20-55 | the conditions pushed for the filters hold of a row exactly when it matches all the filters: search on five columns, status, source, city, score bounds |
| `LeadRepository.RowOrderIsTotalPreorder` | src/lib/server/repositories/lead.repository.ts:57-60 | each sort column and direction is a total preorder, NULLs last when ascending and first when descending |
| `LeadRepository.PageWithinLimit` | src/lib/server/repositories/lead.repository.ts:62-69 | a page never holds more rows than its limit |
| `LeadRepository.PageOfSound` | src/lib/server/repositories/lead.repository.ts:57-81 | a page holds only matching rows, at most `limit` of them (50 by default, offset 0), sorted by the chosen column (default `createdAt`, descending unless `asc`); `total` counts every matching row |
| `LeadRepository.IndexOf` | src/lib/server/repositories/lead.repository.ts:85 | the row found has the key; no row is found only when no row has it |
| `LeadRepository.WithoutLead` | src/lib/server/db/schema.ts:58-60 | the cascade keeps exactly the activities of the other leads |
| `LeadRepository.ActivitiesOf` | src/lib/server/repositories/lead.repository.ts:140 | exactly the activities of that lead |
| `LeadRepository.CountsPartition` | src/lib/server/repositories/lead.repository.ts:122-133 | the six status counts add up to the table size and the six values to the total value |
| `LeadRepository.GroupSums` | src/lib/server/repositories/lead.repository.ts:125-130 | a status group carries its status's count and summed value |
| `LeadRepository.ZeroCountZeroValue` | src/lib/server/repositories/lead.repository.ts:127 | a status with no rows sums to value 0 |
| `LeadRepository.SumsAppend` | src/lib/server/repositories/lead.repository.ts:122-133 | counts and values of concatenated groups add |
| `LeadRepository.StatsOfGroups` | src/lib/server/repositories/lead.repository.ts:122-133 | there is one stats row per status present, with its count and its value (NULL as 0) |
| `LeadRepository.StatsOfTotals` | src/lib/server/repositories/lead.repository.ts:122-133 | the stats rows' counts sum to the table size and their values to the table's total value |
| `LeadRepository.RemoveAtKeys` | src/lib/server/repositories/lead.repository.ts:103-106 | deleting one row removes exactly its key and keeps the keys unique |
| `LeadRepository.SameKeys` | src/lib/server/repositories/lead.repository.ts:94-101 | updating a row in place keeps the set of keys |
| `LeadRepository.LeadStore.constructor` | src/lib/server/db/schema.ts:31-66 | an empty store |
| `LeadRepository.BuildConditions` | src/lib/server/repositories/lead.repository.ts:20-55 | one condition per supplied filter, an empty search or city text counting as absent |
| `LeadRepository.FilterBindError` | src/lib/server/repositories/lead.repository.ts:39-53 | no error exactly when the source filter is in the database enum and both score bounds are 32-bit integers, which Postgres checks when it binds the parameters |
| `LeadRepository.PatchBindError` | src/lib/server/repositories/lead.repository.ts:94-99 | no error exactly when the update's source is in the database enum and its website score and estimated value are 32-bit integers; otherwise the first refused parameter in column order |
| `LeadRepository.LeadStore.FindAll` | src/lib/server/repositories/lead.repository.ts:19-82 | the result is the page of `PageOfSound`; the query fails exactly when the source filter is outside the database enum or a score bound is outside the 32-bit integer range, with the error `FilterBindError` names |
| `LeadRepository.LeadStore.FindById` | src/lib/server/repositories/lead.repository.ts:84-87 | it returns the row with that key, or null exactly when there is none |
| `LeadRepository.LeadStore.Create` | src/lib/server/repositories/lead.repository.ts:89-92 | a fresh key is assigned and the row with its defaults is appended; a row that breaks a column limit is refused and the table is unchanged |
| `LeadRepository.LeadStore.Update` | src/lib/server/repositories/lead.repository.ts:94-101 | it fails exactly when a parameter does not bind (source outside the database enum, score or estimated value outside the 32-bit integer range), whether or not the key exists, or when the patched row breaks a column limit, changing nothing; a missing key otherwise gives null and changes nothing; otherwise exactly that row becomes the patched row |
| `LeadRepository.LeadStore.Delete` | src/lib/server/repositories/lead.repository.ts:103-106 | a missing key gives null and changes nothing; otherwise exactly that row is removed, and so are its activities |
| `LeadRepository.LeadStore.UpdateStatus` | src/lib/server/repositories/lead.repository.ts:108-120 | a missing key gives null and changes nothing; otherwise only status and `updatedAt` change, plus `contactedAt` exactly when the status is contacted |
| `LeadRepository.LeadStore.GetStats` | src/lib/server/repositories/lead.repository.ts:122-133 | the grouped counts and values, failing exactly when a count or a summed value leaves the 32-bit range (the `::int` casts) |
| `LeadRepository.LeadStore.GetActivities` | src/lib/server/repositories/lead.repository.ts:136-142 | exactly the lead's activities, newest first |
| `LeadRepository.LeadStore.AddActivity` | src/lib/server/repositories/lead.repository.ts:144-147 | one activity is appended, refused when the title exceeds 255 characters or the lead does not exist |
| `LeadService.CalculateScore` | src/lib/server/services/lead.service.ts:103-134 | the score is an integer in 1..10 |
| `LeadService.ScoreAtLeastBase` | src/lib/server/services/lead.service.ts:109-133 | no term is negative, so the score is at least the base 5 |
| `LeadService.NoWebsiteScoresHigh` | src/lib/server/services/lead.service.ts:116-119 | a lead without a website URL scores at least 8 |
| `LeadService.ScoreMonotoneInWebsiteScore` | src/lib/server/services/lead.service.ts:111-114 | a worse website never lowers the score, and a missing website score never scores above a given one |
| `LeadService.PoorWebsiteScoresTen` | src/lib/server/services/lead.service.ts:112-133 | a website score of 5 or less gives 10 |
| `LeadService.PerfectWebsiteScoresBase` | src/lib/server/services/lead.service.ts:109-133 | website score 10, a URL and no bonus give 5 |
| `LeadService.CityBonusIff` | src/lib/server/services/lead.service.ts:121-125 | the city adds 2 exactly when its lower-cased text contains one of the eight target cities |
| `LeadService.TypeBonusIff` | src/lib/server/services/lead.service.ts:127-131 | the business type adds 2 exactly when its lower-cased text contains one of the seven high-value names |
| `LeadService.DiscoveryLabelsEarnTypeBonus` | src/lib/server/services/lead.service.ts:128-131 | the discovery labels Gastronomie, Arzt/Gesundheit, Hotel/Unterkunft, Handwerk/KFZ, Handwerk, Rechtsanwalt and Immobilien each earn the type bonus |
| `LeadService.StartsWithMention` | src/lib/server/services/lead.service.ts:129 | a type that starts with a high-value name mentions it |
| `LeadService.DuplicateFoundSound` | src/lib/server/services/lead.service.ts:17-26 | a reported duplicate is a stored lead with the same name, ignoring case, and the same city (both absent counts) or the same URL |
| `LeadService.DuplicateFoundComplete` | src/lib/server/services/lead.service.ts:17-26 | such a lead is reported whenever the name search matches at most 10 rows |
| `LeadService.CreateOutcome` | src/lib/server/services/lead.service.ts:15-43 | created exactly when there is no duplicate and the insert raises no error, as the `RowOf` row; refused as a duplicate exactly when one is found |
| `LeadService.CreateLead` | src/lib/server/services/lead.service.ts:15-43 | it succeeds exactly when there is no duplicate and the row fits the table (`CreateOutcome`); a duplicate or a database refusal changes nothing; otherwise exactly the `RowOf` row is appended and exactly one note activity "Lead created" for its key |
| `LeadService.GetLeadById` | src/lib/server/services/lead.service.ts:9-13 | "Lead not found" exactly when no row has the key; otherwise that row |
| `LeadService.UpdateLead` | src/lib/server/services/lead.service.ts:45-49 | it succeeds exactly when the parameters bind, the key exists and the patched row is accepted, and then that row alone is patched; parameters that do not bind give the database error even for a missing key; a missing key with binding parameters is "Lead not found"; any failure changes nothing |
| `LeadService.UpdateLeadStatus` | src/lib/server/services/lead.service.ts:51-64 | a missing key is "Lead not found" and adds no activity; otherwise the status changes and exactly one status-change activity is logged |
| `LeadService.StatusChangeTitle` | src/lib/server/services/lead.service.ts:59 | the status-change title fits the 255-character title column |
| `LeadService.DeleteLead` | src/lib/server/services/lead.service.ts:66-70 | "Lead not found" exactly when the key is missing, and nothing changes; otherwise exactly that row is removed, the others kept in order, and its activities go |
| `LeadService.ByStatus` | src/lib/server/services/lead.service.ts:83 | the status map holds exactly the statuses of the stats rows, each mapped to its row |
| `LeadService.AbsentStatusCountsZero` | src/lib/server/services/lead.service.ts:91-96 | a status with no stats row shows count 0 |
| `LeadService.DashboardOfTable` | src/lib/server/services/lead.service.ts:80-98 | the total is the table size, the pipeline value the sum of estimated values (NULL as 0), and each named figure the count of its status |
| `LeadService.GetDashboardStats` | src/lib/server/services/lead.service.ts:80-98 | the dashboard of the current table, with total = number of leads; it fails exactly when a stats count or value leaves the 32-bit range |
| `Discovery.PostalPrefixLength` | src/lib/server/services/discovery.service.ts:208 | `^\d{4,5}` matches 0, 4 or 5 leading digits, greedily |
| `Discovery.StripPostalCode` | src/lib/server/services/discovery.service.ts:208 | the replacement removes a leading 4 or 5 digit code and the whitespace after it, and otherwise nothing |
| `Discovery.ExtractCity` | src/lib/server/services/discovery.service.ts:201-211 | a city is found only in a non-empty address with a comma; it is non-empty, trimmed and free of commas |
| `Discovery.CityOf` | src/lib/server/services/discovery.service.ts:206-208 | the city has no whitespace at either end |
| `Discovery.CityChars` | src/lib/server/services/discovery.service.ts:206-208 | every character of the city comes from the address piece |
| `Discovery.ExtractCityOfThreeParts` | src/lib/server/services/discovery.service.ts:204-206 | an address of three comma-free parts yields the city of its middle part |
| `Discovery.ExtractCityOfPieces` | src/lib/server/services/discovery.service.ts:204-208 | for any two or more comma-free pieces, the city is exactly the city of the second-to-last piece, or none when that city is empty |
| `Discovery.ExtractCityOfTwoPieces` | src/lib/server/services/discovery.service.ts:205-206 | with only two pieces the city is read from the first piece, the street side |
| `Discovery.ExtractCityOfFormatted` | src/lib/server/services/discovery.service.ts:201-211 | for "street, code city, country" with a 4 or 5 digit code the city is found |
| `Discovery.ExtractCityExample` | src/lib/server/services/discovery.service.ts:203-208 | "Hauptstraße 1, 1020 Wien, Austria" gives "Wien" |
| `Discovery.ExtractCityPostalCodeOnly` | src/lib/server/services/discovery.service.ts:208 | a piece holding only a postal code gives no city |
| `Discovery.FirstLabel` | src/lib/server/services/discovery.service.ts:235-237 | the label of the first known tag in input order, or none when no tag is known |
| `Discovery.MapPlaceTypes` | src/lib/server/services/discovery.service.ts:213-239 | "other" for missing or empty tags; the first known tag's label; otherwise the first tag verbatim |
| `Discovery.MappedLabelsEarnTypeBonus` | src/lib/server/services/discovery.service.ts:215-233 | every mapped label except retail, tax adviser, services and fitness earns the type bonus of `calculateScore` |
| `Discovery.SingleTagLabel` | src/lib/server/services/discovery.service.ts:235-236 | a single known tag maps to its label |
| `Discovery.BonusIndex` | src/lib/server/services/discovery.service.ts:215-233 | each bonus-earning mapped label is one of the labels `DiscoveryLabelsEarnTypeBonus` covers |
| `Discovery.SignalCount` | src/lib/server/services/discovery.service.ts:146-147 | the number of distinct signals present, 0 exactly when none is |
| `Discovery.AssessWebsite` | src/lib/server/services/discovery.service.ts:116-160 | 1 when the fetch fails, 2 when the response is not ok, otherwise the page heuristic; always in 1..10 and never above 8 for a page |
| `Discovery.TopWebsiteScoreIff` | src/lib/server/services/discovery.service.ts:132-157 | a page scores 8 exactly when it has a viewport, https, a modern signal, no old signal and a size between 5 and 500 KB |
| `Discovery.NoViewportAtMostFive` | src/lib/server/services/discovery.service.ts:135-136 | a page without a viewport scores at most 5 |
| `Discovery.LeadOfPlace` | src/lib/server/services/discovery.service.ts:59-82 | a lead has the place's name, source google_places and status new, and website score 0 exactly when there is no website, otherwise the `assessWebsite` result |
| `Discovery.PlacesAppend` | src/lib/server/services/discovery.service.ts:56-88 | the leads and errors of concatenated place lists concatenate |
| `Discovery.PlacesAccounted` | src/lib/server/services/discovery.service.ts:56-88 | processed entries give at most one lead or one error each, exactly one each when no entry is `null` |
| `Discovery.FirstNull` | src/lib/server/services/discovery.service.ts:56-59 | the number of entries read before the first `null` one, which is where processing stops |
| `Discovery.SearchAccounted` | src/lib/server/services/discovery.service.ts:50-93 | in an OK reply each entry before the first `null` one gives one lead or one error, and a `null` entry ends the search with one "Google Places search failed" line, the last error |
| `Discovery.PlaceLeadsShape` | src/lib/server/services/discovery.service.ts:56-88 | every lead comes from a place, in order, with source google_places, status new and the website-score rule |
| `Discovery.SearchGooglePlaces` | src/lib/server/services/discovery.service.ts:28-94 | it returns exactly `SearchOf`: no key gives the one error "Google Places API key not configured"; a failed search or non-OK status gives one error and no leads; otherwise one lead or one error per entry, in order, until a `null` entry ends it with "Google Places search failed"; every lead is google_places and new |
| `Discovery.WithLeadScore` | src/lib/server/services/discovery.service.ts:178-181 | only the metadata changes: it gains a `leadScore` in 1..10 and keeps every other key |
| `Discovery.CreateScored` | src/lib/server/services/discovery.service.ts:176-182 | the answer is exactly `createLead` on the lead with its score added (`CreateOutcome`); a created row is that `RowOf` row appended to the store; a refusal leaves the rows alone; the activities gain exactly one "Lead created" note for a created row and nothing otherwise |
| `Discovery.CreateFound` | src/lib/server/services/discovery.service.ts:175-187 | the answers are exactly the chained `createLead` answers (`Creations`); the result is the search with one "Failed to create lead <name>: <error>" line per refused lead, in order (`WithFailures`); the store grows by exactly the created rows, and the activities by one "Lead created" note per created row, in the same order |
| `Discovery.DiscoverQuery` | src/lib/server/services/discovery.service.ts:170-188 | one query: the search `SearchOf`, then the chained creations against the store as it is; the result is that search with its failure lines; the store grows by exactly the created rows, and the activities by one "Lead created" note per created row |
| `Discovery.GrewChain` | src/lib/server/services/discovery.service.ts:166-188 | the rows stored by successive queries together are discovered leads |
| `Discovery.Creations` | src/lib/server/services/discovery.service.ts:175-187 | one answer per lead of the search |
| `Discovery.FailureLines` | src/lib/server/services/discovery.service.ts:184-186 | the failure lines and the created rows together number the leads |
| `Discovery.WithFailuresExtends` | src/lib/server/services/discovery.service.ts:172-186 | a reported result keeps its search's leads and errors and adds exactly one line per refused lead |
| `Discovery.CreationsDiscovered` | src/lib/server/services/discovery.service.ts:175-182 | every row created from found leads is a google_places, new lead whose metadata holds a `leadScore` |
| `Discovery.Answers` | src/lib/server/services/discovery.service.ts:170-187 | one list of answers per search, one answer per lead of it |
| `Discovery.Reports` | src/lib/server/services/discovery.service.ts:170-198 | one reported result per search |
| `Discovery.ReportsAt` | src/lib/server/services/discovery.service.ts:170-187 | the reported result of query i is search i with the failure lines of its own leads' answers appended |
| `Discovery.ReportsExtend` | src/lib/server/services/discovery.service.ts:170-187 | each reported result keeps its search's leads and errors and adds at most one line per lead |
| `Discovery.ReportsCount` | src/lib/server/services/discovery.service.ts:183-196 | `totalCreated` ≤ `totalFound`, and created leads plus errors equal leads found plus the searches' own errors: each lead is created or logged once |
| `Discovery.ReportsUnkeyed` | src/lib/server/services/discovery.service.ts:33-35 | when every search reports the missing key, nothing is found or created and `errors` is that line once per query |
| `Discovery.UnkeyedBatch` | src/lib/server/services/discovery.service.ts:166-199 | with no API key, a batch finds and creates nothing and reports "Google Places API key not configured" once per query |
| `Discovery.AnswersDiscovered` | src/lib/server/services/discovery.service.ts:170-187 | when each query's creations only create google_places, new leads with a `leadScore` from found leads, so does the whole batch |
| `Discovery.BatchGrew` | src/lib/server/services/discovery.service.ts:166-199 | the store after a batch is the store before it followed by the created rows, all google_places, new leads with a `leadScore` |
| `Discovery.BatchStep` | src/lib/server/services/discovery.service.ts:170-188 | one more query extends the answers, the created rows and the reports by that query's own |
| `Discovery.RunDiscovery` | src/lib/server/services/discovery.service.ts:166-199 | the answers are exactly `Answers` over the searches of the queries, each query seeing the rows created before it; `results` is exactly `Reports` of them; `totalFound` sums the lead counts, `errors` concatenates the results' errors, `totalCreated` counts the created rows, the store grows by exactly those rows, and the activities by one "Lead created" note for each of them, in order (`NotedFor`) |
| `LeadSchema.ParseSchemaSource` | src/lib/schemas/lead.schema.ts:4-19 | exactly the five schema sources parse, and google_places is not one of them |
| `LeadSchema.FieldIssuesEmpty` | src/lib/schemas/lead.schema.ts:8-23 | a form has no field issue exactly when every field meets its constraint |
| `LeadSchema.Filled` | src/lib/schemas/lead.schema.ts:9-23 | the defaults: '' for text fields, Austria, manual, new, no tags |
| `LeadSchema.FilledWithinBounds` | src/lib/schemas/lead.schema.ts:8-23 | an accepted form gives data within every bound of the schema |
| `LeadSchema.BoundsOfFields` | src/lib/schemas/lead.schema.ts:8-23 | data taken field by field from a form that passes every field check, with the defaults, is within every bound |
| `LeadSchema.ValidateCreate` | src/lib/schemas/lead.schema.ts:7-24 | a form is refused exactly when some field breaks its constraint, naming those fields; accepted data is within bounds and carries the defaults |
| `LeadSchema.ValidateUpdate` | src/lib/schemas/lead.schema.ts:26 | the creation checks with every field optional; an accepted update carries each given field and, as zod 4 does, the default of each omitted defaulted field; only business name and the two numbers stay absent |
| `LeadSchema.ValidatePartialUpdate` | src/lib/schemas/lead.schema.ts:26 | the evidently intended update: the same refusals, and every field carried exactly as given, an omitted one staying absent |
| `LeadSchema.UpdateResetsAbsent` | src/lib/schemas/lead.schema.ts:26 | an accepted update that omits status, source, country, e-mail or tags resets that column to new, manual, Austria, '' or no tags |
| `LeadSchema.EmptyUpdateReopensWon` | src/lib/schemas/lead.schema.ts:26 | an update naming no field is accepted and turns a won lead into a new one |
| `LeadSchema.PartialUpdateKeepsAbsent` | src/lib/schemas/lead.schema.ts:26 | with the intended reading an omitted field keeps its column, and an empty update changes only `updatedAt` |
| `LeadSchema.UpdateAcceptsPartOfValid` | src/lib/schemas/lead.schema.ts:26 | any part of an acceptable form, the empty one included, is an acceptable update |
| `LeadSchema.UpdateMatchesCreateOnNamed` | src/lib/schemas/lead.schema.ts:26 | with the business name given, update and create refuse the same forms |
| `LeadSchema.BusinessNameBounds` | src/lib/schemas/lead.schema.ts:8 | a business name alone is accepted exactly when it has 1 to 255 units, and the defaults fill the rest |
| `LeadSchema.SchemaTakesBiglBot` | src/lib/schemas/lead.schema.ts:4-19 | the schema accepts bigl_bot, which the database enum does not hold |
| `LeadSchema.OnlySourceGiven` | src/lib/schemas/lead.schema.ts:19 | with only name and source given, only the source can be refused |
| `LeadSchema.SchemaRefusesGooglePlaces` | src/lib/schemas/lead.schema.ts:4-19 | the schema refuses google_places, which the database enum holds |
| `LeadSchema.ValidatedRowFits` | src/lib/schemas/lead.schema.ts:10-21 | a validated lead still fails the insert exactly when its e-mail is over 255 characters or its estimated value over the 32-bit range |
| `LeadSchema.ValidateActivity` | src/lib/schemas/lead.schema.ts:32-36 | an activity is refused exactly when its type is unknown or its title has not 1 to 255 units; the description defaults to '' |
| `LeadSchema.ValidatedTitleFits` | src/lib/schemas/lead.schema.ts:34 | an accepted title fits the 255-character column |
| `LeadSchema.UnsafeIntegerRefused` | src/lib/schemas/lead.schema.ts:13 | an integer past 2^53 - 1 fails every `.int()` check, with or without a maximum, while 2^53 - 1 itself passes one that allows it |
| `LeadSchema.ValidateFilter` | src/lib/schemas/lead.schema.ts:38-47 | a filter is refused exactly when a field breaks its constraint, naming those fields; accepted, it carries search, city, status, source, sort column and order by name, and limit (1..100) and offset (≥ 0) as the given integers |
| `LeadSchema.ParseSortColumn` | src/lib/schemas/lead.schema.ts:43 | a parsed sort column has exactly the given name |
| `LeadSchema.ParseSortOrder` | src/lib/schemas/lead.schema.ts:44 | a parsed sort order has exactly the given name |
| `LeadSchema.SortNamesRoundTrip` | src/lib/schemas/lead.schema.ts:43-44 | every sort column and order parses back from its name |
| `LeadSchema.ValidatedFilterPage` | src/lib/schemas/lead.schema.ts:45 | a validated filter never returns more than 100 rows, and the list query refuses it exactly when it names bigl_bot |
| `Hooks.BasicToken` | src/hooks.server.ts:20-22 | the token is the non-empty second space-separated piece after the scheme `Basic` |
| `Hooks.Handle` | src/hooks.server.ts:4-39 | `/api/` paths and an unset user or password pass; a rejection is 401 with `WWW-Authenticate: Basic realm="Lead CRM"`; it throws exactly when `atob` fails on the token |
| `Hooks.FirstColon` | src/hooks.server.ts:24 | the position of the first colon, or none |
| `Hooks.SplitAtFirstColon` | src/hooks.server.ts:24-25 | the first piece and the rejoined rest are the user-id and password split at the first colon |
| `Hooks.HandleAdmitsExactlyTheCredentials` | src/hooks.server.ts:18-31 | a request passes exactly when its Basic token decodes to the configured user-id and password |
| `Hooks.BasicCredentialsRoundTrip` | src/hooks.server.ts:18-28 | "Basic " plus the encoding of "user:password" passes, whatever colons the password holds |
| `Hooks.DoubleSpaceRefused` | src/hooks.server.ts:21-22 | two spaces after the scheme give an empty token and a 401 |
| `ApiAuth.RequireApiKey` | src/lib/server/auth.ts:4-16 | with no key configured every request passes; otherwise a request passes exactly when its header equals the key, and is refused with 401 |
| `ApiAuth.OwnKeyAllowed` | src/lib/server/auth.ts:18-20 | the key `getApiKey` returns always passes `requireApiKey` |
| `ApiAuth.EmptyKeyRejected` | src/lib/server/auth.ts:13-15 | a missing or empty header is refused once a key is configured |
| `Format.FormatCurrency` | src/lib/utils/format.ts:1-4 | the dash for a missing value, otherwise "€" followed by the locale rendering |
| `Format.FormatWith` | src/lib/utils/format.ts:6-24 | `formatDate` and `formatDateTime`: the dash for a falsy date, otherwise the renderer's text for the date |
| `Format.ScoreColor` | src/lib/utils/format.ts:26-31 | gray exactly for no score, red exactly for ≤ 3, yellow exactly for 3 < s ≤ 6, green exactly for > 6 |
| `Format.ScoreColorMonotone` | src/lib/utils/format.ts:28-30 | a higher score never gets a lower colour band |
| `Format.LeadScoreBands` | src/lib/utils/format.ts:28-30 | the lead scores 1..10 fall 1–3 red, 4–6 yellow, 7–10 green |

## Left out

- Network I/O: the Places text search, the details call and the website fetch (with its 10-second abort) are oracle parameters. JSON parsing and URL encoding are not modelled. A place whose fields throw is a `BadPlace` entry carrying the failure message, and a `null` entry of `data.results` is a `NullPlace` entry carrying the text of the error the outer catch reports. Other JSON shapes (a non-array `results`, say) are not modelled.
- The 2000 ms pause after each query is timing only and has no counterpart.
- The environment variables (`GOOGLE_PLACES_API_KEY`, `API_KEY`, `BASIC_AUTH_USER`, `BASIC_AUTH_PASSWORD`) are parameters.
- PostgreSQL and drizzle are replaced by the in-memory `LeadStore`. The connection proxy of `src/lib/server/db/index.ts` is not part of this model.
- `findAll` runs its two queries sequentially, not concurrently.
- `ILIKE` special characters inside search terms (the wildcards `%` and `_`, and the default escape character `\`) are not interpreted: the search is a plain case-insensitive substring match. A business name holding one of them can therefore be missed by the duplicate search of `createLead`, which the model finds.
- The order among rows with equal sort keys is whatever the insertion sort gives; PostgreSQL leaves it unspecified.
- UUID keys are fresh natural numbers chosen by the store; a random collision is not modelled.
- Timestamps are an integer clock `now`.
- zod internals: the e-mail and URL checks are predicates given as parameters. String-to-number coercion is left out; numbers arrive as `real`.
- Locale rendering (`toLocaleString`, `toLocaleDateString` for de-AT) is a renderer parameter, so is `new Date(...)` parsing; `Invalid Date` is part of the renderer.
- `atob` is a partial function parameter; its failure is the `Throws` outcome, which SvelteKit turns into a server error.
- Case folding is ASCII only; JavaScript's full Unicode `toLowerCase` is not modelled.
- Floating point: `html.length / 1024` compared with 5 and 500 is written as the exact `length < 5120` and `length > 512000`; `Math.round` is the identity on the integer scores.
- Format.ScoreColor: a NaN score (green in JavaScript) is not modelled, as `real` has no NaN.
- JavaScript prototype keys in `typeMap[type]` (a tag named `constructor`) are not modelled: the table is a finite map.
- The SvelteKit routes and page handlers under `src/routes` are HTTP and form plumbing and are not part of this model.
- `console.warn` has no counterpart.
- `leadService.getLeads`, `getActivities` and `addActivity` only forward to the repository; they are covered by `LeadStore.FindAll`, `GetActivities` and `AddActivity`.
- `updateStatusSchema` is the status enum alone, covered by `LeadModel.ParseStatus`.
- Discovery.RunDiscovery: the source pushes each search result into `results` before appending creation failures to it, relying on aliasing; the model builds the finished result and then appends it, which gives the same final value.
- LeadService.CreateLead: the duplicate search sees at most 10 rows matching the name, so a duplicate beyond the tenth is missed; `DuplicateFoundComplete` holds only when at most 10 rows match.
- LeadService.CreateLead: the "Lead created" activity's description text is not stated in the contract.
- The metadata of a discovered lead carries place id, rating and location as opaque values.
- LeadModel.RowViolation: PostgreSQL stores a `varchar` value that is too long only because of trailing spaces, cut to the column length, instead of refusing it. The model refuses every over-long value, so `LeadStore.Create`, `LeadStore.Update` and `LeadService.CreateLead` refuse such a row where the database would store it truncated.
- Text.TextLe: text is ordered by code point, not by the database collation (en_US orders "apple" before "Banana"). `LeadRepository.PageOfSound` therefore fixes the order of a `businessName` sort by code point, and a page can hold other rows than the database would return.
- LeadRepository.LeadStore.GetStats: the stats rows come in enum order; SQL leaves the row order of a `GROUP BY` unspecified. Each status has at most one row, so `LeadService.ByStatus` and the dashboard do not depend on that order.
- LeadService.GetLeadById: keys are natural numbers, so every key is well-formed. A route id that is not a UUID makes PostgreSQL raise an error, which `getLeadById`, `updateLead` and `deleteLead` pass on as a database error rather than "Lead not found"; the model has no such key.
- LeadRepository.LeadStore.FindAll: `count(*)::int` fails when more than 2^31 - 1 rows match; the model's `total` has no bound, so such a query, and the duplicate search of `LeadService.CreateLead`, succeed in the model. `GetStats` does model its casts.
- LeadModel.LeadPatch: a patch cannot set a nullable column to NULL, although `Partial<NewLead>` allows it; the schemas never produce NULL.

## Findings

| source | as written | input that shows it | evidently intended | confidence | as-written member | corrected member |
|---|---|---|---|---|---|---|
| src/lib/schemas/lead.schema.ts:26 | `createLeadSchema.partial()` under zod 4 keeps the `.default()` values, so every omitted defaulted field comes back with its default and `updateLead` writes it over the column | an edit `{}` (or any edit without `status`) of a won lead: the lead becomes new, its country Austria, its tags empty | an omitted field leaves its column unchanged | medium (depends on the zod major version), not executed | `LeadSchema.EmptyUpdateReopensWon` | `LeadSchema.PartialUpdateKeepsAbsent` |
