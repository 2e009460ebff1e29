# Event search by location — a Dafny model of `EventSearch`

This project models the core of `lib/eventSearch.js`, the `EventSearch` object
that turns a geographic place search on the Facebook Graph API into a list of
public events:

* the constructor normalises the caller's options (defaults for `distance` and
  `version`, a case-insensitive whitelist for `sort`, the access token taken
  from the options or else from the environment);
* `getIds` counts the place entries into `venuesCount` and cuts their truthy
  ids, in order, into batches of at most 50 (the Graph API's per-call limit);
* `getEventsUrls` builds one lookup URL per batch, ids joined with `,`, with the
  session's fixed `since` timestamp;
* `aggregateEvents` folds the parsed per-venue payloads into the object's state
  (`venues`, `events`, `locations`, `eventLocations`, `venuesWithEvents`,
  `eventsCount`): it resolves each event's location (own location, back-fill
  through another venue that returned the same event, or skip), attributes an
  event to a venue only when the venue is one of the event's admins, and
  collects admin pages not seen yet as candidates for one extra round, guarded
  by the `recurse` flag;
* `search` validates the coordinates (error code 1) before the token (error
  code 2), then runs place search, batching, lookup and aggregation, and
  resolves with the records and the counters.

Layout, one module per file:

| file | module | contents |
|---|---|---|
| `wrappers.dfy` | `Wrappers` | `Option`, `Result` |
| `graph.dfy` | `Graph` | parsed payload shapes, event record, `BuildRecord` |
| `batching.dfy` | `Batching` | truthy ids, batches and their properties |
| `config.dfy` | `Config` | options, normalised settings |
| `urls.dfy` | `Urls` | lookup URLs, place query, join/split |
| `aggregation.dfy` | `Aggregation` | one round as a fold, admin scan, round lemmas |
| `pipeline.dfy` | `Pipeline` | `aggregateEvents` with its extra round, `search`, as functions with a request trace |
| `searcher.dfy` | `Searcher` | class `EventSearch`, its methods proved equal to those functions |
| `scenarios.dfy` | `Scenarios` | concrete rounds: ownership, back-fill, lost location, repeats, two owners |

The state that the source mutates is the class `Searcher.EventSearch`: the
options become `const` fields, the lists and dictionaries become `seq` and
`map` fields, and every method that changes them has `modifies` and a
postcondition equating the new state with a function of the old state
(`Aggregation.Round`, `Pipeline.AggregateSpec`, `Pipeline.SearchSpec`). The
properties are proved about those functions. The network is a parameter: a
`fetch` function from lookup URLs to parsed responses (or the reason of the
first failure), and a `places` function from the place query to the place
list. The functions also return the requests issued, so that the recursion
bound and "no request before validation" are statements about that trace.

Some consequences of the code that a reader might not expect, all modelled as
written:

* venue ids are appended to `venues` without de-duplication, and records
  without de-duplication by event id (`Scenarios.RepeatedVenue`,
  `Scenarios.TwoOwners`);
* `locations[venueId]` is stored only for a located venue whose event list is
  non-empty, and a back-filled venue never gets a `locations` entry, so a later
  back-fill through it yields no location (`Scenarios.LostLocation`);
* a candidate is checked against `venues` at scan time, so a page returned
  later in the same round can still be a candidate (`Scenarios.Backfill`);
* a failed lookup in the extra round is caught by `aggregateEvents` and again
  by `search`, so `search` rejects with
  `{message: {message: e, code: -1}, code: -1}` for the lookup's reason `e`
  (`Pipeline.AggregateFailure`, `Pipeline.SearchDoubleWrap`);
* the `recurse` flag is never reset, so once a search has run the extra round,
  no later search on the same object runs one (`Pipeline.RecursionBound`,
  `Pipeline.SearchRequests`).

## Model

| member | source | states |
|---|---|---|
| `Config.Normalize` | lib/eventSearch.js:14-20 | coordinates are kept only when truthy; `distance` and `version` are always truthy and default to 100 and "v2.8"; the token is the options' one when truthy, else a non-empty environment value, else none; `sort` is kept exactly when its lower-case form is whitelisted, and is then that lower-case form |
| `Config.SortCaseInsensitive` | lib/eventSearch.js:19 | a sort value and its lower-case form normalise to the same sort |
| `Searcher.EventSearch.constructor` | lib/eventSearch.js:10-33 | the settings are the normalised options and the state is empty, with the flag clear and the counters consistent |
| `Batching.TruthyIds` | lib/eventSearch.js:45-48 | the kept ids are no more than the entries and none is empty |
| `Batching.Batches` | lib/eventSearch.js:44-61 | defines the front-first cut into groups of the limit; its properties are stated by the three lemmas below |
| `Batching.BatchesShape` | lib/eventSearch.js:44-61 | every batch holds 1 to 50 ids, all but the last exactly 50, and the batches concatenated give the truthy ids in input order |
| `Batching.BatchesCount` | lib/eventSearch.js:44-61 | there are ceil(n / 50) batches for n truthy ids |
| `Batching.BatchesUnique` | lib/eventSearch.js:44-61 | well-formed batches of the ids are exactly the batches the function computes |
| `Searcher.EventSearch.GetIds` | lib/eventSearch.js:35-62 | `venuesCount` grows by the number of entries, falsy ids included; the result is the well-formed batching of the truthy ids |
| `Urls.SplitJoin` | lib/eventSearch.js:70 | splitting the comma-joined ids of a non-empty batch free of commas gives the batch back |
| `Urls.EventsUrl` | lib/eventSearch.js:70-88 | defines the lookup URL of one batch; part of the `Urls.EventsUrls` row |
| `Urls.EventsUrls` | lib/eventSearch.js:69-89 | defines one lookup URL per batch, in batch order; stated by `Urls.EventsUrlsAt` |
| `Urls.EventsUrlsAt` | lib/eventSearch.js:69-89 | one URL per batch, the i-th being the lookup of the i-th batch |
| `Searcher.EventSearch.GetEventsUrls` | lib/eventSearch.js:64-93 | the loop yields the lookup URL of each batch, in order |
| `Urls.PlaceQueryOf` | lib/eventSearch.js:220-222 | defines the structured place request; stated by `Urls.PlaceQueryOfOptions` and `Pipeline.SearchRequests` |
| `Urls.PlaceQueryOfOptions` | lib/eventSearch.js:14-20 | the place search is centred on the caller's truthy coordinates, within the caller's distance or else 100, through the caller's version or else "v2.8" |
| `Aggregation.Scan` | lib/eventSearch.js:127-141 | defines the admin loop admin by admin; stated by `Aggregation.ScanFacts` |
| `Aggregation.ScanFacts` | lib/eventSearch.js:127-141 | the venue is found admin exactly when an admin has its id; exactly the page admins other than the venue, not in `venues` and not yet candidates, are appended, each once |
| `Aggregation.ScanAdmins` | lib/eventSearch.js:127-141 | the admin loop computes the scan |
| `Graph.BuildRecord` | lib/eventSearch.js:143-168 | the record's id is the event's, its venue id is the attributing venue's, its location the venue's current one; `description`, `startTime`, `endTime`, `about`, `link` and `username` are kept when non-empty and become null otherwise; cover and picture are present exactly when the payload has them |
| `Aggregation.LocationResolution` | lib/eventSearch.js:117-125 | a located venue records itself as the event's source; an unlocated venue with no source skips the event and changes nothing; otherwise it takes the source venue's stored location, possibly none; `locations` is untouched |
| `Aggregation.Attribute` | lib/eventSearch.js:127-171 | defines the admin scan and the record append; part of the `Aggregation.EventStep` row |
| `Aggregation.EventStep` | lib/eventSearch.js:116-172 | defines location resolution then attribution for one event; stated by the two lemmas below |
| `Aggregation.EventStepFacts` | lib/eventSearch.js:116-172 | one event appends at most one record, and only if the event admits the venue; it appends it whenever the event admits the venue and the venue is located or has a location source, the back-filled record carrying the source venue's stored location; without either it changes nothing; it keeps `eventsCount` in step, changes only the venue's location, and adds only page admins that are not seen venues |
| `Aggregation.Events` | lib/eventSearch.js:116-172 | defines the events of one venue, folded in order; stated by the two lemmas below |
| `Aggregation.EventsFacts` | lib/eventSearch.js:116-172 | a venue's events append only records of its admitting events under its id, keep `eventsCount` in step and candidates duplicate-free |
| `Aggregation.EventsLocatedComplete` | lib/eventSearch.js:116-172 | a venue with its own location gets a record, built from its own payload, for every event that admits it |
| `Aggregation.VenueStep` | lib/eventSearch.js:109-173 | defines the handling of one venue property; stated by the two lemmas below |
| `Aggregation.VenueStepFacts` | lib/eventSearch.js:109-173 | a venue is always appended to `venues`; only a non-empty event list counts it in `venuesWithEvents`, stores its location and can add records or candidates |
| `Aggregation.VenueLocatedComplete` | lib/eventSearch.js:109-173 | per venue, the completeness of attribution for a located venue |
| `Searcher.EventSearch.FoldEvent` | lib/eventSearch.js:116-172 | the event callback leaves the state, venue and candidates the event step describes, and keeps `eventsCount` equal to the number of records |
| `Searcher.EventSearch.FoldVenue` | lib/eventSearch.js:108-174 | the venue callback, with its event loop, leaves the state and candidates the venue step describes, and keeps `eventsCount` equal to the number of records |
| `Aggregation.Venues` | lib/eventSearch.js:108-174 | defines the properties of one response, folded in order; stated by the two lemmas below |
| `Aggregation.VenuesFacts` | lib/eventSearch.js:108-174 | `venues` grows by every venue id, duplicates included; `venuesWithEvents` by the payloads with events; records are only appended, each claimed by an event its venue returned that lists the venue as admin; `eventsCount` stays in step; candidates stay duplicate-free and are page admins of returned events that were not seen venues |
| `Aggregation.VenuesLocatedComplete` | lib/eventSearch.js:108-174 | every located venue of a response gets a record for every event of its own that admits it |
| `Aggregation.Round` | lib/eventSearch.js:106-175 | defines a round as the fold of every response in order; stated through `Aggregation.RoundIsFlat` |
| `Aggregation.RoundIsFlat` | lib/eventSearch.js:106-175 | a round folds all responses' properties as one sequence, so the response-level facts hold of a round |
| `Pipeline.AggregateSpec` | lib/eventSearch.js:102-200 | defines `aggregateEvents`, its extra round and the requests issued; stated by the four lemmas below |
| `Pipeline.Catch` | lib/eventSearch.js:189-195 | defines the `.catch` that wraps a rejection of the extra round's `aggregateEvents` into `{message: e, code: -1}`; part of the `Pipeline.AggregateSpec` row |
| `Pipeline.RecursionBound` | lib/eventSearch.js:177-199 | a run issues at most one lookup and none once the flag is set; the flag ends set exactly when it was or a lookup was issued; a run with the flag set cannot fail |
| `Pipeline.ExtraRound` | lib/eventSearch.js:178-186 | the extra round runs exactly when candidates were found with the flag clear, looks up exactly the candidates and adds their number to `venuesCount`; otherwise only the round is folded |
| `Pipeline.ExtraRoundQuiet` | lib/eventSearch.js:196-198 | with the flag set, a run only folds its round and succeeds |
| `Pipeline.AggregateCounters` | lib/eventSearch.js:102-200 | across both rounds records and venues are only appended and `eventsCount` grows with `events` |
| `Pipeline.AggregateFailure` | lib/eventSearch.js:178-195 | a run fails exactly when the extra round runs and its lookup fails, and then rejects with `{message: e, code: -1}` for the lookup's reason |
| `Searcher.EventSearch.AggregateEvents` | lib/eventSearch.js:102-200 | the method, with its nested loops and its recursive call, leaves the state and outcome of the aggregation function, and keeps `eventsCount` equal to the number of records |
| `Pipeline.SearchSpec` | lib/eventSearch.js:202-244 | defines `search`: validation, place search, lookup, aggregation, result; stated by the lemmas below |
| `Pipeline.SearchValidation` | lib/eventSearch.js:207-218 | code 1 exactly when a coordinate is falsy, code 2 exactly when the coordinates are present and the token is not; both issue no request and change nothing; other rejections have code -1 |
| `Pipeline.SearchRequests` | lib/eventSearch.js:219-229 | the place query comes first, then at most two lookups (one when the flag was already set), and only after validation |
| `Pipeline.SearchMetadata` | lib/eventSearch.js:230-231 | a successful search returns the object's records with `metadata.events` equal to their number and the object's counters |
| `Pipeline.SearchKeepsCounters` | lib/eventSearch.js:202-244 | on every outcome a search only appends records and keeps `eventsCount` in step with them |
| `Pipeline.SearchErrors` | lib/eventSearch.js:189-238 | a code -1 rejection's message is a text, or a code -1 rejection with a text message wrapped once more, and the latter only when this search ran the extra round |
| `Pipeline.SearchOutcome` | lib/eventSearch.js:219-239 | with valid coordinates and token: a failed place search rejects with its own reason and changes nothing; a failed lookup rejects with its own reason after the places were counted; otherwise the search ends in the state `aggregateEvents` leaves and rejects exactly when it rejects, with its rejection wrapped once more |
| `Pipeline.SearchDoubleWrap` | lib/eventSearch.js:178-238 | once the first lookup succeeds, the search rejects exactly when the extra round runs and its lookup fails with reason `e`, and then with `{message: {message: e, code: -1}, code: -1}` |
| `Searcher.EventSearch.Search` | lib/eventSearch.js:202-244 | the method leaves the state and outcome of the search function and keeps `eventsCount` equal to the number of records |
| `Scenarios.OwnEvent` | lib/eventSearch.js:117-170 | a located venue that administers its event yields one record with its location and no candidate |
| `Scenarios.Backfill` | lib/eventSearch.js:119-121 | an unlocated admin venue takes the location of the venue that returned the event first |
| `Scenarios.LostLocation` | lib/eventSearch.js:111-121 | a back-fill through a back-filled venue yields a record without location |
| `Scenarios.RepeatedVenue` | lib/eventSearch.js:110 | a venue returned twice is appended, counted and recorded twice |
| `Scenarios.TwoOwners` | lib/eventSearch.js:127-186 | an event admitted by two venues, the second found as a candidate, is recorded under each, with one extra lookup |

## Left out

- HTTP through `request-promise` and the `Promise.all` fan-out of `resolveRequests` (lib/eventSearch.js:95-100): network I/O and promise concurrency; they are the `fetch` and `places` parameters, and a failed fetch is a single reason text.
- `fetch` is an arbitrary function: nothing makes it return one response per URL, and nothing makes an empty URL list resolve to no responses without a request, as `Promise.all([])` does; the model traces a lookup of no URLs as a request and lets it fail. No stated property depends on these points.
- Bluebird promise sequencing: the model runs the steps in order; timing, interleaving and the absence of a timeout are not modelled.
- `JSON.parse` of the bodies and any exception the fold would throw on malformed payloads (a missing `events.data`, a `null` place entry): inputs are already-parsed, well-shaped values.
- The schema file loading and `getSchema` (lib/eventSearch.js:8, 246-248): file I/O and an accessor.
- The clock (lib/eventSearch.js:32): `currentTimestamp` is a constructor parameter.
- `encodeURIComponent` and `process.env` (lib/eventSearch.js:17-18): a function parameter and a parameter.
- `toLowerCase` is modelled on ASCII letters only; NaN and non-numeric coordinates are not modelled.
- The rendering of numbers into the place search URL: the place request is a structured `PlaceQuery` value.
- JavaScript object quirks: keys inherited from `Object.prototype` in the `locations`/`eventLocations` lookups, and the enumeration order of integer-like keys; a response is given as an ordered sequence of properties.
- `search` resolves with the object's own `events` array, so a later search on the same object appends to an array the caller already holds; the model returns the records as a value, so this aliasing is not captured.
- `Aggregation.VenuesFacts`: states the candidate rule only as soundness (every candidate qualifies); the exact rule, in both directions, is stated per event by `Aggregation.ScanFacts`.
