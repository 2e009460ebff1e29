/** The `EventSearch` object (lib/eventSearch.js:10-250): its normalised
    settings, its accumulated state, and the methods that update that state in
    place, each proved to leave the state the corresponding function describes. */
module Searcher {
  import opened Wrappers
  import opened Graph
  import opened Batching
  import opened Config
  import opened Urls
  import opened Aggregation
  import opened Pipeline

  class EventSearch {
    const latitude: Option<real>
    const longitude: Option<real>
    const distance: real
    const accessToken: Option<string>
    const query: string
    const sort: Option<string>
    const version: string
    const currentTimestamp: string
    const idLimit: nat := IdLimit

    var venues: seq<string>
    var events: seq<EventRecord>
    var locations: map<string, Location>
    var eventLocations: map<string, string>
    var venuesCount: nat
    var venuesWithEvents: nat
    var eventsCount: nat
    var recurse: bool

    /** The read-only fields, together. */
    function Normalized(): Settings
    {
      Settings(latitude, longitude, distance, accessToken, query, sort, version, currentTimestamp)
    }

    /** The state a round updates. */
    function Accumulated(): Session
      reads this
    {
      Session(venues, events, locations, eventLocations, venuesWithEvents, eventsCount)
    }

    /** The whole mutable state. */
    function Snapshot(): State
      reads this
    {
      State(Accumulated(), venuesCount, recurse)
    }

    /** The counters the source keeps in step: `eventsCount` is the number of
        records. */
    predicate Valid()
      reads this
    {
      eventsCount == |events|
    }

    /** `new EventSearch(options)`; `envToken` is the environment's token,
        `encode` stands for `encodeURIComponent`, and `currentTimestamp` is the
        session's fixed "since" bound. */
    constructor (options: Options, envToken: Option<string>, encode: string -> string, currentTimestamp: string)
      ensures Normalized() == Normalize(options, envToken, encode, currentTimestamp)
      ensures Snapshot() == InitialState && Valid()
    {
      var s := Normalize(options, envToken, encode, currentTimestamp);
      latitude, longitude, distance := s.latitude, s.longitude, s.distance;
      accessToken, query, sort, version := s.accessToken, s.query, s.sort, s.version;
      this.currentTimestamp := currentTimestamp;
      venues, events, locations, eventLocations := [], [], map[], map[];
      venuesCount, venuesWithEvents, eventsCount, recurse := 0, 0, 0, false;
    }

    /** `getIds` (lib/eventSearch.js:35-62): counts every entry, then groups the
        truthy ids, in order, into batches of `idLimit`. */
    method GetIds(data: seq<PlaceRef>) returns (ids: seq<seq<string>>)
      modifies this`venuesCount
      ensures venuesCount == old(venuesCount) + |data|
      ensures WellBatched(ids, IdLimit) && Flatten(ids) == TruthyIds(data)
      ensures ids == Batches(TruthyIds(data), IdLimit)
    {
      venuesCount := venuesCount + |data|;
      ids := [];
      var tempArray: seq<string> := [];
      for i := 0 to |data|
        invariant venuesCount == old(venuesCount) + |data|
        invariant forall k | 0 <= k < |ids| :: |ids[k]| == idLimit
        invariant |tempArray| < idLimit
        invariant Flatten(ids) + tempArray == TruthyIds(data[..i])
      {
        assert data[..i + 1][..i] == data[..i];
        var id := IdOf(data[i]);
        assert TruthyIds(data[..i + 1]) == TruthyIds(data[..i]) + (if Truthy(id) then [id.value] else []);
        if Truthy(id) {
          tempArray := tempArray + [id.value];
          if |tempArray| >= idLimit {
            FlattenSnoc(ids, tempArray);
            ids := ids + [tempArray];
            tempArray := [];
          }
        }
      }
      assert data[..|data|] == data;
      if |tempArray| > 0 {
        FlattenSnoc(ids, tempArray);
        ids := ids + [tempArray];
      }
      BatchesUnique(ids, TruthyIds(data), IdLimit);
    }

    /** `getEventsUrls` (lib/eventSearch.js:64-93): one lookup URL per batch. */
    method GetEventsUrls(ids: seq<seq<string>>) returns (urls: seq<string>)
      ensures urls == EventsUrls(Normalized(), ids)
    {
      urls := [];
      for i := 0 to |ids|
        invariant urls == EventsUrls(Normalized(), ids[..i])
      {
        assert ids[..i + 1][..i] == ids[..i];
        urls := urls + [EventsUrl(Normalized(), ids[i])];
      }
      assert ids[..|ids|] == ids;
    }

    /** The callback for one event (lib/eventSearch.js:116-172); `venue` is the
        venue payload, whose location a back-fill replaces. */
    method FoldEvent(venueId: string, venue: VenuePayload, event: EventPayload, ids: seq<string>)
      returns (current: VenuePayload, found: seq<string>)
      modifies this
      ensures var p := EventStep(Pass(old(Accumulated()), venue, ids), venueId, event);
        Accumulated() == p.session && current == p.venue && found == p.candidates
      ensures venuesCount == old(venuesCount) && recurse == old(recurse)
      ensures old(Valid()) ==> Valid()
    {
      EventStepFacts(Pass(Accumulated(), venue, ids), venueId, event);
      current, found := venue, ids;
      if venue.location.Some? {
        eventLocations := eventLocations[event.id := venueId];
      } else if event.id in eventLocations && eventLocations[event.id] != "" {
        current := venue.(location := Lookup(locations, eventLocations[event.id]));
      } else {
        return;
      }
      var isAdmin;
      isAdmin, found := ScanAdmins(AdminList(event), venueId, venues, ids);
      if isAdmin {
        events := events + [BuildRecord(event, venueId, current)];
        eventsCount := eventsCount + 1;
      }
    }

    /** The callback for one (venue id, payload) property (lib/eventSearch.js:108-174). */
    method FoldVenue(venueId: string, venue: VenuePayload, ids: seq<string>) returns (found: seq<string>)
      modifies this
      ensures Fold(Accumulated(), found) == VenueStep(Fold(old(Accumulated()), ids), venueId, venue)
      ensures venuesCount == old(venuesCount) && recurse == old(recurse)
      ensures old(Valid()) ==> Valid()
    {
      VenueStepFacts(Fold(Accumulated(), ids), venueId, venue);
      found := ids;
      venues := venues + [venueId];
      if venue.events.Some? && |venue.events.value| > 0 {
        if venue.location.Some? {
          locations := locations[venueId := venue.location.value];
        }
        venuesWithEvents := venuesWithEvents + 1;
        var evs := venue.events.value;
        var current := venue;
        ghost var start := Pass(Accumulated(), venue, ids);
        for k := 0 to |evs|
          invariant Pass(Accumulated(), current, found) == Events(start, venueId, evs[..k])
          invariant venuesCount == old(venuesCount) && recurse == old(recurse)
        {
          assert evs[..k + 1][..k] == evs[..k];
          current, found := FoldEvent(venueId, current, evs[k], found);
        }
        assert evs[..|evs|] == evs;
      }
    }

    /** `aggregateEvents` (lib/eventSearch.js:102-200): fold the round's
        responses, then run the extra round over the candidates at most once. */
    method AggregateEvents(results: seq<Response>, fetch: Fetch) returns (outcome: Result<(), SearchError>)
      modifies this
      decreases if recurse then 0 else 1
      ensures var run := AggregateSpec(Normalized(), old(Snapshot()), results, fetch);
        Snapshot() == run.state && outcome == run.outcome
      ensures old(Valid()) ==> Valid()
    {
      var ids: seq<string> := [];
      ghost var f0 := Fold(Accumulated(), []);
      for i := 0 to |results|
        invariant Fold(Accumulated(), ids) == Round(f0, results[..i])
        invariant venuesCount == old(venuesCount) && recurse == old(recurse)
        invariant old(Valid()) ==> Valid()
      {
        assert results[..i + 1][..i] == results[..i];
        var pairs := results[i];
        ghost var before := Fold(Accumulated(), ids);
        for j := 0 to |pairs|
          invariant Fold(Accumulated(), ids) == Venues(before, pairs[..j])
          invariant venuesCount == old(venuesCount) && recurse == old(recurse)
          invariant old(Valid()) ==> Valid()
        {
          assert pairs[..j + 1][..j] == pairs[..j];
          ids := FoldVenue(pairs[j].0, pairs[j].1, ids);
        }
        assert pairs[..|pairs|] == pairs;
      }
      assert results[..|results|] == results;
      if |ids| > 0 && !recurse {
        recurse := true;
        var batches := GetIds(AsPlaceRefs(ids));
        var urls := GetEventsUrls(batches);
        match fetch(urls)
        case Failure(e) =>
          outcome := Failure(SearchError(Text(e), -1));
        case Success(rs) =>
          var inner := AggregateEvents(rs, fetch);
          outcome := Catch(inner);
      } else {
        outcome := Success(());
      }
    }

    /** `search` (lib/eventSearch.js:202-244). */
    method Search(places: Places, fetch: Fetch) returns (outcome: Result<SearchResult, SearchError>)
      requires Valid()
      modifies this
      ensures var run := SearchSpec(Normalized(), old(Snapshot()), places, fetch);
        Snapshot() == run.state && outcome == run.outcome
      ensures Valid()
    {
      if !TruthyNumber(latitude) || !TruthyNumber(longitude) {
        return Failure(SearchError(Text(CoordinatesMessage), 1));
      }
      if !Truthy(accessToken) {
        return Failure(SearchError(Text(TokenMessage), 2));
      }
      ghost var st := Snapshot();
      match places(PlaceQueryOf(Normalized()))
      case Failure(e) =>
        outcome := Failure(SearchError(Text(e), -1));
      case Success(data) =>
        var ids := GetIds(data);
        ghost var st1 := st.(venuesCount := st.venuesCount + |data|);
        assert Snapshot() == st1;
        var urls := GetEventsUrls(ids);
        assert urls == LookupUrls(Normalized(), data);
        match fetch(urls)
        case Failure(e) =>
          outcome := Failure(SearchError(Text(e), -1));
        case Success(rs) =>
          var r := AggregateEvents(rs, fetch);
          ghost var run := AggregateSpec(Normalized(), st1, rs, fetch);
          assert Snapshot() == run.state && r == run.outcome;
          AggregateCounters(Normalized(), st1, rs, fetch);
          if r.Failure? {
            outcome := Failure(SearchError(Wrapped(r.error), -1));
          } else {
            outcome := Success(SearchResult(events, Metadata(venuesCount, venuesWithEvents, eventsCount)));
          }
    }
  }
}
