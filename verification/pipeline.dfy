/** `aggregateEvents` with its one extra round (lib/eventSearch.js:102-200) and
    `search` (lib/eventSearch.js:202-244) as functions of the object's state. The
    network is a parameter: `fetch` runs a list of lookup URLs and yields their
    parsed responses in URL order or the reason the first failure gave, and
    `places` runs the place search and yields its `data` list. Each run also
    returns the requests it issued, in order. */
module Pipeline {
  import opened Wrappers
  import opened Graph
  import opened Batching
  import opened Config
  import opened Urls
  import opened Aggregation

  /** The whole mutable state of a search object. */
  datatype State = State(session: Session, venuesCount: nat, recurse: bool)

  const InitialState: State := State(EmptySession, 0, false)

  /** The rejection value `{message, code}`; a rejection caught a second time
      carries the first one as its message. */
  datatype ErrorMessage = Text(text: string) | Wrapped(inner: SearchError)
  datatype SearchError = SearchError(message: ErrorMessage, code: int)

  const CoordinatesMessage: string := "Please specify the lat and lng parameters!"
  const TokenMessage: string :=
    "Please specify an Access Token, either as environment variable or as accessToken parameter!"

  datatype Request = PlaceRequest(query: PlaceQuery) | EventsRequest(urls: seq<string>)

  datatype Run = Run(state: State, outcome: Result<(), SearchError>, requests: seq<Request>)

  datatype Metadata = Metadata(venues: nat, venuesWithEvents: nat, events: nat)
  datatype SearchResult = SearchResult(events: seq<EventRecord>, metadata: Metadata)
  datatype SearchRun = SearchRun(state: State, outcome: Result<SearchResult, SearchError>, requests: seq<Request>)

  type Fetch = seq<string> -> Result<seq<Response>, string>
  type Places = PlaceQuery -> Result<seq<PlaceRef>, string>

  /** The `.catch` that turns a rejection `e` of the extra round into
      `{message: e, code: -1}`. */
  function Catch(r: Result<(), SearchError>): Result<(), SearchError>
  {
    if r.Failure? then Failure(SearchError(Wrapped(r.error), -1)) else r
  }

  /** The candidate ids handed to `getIds`, as bare ids. */
  function AsPlaceRefs(ids: seq<string>): seq<PlaceRef>
  {
    seq(|ids|, i requires 0 <= i < |ids| => BareId(ids[i]))
  }

  /** The lookup URLs that `getIds` and `getEventsUrls` make of a place list. */
  function LookupUrls(cfg: Settings, data: seq<PlaceRef>): seq<string>
  {
    EventsUrls(cfg, Batches(TruthyIds(data), IdLimit))
  }

  /** `aggregateEvents(results)`: fold the round, then, if it found candidates
      and no extra round has run yet, set the flag and run one over them. */
  function AggregateSpec(cfg: Settings, st: State, results: seq<Response>, fetch: Fetch): Run
    decreases if st.recurse then 0 else 1
  {
    var f := Round(Fold(st.session, []), results);
    var st1 := st.(session := f.session);
    if |f.candidates| > 0 && !st1.recurse then
      var refs := AsPlaceRefs(f.candidates);
      var st2 := st1.(recurse := true, venuesCount := st1.venuesCount + |refs|);
      var urls := LookupUrls(cfg, refs);
      match fetch(urls)
      case Failure(e) => Run(st2, Failure(SearchError(Text(e), -1)), [EventsRequest(urls)])
      case Success(rs) =>
        var inner := AggregateSpec(cfg, st2, rs, fetch);
        Run(inner.state, Catch(inner.outcome), [EventsRequest(urls)] + inner.requests)
    else Run(st1, Success(()), [])
  }

  /** `search()`: validate, search places, look them up, aggregate. */
  function SearchSpec(cfg: Settings, st: State, places: Places, fetch: Fetch): SearchRun
  {
    if !TruthyNumber(cfg.latitude) || !TruthyNumber(cfg.longitude) then
      SearchRun(st, Failure(SearchError(Text(CoordinatesMessage), 1)), [])
    else if !Truthy(cfg.accessToken) then
      SearchRun(st, Failure(SearchError(Text(TokenMessage), 2)), [])
    else
      var q := PlaceQueryOf(cfg);
      match places(q)
      case Failure(e) => SearchRun(st, Failure(SearchError(Text(e), -1)), [PlaceRequest(q)])
      case Success(data) =>
        var st1 := st.(venuesCount := st.venuesCount + |data|);
        var urls := LookupUrls(cfg, data);
        match fetch(urls)
        case Failure(e) =>
          SearchRun(st1, Failure(SearchError(Text(e), -1)), [PlaceRequest(q), EventsRequest(urls)])
        case Success(rs) =>
          var run := AggregateSpec(cfg, st1, rs, fetch);
          var requests := [PlaceRequest(q), EventsRequest(urls)] + run.requests;
          if run.outcome.Failure? then
            SearchRun(run.state, Failure(SearchError(Wrapped(run.outcome.error), -1)), requests)
          else
            var s := run.state.session;
            SearchRun(run.state,
                      Success(SearchResult(s.events, Metadata(run.state.venuesCount, s.venuesWithEvents, s.eventsCount))),
                      requests)
  }

  // ---------------------------------------------------------------------------
  // The recursion bound

  /** At most one extra round: a run issues at most one lookup, none once the
      flag is set, and the flag ends up set exactly when a lookup was issued or
      it already was. A run that starts with the flag set cannot fail. */
  lemma {:induction false} RecursionBound(cfg: Settings, st: State, results: seq<Response>, fetch: Fetch)
    ensures var run := AggregateSpec(cfg, st, results, fetch);
      && |run.requests| <= (if st.recurse then 0 else 1)
      && run.state.recurse == (st.recurse || |run.requests| == 1)
      && (forall r | r in run.requests :: r.EventsRequest?)
      && (st.recurse ==> run.outcome == Success(()))
    decreases if st.recurse then 0 else 1
  {
    var f := Round(Fold(st.session, []), results);
    if |f.candidates| > 0 && !st.recurse {
      var refs := AsPlaceRefs(f.candidates);
      var st2 := st.(session := f.session, recurse := true, venuesCount := st.venuesCount + |refs|);
      var urls := LookupUrls(cfg, refs);
      if fetch(urls).Success? {
        RecursionBound(cfg, st2, fetch(urls).value, fetch);
      }
    }
  }

  /** The extra round runs exactly when the first fold found candidates and the
      flag was clear; it looks up exactly those candidates, and `getIds` adds
      their number to `venuesCount`. Without it the run only folds the round. */
  lemma {:induction false} ExtraRound(cfg: Settings, st: State, results: seq<Response>, fetch: Fetch)
    ensures var f := Round(Fold(st.session, []), results); var run := AggregateSpec(cfg, st, results, fetch);
      && (run.requests != [] <==> |f.candidates| > 0 && !st.recurse)
      && (run.requests == [] ==> run.state == st.(session := f.session) && run.outcome == Success(()))
      && (run.requests != [] ==>
            && run.requests[0] == EventsRequest(LookupUrls(cfg, AsPlaceRefs(f.candidates)))
            && run.state.venuesCount == st.venuesCount + |f.candidates|
            && run.state.recurse)
  {
    RecursionBound(cfg, st, results, fetch);
    var f := Round(Fold(st.session, []), results);
    if |f.candidates| > 0 && !st.recurse {
      var refs := AsPlaceRefs(f.candidates);
      var st2 := st.(session := f.session, recurse := true, venuesCount := st.venuesCount + |refs|);
      var urls := LookupUrls(cfg, refs);
      if fetch(urls).Success? {
        ExtraRoundQuiet(cfg, st2, fetch(urls).value, fetch);
      }
    }
  }

  /** With the flag set, a run only folds its round. */
  lemma {:induction false} ExtraRoundQuiet(cfg: Settings, st: State, results: seq<Response>, fetch: Fetch)
    requires st.recurse
    ensures AggregateSpec(cfg, st, results, fetch)
         == Run(st.(session := Round(Fold(st.session, []), results).session), Success(()), [])
  {
  }

  /** Both rounds only append records and keep `eventsCount` equal to the
      number of records appended; the venue list only grows. */
  lemma {:induction false} AggregateCounters(cfg: Settings, st: State, results: seq<Response>, fetch: Fetch)
    ensures var run := AggregateSpec(cfg, st, results, fetch); var s, t := st.session, run.state.session;
      && s.events <= t.events && s.venues <= t.venues
      && t.eventsCount - |t.events| == s.eventsCount - |s.events|
      && run.state.venuesCount >= st.venuesCount
    decreases if st.recurse then 0 else 1
  {
    var f0 := Fold(st.session, []);
    var f := Round(f0, results);
    RoundIsFlat(f0, results);
    VenuesFacts(f0, Concat(results));
    if |f.candidates| > 0 && !st.recurse {
      var refs := AsPlaceRefs(f.candidates);
      var st2 := st.(session := f.session, recurse := true, venuesCount := st.venuesCount + |refs|);
      var urls := LookupUrls(cfg, refs);
      if fetch(urls).Success? {
        AggregateCounters(cfg, st2, fetch(urls).value, fetch);
      }
    }
  }

  /** A run fails exactly when the extra round runs and its lookup fails; the
      rejection is then `{message: e, code: -1}` for the lookup's reason `e`. */
  lemma {:induction false} AggregateFailure(cfg: Settings, st: State, results: seq<Response>, fetch: Fetch)
    ensures var f := Round(Fold(st.session, []), results); var run := AggregateSpec(cfg, st, results, fetch);
      var urls := LookupUrls(cfg, AsPlaceRefs(f.candidates));
      && (run.outcome.Failure? <==> |f.candidates| > 0 && !st.recurse && fetch(urls).Failure?)
      && (run.outcome.Failure? ==> run.outcome.error == SearchError(Text(fetch(urls).error), -1))
  {
    var f := Round(Fold(st.session, []), results);
    if |f.candidates| > 0 && !st.recurse {
      var refs := AsPlaceRefs(f.candidates);
      var st2 := st.(session := f.session, recurse := true, venuesCount := st.venuesCount + |refs|);
      var urls := LookupUrls(cfg, refs);
      if fetch(urls).Success? {
        ExtraRoundQuiet(cfg, st2, fetch(urls).value, fetch);
      }
    }
  }

  // ---------------------------------------------------------------------------
  // search

  /** `search` rejects with code 1 exactly when a coordinate is missing (checked
      first) and with code 2 exactly when the coordinates are there but the token
      is not; those rejections issue no request and change nothing. Every other
      rejection has code -1. */
  lemma SearchValidation(cfg: Settings, st: State, places: Places, fetch: Fetch)
    ensures var run := SearchSpec(cfg, st, places, fetch);
      && var coordinates := TruthyNumber(cfg.latitude) && TruthyNumber(cfg.longitude);
      && (run.outcome.Failure? && run.outcome.error.code == 1 <==> !coordinates)
      && (run.outcome.Failure? && run.outcome.error.code == 2 <==> coordinates && !Truthy(cfg.accessToken))
      && (!coordinates || !Truthy(cfg.accessToken) ==> run.requests == [] && run.state == st)
      && (run.outcome.Failure? ==> run.outcome.error.code in {1, 2, -1})
  {
  }

  /** A search issues the place query first, then at most two lookups (one once
      the flag is set), and issues nothing without coordinates and a token. */
  lemma {:induction false} SearchRequests(cfg: Settings, st: State, places: Places, fetch: Fetch)
    ensures var run := SearchSpec(cfg, st, places, fetch);
      && |run.requests| <= (if st.recurse then 2 else 3)
      && (run.requests != [] ==>
            && TruthyNumber(cfg.latitude) && TruthyNumber(cfg.longitude) && Truthy(cfg.accessToken)
            && run.requests[0] == PlaceRequest(PlaceQueryOf(cfg))
            && forall i | 1 <= i < |run.requests| :: run.requests[i].EventsRequest?)
  {
    if TruthyNumber(cfg.latitude) && TruthyNumber(cfg.longitude) && Truthy(cfg.accessToken) {
      var q := PlaceQueryOf(cfg);
      if places(q).Success? {
        var data := places(q).value;
        var st1 := st.(venuesCount := st.venuesCount + |data|);
        var urls := LookupUrls(cfg, data);
        if fetch(urls).Success? {
          RecursionBound(cfg, st1, fetch(urls).value, fetch);
        }
      }
    }
  }

  /** A successful search reports the object's records and counters; starting
      from consistent counters, `metadata.events` is the number of records. */
  lemma {:induction false} SearchMetadata(cfg: Settings, st: State, places: Places, fetch: Fetch)
    requires st.session.eventsCount == |st.session.events|
    ensures var run := SearchSpec(cfg, st, places, fetch);
      run.outcome.Success? ==>
        && run.outcome.value.events == run.state.session.events
        && run.outcome.value.metadata.events == |run.outcome.value.events|
        && run.outcome.value.metadata.venues == run.state.venuesCount
        && run.outcome.value.metadata.venuesWithEvents == run.state.session.venuesWithEvents
        && st.session.events <= run.outcome.value.events
  {
    if TruthyNumber(cfg.latitude) && TruthyNumber(cfg.longitude) && Truthy(cfg.accessToken) {
      var q := PlaceQueryOf(cfg);
      if places(q).Success? {
        var data := places(q).value;
        var st1 := st.(venuesCount := st.venuesCount + |data|);
        var urls := LookupUrls(cfg, data);
        if fetch(urls).Success? {
          AggregateCounters(cfg, st1, fetch(urls).value, fetch);
        }
      }
    }
  }

  /** A search keeps `eventsCount` in step with the records on every outcome,
      so consistent counters stay consistent from one search to the next. */
  lemma {:induction false} SearchKeepsCounters(cfg: Settings, st: State, places: Places, fetch: Fetch)
    ensures var run := SearchSpec(cfg, st, places, fetch); var s, t := st.session, run.state.session;
      && s.events <= t.events
      && t.eventsCount - |t.events| == s.eventsCount - |s.events|
  {
    if TruthyNumber(cfg.latitude) && TruthyNumber(cfg.longitude) && Truthy(cfg.accessToken) {
      var q := PlaceQueryOf(cfg);
      if places(q).Success? {
        var data := places(q).value;
        var st1 := st.(venuesCount := st.venuesCount + |data|);
        var urls := LookupUrls(cfg, data);
        if fetch(urls).Success? {
          AggregateCounters(cfg, st1, fetch(urls).value, fetch);
        }
      }
    }
  }

  /** A rejection of code -1 has a text message, or is a code -1 rejection with
      a text message caught once more, and the latter only when this search ran
      the extra round. Which text it carries is stated by `SearchOutcome` and
      `SearchDoubleWrap`. */
  lemma {:induction false} SearchErrors(cfg: Settings, st: State, places: Places, fetch: Fetch)
    ensures var run := SearchSpec(cfg, st, places, fetch);
      run.outcome.Failure? && run.outcome.error.code == -1 ==>
        || run.outcome.error.message.Text?
        || (&& run.outcome.error.message == Wrapped(SearchError(run.outcome.error.message.inner.message, -1))
            && run.outcome.error.message.inner.message.Text?
            && !st.recurse && run.state.recurse)
  {
    if TruthyNumber(cfg.latitude) && TruthyNumber(cfg.longitude) && Truthy(cfg.accessToken) {
      var q := PlaceQueryOf(cfg);
      if places(q).Success? {
        var data := places(q).value;
        var st1 := st.(venuesCount := st.venuesCount + |data|);
        var urls := LookupUrls(cfg, data);
        if fetch(urls).Success? {
          AggregateFailure(cfg, st1, fetch(urls).value, fetch);
          RecursionBound(cfg, st1, fetch(urls).value, fetch);
        }
      }
    }
  }

  /** With valid coordinates and token, the outcome of a search, case by case:
      a failed place search rejects with its reason and changes nothing; a
      failed lookup rejects with its reason after `getIds` counted the places;
      otherwise the search ends in the state `aggregateEvents` leaves and
      rejects exactly when it does, with its rejection wrapped once more. */
  lemma {:induction false} SearchOutcome(cfg: Settings, st: State, places: Places, fetch: Fetch)
    requires TruthyNumber(cfg.latitude) && TruthyNumber(cfg.longitude) && Truthy(cfg.accessToken)
    ensures var run := SearchSpec(cfg, st, places, fetch); var q := PlaceQueryOf(cfg);
      && (places(q).Failure? ==>
            run.outcome == Failure(SearchError(Text(places(q).error), -1)) && run.state == st)
      && (places(q).Success? ==>
            var st1 := st.(venuesCount := st.venuesCount + |places(q).value|);
            var urls := LookupUrls(cfg, places(q).value);
            && (fetch(urls).Failure? ==>
                  run.outcome == Failure(SearchError(Text(fetch(urls).error), -1)) && run.state == st1)
            && (fetch(urls).Success? ==>
                  var agg := AggregateSpec(cfg, st1, fetch(urls).value, fetch);
                  && run.state == agg.state
                  && (run.outcome.Failure? <==> agg.outcome.Failure?)
                  && (agg.outcome.Failure? ==> run.outcome == Failure(SearchError(Wrapped(agg.outcome.error), -1)))))
  {
    var q := PlaceQueryOf(cfg);
    if places(q).Success? {
      var st1 := st.(venuesCount := st.venuesCount + |places(q).value|);
      var urls := LookupUrls(cfg, places(q).value);
      if fetch(urls).Success? {
        var agg := AggregateSpec(cfg, st1, fetch(urls).value, fetch);
        assert SearchSpec(cfg, st, places, fetch).state == agg.state;
      }
    }
  }

  /** When the extra round's lookup fails with reason `e`, the search rejects
      with `{message: {message: e, code: -1}, code: -1}`. */
  lemma {:induction false} SearchDoubleWrap(cfg: Settings, st: State, places: Places, fetch: Fetch)
    requires TruthyNumber(cfg.latitude) && TruthyNumber(cfg.longitude) && Truthy(cfg.accessToken)
    requires places(PlaceQueryOf(cfg)).Success?
    requires var data := places(PlaceQueryOf(cfg)).value; fetch(LookupUrls(cfg, data)).Success?
    ensures var data := places(PlaceQueryOf(cfg)).value;
      var st1 := st.(venuesCount := st.venuesCount + |data|);
      var f := Round(Fold(st1.session, []), fetch(LookupUrls(cfg, data)).value);
      var extra := LookupUrls(cfg, AsPlaceRefs(f.candidates));
      var run := SearchSpec(cfg, st, places, fetch);
      && (run.outcome.Failure? <==> |f.candidates| > 0 && !st.recurse && fetch(extra).Failure?)
      && (run.outcome.Failure? ==>
            run.outcome == Failure(SearchError(Wrapped(SearchError(Text(fetch(extra).error), -1)), -1)))
  {
    var data := places(PlaceQueryOf(cfg)).value;
    var st1 := st.(venuesCount := st.venuesCount + |data|);
    SearchOutcome(cfg, st, places, fetch);
    AggregateFailure(cfg, st1, fetch(LookupUrls(cfg, data)).value, fetch);
  }
}
