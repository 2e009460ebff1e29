/** One round of `aggregateEvents` (lib/eventSearch.js:102-175) as a fold over the
    parsed responses: the scan of an event's admins, the handling of one event,
    of one venue, of one response and of a whole round. */
module Aggregation {
  import opened Wrappers
  import opened Graph

  /** The part of a search object's state that a round updates. */
  datatype Session = Session(
    venues: seq<string>, events: seq<EventRecord>,
    locations: map<string, Location>, eventLocations: map<string, string>,
    venuesWithEvents: nat, eventsCount: nat)

  const EmptySession: Session := Session([], [], map[], map[], 0, 0)

  /** The state between two venues: the session and the round's candidate ids. */
  datatype Fold = Fold(session: Session, candidates: seq<string>)

  /** The state between two events of one venue: as `Fold`, plus the venue
      payload, whose location a back-fill replaces. */
  datatype Pass = Pass(session: Session, venue: VenuePayload, candidates: seq<string>)

  /** The outcome of scanning an event's admins. */
  datatype Scanned = Scanned(isAdmin: bool, candidates: seq<string>)

  predicate NoDup(s: seq<string>)
  {
    forall i, j | 0 <= i < j < |s| :: s[i] != s[j]
  }

  /** The event lists `c` as an admin whose profile type is "page". */
  predicate PageAdmin(e: EventPayload, c: string)
  {
    exists a | a in AdminList(e) :: a.id == c && a.profileType == "page"
  }

  /** The admin loop (lib/eventSearch.js:127-141), admin by admin. */
  function Scan(admins: seq<Admin>, venueId: string, venues: seq<string>, ids: seq<string>): Scanned
    decreases |admins|
  {
    if admins == [] then Scanned(false, ids)
    else
      var r := Scan(admins[..|admins| - 1], venueId, venues, ids);
      var a := admins[|admins| - 1];
      if a.id == venueId then Scanned(true, r.candidates)
      else if a.profileType == "page" && a.id !in venues && a.id !in r.candidates then
        Scanned(r.isAdmin, r.candidates + [a.id])
      else r
  }

  /** The scan finds the venue among the admins exactly when it is one, and it
      appends exactly the page admins other than the venue that are neither seen
      venues nor already candidates, each once. */
  lemma {:induction false} ScanFacts(admins: seq<Admin>, venueId: string, venues: seq<string>, ids: seq<string>)
    ensures var r := Scan(admins, venueId, venues, ids);
      && (r.isAdmin <==> exists a | a in admins :: a.id == venueId)
      && ids <= r.candidates
      && (forall k | |ids| <= k < |r.candidates| ::
            && r.candidates[k] != venueId && r.candidates[k] !in venues && r.candidates[k] !in ids
            && exists a | a in admins :: a.id == r.candidates[k] && a.profileType == "page")
      && (forall a | a in admins && a.id != venueId && a.profileType == "page" && a.id !in venues ::
            a.id in r.candidates)
      && (NoDup(ids) ==> NoDup(r.candidates))
    decreases |admins|
  {
    if admins != [] {
      var init := admins[..|admins| - 1];
      var a := admins[|admins| - 1];
      ScanFacts(init, venueId, venues, ids);
      assert admins == init + [a];
      assert forall b | b in init :: b in admins;
    }
  }

  /** The admin loop as the source runs it. */
  method ScanAdmins(admins: seq<Admin>, venueId: string, venues: seq<string>, ids: seq<string>)
    returns (isAdmin: bool, found: seq<string>)
    ensures Scanned(isAdmin, found) == Scan(admins, venueId, venues, ids)
  {
    isAdmin, found := false, ids;
    for i := 0 to |admins|
      invariant Scanned(isAdmin, found) == Scan(admins[..i], venueId, venues, ids)
    {
      assert admins[..i + 1][..i] == admins[..i];
      var adminId := admins[i].id;
      if adminId == venueId {
        isAdmin := true;
      } else if admins[i].profileType == "page" && adminId !in venues && adminId !in found {
        found := found + [adminId];
      }
    }
    assert admins[..|admins|] == admins;
  }

  /** `locations[key]`, which is `undefined` for a key never stored. */
  function Lookup(locations: map<string, Location>, key: string): Option<Location>
  {
    if key in locations then Some(locations[key]) else None
  }

  /** `eventLocations[id]` is truthy. */
  predicate HasSource(s: Session, eventId: string)
  {
    eventId in s.eventLocations && s.eventLocations[eventId] != ""
  }

  /** The attribution test and record append (lib/eventSearch.js:127-171). */
  function Attribute(p: Pass, venueId: string, e: EventPayload): Pass
  {
    var scan := Scan(AdminList(e), venueId, p.session.venues, p.candidates);
    var s := p.session;
    var s' := if scan.isAdmin
              then s.(events := s.events + [BuildRecord(e, venueId, p.venue)], eventsCount := s.eventsCount + 1)
              else s;
    Pass(s', p.venue, scan.candidates)
  }

  /** One event of a venue with events (lib/eventSearch.js:116-172): location
      resolution, then attribution. */
  function EventStep(p: Pass, venueId: string, e: EventPayload): Pass
  {
    var s := p.session;
    if p.venue.location.Some? then
      Attribute(p.(session := s.(eventLocations := s.eventLocations[e.id := venueId])), venueId, e)
    else if HasSource(s, e.id) then
      Attribute(p.(venue := p.venue.(location := Lookup(s.locations, s.eventLocations[e.id]))), venueId, e)
    else p
  }

  /** The events of one venue, in order. */
  function Events(p: Pass, venueId: string, evs: seq<EventPayload>): Pass
    decreases |evs|
  {
    if evs == [] then p
    else EventStep(Events(p, venueId, evs[..|evs| - 1]), venueId, evs[|evs| - 1])
  }

  /** One (venue id, payload) property of a response (lib/eventSearch.js:109-173). */
  function VenueStep(f: Fold, venueId: string, venue: VenuePayload): Fold
  {
    var s1 := f.session.(venues := f.session.venues + [venueId]);
    if venue.events.Some? && |venue.events.value| > 0 then
      var s2 := if venue.location.Some? then s1.(locations := s1.locations[venueId := venue.location.value]) else s1;
      var p := Events(Pass(s2.(venuesWithEvents := s2.venuesWithEvents + 1), venue, f.candidates),
                      venueId, venue.events.value);
      Fold(p.session, p.candidates)
    else Fold(s1, f.candidates)
  }

  /** The properties of one response, in enumeration order. */
  function Venues(f: Fold, pairs: Response): Fold
    decreases |pairs|
  {
    if pairs == [] then f
    else VenueStep(Venues(f, pairs[..|pairs| - 1]), pairs[|pairs| - 1].0, pairs[|pairs| - 1].1)
  }

  /** All responses of a round, in order (lib/eventSearch.js:106-175). */
  function Round(f: Fold, results: seq<Response>): Fold
    decreases |results|
  {
    if results == [] then f
    else Venues(Round(f, results[..|results| - 1]), results[|results| - 1])
  }

  /** The properties of all responses, response after response. */
  function Concat(results: seq<Response>): Response
  {
    if results == [] then [] else Concat(results[..|results| - 1]) + results[|results| - 1]
  }

  /** The venue ids of a response, in order. */
  function Keys(pairs: Response): seq<string>
  {
    if pairs == [] then [] else Keys(pairs[..|pairs| - 1]) + [pairs[|pairs| - 1].0]
  }

  /** The number of properties whose payload has a non-empty event list. */
  function WithEvents(pairs: Response): nat
  {
    if pairs == [] then 0
    else WithEvents(pairs[..|pairs| - 1]) + (if |EventList(pairs[|pairs| - 1].1)| > 0 then 1 else 0)
  }

  /** The record is the event of some property of `pairs` attributed to that
      property's venue id, which the event lists among its admins. */
  ghost predicate ClaimedBy(rec: EventRecord, pairs: Response)
  {
    exists i, e | 0 <= i < |pairs| && e in EventList(pairs[i].1) ::
      pairs[i].0 == rec.venue.id && e.id == rec.id && Admits(e, pairs[i].0)
  }

  /** `c` is a page admin of an event of some property of `pairs`, other than that property's venue. */
  ghost predicate Discovered(c: string, pairs: Response)
  {
    exists i, e | 0 <= i < |pairs| && e in EventList(pairs[i].1) :: c != pairs[i].0 && PageAdmin(e, c)
  }

  // ---------------------------------------------------------------------------
  // One event

  /** Location resolution (lib/eventSearch.js:117-124): a located venue records
      itself as the event's location source; an unlocated venue without a source
      for the event skips it entirely; otherwise the venue takes the location
      stored for the source venue, which may be missing. */
  lemma LocationResolution(p: Pass, venueId: string, e: EventPayload)
    ensures var r := EventStep(p, venueId, e); var s := p.session;
      && (p.venue.location.Some? ==>
            r.session.eventLocations == s.eventLocations[e.id := venueId] && r.venue == p.venue)
      && (p.venue.location.None? && !HasSource(s, e.id) ==> r == p)
      && (p.venue.location.None? && HasSource(s, e.id) ==>
            && r.session.eventLocations == s.eventLocations
            && r.venue == p.venue.(location := Lookup(s.locations, s.eventLocations[e.id])))
      && r.session.locations == s.locations
  {
  }

  /** What one event changes: at most one record, attributed to the venue and
      only if the event lists it as an admin; new candidates are page admins of
      the event that are not seen venues. */
  lemma {:induction false} EventStepFacts(p: Pass, venueId: string, e: EventPayload)
    ensures var r := EventStep(p, venueId, e); var s, t := p.session, r.session;
      && t.venues == s.venues && t.locations == s.locations && t.venuesWithEvents == s.venuesWithEvents
      && s.events <= t.events && |t.events| <= |s.events| + 1
      && t.eventsCount - |t.events| == s.eventsCount - |s.events|
      && (|t.events| > |s.events| ==>
            t.events[|s.events|] == BuildRecord(e, venueId, r.venue) && Admits(e, venueId))
      && (p.venue.location.Some? && Admits(e, venueId) ==> t.events == s.events + [BuildRecord(e, venueId, p.venue)])
      && (p.venue.location.None? && HasSource(s, e.id) ==>
            && r.venue.location == Lookup(s.locations, s.eventLocations[e.id])
            && (Admits(e, venueId) ==> t.events == s.events + [BuildRecord(e, venueId, r.venue)]))
      && (p.venue.location.None? && !HasSource(s, e.id) ==> r == p)
      && r.venue == p.venue.(location := r.venue.location)
      && (p.venue.location.Some? ==> r.venue == p.venue)
      && p.candidates <= r.candidates
      && (NoDup(p.candidates) ==> NoDup(r.candidates))
      && (forall k | |p.candidates| <= k < |r.candidates| ::
            r.candidates[k] != venueId && r.candidates[k] !in s.venues && PageAdmin(e, r.candidates[k]))
  {
    ScanFacts(AdminList(e), venueId, p.session.venues, p.candidates);
  }

  // ---------------------------------------------------------------------------
  // The events of one venue

  /** The events of a venue leave the venue list, the location table and the
      venue counter alone; they append only records of events of the list that
      admit the venue, keep `eventsCount` in step with `events`, and collect only
      page admins of those events that are not seen venues, without duplicates. */
  lemma {:induction false} EventsFacts(p: Pass, venueId: string, evs: seq<EventPayload>)
    ensures var r := Events(p, venueId, evs); var s, t := p.session, r.session;
      && t.venues == s.venues && t.locations == s.locations && t.venuesWithEvents == s.venuesWithEvents
      && s.events <= t.events
      && t.eventsCount - |t.events| == s.eventsCount - |s.events|
      && (forall k | |s.events| <= k < |t.events| ::
            t.events[k].venue.id == venueId && exists e | e in evs :: e.id == t.events[k].id && Admits(e, venueId))
      && r.venue == p.venue.(location := r.venue.location)
      && (p.venue.location.Some? ==> r.venue == p.venue)
      && p.candidates <= r.candidates
      && (NoDup(p.candidates) ==> NoDup(r.candidates))
      && (forall k | |p.candidates| <= k < |r.candidates| ::
            r.candidates[k] != venueId && r.candidates[k] !in s.venues &&
            exists e | e in evs :: PageAdmin(e, r.candidates[k]))
    decreases |evs|
  {
    if evs != [] {
      var init, e := evs[..|evs| - 1], evs[|evs| - 1];
      var q := Events(p, venueId, init);
      EventsFacts(p, venueId, init);
      EventStepFacts(q, venueId, e);
      assert forall x | x in init :: x in evs;
      assert e in evs;
    }
  }

  lemma {:induction false} EventStepLocated(p: Pass, venueId: string, e: EventPayload)
    requires p.venue.location.Some?
    ensures var r := EventStep(p, venueId, e);
      && r.venue == p.venue && p.session.events <= r.session.events
      && (Admits(e, venueId) ==> r.session.events == p.session.events + [BuildRecord(e, venueId, p.venue)])
  {
    ScanFacts(AdminList(e), venueId, p.session.venues, p.candidates);
  }

  lemma {:induction false} EventsLocated(p: Pass, venueId: string, evs: seq<EventPayload>)
    requires p.venue.location.Some?
    ensures var r := Events(p, venueId, evs);
      r.venue == p.venue && p.session.events <= r.session.events
    decreases |evs|
  {
    if evs != [] {
      EventsLocated(p, venueId, evs[..|evs| - 1]);
      EventStepLocated(Events(p, venueId, evs[..|evs| - 1]), venueId, evs[|evs| - 1]);
    }
  }

  /** `rec` is among the records from position `from` on. */
  predicate Recorded(rec: EventRecord, from: nat, records: seq<EventRecord>)
  {
    exists k | from <= k < |records| :: records[k] == rec
  }

  /** A record found from `from` on in `a` is still found, from any earlier
      position, in a sequence that extends `a`. */
  lemma RecordedKept(rec: EventRecord, from: nat, a: seq<EventRecord>, from': nat, b: seq<EventRecord>)
    requires Recorded(rec, from, a) && a <= b && from' <= from
    ensures Recorded(rec, from', b)
  {
    var k :| from <= k < |a| && a[k] == rec;
    assert b[k] == a[k];
  }

  /** A venue that has its own location gets a record, built from its own
      payload, for every event of its list that admits it. */
  lemma {:induction false} EventsLocatedComplete(p: Pass, venueId: string, evs: seq<EventPayload>)
    requires p.venue.location.Some?
    ensures var r := Events(p, venueId, evs); var s, t := p.session, r.session;
      forall e | e in evs && Admits(e, venueId) :: Recorded(BuildRecord(e, venueId, p.venue), |s.events|, t.events)
    decreases |evs|
  {
    if evs != [] {
      var init, last := evs[..|evs| - 1], evs[|evs| - 1];
      var q := Events(p, venueId, init);
      var r := EventStep(q, venueId, last);
      assert Events(p, venueId, evs) == r;
      EventsLocatedComplete(p, venueId, init);
      EventsLocated(p, venueId, init);
      EventStepLocated(q, venueId, last);
      forall e | e in evs && Admits(e, venueId)
        ensures Recorded(BuildRecord(e, venueId, p.venue), |p.session.events|, r.session.events)
      {
        if e == last {
          var k := |q.session.events|;
          assert r.session.events[k] == BuildRecord(e, venueId, p.venue);
        } else {
          assert e in init;
          RecordedKept(BuildRecord(e, venueId, p.venue), |p.session.events|, q.session.events,
                       |p.session.events|, r.session.events);
        }
      }
    }
  }

  // ---------------------------------------------------------------------------
  // One venue

  /** A venue is always appended to `venues`; only a venue with a non-empty event
      list is counted, stores its location, and can add records and candidates. */
  lemma {:induction false} VenueStepFacts(f: Fold, venueId: string, venue: VenuePayload)
    ensures var r := VenueStep(f, venueId, venue); var s, t := f.session, r.session;
      && t.venues == s.venues + [venueId]
      && t.locations == (if |EventList(venue)| > 0 && venue.location.Some?
                         then s.locations[venueId := venue.location.value] else s.locations)
      && t.venuesWithEvents == s.venuesWithEvents + (if |EventList(venue)| > 0 then 1 else 0)
      && (|EventList(venue)| == 0 ==> r == Fold(s.(venues := s.venues + [venueId]), f.candidates))
      && s.events <= t.events
      && t.eventsCount - |t.events| == s.eventsCount - |s.events|
      && (forall k | |s.events| <= k < |t.events| ::
            t.events[k].venue.id == venueId &&
            exists e | e in EventList(venue) :: e.id == t.events[k].id && Admits(e, venueId))
      && f.candidates <= r.candidates
      && (NoDup(f.candidates) ==> NoDup(r.candidates))
      && (forall k | |f.candidates| <= k < |r.candidates| ::
            r.candidates[k] != venueId && r.candidates[k] !in s.venues &&
            exists e | e in EventList(venue) :: PageAdmin(e, r.candidates[k]))
  {
    if venue.events.Some? && |venue.events.value| > 0 {
      var s1 := f.session.(venues := f.session.venues + [venueId]);
      var s2 := if venue.location.Some? then s1.(locations := s1.locations[venueId := venue.location.value]) else s1;
      EventsFacts(Pass(s2.(venuesWithEvents := s2.venuesWithEvents + 1), venue, f.candidates),
                  venueId, venue.events.value);
    }
  }

  lemma {:induction false} VenueLocatedComplete(f: Fold, venueId: string, venue: VenuePayload)
    requires venue.location.Some?
    ensures var r := VenueStep(f, venueId, venue); var s, t := f.session, r.session;
      && s.events <= t.events
      && forall e | e in EventList(venue) && Admits(e, venueId) ::
           Recorded(BuildRecord(e, venueId, venue), |s.events|, t.events)
  {
    VenueStepFacts(f, venueId, venue);
    if venue.events.Some? && |venue.events.value| > 0 {
      var s1 := f.session.(venues := f.session.venues + [venueId]);
      var s2 := s1.(locations := s1.locations[venueId := venue.location.value]);
      EventsLocatedComplete(Pass(s2.(venuesWithEvents := s2.venuesWithEvents + 1), venue, f.candidates),
                            venueId, venue.events.value);
    }
  }

  // ---------------------------------------------------------------------------
  // One response, and a round

  lemma {:induction false} VenuesAppend(f: Fold, a: Response, b: Response)
    ensures Venues(f, a + b) == Venues(Venues(f, a), b)
    decreases |b|
  {
    if b == [] {
      assert a + b == a;
    } else {
      var init := b[..|b| - 1];
      VenuesAppend(f, a, init);
      assert (a + b)[..|a + b| - 1] == a + init;
    }
  }

  /** A round folds the properties of all its responses, response after response,
      as one sequence. */
  lemma {:induction false} RoundIsFlat(f: Fold, results: seq<Response>)
    ensures Round(f, results) == Venues(f, Concat(results))
    decreases |results|
  {
    if results != [] {
      var init := results[..|results| - 1];
      RoundIsFlat(f, init);
      VenuesAppend(f, Concat(init), results[|results| - 1]);
    }
  }

  /** The fold over a response's properties: every venue id is appended to
      `venues`, duplicates included; `venuesWithEvents` counts the payloads with
      a non-empty event list; records are only appended, each claimed by the
      admin list of an event its venue returned, and `eventsCount` moves in step
      with them; candidates are appended without duplicates, and each is a page
      admin of a returned event, other than that event's venue, and not a venue
      seen before the fold. */
  lemma {:induction false} VenuesFacts(f: Fold, pairs: Response)
    ensures var r := Venues(f, pairs); var s, t := f.session, r.session;
      && t.venues == s.venues + Keys(pairs)
      && t.venuesWithEvents == s.venuesWithEvents + WithEvents(pairs)
      && s.events <= t.events
      && t.eventsCount - |t.events| == s.eventsCount - |s.events|
      && (forall k | |s.events| <= k < |t.events| :: ClaimedBy(t.events[k], pairs))
      && f.candidates <= r.candidates
      && (NoDup(f.candidates) ==> NoDup(r.candidates))
      && (forall k | |f.candidates| <= k < |r.candidates| ::
            r.candidates[k] !in s.venues && Discovered(r.candidates[k], pairs))
    decreases |pairs|
  {
    if pairs != [] {
      var n := |pairs| - 1;
      var init := pairs[..n];
      var q := Venues(f, init);
      var r := Venues(f, pairs);
      VenuesFacts(f, init);
      VenueStepFacts(q, pairs[n].0, pairs[n].1);
      assert forall i | 0 <= i < n :: init[i] == pairs[i];
      forall k | |f.session.events| <= k < |r.session.events|
        ensures ClaimedBy(r.session.events[k], pairs)
      {
        if k < |q.session.events| {
          assert r.session.events[k] == q.session.events[k];
          var i, e :| 0 <= i < |init| && e in EventList(init[i].1) &&
                      init[i].0 == q.session.events[k].venue.id && e.id == q.session.events[k].id && Admits(e, init[i].0);
          assert pairs[i] == init[i];
        } else {
          var e :| e in EventList(pairs[n].1) && e.id == r.session.events[k].id && Admits(e, pairs[n].0);
        }
      }
      forall k | |f.candidates| <= k < |r.candidates|
        ensures r.candidates[k] !in f.session.venues && Discovered(r.candidates[k], pairs)
      {
        if k < |q.candidates| {
          assert r.candidates[k] == q.candidates[k];
          var i, e :| 0 <= i < |init| && e in EventList(init[i].1) && q.candidates[k] != init[i].0 && PageAdmin(e, q.candidates[k]);
          assert pairs[i] == init[i];
        } else {
          var e :| e in EventList(pairs[n].1) && PageAdmin(e, r.candidates[k]);
          assert f.session.venues <= q.session.venues;
        }
      }
    }
  }

  /** Every venue of the response that has its own location gets a record, built
      from its own payload, for every event of its list that admits it. */
  lemma {:induction false} VenuesLocatedComplete(f: Fold, pairs: Response)
    ensures var r := Venues(f, pairs); var s, t := f.session, r.session;
      && s.events <= t.events
      && forall i, e | 0 <= i < |pairs| && pairs[i].1.location.Some? && e in EventList(pairs[i].1) &&
                       Admits(e, pairs[i].0) ::
           Recorded(BuildRecord(e, pairs[i].0, pairs[i].1), |s.events|, t.events)
    decreases |pairs|
  {
    if pairs != [] {
      var n := |pairs| - 1;
      var init := pairs[..n];
      var q := Venues(f, init);
      var r := Venues(f, pairs);
      VenuesLocatedComplete(f, init);
      VenueStepFacts(q, pairs[n].0, pairs[n].1);
      if pairs[n].1.location.Some? {
        VenueLocatedComplete(q, pairs[n].0, pairs[n].1);
      }
      forall i, e | 0 <= i < |pairs| && pairs[i].1.location.Some? && e in EventList(pairs[i].1) && Admits(e, pairs[i].0)
        ensures Recorded(BuildRecord(e, pairs[i].0, pairs[i].1), |f.session.events|, r.session.events)
      {
        if i < n {
          assert init[i] == pairs[i];
          RecordedKept(BuildRecord(e, pairs[i].0, pairs[i].1), |f.session.events|, q.session.events,
                       |f.session.events|, r.session.events);
        } else {
          RecordedKept(BuildRecord(e, pairs[n].0, pairs[n].1), |q.session.events|, r.session.events,
                       |f.session.events|, r.session.events);
        }
      }
    }
  }
}
