/** Concrete rounds that pin down how the fold treats ownership, back-filled
    locations and repeated venues. */
module Scenarios {
  import opened Wrappers
  import opened Graph
  import opened Config
  import opened Aggregation
  import opened Pipeline

  const Here: Location := Location("1 Main St", "Springfield", "", "US", "00001", 1.0, 2.0)

  function VenueWith(location: Option<Location>, evs: seq<EventPayload>): VenuePayload
  {
    VenuePayload("venue", None, None, None, None, None, None, None, location, Some(evs))
  }

  function EventWith(id: string, admins: seq<Admin>): EventPayload
  {
    EventPayload(id, "event", "public", None, None, None, None, None, 0, 0, 0, 0, Some(admins))
  }

  function Page(id: string): Admin
  {
    Admin(id, "page", "page")
  }

  // Unfolding steps for literal sequences.

  lemma ScanOne(a: Admin, venueId: string, venues: seq<string>, ids: seq<string>)
    ensures Scan([a], venueId, venues, ids) ==
      if a.id == venueId then Scanned(true, ids)
      else if a.profileType == "page" && a.id !in venues && a.id !in ids then Scanned(false, ids + [a.id])
      else Scanned(false, ids)
  {
    assert [a][..0] == [];
  }

  lemma ScanSnoc(admins: seq<Admin>, a: Admin, venueId: string, venues: seq<string>, ids: seq<string>)
    ensures var r := Scan(admins, venueId, venues, ids);
      Scan(admins + [a], venueId, venues, ids) ==
        if a.id == venueId then Scanned(true, r.candidates)
        else if a.profileType == "page" && a.id !in venues && a.id !in r.candidates then
          Scanned(r.isAdmin, r.candidates + [a.id])
        else r
  {
    assert (admins + [a])[..|admins|] == admins;
  }

  lemma EventsSnoc(p: Pass, venueId: string, evs: seq<EventPayload>, e: EventPayload)
    ensures Events(p, venueId, evs + [e]) == EventStep(Events(p, venueId, evs), venueId, e)
  {
    assert (evs + [e])[..|evs|] == evs;
  }

  lemma VenuesSnoc(f: Fold, pairs: Response, venueId: string, venue: VenuePayload)
    ensures Venues(f, pairs + [(venueId, venue)]) == VenueStep(Venues(f, pairs), venueId, venue)
  {
    assert (pairs + [(venueId, venue)])[..|pairs|] == pairs;
  }

  lemma RoundSnoc(f: Fold, results: seq<Response>, pairs: Response)
    ensures Round(f, results + [pairs]) == Venues(Round(f, results), pairs)
  {
    assert (results + [pairs])[..|results|] == results;
  }

  /** A located venue that administers its own event yields one record carrying
      the venue's location, and no candidate. */
  lemma OwnEvent()
    ensures var v := VenueWith(Some(Here), [EventWith("e", [Page("v")])]);
      var r := Round(Fold(EmptySession, []), [[("v", v)]]);
      && r.session.events == [BuildRecord(EventWith("e", [Page("v")]), "v", v)]
      && r.session.events[0].venue.location == Some(Here)
      && r.session.eventsCount == 1 && r.session.venuesWithEvents == 1
      && r.candidates == []
  {
    var e := EventWith("e", [Page("v")]);
    var v := VenueWith(Some(Here), [e]);
    var f0 := Fold(EmptySession, []);
    ScanOne(Page("v"), "v", ["v"], []);
    EventsSnoc(Pass(EmptySession.(venues := ["v"], locations := map["v" := Here], venuesWithEvents := 1), v, []), "v", [], e);
    VenuesSnoc(f0, [], "v", v);
    RoundSnoc(f0, [], [("v", v)]);
  }

  /** Back-fill: venue "b" (located) returns event "e" administered only by
      page "a"; "a" (unlocated) returns "e" too. The only record is "a"'s, with
      "b"'s location; "a" also became a candidate, since it had not been seen
      when "b" was folded. */
  lemma Backfill()
    ensures var e := EventWith("e", [Page("a")]);
      var b, a := VenueWith(Some(Here), [e]), VenueWith(None, [e]);
      var r := Round(Fold(EmptySession, []), [[("b", b), ("a", a)]]);
      && |r.session.events| == 1
      && r.session.events[0].venue.id == "a"
      && r.session.events[0].venue.location == Some(Here)
      && r.session.venues == ["b", "a"]
      && r.candidates == ["a"]
  {
    var e := EventWith("e", [Page("a")]);
    var b, a := VenueWith(Some(Here), [e]), VenueWith(None, [e]);
    var f0 := Fold(EmptySession, []);
    BackfillFirst();
    BackfillSecond();
    VenuesSnoc(f0, [], "b", b);
    assert [] + [("b", b)] == [("b", b)];
    VenuesSnoc(f0, [("b", b)], "a", a);
    assert [("b", b)] + [("a", a)] == [("b", b), ("a", a)];
    RoundSnoc(f0, [], [("b", b), ("a", a)]);
    assert [] + [[("b", b), ("a", a)]] == [[("b", b), ("a", a)]];
  }

  lemma BackfillFirst()
    ensures var e := EventWith("e", [Page("a")]);
      VenueStep(Fold(EmptySession, []), "b", VenueWith(Some(Here), [e]))
        == Fold(Session(["b"], [], map["b" := Here], map["e" := "b"], 1, 0), ["a"])
  {
    var e := EventWith("e", [Page("a")]);
    var b := VenueWith(Some(Here), [e]);
    var s := Session(["b"], [], map["b" := Here], map[], 1, 0);
    ScanOne(Page("a"), "b", ["b"], []);
    EventsSnoc(Pass(s, b, []), "b", [], e);
    assert [] + [e] == [e];
  }

  lemma BackfillSecond()
    ensures var e := EventWith("e", [Page("a")]);
      VenueStep(Fold(Session(["b"], [], map["b" := Here], map["e" := "b"], 1, 0), ["a"]), "a", VenueWith(None, [e]))
        == Fold(Session(["b", "a"], [BuildRecord(e, "a", VenueWith(Some(Here), [e]))],
                        map["b" := Here], map["e" := "b"], 2, 1), ["a"])
  {
    var e := EventWith("e", [Page("a")]);
    var a := VenueWith(None, [e]);
    var s := Session(["b", "a"], [], map["b" := Here], map["e" := "b"], 2, 0);
    ScanOne(Page("a"), "a", ["b", "a"], ["a"]);
    EventsSnoc(Pass(s, a, ["a"]), "a", [], e);
    assert [] + [e] == [e];
    assert ["b"] + ["a"] == ["b", "a"];
  }

  /** A location lost on the way: "v2" has no location and is back-filled from
      "v1" by "e1", so it records itself as the source of "e2"; but `locations`
      never stores "v2", so "v3", resolving "e2" through "v2", records its event
      with no location. */
  lemma LostLocation()
    ensures var e1, e2 := EventWith("e1", []), EventWith("e2", [Page("v3")]);
      var r := Round(Fold(EmptySession, []), [[("v1", VenueWith(Some(Here), [e1])),
                                               ("v2", VenueWith(None, [e1, e2])),
                                               ("v3", VenueWith(None, [e2]))]]);
      && |r.session.events| == 1
      && r.session.events[0].venue.id == "v3"
      && r.session.events[0].venue.location == None
      && r.session.eventLocations == map["e1" := "v1", "e2" := "v2"]
      && r.session.locations == map["v1" := Here]
  {
    var e1, e2 := EventWith("e1", []), EventWith("e2", [Page("v3")]);
    var v1, v2, v3 := VenueWith(Some(Here), [e1]), VenueWith(None, [e1, e2]), VenueWith(None, [e2]);
    var f0 := Fold(EmptySession, []);
    LostFirst();
    LostSecond();
    LostThird();
    VenuesSnoc(f0, [], "v1", v1);
    assert [] + [("v1", v1)] == [("v1", v1)];
    VenuesSnoc(f0, [("v1", v1)], "v2", v2);
    assert [("v1", v1)] + [("v2", v2)] == [("v1", v1), ("v2", v2)];
    VenuesSnoc(f0, [("v1", v1), ("v2", v2)], "v3", v3);
    assert [("v1", v1), ("v2", v2)] + [("v3", v3)] == [("v1", v1), ("v2", v2), ("v3", v3)];
    RoundSnoc(f0, [], [("v1", v1), ("v2", v2), ("v3", v3)]);
    assert [] + [[("v1", v1), ("v2", v2), ("v3", v3)]] == [[("v1", v1), ("v2", v2), ("v3", v3)]];
  }

  lemma LostFirst()
    ensures VenueStep(Fold(EmptySession, []), "v1", VenueWith(Some(Here), [EventWith("e1", [])]))
         == Fold(Session(["v1"], [], map["v1" := Here], map["e1" := "v1"], 1, 0), [])
  {
    var e1 := EventWith("e1", []);
    var s := Session(["v1"], [], map["v1" := Here], map[], 1, 0);
    EventsSnoc(Pass(s, VenueWith(Some(Here), [e1]), []), "v1", [], e1);
    assert [] + [e1] == [e1];
  }

  lemma LostSecond()
    ensures var e1, e2 := EventWith("e1", []), EventWith("e2", [Page("v3")]);
      VenueStep(Fold(Session(["v1"], [], map["v1" := Here], map["e1" := "v1"], 1, 0), []), "v2",
                VenueWith(None, [e1, e2]))
        == Fold(Session(["v1", "v2"], [], map["v1" := Here], map["e1" := "v1", "e2" := "v2"], 2, 0), ["v3"])
  {
    var e1, e2 := EventWith("e1", []), EventWith("e2", [Page("v3")]);
    var v2 := VenueWith(None, [e1, e2]);
    var s := Session(["v1", "v2"], [], map["v1" := Here], map["e1" := "v1"], 2, 0);
    assert ["v1"] + ["v2"] == ["v1", "v2"];
    EventsSnoc(Pass(s, v2, []), "v2", [], e1);
    assert [] + [e1] == [e1];
    assert Events(Pass(s, v2, []), "v2", [e1]) == Pass(s, v2.(location := Some(Here)), []);
    ScanOne(Page("v3"), "v2", ["v1", "v2"], []);
    EventsSnoc(Pass(s, v2, []), "v2", [e1], e2);
    assert [e1] + [e2] == [e1, e2];
  }

  lemma LostThird()
    ensures var e2 := EventWith("e2", [Page("v3")]);
      VenueStep(Fold(Session(["v1", "v2"], [], map["v1" := Here], map["e1" := "v1", "e2" := "v2"], 2, 0), ["v3"]),
                "v3", VenueWith(None, [e2]))
        == Fold(Session(["v1", "v2", "v3"], [BuildRecord(e2, "v3", VenueWith(None, [e2]))],
                        map["v1" := Here], map["e1" := "v1", "e2" := "v2"], 3, 1), ["v3"])
  {
    var e2 := EventWith("e2", [Page("v3")]);
    var v3 := VenueWith(None, [e2]);
    var s := Session(["v1", "v2", "v3"], [], map["v1" := Here], map["e1" := "v1", "e2" := "v2"], 3, 0);
    assert ["v1", "v2"] + ["v3"] == ["v1", "v2", "v3"];
    ScanOne(Page("v3"), "v3", ["v1", "v2", "v3"], ["v3"]);
    EventsSnoc(Pass(s, v3, ["v3"]), "v3", [], e2);
    assert [] + [e2] == [e2];
  }

  /** A venue id returned in two responses is appended twice, counted twice,
      and its event recorded twice. */
  lemma RepeatedVenue()
    ensures var v := VenueWith(Some(Here), [EventWith("e", [Page("v")])]);
      var r := Round(Fold(EmptySession, []), [[("v", v)], [("v", v)]]);
      && r.session.venues == ["v", "v"]
      && r.session.venuesWithEvents == 2
      && |r.session.events| == 2 && r.session.events[0] == r.session.events[1]
  {
    var e := EventWith("e", [Page("v")]);
    var v := VenueWith(Some(Here), [e]);
    var f0 := Fold(EmptySession, []);
    ScanOne(Page("v"), "v", ["v"], []);
    EventsSnoc(Pass(EmptySession.(venues := ["v"], locations := map["v" := Here], venuesWithEvents := 1), v, []), "v", [], e);
    VenuesSnoc(f0, [], "v", v);
    RoundSnoc(f0, [], [("v", v)]);
    var f1 := Round(f0, [[("v", v)]]);
    ScanOne(Page("v"), "v", ["v", "v"], []);
    EventsSnoc(Pass(f1.session.(venues := ["v", "v"], venuesWithEvents := 2), v, []), "v", [], e);
    VenuesSnoc(f1, [], "v", v);
    RoundSnoc(f0, [[("v", v)]], [("v", v)]);
    assert [[("v", v)]] + [[("v", v)]] == [[("v", v)], [("v", v)]];
  }

  /** Two owners of one event: venue "v" (located) returns event "e" whose
      admins are "v" and page "p". "p" is discovered and fetched in the extra
      round; its payload (unlocated) returns "e" too, takes "v"'s location, and
      "e" is recorded a second time under "p". The extra round finds nothing
      new and issues no further lookup. */
  lemma TwoOwners(cfg: Settings)
    ensures var e := EventWith("e", [Page("v"), Page("p")]);
      var v, p := VenueWith(Some(Here), [e]), VenueWith(None, [e]);
      var fetch: Fetch := urls => Success([[("p", p)]]);
      var run := AggregateSpec(cfg, InitialState, [[("v", v)]], fetch);
      && run.outcome == Success(())
      && |run.requests| == 1 && run.state.recurse && run.state.venuesCount == 1
      && run.state.session.venues == ["v", "p"]
      && |run.state.session.events| == 2 && run.state.session.eventsCount == 2
      && run.state.session.events[0].id == "e" && run.state.session.events[0].venue.id == "v"
      && run.state.session.events[1].id == "e" && run.state.session.events[1].venue.id == "p"
      && run.state.session.events[1].venue.location == Some(Here)
  {
    var e := EventWith("e", [Page("v"), Page("p")]);
    var v, p := VenueWith(Some(Here), [e]), VenueWith(None, [e]);
    var fetch: Fetch := urls => Success([[("p", p)]]);
    var f0 := Fold(EmptySession, []);
    var r1 := Session(["v"], [BuildRecord(e, "v", v)], map["v" := Here], map["e" := "v"], 1, 1);
    OwnersFirst();
    VenuesSnoc(f0, [], "v", v);
    assert [] + [("v", v)] == [("v", v)];
    RoundSnoc(f0, [], [("v", v)]);
    assert [] + [[("v", v)]] == [[("v", v)]];
    assert Round(f0, [[("v", v)]]) == Fold(r1, ["p"]);
    var st2 := State(r1, 1, true);
    OwnersSecond();
    var g0 := Fold(r1, []);
    VenuesSnoc(g0, [], "p", p);
    assert [] + [("p", p)] == [("p", p)];
    RoundSnoc(g0, [], [("p", p)]);
    assert [] + [[("p", p)]] == [[("p", p)]];
    assert AsPlaceRefs(["p"]) == [BareId("p")];
    ExtraRoundQuiet(cfg, st2, [[("p", p)]], fetch);
  }

  lemma OwnersFirst()
    ensures var e := EventWith("e", [Page("v"), Page("p")]);
      VenueStep(Fold(EmptySession, []), "v", VenueWith(Some(Here), [e]))
        == Fold(Session(["v"], [BuildRecord(e, "v", VenueWith(Some(Here), [e]))], map["v" := Here], map["e" := "v"], 1, 1), ["p"])
  {
    var e := EventWith("e", [Page("v"), Page("p")]);
    var v := VenueWith(Some(Here), [e]);
    var s := Session(["v"], [], map["v" := Here], map[], 1, 0);
    ScanOne(Page("v"), "v", ["v"], []);
    ScanSnoc([Page("v")], Page("p"), "v", ["v"], []);
    assert [Page("v")] + [Page("p")] == [Page("v"), Page("p")];
    EventsSnoc(Pass(s, v, []), "v", [], e);
    assert [] + [e] == [e];
  }

  lemma OwnersSecond()
    ensures var e := EventWith("e", [Page("v"), Page("p")]); var v := VenueWith(Some(Here), [e]);
      VenueStep(Fold(Session(["v"], [BuildRecord(e, "v", v)], map["v" := Here], map["e" := "v"], 1, 1), []),
                "p", VenueWith(None, [e]))
        == Fold(Session(["v", "p"], [BuildRecord(e, "v", v), BuildRecord(e, "p", v)],
                        map["v" := Here], map["e" := "v"], 2, 2), [])
  {
    var e := EventWith("e", [Page("v"), Page("p")]);
    var v, p := VenueWith(Some(Here), [e]), VenueWith(None, [e]);
    var s := Session(["v", "p"], [BuildRecord(e, "v", v)], map["v" := Here], map["e" := "v"], 2, 1);
    assert ["v"] + ["p"] == ["v", "p"];
    ScanOne(Page("v"), "p", ["v", "p"], []);
    ScanSnoc([Page("v")], Page("p"), "p", ["v", "p"], []);
    assert [Page("v")] + [Page("p")] == [Page("v"), Page("p")];
    EventsSnoc(Pass(s, p, []), "p", [], e);
    assert [] + [e] == [e];
    assert p.(location := Some(Here)) == v;
  }
}
