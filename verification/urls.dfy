/** The Graph API requests the search issues: the batched id lookup URLs of
    `getEventsUrls` (lib/eventSearch.js:64-93) and the place search query
    (lib/eventSearch.js:220-222). */
module Urls {
  import opened Wrappers
  import opened Graph
  import opened Config

  const GraphRoot: string := "https://graph.facebook.com/"

  /** The venue, event and admin fields requested for every id. */
  const EventFields: string :=
    "id,name,about,emails,link,username,category_list,cover.fields(id,source),picture.type(large),"
    + "location,events.fields(id,type,name,cover.fields(id,source),picture.type(large),"
    + "description,start_time,end_time,attending_count,declined_count,maybe_count,noreply_count,"
    + "admins.fields(name,id,profile_type))"

  /** `Array.prototype.join(sep)`. */
  function Join(ids: seq<string>, sep: char): string
    decreases |ids|
  {
    if ids == [] then "" else if |ids| == 1 then ids[0] else ids[0] + [sep] + Join(ids[1..], sep)
  }

  /** `String.prototype.split(sep)`, the inverse of `Join` on ids free of `sep`. */
  function Split(s: string, sep: char): (r: seq<string>)
    ensures |r| > 0
    decreases |s|
  {
    if s == [] then [""]
    else if s[0] == sep then [""] + Split(s[1..], sep)
    else
      var rest := Split(s[1..], sep);
      [[s[0]] + rest[0]] + rest[1..]
  }

  lemma {:induction false} SplitPlain(a: string, t: string, sep: char)
    requires sep !in a
    ensures Split(a + t, sep)[0] == a + Split(t, sep)[0]
    ensures Split(a + t, sep)[1..] == Split(t, sep)[1..]
    decreases |a|
  {
    if a != [] {
      assert (a + t)[0] == a[0] && (a + t)[1..] == a[1..] + t;
      SplitPlain(a[1..], t, sep);
      assert [a[0]] + a[1..] == a;
    } else {
      assert a + t == t;
    }
  }

  /** Splitting the comma-joined ids gives the ids back. */
  lemma {:induction false} SplitJoin(ids: seq<string>, sep: char)
    requires ids != []
    requires forall id | id in ids :: sep !in id
    ensures Split(Join(ids, sep), sep) == ids
    decreases |ids|
  {
    if |ids| == 1 {
      SplitPlain(ids[0], "", sep);
      assert ids[0] + "" == ids[0];
    } else {
      var t := [sep] + Join(ids[1..], sep);
      assert Join(ids, sep) == ids[0] + t;
      SplitPlain(ids[0], t, sep);
      SplitJoin(ids[1..], sep);
      assert t[0] == sep && t[1..] == Join(ids[1..], sep);
      assert Split(t, sep) == [""] + ids[1..];
      var r := Split(ids[0] + t, sep);
      assert r[0] == ids[0] + "" == ids[0];
      assert r == [r[0]] + r[1..];
    }
  }

  /** A missing token is concatenated as the text "null". */
  function TokenText(token: Option<string>): string
  {
    if token.Some? then token.value else "null"
  }

  /** The lookup URL of one batch of ids. */
  function EventsUrl(cfg: Settings, batch: seq<string>): string
  {
    GraphRoot + cfg.version + "/?ids=" + Join(batch, ',') + "&fields=" + EventFields
    + ".since(" + cfg.currentTimestamp + ")&access_token=" + TokenText(cfg.accessToken)
  }

  /** One lookup URL per batch, in batch order. */
  function EventsUrls(cfg: Settings, batches: seq<seq<string>>): seq<string>
  {
    if batches == [] then []
    else EventsUrls(cfg, batches[..|batches| - 1]) + [EventsUrl(cfg, batches[|batches| - 1])]
  }

  /** The i-th URL is the lookup of the i-th batch, and there is one URL per batch. */
  lemma {:induction false} EventsUrlsAt(cfg: Settings, batches: seq<seq<string>>)
    ensures |EventsUrls(cfg, batches)| == |batches|
    ensures forall i | 0 <= i < |batches| :: EventsUrls(cfg, batches)[i] == EventsUrl(cfg, batches[i])
    decreases |batches|
  {
    if batches != [] {
      var init := batches[..|batches| - 1];
      EventsUrlsAt(cfg, init);
      assert forall i | 0 <= i < |init| :: init[i] == batches[i];
    }
  }

  /** The structured form of the place search request; the coordinates and the
      token are `None` where the URL would read "null". */
  datatype PlaceQuery = PlaceQuery(
    version: string, q: string, latitude: Option<real>, longitude: Option<real>,
    distance: real, limit: nat, fields: string, accessToken: Option<string>)

  const PlaceLimit: nat := 1000

  /** The place search request of a search object's settings. */
  function PlaceQueryOf(cfg: Settings): PlaceQuery
  {
    PlaceQuery(cfg.version, cfg.query, cfg.latitude, cfg.longitude, cfg.distance,
               PlaceLimit, "id", cfg.accessToken)
  }

  /** The place search is centred on the caller's coordinates, within the
      caller's distance or else 100, through the caller's API version or else
      "v2.8", and asks for ids only, at most 1000 of them. */
  lemma PlaceQueryOfOptions(o: Options, envToken: Option<string>, encode: string -> string, currentTimestamp: string)
    ensures var q := PlaceQueryOf(Normalize(o, envToken, encode, currentTimestamp));
      && (TruthyNumber(o.lat) ==> q.latitude == o.lat) && (TruthyNumber(o.lng) ==> q.longitude == o.lng)
      && q.distance == (if TruthyNumber(o.distance) then o.distance.value else DefaultDistance)
      && q.version == (if Truthy(o.version) then o.version.value else DefaultVersion)
      && q.limit == PlaceLimit && q.fields == "id"
  {
  }
}
