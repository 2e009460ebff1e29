/** The already-parsed shapes of the Graph API payloads that the event search
    reads, and the event record it builds from them (lib/eventSearch.js:143-168). */
module Graph {
  import opened Wrappers

  /** One entry of the place search's `data` list: a bare id, or an object
      whose `id` field may be missing. */
  datatype PlaceRef = BareId(value: string) | IdObject(id: Option<string>)

  /** The id an entry carries: the entry itself, or its `id` field. */
  function IdOf(ref: PlaceRef): Option<string>
  {
    match ref
    case BareId(v) => Some(v)
    case IdObject(id) => id
  }

  /** JavaScript truthiness of an optional string: present and not empty. */
  predicate Truthy(s: Option<string>)
  {
    s.Some? && s.value != ""
  }

  /** `x ? x : null` on an optional string. */
  function OrNull(s: Option<string>): Option<string>
  {
    if Truthy(s) then s else None
  }

  /** A free-form address payload; as an object it is always truthy. */
  datatype Location = Location(street: string, city: string, state: string, country: string,
                               zip: string, latitude: real, longitude: real)

  datatype Cover = Cover(id: string, source: string)

  /** `picture.data`, whose `url` is copied into records. */
  datatype Picture = Picture(url: string)

  datatype Category = Category(id: string, name: string)

  /** An entry of an event's `admins.data` list. */
  datatype Admin = Admin(id: string, name: string, profileType: string)

  /** One entry of a venue's `events.data` list; `admins` is `admins.data`. */
  datatype EventPayload = EventPayload(
    id: string, name: string, kind: string,
    cover: Option<Cover>, picture: Option<Picture>,
    description: Option<string>, startTime: Option<string>, endTime: Option<string>,
    attendingCount: int, declinedCount: int, maybeCount: int, noreplyCount: int,
    admins: Option<seq<Admin>>)

  /** The payload of one venue id in a batched lookup; `events` is `events.data`. */
  datatype VenuePayload = VenuePayload(
    name: string, about: Option<string>, categories: Option<seq<Category>>,
    link: Option<string>, username: Option<string>, emails: Option<seq<string>>,
    cover: Option<Cover>, picture: Option<Picture>,
    location: Option<Location>, events: Option<seq<EventPayload>>)

  /** One parsed response body: its (venue id, payload) properties in the order
      in which the object enumerates them. */
  type Response = seq<(string, VenuePayload)>

  /** The event list of a payload, empty when the payload has none. */
  function EventList(v: VenuePayload): seq<EventPayload>
  {
    if v.events.Some? then v.events.value else []
  }

  /** The admin list of an event, empty when the event has none. */
  function AdminList(e: EventPayload): seq<Admin>
  {
    if e.admins.Some? then e.admins.value else []
  }

  /** The event claims `venueId` as one of its admins. */
  predicate Admits(e: EventPayload, venueId: string)
  {
    exists a | a in AdminList(e) :: a.id == venueId
  }

  datatype Stats = Stats(attending: int, declined: int, maybe: int, noreply: int)

  /** The venue snapshot stored in an event record. */
  datatype VenueRecord = VenueRecord(
    id: string, name: string, about: Option<string>, categories: Option<seq<Category>>,
    link: Option<string>, username: Option<string>, emails: Option<seq<string>>,
    coverPicture: Option<string>, profilePicture: Option<string>, location: Option<Location>)

  /** One element of the search result's `events` list. */
  datatype EventRecord = EventRecord(
    id: string, name: string, kind: string,
    coverPicture: Option<string>, profilePicture: Option<string>,
    description: Option<string>, startTime: Option<string>, endTime: Option<string>,
    stats: Stats, venue: VenueRecord)

  function CoverSource(c: Option<Cover>): Option<string>
  {
    if c.Some? then Some(c.value.source) else None
  }

  function PictureUrl(p: Option<Picture>): Option<string>
  {
    if p.Some? then Some(p.value.url) else None
  }

  /** `x ? x : null`: the output is the input when it is a non-empty text and
      null otherwise. */
  predicate NullIfEmpty(out: Option<string>, x: Option<string>)
  {
    (out.Some? <==> Truthy(x)) && (out.Some? ==> out == x)
  }

  /** The denormalised record of `ev` attributed to `venueId`, whose payload
      (location possibly back-filled) is `venue`. */
  function BuildRecord(ev: EventPayload, venueId: string, venue: VenuePayload): (r: EventRecord)
    ensures r.id == ev.id && r.venue.id == venueId
    ensures r.venue.location == venue.location
    ensures NullIfEmpty(r.description, ev.description)
    ensures NullIfEmpty(r.startTime, ev.startTime) && NullIfEmpty(r.endTime, ev.endTime)
    ensures NullIfEmpty(r.venue.about, venue.about)
    ensures NullIfEmpty(r.venue.link, venue.link) && NullIfEmpty(r.venue.username, venue.username)
    ensures r.coverPicture.Some? <==> ev.cover.Some?
    ensures r.profilePicture.Some? <==> ev.picture.Some?
  {
    EventRecord(
      ev.id, ev.name, ev.kind,
      CoverSource(ev.cover), PictureUrl(ev.picture),
      OrNull(ev.description), OrNull(ev.startTime), OrNull(ev.endTime),
      Stats(ev.attendingCount, ev.declinedCount, ev.maybeCount, ev.noreplyCount),
      VenueRecord(
        venueId, venue.name, OrNull(venue.about), venue.categories,
        OrNull(venue.link), OrNull(venue.username), venue.emails,
        CoverSource(venue.cover), PictureUrl(venue.picture), venue.location))
  }
}
