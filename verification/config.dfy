/** The option normalisation of the `EventSearch` constructor (lib/eventSearch.js:10-33). */
module Config {
  import opened Wrappers
  import opened Graph

  /** The caller's options object; a missing field is `None`. */
  datatype Options = Options(
    lat: Option<real>, lng: Option<real>, distance: Option<real>,
    accessToken: Option<string>, query: Option<string>, sort: Option<string>,
    version: Option<string>)

  /** The normalised, read-only fields of a search object. */
  datatype Settings = Settings(
    latitude: Option<real>, longitude: Option<real>, distance: real,
    accessToken: Option<string>, query: string, sort: Option<string>,
    version: string, currentTimestamp: string)

  const AllowedSorts: seq<string> := ["time", "distance", "venue", "popularity"]
  const DefaultDistance: real := 100.0
  const DefaultVersion: string := "v2.8"

  /** JavaScript truthiness of an optional number (NaN is not modelled). */
  predicate TruthyNumber(x: Option<real>)
  {
    x.Some? && x.value != 0.0
  }

  /** Lower-cases the ASCII letters `A`-`Z`. */
  function LowerChar(c: char): char
  {
    if 'A' <= c <= 'Z' then (c as int + 32) as char else c
  }

  function Lower(s: string): string
  {
    seq(|s|, i requires 0 <= i < |s| => LowerChar(s[i]))
  }

  /** `x || null` for a coordinate. */
  function CoordinateOrNull(x: Option<real>): Option<real>
  {
    if TruthyNumber(x) then x else None
  }

  /** `sort ? (whitelisted(lower(sort)) ? lower(sort) : null) : null` */
  function SortOf(sort: Option<string>): Option<string>
  {
    if Truthy(sort) && Lower(sort.value) in AllowedSorts then Some(Lower(sort.value)) else None
  }

  /** The token from the options, else a non-empty environment value, else null. */
  function TokenOf(optionToken: Option<string>, envToken: Option<string>): Option<string>
  {
    if Truthy(optionToken) then optionToken
    else if Truthy(envToken) then envToken
    else None
  }

  /** The constructor's field initialisation; `encode` stands for
      `encodeURIComponent`, `envToken` for the `FEBL_ACCESS_TOKEN` variable. */
  function Normalize(o: Options, envToken: Option<string>, encode: string -> string,
                     currentTimestamp: string): (s: Settings)
    ensures s.latitude.Some? <==> TruthyNumber(o.lat)
    ensures s.longitude.Some? <==> TruthyNumber(o.lng)
    ensures s.latitude.Some? ==> s.latitude == o.lat
    ensures s.longitude.Some? ==> s.longitude == o.lng
    ensures s.distance != 0.0 && (TruthyNumber(o.distance) ==> s.distance == o.distance.value)
    ensures !TruthyNumber(o.distance) ==> s.distance == DefaultDistance
    ensures s.accessToken.Some? ==> s.accessToken.value != ""
    ensures Truthy(o.accessToken) ==> s.accessToken == o.accessToken
    ensures !Truthy(o.accessToken) && Truthy(envToken) ==> s.accessToken == envToken
    ensures s.accessToken.None? <==> !Truthy(o.accessToken) && !Truthy(envToken)
    ensures s.query == if Truthy(o.query) then encode(o.query.value) else ""
    ensures s.sort.Some? ==> s.sort.value in AllowedSorts && o.sort.Some? && s.sort.value == Lower(o.sort.value)
    ensures s.sort.Some? <==> Truthy(o.sort) && Lower(o.sort.value) in AllowedSorts
    ensures s.version != "" && (Truthy(o.version) ==> s.version == o.version.value)
    ensures !Truthy(o.version) ==> s.version == DefaultVersion
    ensures s.currentTimestamp == currentTimestamp
  {
    Settings(
      CoordinateOrNull(o.lat), CoordinateOrNull(o.lng),
      if TruthyNumber(o.distance) then o.distance.value else DefaultDistance,
      TokenOf(o.accessToken, envToken),
      if Truthy(o.query) then encode(o.query.value) else "",
      SortOf(o.sort),
      if Truthy(o.version) then o.version.value else DefaultVersion,
      currentTimestamp)
  }

  lemma {:induction false} LowerIdempotent(s: string)
    ensures Lower(Lower(s)) == Lower(s)
  {
    forall i | 0 <= i < |s| ensures Lower(Lower(s))[i] == Lower(s)[i] {
      var c := s[i];
      if 'A' <= c <= 'Z' {
        assert 'a' <= LowerChar(c) <= 'z';
      }
    }
  }

  /** The sort whitelist is case-insensitive: a value and its lower-case form
      normalise to the same sort. */
  lemma {:induction false} SortCaseInsensitive(o: Options, envToken: Option<string>,
                                               encode: string -> string, ts: string, sort: string)
    ensures Normalize(o.(sort := Some(sort)), envToken, encode, ts).sort
         == Normalize(o.(sort := Some(Lower(sort))), envToken, encode, ts).sort
  {
    LowerIdempotent(sort);
    assert |Lower(sort)| == |sort|;
  }
}
