/** The feed state of the top-level `App` component (src/App.jsx): the list
    of clips, the coordinates obtained at start-up, the query chosen from
    those coordinates, and the list updates after a fetch, a creation and a
    like. */
module App {
  import opened Js
  import opened Platform

  /** A clip as the backend returns it; the feed only looks at `id`. */
  datatype Clip = Clip(id: string, caption: string, videoUrl: string, placeName: Option<string>, likeCount: int)

  const RadiusKm := "25"

  /** The parameters `fetchClips(lat, lng)` sends: `lat`, `lng` and
      `radiusKm` when both coordinates are truthy, none otherwise. */
  function NearbyQuery(lat: Number, lng: Number): Query
  {
    if Truthy(lat) && Truthy(lng) then
      [("lat", Num(lat.value)), ("lng", Num(lng.value)), ("radiusKm", Str(RadiusKm))]
    else []
  }

  /** The parameter list of `fetchClips`, built by successive `params.set` calls. */
  method ClipQueryParams(lat: Number, lng: Number) returns (params: Query)
    ensures params == NearbyQuery(lat, lng)
  {
    params := [];
    if Truthy(lat) && Truthy(lng) {
      params := SetParam(params, "lat", Num(lat.value));
      assert "lat" != "lng" by { assert "lat"[1] != "lng"[1]; }
      SetParamFresh(params, "lng", Num(lng.value));
      params := SetParam(params, "lng", Num(lng.value));
      assert "radiusKm" !in {"lat", "lng"} by { assert |"radiusKm"| != 3; }
      SetParamFresh(params, "radiusKm", Str(RadiusKm));
      params := SetParam(params, "radiusKm", Str(RadiusKm));
    }
  }

  /** The query is filtered exactly when both coordinates are truthy, and
      then reads back the coordinates and a 25 km radius. */
  lemma NearbyQueryFiltered(lat: Number, lng: Number)
    ensures NearbyQuery(lat, lng) != [] <==> Truthy(lat) && Truthy(lng)
    ensures NearbyQuery(lat, lng) != [] ==>
      Lookup(NearbyQuery(lat, lng), "lat") == Some(Num(lat.value)) &&
      Lookup(NearbyQuery(lat, lng), "lng") == Some(Num(lng.value)) &&
      Lookup(NearbyQuery(lat, lng), "radiusKm") == Some(Str(RadiusKm))
  {
    assert "lat" != "lng" by { assert "lat"[1] != "lng"[1]; }
    assert "radiusKm" != "lat" && "radiusKm" != "lng" by { assert |"radiusKm"| != 3; }
    var q := NearbyQuery(lat, lng);
    if q != [] {
      assert Lookup(q, "radiusKm") == Lookup(q[1..], "radiusKm") == Lookup(q[1..][1..], "radiusKm");
    }
  }

  /** A position on the equator or on the prime meridian gives the unfiltered query. */
  lemma ZeroCoordinateUnfiltered(lat: real, lng: real)
    requires lat == 0.0 || lng == 0.0
    ensures NearbyQuery(Some(lat), Some(lng)) == []
  {
  }

  /** `prev.map((c) => (c.id === id ? updated : c))`. */
  function ReplaceById(s: seq<Clip>, id: string, updated: Clip): (r: seq<Clip>)
    ensures |r| == |s|
    ensures forall i :: 0 <= i < |s| && s[i].id == id ==> r[i] == updated
    ensures forall i :: 0 <= i < |s| && s[i].id != id ==> r[i] == s[i]
  {
    if s == [] then []
    else [if s[0].id == id then updated else s[0]] + ReplaceById(s[1..], id, updated)
  }

  /** A like whose id matches no clip leaves the list as it was. */
  lemma ReplaceByIdNoMatch(s: seq<Clip>, id: string, updated: Clip)
    requires forall i :: 0 <= i < |s| ==> s[i].id != id
    ensures ReplaceById(s, id, updated) == s
  {
  }

  function Ids(s: seq<Clip>): (r: seq<string>)
    ensures |r| == |s| && forall i :: 0 <= i < |s| ==> r[i] == s[i].id
  {
    seq(|s|, i requires 0 <= i < |s| => s[i].id)
  }

  /** When the server echoes the liked id, the feed keeps its ids in the same order. */
  lemma ReplaceByIdKeepsIds(s: seq<Clip>, id: string, updated: Clip)
    requires updated.id == id
    ensures Ids(ReplaceById(s, id, updated)) == Ids(s)
  {
  }

  /** Applying the same like response twice is the same as applying it once. */
  lemma ReplaceByIdIdempotent(s: seq<Clip>, id: string, updated: Clip)
    ensures ReplaceById(ReplaceById(s, id, updated), id, updated) == ReplaceById(s, id, updated)
  {
  }

  /** The coordinates the start-up effect passes to `fetchClips`: the position on success, none otherwise. */
  function StartupCoords(g: Geolocation): (c: Coords)
    ensures g.Located? <==> c != NoCoords
    ensures g.Located? ==> c == PositionCoords(g)
  {
    if g.Located? then PositionCoords(g) else NoCoords
  }

  function ClipsRequest(baseUrl: string, q: Query): Request {
    Request(Get, baseUrl, "/api/clips", q, NoBody)
  }

  function LikeRequest(baseUrl: string, id: string): Request {
    Request(Post, baseUrl, "/api/clips/" + id + "/like", [], NoBody)
  }

  class Feed {
    /** `import.meta.env.VITE_BACKEND_URL`, read on every call. */
    const env: Option<string>
    var clips: seq<Clip>
    var coords: Coords
    /** Every request handed to `fetch`, oldest first. */
    var requests: seq<Request>

    constructor (env: Option<string>)
      ensures this.env == env
      ensures clips == [] && coords == NoCoords && requests == []
    {
      this.env := env;
      clips := [];
      coords := NoCoords;
      requests := [];
    }

    /** `fetchClips(lat, lng)`: one GET with the chosen parameters; a parsed
        body replaces the list, whatever the status; a rejection (no
        `catch`) leaves it. */
    method FetchClips(lat: Number, lng: Number, fetched: Fetched<seq<Clip>>)
      modifies this
      ensures requests == old(requests) + [ClipsRequest(BaseUrl(env), NearbyQuery(lat, lng))]
      ensures clips == if fetched.Received? then fetched.body else old(clips)
      ensures coords == old(coords)
    {
      var params := ClipQueryParams(lat, lng);
      requests := requests + [ClipsRequest(BaseUrl(env), params)];
      if fetched.Received? {
        clips := fetched.body;
      }
    }

    /** The mount effect: exactly one fetch, with the coordinates on a
        geolocation success and without any otherwise; `coords` is set only
        in the success callback. */
    method Init(geo: Geolocation, fetched: Fetched<seq<Clip>>)
      modifies this
      ensures |requests| == |old(requests)| + 1
      ensures requests == old(requests) +
        [ClipsRequest(BaseUrl(env), NearbyQuery(StartupCoords(geo).lat, StartupCoords(geo).lng))]
      ensures coords == if geo.Located? then PositionCoords(geo) else old(coords)
      ensures clips == if fetched.Received? then fetched.body else old(clips)
    {
      match geo
      case Unsupported =>
        FetchClips(None, None, fetched);
      case Located(latitude, longitude) =>
        coords := Coords(Some(latitude), Some(longitude));
        FetchClips(Some(latitude), Some(longitude), fetched);
      case Failed =>
        FetchClips(None, None, fetched);
    }

    /** `handleCreated(clip)`: the new clip goes first, the rest is kept. */
    method HandleCreated(clip: Clip)
      modifies this`clips
      ensures clips == [clip] + old(clips)
      ensures |clips| == |old(clips)| + 1 && clips[0] == clip && clips[1..] == old(clips)
    {
      clips := [clip] + clips;
    }

    /** `handleLike(id)`: one POST; only an ok response replaces the clips
        with that id; a response that is not ok or an exception is ignored. */
    method HandleLike(id: string, response: Response<Clip>)
      modifies this`clips, this`requests
      ensures requests == old(requests) + [LikeRequest(BaseUrl(env), id)]
      ensures clips == if response.Ok? then ReplaceById(old(clips), id, response.data) else old(clips)
      ensures |clips| == |old(clips)|
    {
      requests := requests + [LikeRequest(BaseUrl(env), id)];
      if response.Ok? {
        clips := ReplaceById(clips, id, response.data);
      }
    }
  }
}
