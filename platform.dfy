/** What the components get from, and hand to, the browser: the outcome of a
    geolocation request, the outcome of a `fetch`, the requests the
    components send, `URLSearchParams.set`, and the backend base URL read
    from the build environment. These stand in for `navigator.geolocation`,
    `fetch`, `res.json()` and `import.meta.env`, which are not modelled. */
module Platform {
  import opened Js

  /** One `navigator.geolocation.getCurrentPosition` call as seen by its
      caller: no `geolocation` in `navigator`, the success callback with a
      position, or the error callback (denied, unavailable or timed out). */
  datatype Geolocation = Unsupported | Located(latitude: real, longitude: real) | Failed

  /** A `fetch` followed by `res.json()` whose status is never looked at:
      either a body was parsed (whatever the status), or one of the two
      promises rejected. */
  datatype Fetched<T> = Received(body: T) | Rejected

  /** A `fetch` whose caller checks `res.ok`: an ok response with its parsed
      body, a response that is not ok, or an exception with its message. */
  datatype Response<T> = Ok(data: T) | NotOk | Threw(message: string)

  /** A location pair as the components keep it: both start out `null`. */
  datatype Coords = Coords(lat: Number, lng: Number)

  const NoCoords := Coords(None, None)

  /** `coords.lat && coords.lng`: a latitude or longitude of 0 counts as no location. */
  predicate HasLocation(c: Coords) {
    Truthy(c.lat) && Truthy(c.lng)
  }

  /** The coordinates a geolocation success callback stores. */
  function PositionCoords(g: Geolocation): Coords
    requires g.Located?
  {
    Coords(Some(g.latitude), Some(g.longitude))
  }

  datatype Verb = Get | Post

  /** A file picked in an `<input type="file">`. */
  datatype File = File(name: string)

  datatype Body = NoBody | Json(members: Object) | Multipart(field: string, file: File)

  /** Query parameters, in the order `URLSearchParams` keeps them. */
  type Query = seq<(string, Value)>

  /** One request handed to `fetch`: the URL is `baseUrl + path`, and for
      `/api/clips` always followed by `?` and the serialised query, empty or
      not. */
  datatype Request = Request(verb: Verb, baseUrl: string, path: string, query: Query, body: Body)

  /** `q` without any pair named `name`. */
  function RemoveParam(q: Query, name: string): (r: Query)
    ensures |r| <= |q|
  {
    if q == [] then []
    else if q[0].0 == name then RemoveParam(q[1..], name)
    else [q[0]] + RemoveParam(q[1..], name)
  }

  /** `params.set(name, v)`: the first pair named `name` gets the value `v`
      and the other pairs with that name are removed; without such a pair,
      a new one is appended. */
  function SetParam(q: Query, name: string, v: Value): Query
  {
    if q == [] then [(name, v)]
    else if q[0].0 == name then [(name, v)] + RemoveParam(q[1..], name)
    else [q[0]] + SetParam(q[1..], name, v)
  }

  lemma {:induction false} RemoveParamLookup(q: Query, name: string, k: string)
    ensures Lookup(RemoveParam(q, name), k) == if k == name then None else Lookup(q, k)
  {
    if q != [] {
      RemoveParamLookup(q[1..], name, k);
    }
  }

  /** After `params.set(name, v)`, `params.get(name)` is `v` and every other
      name reads as before. */
  lemma {:induction false} SetParamLookup(q: Query, name: string, v: Value, k: string)
    ensures Lookup(SetParam(q, name, v), k) == if k == name then Some(v) else Lookup(q, k)
  {
    if q != [] {
      if q[0].0 == name {
        RemoveParamLookup(q[1..], name, k);
      } else {
        SetParamLookup(q[1..], name, v, k);
      }
    }
  }

  /** `params.set` on a name not yet present appends the pair. */
  lemma {:induction false} SetParamFresh(q: Query, name: string, v: Value)
    requires forall i :: 0 <= i < |q| ==> q[i].0 != name
    ensures SetParam(q, name, v) == q + [(name, v)]
  {
    if q != [] {
      SetParamFresh(q[1..], name, v);
    }
  }

  const DefaultBackendUrl := "http://localhost:8000"

  /** `import.meta.env.VITE_BACKEND_URL || 'http://localhost:8000'`: the
      environment value unless it is unset or empty. */
  function BaseUrl(env: Option<string>): (r: string)
    ensures r != ""
    ensures r == DefaultBackendUrl || env == Some(r)
    ensures env == Some(r) <==> env.Some? && env.value != ""
  {
    if env.Some? && env.value != "" then env.value else DefaultBackendUrl
  }
}
