/** The `Composer` form (src/components/Composer.jsx): three text fields,
    coordinates captured when the form opens, the payload of a new clip, and
    `submit`, which posts it and hands the created clip to `onCreated`. */
module Composer {
  import opened Js
  import opened Platform
  import App
  import Uploader

  const CreatePath := "/api/clips"
  const CreateFailed := "Failed to create"

  /** The object literal `submit` posts, with its members in source order. */
  function CreatePayload(caption: string, videoUrl: string, coords: Coords, placeName: string): (o: Object)
    ensures |o| == 5 && DistinctKeys(o)
  {
    var o := [("caption", Str(caption)), ("video_url", Str(videoUrl)),
              ("location_lat", NumberValue(coords.lat)), ("location_lng", NumberValue(coords.lng)),
              ("place_name", OrUndefined(placeName))];
    assert DistinctKeys(o) by {
      assert |"caption"| == 7 && |"video_url"| == 9 && |"place_name"| == 10;
      assert |"location_lat"| == 12 && |"location_lng"| == 12;
      assert "location_lat"[10] != "location_lng"[10];
    }
    o
  }

  /** What the backend receives: caption, video URL and both coordinates
      always (a coordinate never obtained is `null`), and `place_name` only
      when the place name is not empty. */
  lemma CreatePayloadSent(caption: string, videoUrl: string, coords: Coords, placeName: string)
    ensures var sent := Stringified(CreatePayload(caption, videoUrl, coords, placeName));
      Lookup(sent, "caption") == Some(Str(caption)) &&
      Lookup(sent, "video_url") == Some(Str(videoUrl)) &&
      Lookup(sent, "location_lat") == Some(NumberValue(coords.lat)) &&
      Lookup(sent, "location_lng") == Some(NumberValue(coords.lng)) &&
      Lookup(sent, "place_name") == if placeName == "" then None else Some(Str(placeName))
  {
    var o := CreatePayload(caption, videoUrl, coords, placeName);
    assert o[0].0 == "caption" && o[1].0 == "video_url" && o[2].0 == "location_lat";
    assert o[3].0 == "location_lng" && o[4].0 == "place_name";
    StringifiedLookup(o, "caption");
    StringifiedLookup(o, "video_url");
    StringifiedLookup(o, "location_lat");
    StringifiedLookup(o, "location_lng");
    StringifiedLookup(o, "place_name");
    forall k | k in {"caption", "video_url", "location_lat", "location_lng", "place_name"}
      ensures Lookup(o, k) == Some(o[KeyIndex(k)].1)
    {
      LookupAt(o, KeyIndex(k));
    }
  }

  function KeyIndex(k: string): nat {
    if k == "caption" then 0
    else if k == "video_url" then 1
    else if k == "location_lat" then 2
    else if k == "location_lng" then 3
    else 4
  }

  lemma {:induction false} LookupAt(o: Object, i: nat)
    requires DistinctKeys(o) && i < |o|
    ensures Lookup(o, o[i].0) == Some(o[i].1)
  {
    if i > 0 {
      var rest := o[1..];
      assert DistinctKeys(rest) by {
        forall p, q | 0 <= p < q < |rest| ensures rest[p].0 != rest[q].0 {
          assert rest[p] == o[p + 1] && rest[q] == o[q + 1];
        }
      }
      assert rest[i - 1] == o[i];
      LookupAt(rest, i - 1);
    }
  }

  /** "Attaching location" is shown exactly when `HasLocation` holds, so a
      position at latitude or longitude 0 is shown as no location. */
  lemma ZeroIsNoLocation(lat: real, lng: real)
    requires lat == 0.0 || lng == 0.0
    ensures !HasLocation(Coords(Some(lat), Some(lng)))
    ensures !HasLocation(NoCoords)
  {
  }

  /** The `required` caption and video URL inputs: the browser fires no
      submit event while either is empty. */
  predicate FormComplete(caption: string, videoUrl: string) {
    caption != "" && videoUrl != ""
  }

  /** A call the form makes into its parent. */
  datatype ParentCall = Created(clip: App.Clip) | Closed

  function CreateRequest(baseUrl: string, payload: Object): Request {
    Request(Post, baseUrl, CreatePath, [], Json(Stringified(payload)))
  }

  class ComposerForm {
    const baseUrl: string
    /** The `open` prop. */
    var open: bool
    var caption: string
    var videoUrl: string
    var placeName: string
    var coords: Coords
    var loading: bool
    /** Every request handed to `fetch`, oldest first. */
    var requests: seq<Request>
    /** Every call of `onCreated` and `onClose`, oldest first. */
    var events: seq<ParentCall>
    /** Every message shown with `alert`, oldest first. */
    var alerts: seq<string>

    /** Mounting: empty fields, no coordinates, then the location effect's first run. */
    constructor (env: Option<string>, open: bool, geo: Geolocation)
      ensures baseUrl == BaseUrl(env) && this.open == open
      ensures caption == "" && videoUrl == "" && placeName == "" && !loading
      ensures coords == if open && geo.Located? then PositionCoords(geo) else NoCoords
      ensures requests == [] && events == [] && alerts == []
    {
      baseUrl := BaseUrl(env);
      this.open := open;
      caption, videoUrl, placeName := "", "", "";
      coords := NoCoords;
      loading := false;
      requests, events, alerts := [], [], [];
      new;
      LocationEffect(geo);
    }

    /** The effect on `open`: while open, a geolocation success stores the
        position; a closed form, a missing `geolocation` or the error
        callback change nothing. */
    method LocationEffect(geo: Geolocation)
      modifies this`coords
      ensures coords == if open && geo.Located? then PositionCoords(geo) else old(coords)
    {
      if !open {
        return;
      }
      match geo {
        case Unsupported =>
        case Located(latitude, longitude) =>
          coords := Coords(Some(latitude), Some(longitude));
        case Failed =>
      }
    }

    /** A new `open` prop; the effect runs again only when it changed. */
    method SetOpen(o: bool, geo: Geolocation)
      modifies this`open, this`coords
      ensures open == o
      ensures coords == if o != old(open) && o && geo.Located? then PositionCoords(geo) else old(coords)
    {
      if o != open {
        open := o;
        LocationEffect(geo);
      }
    }

    method SetCaption(s: string)
      modifies this`caption
      ensures caption == s
    {
      caption := s;
    }

    /** The video URL input's `onChange`, and the uploader's `onUploaded`. */
    method SetVideoUrl(s: string)
      modifies this`videoUrl
      ensures videoUrl == s
    {
      videoUrl := s;
    }

    method SetPlaceName(s: string)
      modifies this`placeName
      ensures placeName == s
    {
      placeName := s;
    }

    /** `submit`: one POST of the payload; on an ok response `onCreated`
        then `onClose`, then the three fields are reset; on any failure an
        alert and every field kept; `coords` is never touched and `loading`
        is false at the end. An incomplete form is not submitted. */
    method Submit(response: Response<App.Clip>)
      modifies this`caption, this`videoUrl, this`placeName, this`loading, this`requests, this`events, this`alerts
      ensures !FormComplete(old(caption), old(videoUrl)) ==>
        caption == old(caption) && videoUrl == old(videoUrl) && placeName == old(placeName) &&
        loading == old(loading) && requests == old(requests) && events == old(events) && alerts == old(alerts)
      ensures FormComplete(old(caption), old(videoUrl)) ==>
        !loading &&
        requests == old(requests) +
          [CreateRequest(baseUrl, CreatePayload(old(caption), old(videoUrl), coords, old(placeName)))] &&
        (response.Ok? ==>
          events == old(events) + [Created(response.data), Closed] && alerts == old(alerts) &&
          caption == "" && videoUrl == "" && placeName == "") &&
        (!response.Ok? ==>
          events == old(events) && alerts == old(alerts) + [if response.NotOk? then CreateFailed else response.message] &&
          caption == old(caption) && videoUrl == old(videoUrl) && placeName == old(placeName))
    {
      if !FormComplete(caption, videoUrl) {
        return;
      }
      loading := true;
      var payload := CreatePayload(caption, videoUrl, coords, placeName);
      requests := requests + [CreateRequest(baseUrl, payload)];
      match response {
        case Ok(data) =>
          events := events + [Created(data)];
          events := events + [Closed];
          caption, videoUrl, placeName := "", "", "";
        case NotOk =>
          alerts := alerts + [CreateFailed];
        case Threw(m) =>
          alerts := alerts + [m];
      }
      loading := false;
    }

    /** A click on the Upload button of the `Uploader` rendered inside the
        form (`up`). The button has no `type`, so besides running `upload()`
        it submits the form, which the browser does only when the required
        fields are filled. The posted clip carries the video URL from before
        the upload. The post is taken to complete first, so `onUploaded`
        then writes the uploaded URL into the (possibly reset) form. */
    method ClickUpload(up: Uploader.UploadForm, uploadResponse: Response<string>, response: Response<App.Clip>)
      requires up.file.Some? && !up.loading
      modifies this`caption, this`videoUrl, this`placeName, this`loading, this`requests, this`events, this`alerts
      modifies up`loading, up`requests, up`uploaded, up`alerts
      ensures var complete := FormComplete(old(caption), old(videoUrl));
        var created := complete && response.Ok?;
        requests == old(requests) +
          (if complete then [CreateRequest(baseUrl, CreatePayload(old(caption), old(videoUrl), coords, old(placeName)))] else []) &&
        events == old(events) + (if created then [Created(response.data), Closed] else []) &&
        alerts == old(alerts) +
          (if complete && !response.Ok? then [if response.NotOk? then CreateFailed else response.message] else []) &&
        caption == (if created then "" else old(caption)) &&
        placeName == (if created then "" else old(placeName)) &&
        videoUrl == (if uploadResponse.Ok? then Uploader.AbsoluteUrl(up.baseUrl, uploadResponse.data)
                     else if created then "" else old(videoUrl)) &&
        loading == (if complete then false else old(loading))
      ensures !up.loading
      ensures up.requests == old(up.requests) + [Uploader.UploadRequest(up.baseUrl, up.file.value)]
      ensures up.uploaded == old(up.uploaded) +
        (if uploadResponse.Ok? then [Uploader.AbsoluteUrl(up.baseUrl, uploadResponse.data)] else [])
      ensures up.alerts == old(up.alerts) + match uploadResponse {
        case Ok(_) => []
        case NotOk => [Uploader.UploadFailed]
        case Threw(m) => [m]
      }
    {
      Submit(response);
      up.Upload(uploadResponse);
      if uploadResponse.Ok? {
        SetVideoUrl(Uploader.AbsoluteUrl(up.baseUrl, uploadResponse.data));
      }
    }
  }
}
