# Clip feed client: a Dafny model of its state rules

The client is a small React app. Its top-level `App` shows a feed of
short video clips near the user and lets the user post a clip (with an
optional file upload) and like it. The repository also contains a
`Comments` panel for one clip and a pannable `MapView` viewport, but the
`App` in src/App.jsx mounts neither of them: it renders only `Header`,
`ClipCard` and `Composer`. Both are modelled as the components they are.
This project models the parts of the client that are rules rather than
rendering:

- **Feed** (`App`): the query parameters chosen from the coordinates, the
  single fetch at start-up, and the list updates after a fetch, a new clip
  and a like.
- **Viewport** (`MapView`): the half-extent from the zoom, the bounds around
  the center, the zoom clamps, the pan steps, and the bounds reports.
- **Upload** (`Uploader`): the no-file guard, the default base URL, and
  turning the returned URL into an absolute one.
- **Clip form** (`Composer`): the coordinates captured on open, the payload,
  and what `submit` does on success and on failure.
- **Comments** (`Comments`): the whitespace guard, the optional author, and
  the re-fetch after posting.

Each component whose state React updates is a class. React state is a
field. Each handler or effect is one method that runs as a single step.
What the browser gives back is a parameter of that method: the geolocation
outcome (`Platform.Geolocation`), the fetch outcome (`Platform.Fetched`
when the status is never looked at, `Platform.Response` when `res.ok` is
checked), and `import.meta.env.VITE_BACKEND_URL`. What a component sends
out is appended to a log field: requests passed to `fetch`, `alert`
messages, calls of `onCreated`/`onClose`, and bounds passed to
`onSelectBounds`. Numbers are exact `real`s, and a nullable number is
`Js.Option<real>`. The pure parts (`JSON.stringify` dropping `undefined`
members, `URLSearchParams.set`, `String.prototype.trim`, `startsWith`) are
functions, with lemmas proving what the components rely on.

Some behaviour of the code worth knowing before reading the model:
- The feed query is chosen only from the start-up coordinates. No bounds
  from `MapView` feed it, since `App.jsx` never mounts `MapView`.
- A failed clips fetch does not clear the list. It leaves the list as it
  was, because nothing catches the rejection.
- A response that is not ok still replaces the list if its body parses,
  because `fetchClips` never checks `res.ok`.
- `fetchClips` always puts `?` after `/api/clips`, even with no parameters.
- A new `clipId` makes `Comments` fetch again, and a failed fetch then
  leaves the previous clip's comments in the list.
- The Upload button inside the clip form has no `type`, so a click on it
  also submits the form. If caption and video URL are filled, the clip is
  posted with the video URL from before the upload. When that post
  succeeds and completes before the upload, the form is reset and the
  uploaded URL then lands in the emptied video URL field.
- The pan step moves latitude by `dy * delta.lat` only. Longitude moves by
  `dx * delta.lng`.

## Model

| member | source | states |
|---|---|---|
| `Js.NumberValue` | src/components/Composer.jsx:31-32 | a coordinate never obtained goes into the payload as `null`, and a present one as its number |
| `Js.Truthy` | src/App.jsx:29 | a number used as a condition is true exactly when it is present and not 0; `null`, `undefined` and 0 are falsy |
| `Js.OrUndefined` | src/components/Composer.jsx:33 | a string falls back to `undefined` exactly when it is empty, and is kept as itself otherwise |
| `Js.Stringified` | src/components/Composer.jsx:38 | `JSON.stringify` writes only members of the object, never an `undefined` one, and no more of them than there are |
| `Js.StringifiedLookup` | src/components/Composer.jsx:38 | for an object with distinct keys, reading a member of what is written gives the original member, or nothing where that member was `undefined` |
| `Js.Trim` | src/components/Comments.jsx:26 | `trim()` strips leading then trailing whitespace; `TrimStart` never leaves a whitespace first character and `TrimEnd` never a whitespace last one, and each result is a suffix or prefix of its input whose removed characters are all whitespace |
| `Js.TrimEmptyIffBlank` | src/components/Comments.jsx:26 | `text.trim()` is empty exactly when every character of `text` is ECMAScript whitespace or a line terminator |
| `Platform.HasLocation` | src/components/Composer.jsx:94 | `coords.lat && coords.lng`: both coordinates truthy, so a 0 or a missing coordinate counts as no location (`Composer.ZeroIsNoLocation`) |
| `Platform.SetParam` | src/App.jsx:30-32 | `URLSearchParams.set`: its read-back is `Platform.SetParamLookup`, and on a new name `Platform.SetParamFresh` |
| `Platform.SetParamLookup` | src/App.jsx:30-32 | after `params.set(name, v)`, reading `name` gives `v`, and every other name reads as before |
| `Platform.SetParamFresh` | src/App.jsx:30-32 | `params.set` on a name not yet present appends the pair at the end |
| `Platform.BaseUrl` | src/components/Uploader.jsx:6 | the base URL is never empty. It is the environment value exactly when that value is set and non-empty, and `http://localhost:8000` otherwise |
| `App.NearbyQuery` | src/App.jsx:29-33 | the parameter list of `fetchClips`, filtered exactly when both coordinates are truthy (`App.NearbyQueryFiltered`), and equal to what the successive `set` calls build (`App.ClipQueryParams`) |
| `App.ClipQueryParams` | src/App.jsx:28-33 | the successive `params.set` calls give `lat`, `lng`, `radiusKm="25"` in that order when both coordinates are truthy, and no parameters otherwise |
| `App.NearbyQueryFiltered` | src/App.jsx:29-33 | the query is filtered if and only if both coordinates are truthy. When filtered, it reads back the two coordinates and the 25 km radius |
| `App.ZeroCoordinateUnfiltered` | src/App.jsx:29 | a position with latitude 0 or longitude 0 gives the unfiltered query |
| `App.ReplaceById` | src/App.jsx:49 | the list keeps its length. Every clip whose `id` is the liked id becomes the server's clip, and every other clip stays where it was |
| `App.ReplaceByIdNoMatch` | src/App.jsx:49 | a like whose id matches no clip leaves the list unchanged, even on success |
| `App.ReplaceByIdKeepsIds` | src/App.jsx:49 | when the server's clip carries the liked id, the list of ids is unchanged |
| `App.ReplaceByIdIdempotent` | src/App.jsx:49 | applying the same like response twice gives the same list as applying it once, whatever id the server's clip carries |
| `App.StartupCoords` | src/App.jsx:14-18 | start-up fetches with coordinates exactly when geolocation succeeded, and then with the position's own latitude and longitude |
| `App.Feed.constructor` | src/App.jsx:7-9 | the feed starts with no clips, null coordinates and no requests |
| `App.Feed.FetchClips` | src/App.jsx:26-37 | one GET of `/api/clips` with the chosen parameters. A parsed body replaces the list in server order, whatever the status. A rejection leaves the list unchanged. The coordinates are not touched |
| `App.Feed.Init` | src/App.jsx:11-24 | the mount effect issues exactly one fetch: with the position on success, and without coordinates on the error callback or without geolocation. `coords` changes only on success |
| `App.Feed.HandleCreated` | src/App.jsx:39-41 | the created clip is prepended: the length grows by one and the tail is the old list |
| `App.Feed.HandleLike` | src/App.jsx:43-51 | one POST to `/api/clips/{id}/like`. Only an ok response replaces the clips with that id. A response that is not ok, or an exception, leaves the list unchanged |
| `MapView.Pow2` | src/components/MapView.jsx:12 | `Math.pow(2, e)` is positive for every integer exponent |
| `MapView.Pow2Succ` | src/components/MapView.jsx:12 | raising the exponent by one doubles the power, negative exponents included |
| `MapView.DeltaAt` | src/components/MapView.jsx:10-14 | the half-extent is equal on both axes and positive, and is 0.1 at zoom 12 |
| `MapView.ZoomInHalvesDelta` | src/components/MapView.jsx:12 | one zoom step in halves the half-extent on both axes |
| `MapView.ZoomOutDoublesDelta` | src/components/MapView.jsx:12 | one zoom step out doubles it on both axes |
| `MapView.BoundsAt` | src/components/MapView.jsx:16-23 | the bounds are centred on the center: north − south = 2·delta.lat > 0, east − west = 2·delta.lng > 0, and both midpoints are the center |
| `MapView.InitialBounds` | src/components/MapView.jsx:6-23 | the initial center (37.7749, −122.4194) at zoom 12 gives north 37.8749, south 37.6749, east −122.3194, west −122.5194, with no clamping or wrapping |
| `MapView.Moved` | src/components/MapView.jsx:30 | `move(dx, dy)` on the center: reversible (`MapView.MoveReversible`), shifting the bounds with it (`MapView.MoveShiftsBounds`) |
| `MapView.MoveReversible` | src/components/MapView.jsx:29-31 | `move(dx, dy)` followed by `move(-dx, -dy)` at the same zoom restores the center |
| `MapView.MoveShiftsBounds` | src/components/MapView.jsx:16-31 | a pan step shifts north by `dy·delta.lat` and west by `dx·delta.lng` |
| `MapView.ZoomedIn` | src/components/MapView.jsx:53 | `Math.min(18, z + 1)`: within [2, 18], a no-op exactly at 18 and one step up otherwise (`MapView.ZoomStaysInRange`) |
| `MapView.ZoomedOut` | src/components/MapView.jsx:54 | `Math.max(2, z - 1)`: within [2, 18], a no-op exactly at 2 and one step down otherwise (`MapView.ZoomStaysInRange`) |
| `MapView.ZoomStaysInRange` | src/components/MapView.jsx:53-54 | from a zoom in [2, 18], both controls stay in [2, 18]. "+" is a no-op exactly at 18 and "−" exactly at 2, and otherwise each moves the zoom by one |
| `MapView.PanStep` | src/components/MapView.jsx:49-52 | each arrow passes a step of −1, 0 or 1 on each axis, non-zero on exactly one axis |
| `MapView.UpLowersLatitude` | src/components/MapView.jsx:51-52 | ▲ passes dy = −1 and lowers the latitude. ▼ raises it |
| `MapView.Viewport.constructor` | src/components/MapView.jsx:6-27 | the map opens at the initial center and zoom 12. It reports their bounds once if a listener was given |
| `MapView.Viewport.ReportBounds` | src/components/MapView.jsx:25-27 | the bounds effect hands the recomputed bounds once to `onSelectBounds`, and only when that was passed |
| `MapView.Viewport.Move` | src/components/MapView.jsx:29-31 | the center moves by `dy·delta.lat`, `dx·delta.lng` at the unchanged zoom. The new bounds are reported once |
| `MapView.Viewport.ZoomInStep` | src/components/MapView.jsx:53 | the zoom becomes `min(18, z+1)`. Bounds are reported once when the zoom changed and not at all at 18 |
| `MapView.Viewport.ZoomOutStep` | src/components/MapView.jsx:54 | the zoom becomes `max(2, z−1)`. Bounds are reported once when the zoom changed and not at all at 2 |
| `MapView.Viewport.Press` | src/components/MapView.jsx:49-54 | a zoom button leaves the center alone, and a pan button leaves the zoom alone. The last reported bounds are always those of the current center and zoom, and the zoom stays in [2, 18] |
| `Uploader.AbsoluteUrl` | src/components/Uploader.jsx:18 | the returned url made absolute; its two cases are `Uploader.AbsoluteUrlCases` and its idempotence `Uploader.AbsoluteUrlIdempotent` |
| `Uploader.AbsoluteUrlCases` | src/components/Uploader.jsx:18 | a returned url starting with "http" is used unchanged, and any other is put behind the base URL. Either way the result ends with the returned url |
| `Uploader.AbsoluteUrlIdempotent` | src/components/Uploader.jsx:18 | with an http base URL, the result starts with "http", and normalising it again changes nothing |
| `Uploader.DefaultBaseIsHttp` | src/components/Uploader.jsx:6 | the default base URL starts with "http", so idempotence holds without an environment value |
| `Uploader.UploadForm.constructor` | src/components/Uploader.jsx:4-6 | no file, not loading, and the base URL from the environment or the default |
| `Uploader.UploadForm.Choose` | src/components/Uploader.jsx:29 | the file input sets the picked file, or none |
| `Uploader.UploadForm.Upload` | src/components/Uploader.jsx:8-25 | with no file: no request, and `loading` and every log unchanged. Otherwise, one POST of the file. `onUploaded` gets the absolute URL only after an ok response. Any failure alerts ("Upload failed" or the exception's message). `loading` is false at the end |
| `Composer.CreatePayload` | src/components/Composer.jsx:28-34 | the payload literal has five distinct member names |
| `Composer.CreatePayloadSent` | src/components/Composer.jsx:28-38 | the backend always receives caption, video_url, location_lat and location_lng straight from state, with null coordinates if none were obtained. `place_name` is there exactly when the place name is not empty |
| `Composer.FormComplete` | src/components/Composer.jsx:62-80 | the browser's check of the two `required` inputs: caption and video URL both non-empty; when it fails, `Submit` posts nothing and changes no field, and `ClickUpload` sends no clip POST but still uploads and, on an ok upload, sets the video URL |
| `Composer.ZeroIsNoLocation` | src/components/Composer.jsx:94 | "attaching location" needs both coordinates truthy, so 0 or null counts as absent |
| `Composer.ComposerForm.constructor` | src/components/Composer.jsx:5-21 | empty fields and null coordinates, then the location effect's first run |
| `Composer.ComposerForm.LocationEffect` | src/components/Composer.jsx:11-21 | `coords` changes only when the form is open and geolocation succeeds. A closed form, missing geolocation and the error callback change nothing |
| `Composer.ComposerForm.SetOpen` | src/components/Composer.jsx:11-21 | the effect reruns only when `open` actually changes |
| `Composer.ComposerForm.SetCaption` | src/components/Composer.jsx:78 | the caption input sets the caption |
| `Composer.ComposerForm.SetVideoUrl` | src/components/Composer.jsx:64-70 | the URL input and the uploader's `onUploaded` set the video URL |
| `Composer.ComposerForm.SetPlaceName` | src/components/Composer.jsx:88 | the place input sets the place name |
| `Composer.ComposerForm.Submit` | src/components/Composer.jsx:23-50 | one POST of the stringified payload. On an ok response: `onCreated(data)`, then `onClose`, then caption, video URL and place name reset to "". On failure: no parent call, one alert, and every field kept. `coords` is untouched and `loading` ends false. With an empty required field, nothing happens |
| `Composer.ComposerForm.ClickUpload` | src/components/Composer.jsx:59-72 | a click on Upload inside the form also submits it: when the required fields are filled, one POST of the clip with the video URL from before the upload, with `Submit`'s outcomes; then the upload's POST, and on its ok response the uploaded URL written into the video URL field, even after the reset |
| `Comments.CommentBody` | src/components/Comments.jsx:32 | the body literal has two distinct member names |
| `Comments.CommentBodySent` | src/components/Comments.jsx:32 | the backend receives the text as typed, and `author` only when it is not empty |
| `Comments.BlankText` | src/components/Comments.jsx:26 | `!text.trim()`: holds exactly for the empty and whitespace-only texts (`Comments.BlankTextIffBlank`) |
| `Comments.BlankTextIffBlank` | src/components/Comments.jsx:26 | the guard rejects exactly the empty and whitespace-only texts |
| `Comments.CommentThread.constructor` | src/components/Comments.jsx:4-22 | empty state, then one GET of the comments whose parsed body becomes the list |
| `Comments.CommentThread.FetchComments` | src/components/Comments.jsx:10-18 | one GET. A parsed body replaces the list wholesale. A rejection is swallowed and leaves the list unchanged |
| `Comments.CommentThread.SetClipId` | src/components/Comments.jsx:20-22 | a new `clipId` issues one GET of that clip's comments, whose parsed body replaces the list; a rejection keeps the previous list. The same `clipId` changes nothing |
| `Comments.CommentThread.SetText` | src/components/Comments.jsx:74 | the text input sets the text |
| `Comments.CommentThread.SetAuthor` | src/components/Comments.jsx:67 | the name input sets the author |
| `Comments.CommentThread.Submit` | src/components/Comments.jsx:24-27 | blank text: no request and no change of any field. Otherwise the comment is posted as `Post` states. `author` is always kept |
| `Comments.CommentThread.Post` | src/components/Comments.jsx:27-41 | one POST. On ok: text cleared, then a re-fetch that replaces or keeps the list. On failure: one alert, with text and list unchanged. `author` is always kept and `loading` ends false |

## Left out

- Rendering, CSS and the OpenStreetMap iframe URL string (src/components/MapView.jsx:46) are presentation only. `Header.jsx` and `ClipCard.jsx` are not part of this model.
- The `composerOpen` flag of `App` (src/App.jsx:8, 55, 69) only shows and hides the form. The model treats the Composer's `open` as a prop set by `SetOpen`.
- `fetch`, `navigator.geolocation`, `FormData`, `alert`, `import.meta.env` and JSON parsing are platform calls. They are replaced by outcome parameters and log fields. The text form of a URL, of a query string and of a JSON body is not modelled. A request keeps its base URL, path, parameter pairs and members.
- The decimal rendering of a number by `URLSearchParams` and `toFixed(4)` (src/components/Composer.jsx:95) is not modelled. A parameter holds the number itself.
- IEEE floating point, NaN and the infinities are not modelled. Coordinates and deltas are exact reals, so the bounds example and the pan round trip hold exactly only over reals.
- A response body that parses to something other than a list is outside the model. `fetchClips` and `fetchComments` would store it as the list. So is a `url` field that is not a string.
- Overlapping requests are not modelled. Their completions can interleave, and the last `setClips` wins (src/App.jsx:36). React's effect scheduling is not modelled either. Each handler and effect runs as one atomic step, and `loading` is only observed at the end of that step.
- `MapView.Viewport.ReportBounds`: a change of the `onSelectBounds` identity also reruns the effect (src/components/MapView.jsx:27). That depends on the parent and is not modelled.
- `MapView`'s `clips` prop is rendered only.
- `Composer.ComposerForm.ClickUpload`: the upload and the post overlap; the model lets the post complete first. When the upload completes first, a successful post would then reset the uploaded URL to ""; that order is not modelled.
