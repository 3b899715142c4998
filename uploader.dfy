/** The `Uploader` component (src/components/Uploader.jsx): a picked file,
    a loading flag, and `upload`, which posts the file and hands the
    resulting URL, made absolute against the backend base URL, to
    `onUploaded`. */
module Uploader {
  import opened Js
  import opened Platform

  const UploadPath := "/api/upload"
  const UploadFailed := "Upload failed"

  /** `data.url.startsWith('http') ? data.url : baseUrl + data.url`. */
  function AbsoluteUrl(baseUrl: string, url: string): string
  {
    if StartsWith(url, "http") then url else baseUrl + url
  }

  /** The result is the returned url itself when it starts with "http", and
      the url behind the base URL otherwise; either way it ends with the url. */
  lemma AbsoluteUrlCases(baseUrl: string, url: string)
    ensures StartsWith(url, "http") ==> AbsoluteUrl(baseUrl, url) == url
    ensures !StartsWith(url, "http") ==> AbsoluteUrl(baseUrl, url) == baseUrl + url
    ensures EndsWith(AbsoluteUrl(baseUrl, url), url)
  {
  }

  /** With an http(s) base URL the result is absolute, and normalising it again changes nothing. */
  lemma AbsoluteUrlIdempotent(baseUrl: string, url: string)
    requires StartsWith(baseUrl, "http")
    ensures StartsWith(AbsoluteUrl(baseUrl, url), "http")
    ensures AbsoluteUrl(baseUrl, AbsoluteUrl(baseUrl, url)) == AbsoluteUrl(baseUrl, url)
  {
  }

  /** The default backend URL is itself an http URL, so the idempotence holds without an environment value. */
  lemma DefaultBaseIsHttp()
    ensures StartsWith(BaseUrl(None), "http")
  {
  }

  function UploadRequest(baseUrl: string, f: File): Request {
    Request(Post, baseUrl, UploadPath, [], Multipart("file", f))
  }

  class UploadForm {
    const baseUrl: string
    var file: Option<File>
    var loading: bool
    /** Every request handed to `fetch`, oldest first. */
    var requests: seq<Request>
    /** Every URL handed to `onUploaded`, oldest first. */
    var uploaded: seq<string>
    /** Every message shown with `alert`, oldest first. */
    var alerts: seq<string>

    constructor (env: Option<string>)
      ensures baseUrl == BaseUrl(env)
      ensures file == None && !loading
      ensures requests == [] && uploaded == [] && alerts == []
    {
      baseUrl := BaseUrl(env);
      file := None;
      loading := false;
      requests := [];
      uploaded := [];
      alerts := [];
    }

    /** The file input's `onChange`: the first picked file, or none. */
    method Choose(f: Option<File>)
      modifies this`file
      ensures file == f
    {
      file := f;
    }

    /** `upload()`: without a file, nothing happens; otherwise one POST, then
        `onUploaded` with the absolute URL only after an ok response, an
        alert on any failure, and `loading` false at the end. */
    method Upload(response: Response<string>)
      modifies this`loading, this`requests, this`uploaded, this`alerts
      ensures old(file).None? ==>
        loading == old(loading) && requests == old(requests) &&
        uploaded == old(uploaded) && alerts == old(alerts)
      ensures old(file).Some? ==>
        !loading &&
        requests == old(requests) + [UploadRequest(baseUrl, file.value)] &&
        uploaded == old(uploaded) + (if response.Ok? then [AbsoluteUrl(baseUrl, response.data)] else []) &&
        alerts == old(alerts) + match response {
          case Ok(_) => []
          case NotOk => [UploadFailed]
          case Threw(m) => [m]
        }
    {
      if file.None? {
        return;
      }
      loading := true;
      requests := requests + [UploadRequest(baseUrl, file.value)];
      match response {
        case Ok(url) =>
          uploaded := uploaded + [AbsoluteUrl(baseUrl, url)];
        case NotOk =>
          alerts := alerts + [UploadFailed];
        case Threw(m) =>
          alerts := alerts + [m];
      }
      loading := false;
    }
  }
}
