/** The `Comments` panel of one clip (src/components/Comments.jsx): the
    comment list, fetched on mount and after each posted comment, and the
    form with its whitespace guard and optional author. */
module Comments {
  import opened Js
  import opened Platform

  const PostFailed := "Failed to comment"

  datatype Comment = Comment(id: string, text: string, author: Option<string>)

  function CommentsPath(clipId: string): string {
    "/api/clips/" + clipId + "/comments"
  }

  /** `{ text, author: author || undefined }`. */
  function CommentBody(text: string, author: string): (o: Object)
    ensures |o| == 2 && DistinctKeys(o)
  {
    var o := [("text", Str(text)), ("author", OrUndefined(author))];
    assert |"text"| != |"author"|;
    o
  }

  /** What the backend receives: the text as typed, and `author` only when it is not empty. */
  lemma CommentBodySent(text: string, author: string)
    ensures Lookup(Stringified(CommentBody(text, author)), "text") == Some(Str(text))
    ensures Lookup(Stringified(CommentBody(text, author)), "author") ==
            if author == "" then None else Some(Str(author))
  {
  }

  /** `!text.trim()`: the text is empty or whitespace only. */
  predicate BlankText(text: string) {
    Trim(text) == ""
  }

  /** The guard rejects exactly the strings made of nothing but whitespace. */
  lemma BlankTextIffBlank(text: string)
    ensures BlankText(text) <==> Blank(text)
  {
  }

  function ListRequest(baseUrl: string, clipId: string): Request {
    Request(Get, baseUrl, CommentsPath(clipId), [], NoBody)
  }

  function PostRequest(baseUrl: string, clipId: string, text: string, author: string): Request {
    Request(Post, baseUrl, CommentsPath(clipId), [], Json(Stringified(CommentBody(text, author))))
  }

  class CommentThread {
    /** The `clipId` prop. */
    var clipId: string
    const baseUrl: string
    var comments: seq<Comment>
    var text: string
    var author: string
    var loading: bool
    /** Every request handed to `fetch`, oldest first. */
    var requests: seq<Request>
    /** Every message shown with `alert`, oldest first. */
    var alerts: seq<string>

    /** Mounting: empty state, then the effect's `fetchComments()`. */
    constructor (clipId: string, env: Option<string>, fetched: Fetched<seq<Comment>>)
      ensures this.clipId == clipId && baseUrl == BaseUrl(env)
      ensures text == "" && author == "" && !loading && alerts == []
      ensures requests == [ListRequest(baseUrl, clipId)]
      ensures comments == if fetched.Received? then fetched.body else []
    {
      this.clipId := clipId;
      baseUrl := BaseUrl(env);
      comments := [];
      text, author := "", "";
      loading := false;
      requests, alerts := [], [];
      new;
      FetchComments(fetched);
    }

    /** `fetchComments()`: one GET; a parsed body replaces the list, whatever
        the status; a rejection is swallowed and leaves it. */
    method FetchComments(fetched: Fetched<seq<Comment>>)
      modifies this`comments, this`requests
      ensures requests == old(requests) + [ListRequest(baseUrl, clipId)]
      ensures comments == if fetched.Received? then fetched.body else old(comments)
    {
      requests := requests + [ListRequest(baseUrl, clipId)];
      if fetched.Received? {
        comments := fetched.body;
      }
    }

    /** A new `clipId` prop; the effect on `[clipId]` fetches again only
        when it changed, and a failed fetch leaves the previous clip's
        comments in the list. */
    method SetClipId(id: string, fetched: Fetched<seq<Comment>>)
      modifies this`clipId, this`comments, this`requests
      ensures clipId == id
      ensures id == old(clipId) ==> comments == old(comments) && requests == old(requests)
      ensures id != old(clipId) ==>
        requests == old(requests) + [ListRequest(baseUrl, id)] &&
        comments == if fetched.Received? then fetched.body else old(comments)
    {
      if id != clipId {
        clipId := id;
        FetchComments(fetched);
      }
    }

    method SetText(s: string)
      modifies this`text
      ensures text == s
    {
      text := s;
    }

    method SetAuthor(s: string)
      modifies this`author
      ensures author == s
    {
      author := s;
    }

    /** `submit`: blank text sends nothing and changes nothing; otherwise
        the comment is posted. */
    method Submit(response: Response<()>, refetch: Fetched<seq<Comment>>)
      modifies this`comments, this`text, this`loading, this`requests, this`alerts
      ensures author == old(author)
      ensures BlankText(old(text)) ==>
        comments == old(comments) && text == old(text) && loading == old(loading) &&
        requests == old(requests) && alerts == old(alerts)
      ensures !BlankText(old(text)) ==> Posted(old(text), old(comments), old(requests), old(alerts), response, refetch)
    {
      if BlankText(text) {
        return;
      }
      Post(response, refetch);
    }

    /** The state after posting `sentText`: `loading` false; on an ok
        response the text cleared and the list fetched again (`refetch`);
        on any failure an alert, with text and list kept. */
    ghost predicate Posted(sentText: string, comments0: seq<Comment>, requests0: seq<Request>, alerts0: seq<string>,
                           response: Response<()>, refetch: Fetched<seq<Comment>>)
      reads this
    {
      !loading &&
      (response.Ok? ==>
        text == "" && alerts == alerts0 &&
        requests == requests0 + [PostRequest(baseUrl, clipId, sentText, author), ListRequest(baseUrl, clipId)] &&
        comments == (if refetch.Received? then refetch.body else comments0)) &&
      (!response.Ok? ==>
        text == sentText && comments == comments0 &&
        requests == requests0 + [PostRequest(baseUrl, clipId, sentText, author)] &&
        alerts == alerts0 + [if response.NotOk? then PostFailed else response.message])
    }

    /** The part of `submit` after the guard: one POST of the text and the
        optional author, then on an ok response `setText('')` and
        `await fetchComments()`, else an alert; `loading` ends false. */
    method Post(response: Response<()>, refetch: Fetched<seq<Comment>>)
      modifies this`comments, this`text, this`loading, this`requests, this`alerts
      ensures author == old(author)
      ensures Posted(old(text), old(comments), old(requests), old(alerts), response, refetch)
    {
      loading := true;
      var post := PostRequest(baseUrl, clipId, text, author);
      requests := requests + [post];
      match response {
        case Ok(_) =>
          text := "";
          FetchComments(refetch);
          assert requests == old(requests) + [post, ListRequest(baseUrl, clipId)];
        case NotOk =>
          alerts := alerts + [PostFailed];
        case Threw(m) =>
          alerts := alerts + [m];
      }
      loading := false;
    }
  }
}
