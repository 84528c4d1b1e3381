/**
  The shared-albums resource client (sharedAlbums.go). Get addresses one
  shared album by its share token; Join and Leave post to actions on the
  collection itself and carry the share token in the body.
 */
module SharedAlbums {
  import opened Errors
  import opened Records
  import opened Status
  import opened Exchange
  import opened Queries
  import opened Urls

  const JoinName := "join"
  const LeaveName := "leave"

  /**
    The only endpoint that checks the outcome of building its request: a share
    token that does not parse as part of a URL yields the zero album and that
    error, and nothing is sent. URL parsing is library behaviour, so its
    outcome is an input.
   */
  function Get(shareToken: string, parseError: Option<Error>, x: Result<Response<Album>>): (c: Call<Album>)
    ensures parseError.Some? ==> c == Unsent(Reply(ZeroAlbum, parseError))
    ensures parseError.None? ==>
      && c.Call?
      && c.request == Request(GET, SharedAlbumsBase + "/" + shareToken, map[], NoBody)
      && Answers(c.reply, ZeroAlbum, x)
  {
    if parseError.Some? then Unsent(Reply(ZeroAlbum, parseError))
    else Call(Request(GET, Url(SharedAlbumsBase, Resource(shareToken)), map[], NoBody), Complete(ZeroAlbum, x))
  }

  function Join(shareToken: string, x: Result<Response<JoinResponse>>): (c: Call<JoinResponse>)
    ensures c.Call?
    ensures c.request == Request(POST, SharedAlbumsBase + ":join", map[], ShareTokenBody(shareToken))
    ensures Parse(SharedAlbumsBase, c.request.url) == Some(CollectionAction(JoinName))
    ensures Answers(c.reply, ZeroJoinResponse, x)
  {
    ParseUrl(SharedAlbumsBase, CollectionAction(JoinName));
    Call(Request(POST, Url(SharedAlbumsBase, CollectionAction(JoinName)), map[], ShareTokenBody(shareToken)),
         Complete(ZeroJoinResponse, x))
  }

  function Leave(shareToken: string, x: Result<Response<()>>): (c: StatusCall)
    ensures c.request == Request(POST, SharedAlbumsBase + ":leave", map[], ShareTokenBody(shareToken))
    ensures Parse(SharedAlbumsBase, c.request.url) == Some(CollectionAction(LeaveName))
    ensures c.err.None? <==> Accepted(x)
    ensures c.err == CompleteStatus(x)
  {
    ParseUrl(SharedAlbumsBase, CollectionAction(LeaveName));
    StatusCall(Request(POST, Url(SharedAlbumsBase, CollectionAction(LeaveName)), map[], ShareTokenBody(shareToken)),
               CompleteStatus(x))
  }

  /** Shared albums are listed with the same modifiers as albums, on the bare base URL. */
  function List(queries: seq<ListQuery>, x: Result<Response<SharedAlbumsListResponse>>): (c: Call<SharedAlbumsListResponse>)
    ensures c.Call?
    ensures c.request.verb == GET && c.request.url == SharedAlbumsBase && c.request.body == NoBody
    ensures forall k :: Lookup(c.request.query, k) == Selected(queries, k)
    ensures forall k :: k in c.request.query <==> Selected(queries, k) != []
    ensures Answers(c.reply, ZeroSharedAlbumsListResponse, x)
  {
    Call(Request(GET, Url(SharedAlbumsBase, Collection), QueryValues(queries), NoBody), Complete(ZeroSharedAlbumsListResponse, x))
  }
}
