/**
  The albums resource client (albums.go). Each endpoint is the request it
  sends plus what it returns for the transport's outcome: decoding endpoints
  return their response or, on any failure, the zero response and the error;
  the others return only the outcome of the status check.
 */
module Albums {
  import opened Errors
  import opened Records
  import opened Status
  import opened Exchange
  import opened Queries
  import opened Urls
  import opened JsonNumber

  const AddEnrichmentName := "addEnrichment"
  const BatchAddMediaItemsName := "batchAddMediaItems"
  const BatchRemoveMediaItemsName := "batchRemoveMediaItems"
  const ShareName := "share"
  const UnshareName := "unshare"

  /** The five action suffixes are pairwise distinct, so each action URL names one action, whatever the id. */
  lemma ActionNamesDistinct(id: string)
    ensures
      var urls := [AddEnrichmentName, BatchAddMediaItemsName, BatchRemoveMediaItemsName, ShareName, UnshareName];
      forall i, j :: 0 <= i < j < |urls| ==>
        Url(AlbumsBase, ResourceAction(id, urls[i])) != Url(AlbumsBase, ResourceAction(id, urls[j]))
  {
    var urls := [AddEnrichmentName, BatchAddMediaItemsName, BatchRemoveMediaItemsName, ShareName, UnshareName];
    var p := AlbumsBase + "/" + id + ":";
    forall i, j | 0 <= i < j < |urls|
      ensures Url(AlbumsBase, ResourceAction(id, urls[i])) != Url(AlbumsBase, ResourceAction(id, urls[j]))
    {
      assert Url(AlbumsBase, ResourceAction(id, urls[i])) == p + urls[i];
      assert Url(AlbumsBase, ResourceAction(id, urls[j])) == p + urls[j];
      assert (p + urls[i])[|p|..] == urls[i];
      assert (p + urls[j])[|p|..] == urls[j];
    }
  }

  function AddEnrichment(albumId: string, request: AddEnrichmentRequest, x: Result<Response<AddEnrichmentResponse>>)
    : (c: Call<AddEnrichmentResponse>)
    ensures c.Call?
    ensures c.request == Request(POST, AlbumsBase + "/" + albumId + ":addEnrichment", map[], EnrichmentBody(request))
    ensures Answers(c.reply, ZeroAddEnrichmentResponse, x)
  {
    Call(Request(POST, Url(AlbumsBase, ResourceAction(albumId, AddEnrichmentName)), map[], EnrichmentBody(request)),
         Complete(ZeroAddEnrichmentResponse, x))
  }

  function BatchAddMediaItems(albumId: string, mediaItemIds: seq<string>, x: Result<Response<()>>): (c: StatusCall)
    ensures c.request == Request(POST, AlbumsBase + "/" + albumId + ":batchAddMediaItems", map[], MediaItemIdsBody(mediaItemIds))
    ensures c.err.None? <==> Accepted(x)
    ensures c.err == CompleteStatus(x)
  {
    StatusCall(Request(POST, Url(AlbumsBase, ResourceAction(albumId, BatchAddMediaItemsName)), map[], MediaItemIdsBody(mediaItemIds)),
               CompleteStatus(x))
  }

  function BatchRemoveMediaItems(albumId: string, mediaItemIds: seq<string>, x: Result<Response<()>>): (c: StatusCall)
    ensures c.request == Request(POST, AlbumsBase + "/" + albumId + ":batchRemoveMediaItems", map[], MediaItemIdsBody(mediaItemIds))
    ensures c.err.None? <==> Accepted(x)
    ensures c.err == CompleteStatus(x)
  {
    StatusCall(Request(POST, Url(AlbumsBase, ResourceAction(albumId, BatchRemoveMediaItemsName)), map[], MediaItemIdsBody(mediaItemIds)),
               CompleteStatus(x))
  }

  /**
    The service's answer to a create call is an album (`AlbumsCreateResponse` is
    `Album`). Encoding the request fails, before anything is sent, when the
    album's item count is neither empty nor a number literal.
   */
  function Create(request: CreateRequest, x: Result<Response<Album>>): (c: Call<Album>)
    ensures !Encodable(request.album.mediaItemsCount) ==>
      c == Unsent(Reply(ZeroAlbum, Some(InvalidNumber(request.album.mediaItemsCount))))
    ensures Encodable(request.album.mediaItemsCount) ==>
      && c.Call?
      && c.request == Request(POST, AlbumsBase, map[], CreateBody(request))
      && Answers(c.reply, ZeroAlbum, x)
  {
    var count := request.album.mediaItemsCount;
    if !Encodable(count) then Unsent(Reply(ZeroAlbum, Some(InvalidNumber(count))))
    else Call(Request(POST, Url(AlbumsBase, Collection), map[], CreateBody(request)), Complete(ZeroAlbum, x))
  }

  /** A count written as a decimal integer always encodes, so the request is sent. */
  lemma IntegerCountIsSent(request: CreateRequest, n: int, x: Result<Response<Album>>)
    requires request.album.mediaItemsCount == Itoa(n)
    ensures Create(request, x).Call?
    ensures Create(request, x).request == Request(POST, AlbumsBase, map[], CreateBody(request))
  {
  }

  /** A count such as `"many"` fails to encode: the zero album and the error, nothing sent. */
  lemma WordCountIsNotSent(request: CreateRequest, x: Result<Response<Album>>)
    requires request.album.mediaItemsCount == "many"
    ensures Create(request, x) == Unsent(Reply(ZeroAlbum, Some(InvalidNumber("many"))))
  {
  }

  function Get(albumId: string, x: Result<Response<Album>>): (c: Call<Album>)
    ensures c.Call?
    ensures c.request == Request(GET, AlbumsBase + "/" + albumId, map[], NoBody)
    ensures Answers(c.reply, ZeroAlbum, x)
  {
    Call(Request(GET, Url(AlbumsBase, Resource(albumId)), map[], NoBody), Complete(ZeroAlbum, x))
  }

  /** The modifiers fill the query in the order given, accumulating repeated keys. */
  function List(queries: seq<ListQuery>, x: Result<Response<ListResponse>>): (c: Call<ListResponse>)
    ensures c.Call?
    ensures c.request.verb == GET && c.request.url == AlbumsBase && c.request.body == NoBody
    ensures forall k :: Lookup(c.request.query, k) == Selected(queries, k)
    ensures forall k :: k in c.request.query <==> Selected(queries, k) != []
    ensures Answers(c.reply, ZeroListResponse, x)
  {
    Call(Request(GET, Url(AlbumsBase, Collection), QueryValues(queries), NoBody), Complete(ZeroListResponse, x))
  }

  function Share(albumId: string, options: SharedAlbumOptions, x: Result<Response<ShareResponse>>): (c: Call<ShareResponse>)
    ensures c.Call?
    ensures c.request == Request(POST, AlbumsBase + "/" + albumId + ":share", map[], ShareBody(options))
    ensures Answers(c.reply, ZeroShareResponse, x)
  {
    Call(Request(POST, Url(AlbumsBase, ResourceAction(albumId, ShareName)), map[], ShareBody(options)),
         Complete(ZeroShareResponse, x))
  }

  function Unshare(albumId: string, x: Result<Response<()>>): (c: StatusCall)
    ensures c.request == Request(POST, AlbumsBase + "/" + albumId + ":unshare", map[], NoBody)
    ensures c.err.None? <==> Accepted(x)
    ensures c.err == CompleteStatus(x)
  {
    StatusCall(Request(POST, Url(AlbumsBase, ResourceAction(albumId, UnshareName)), map[], NoBody), CompleteStatus(x))
  }
}
