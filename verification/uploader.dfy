/**
  The upload workflow (uploader.go): upload each file's bytes for a token,
  create all media items in one batch, and delete each local file the batch
  confirms; optionally first resolve an album by title, creating it when no
  listed album has that title.

  The service calls are inputs: `uploadMedia` answers each raw upload,
  `batchCreate` answers the batch request, `create` answers an album creation,
  and `pages` is the sequence of answers to successive album-list calls. The
  local file system is the set of paths that exist; removing a path that is
  not there fails.
 */
module Uploader {
  import opened Errors
  import opened Records
  import opened Queries
  import Paths
  import JsonNumber

  /** One raw upload: the local path and the file name sent with its bytes. */
  datatype UploadCall = UploadCall(filePath: string, filename: string)

  const OkMessage := "OK"
  const NotOkMessage := "NewMediaItemResult.Status.Message is not \"OK\""

  // ---------------------------------------------------------------------------
  // Drafting: one upload and one draft per path (`appendMediaItems`).

  /** The uploads made, the drafts built, and the error that stopped drafting, if any. */
  datatype Drafted = Drafted(calls: seq<UploadCall>, drafts: seq<NewMediaItem>, err: Option<Error>)

  /**
    Paths are uploaded in order, each under the name after its last `/`; the
    first failed upload ends the walk, so later paths are never uploaded.
   */
  function AppendMediaItems(paths: seq<string>, uploadMedia: UploadCall -> Reply<string>): (r: Drafted)
    ensures |r.calls| <= |paths|
    ensures r.err.None? ==> |r.calls| == |paths|
    ensures r.err.Some? ==> |r.calls| >= 1
    decreases |paths|
  {
    if paths == [] then Drafted([], [], None)
    else
      var call := UploadCall(paths[0], Paths.Filename(paths[0]));
      var reply := uploadMedia(call);
      if reply.err.Some? then Drafted([call], [], reply.err)
      else
        var rest := AppendMediaItems(paths[1..], uploadMedia);
        Drafted([call] + rest.calls, [NewMediaItem(paths[0], reply.value)] + rest.drafts, rest.err)
  }

  /** The uploads made are those of a prefix of the paths, each under its file name. */
  lemma {:induction false} UploadsInPathOrder(paths: seq<string>, uploadMedia: UploadCall -> Reply<string>)
    ensures var r := AppendMediaItems(paths, uploadMedia);
      forall i :: 0 <= i < |r.calls| ==> r.calls[i] == UploadCall(paths[i], Paths.Filename(paths[i]))
    decreases |paths|
  {
    if paths != [] && uploadMedia(UploadCall(paths[0], Paths.Filename(paths[0]))).err.None? {
      UploadsInPathOrder(paths[1..], uploadMedia);
    }
  }

  /** Drafting fails with the error of its last upload, the first one that failed. */
  lemma {:induction false} StopsAtFailedUpload(paths: seq<string>, uploadMedia: UploadCall -> Reply<string>)
    ensures var r := AppendMediaItems(paths, uploadMedia);
      r.err.Some? ==> r.err == uploadMedia(r.calls[|r.calls| - 1]).err
    decreases |paths|
  {
    if paths != [] {
      var call := UploadCall(paths[0], Paths.Filename(paths[0]));
      if uploadMedia(call).err.None? {
        var rest := AppendMediaItems(paths[1..], uploadMedia);
        StopsAtFailedUpload(paths[1..], uploadMedia);
        var calls := [call] + rest.calls;
        assert rest.err.Some? ==> calls[|calls| - 1] == rest.calls[|rest.calls| - 1];
      }
    }
  }

  /**
    One draft per successful upload, in path order, described by the path and
    carrying that upload's token; every upload before the last one succeeded.
   */
  lemma {:induction false} DraftsFollowUploads(paths: seq<string>, uploadMedia: UploadCall -> Reply<string>)
    ensures var r := AppendMediaItems(paths, uploadMedia);
      && |r.drafts| == (if r.err.None? then |r.calls| else |r.calls| - 1)
      && forall i :: 0 <= i < |r.drafts| ==>
           && uploadMedia(r.calls[i]).err.None?
           && r.drafts[i] == NewMediaItem(paths[i], uploadMedia(r.calls[i]).value)
    decreases |paths|
  {
    if paths != [] {
      DraftsFollowUploads(paths[1..], uploadMedia);
    }
  }

  // ---------------------------------------------------------------------------
  // Confirmation: walk the batch results, deleting confirmed files (`upload`).

  /** The files removed, in order; the files left; the items returned; the error. */
  datatype Removal = Removal(removed: seq<string>, files: set<string>, items: seq<MediaItem>, err: Option<Error>)

  /** `os.Remove`: a path that does not exist cannot be removed. */
  function Remove(files: set<string>, path: string): (r: Result<set<string>>)
  {
    if path in files then Ok(files - {path}) else Err(PathError("remove", path))
  }

  /**
    Results are walked in order. An "OK" result has the file named by its
    item's description removed and its item collected; the first result that
    is not "OK", or whose file cannot be removed, ends the walk with an error
    and no items.
   */
  function RemoveConfirmed(results: seq<NewMediaItemResult>, files: set<string>): (r: Removal)
    ensures |r.removed| <= |results|
    ensures r.err.None? <==> |r.removed| == |results|
    ensures r.err.Some? ==> r.items == []
    decreases |results|
  {
    if results == [] then Removal([], files, [], None)
    else
      var result := results[0];
      if result.message == OkMessage then
        match Remove(files, result.mediaItem.description)
        case Err(e) => Removal([], files, [], Some(e))
        case Ok(left) =>
          var rest := RemoveConfirmed(results[1..], left);
          var items := if rest.err.Some? then [] else [result.mediaItem] + rest.items;
          Removal([result.mediaItem.description] + rest.removed, rest.files, items, rest.err)
      else Removal([], files, [], Some(Plain(NotOkMessage)))
  }

  /**
    The files removed are those named by a prefix of the results, all "OK";
    they existed, and they and only they are gone afterwards, also when the
    walk ends in an error.
   */
  lemma {:induction false} RemovesConfirmedPrefix(results: seq<NewMediaItemResult>, files: set<string>)
    ensures var r := RemoveConfirmed(results, files);
      && (forall i :: 0 <= i < |r.removed| ==>
            results[i].message == OkMessage && r.removed[i] == results[i].mediaItem.description)
      && (forall p :: p in r.removed ==> p in files)
      && (forall p :: p in r.files <==> p in files && p !in r.removed)
    decreases |results|
  {
    if results != [] && results[0].message == OkMessage && results[0].mediaItem.description in files {
      RemovesConfirmedPrefix(results[1..], files - {results[0].mediaItem.description});
    }
  }

  /** The walk stops at the first result that is not "OK" or whose file is already gone. */
  lemma {:induction false} StopsAtFirstFailure(results: seq<NewMediaItemResult>, files: set<string>)
    ensures var r := RemoveConfirmed(results, files);
      r.err.Some? ==>
        var stop := results[|r.removed|];
        && (stop.message != OkMessage ==> r.err == Some(Plain(NotOkMessage)))
        && (stop.message == OkMessage ==>
              r.err == Some(PathError("remove", stop.mediaItem.description)) && stop.mediaItem.description !in r.files)
    decreases |results|
  {
    if results != [] && results[0].message == OkMessage && results[0].mediaItem.description in files {
      StopsAtFirstFailure(results[1..], files - {results[0].mediaItem.description});
    }
  }

  /** When every result is confirmed, the items returned are the results' items, in order. */
  lemma {:induction false} ItemsInResultOrder(results: seq<NewMediaItemResult>, files: set<string>)
    ensures var r := RemoveConfirmed(results, files);
      r.err.None? ==> |r.items| == |results| && forall i :: 0 <= i < |results| ==> r.items[i] == results[i].mediaItem
    decreases |results|
  {
    if results != [] && results[0].message == OkMessage && results[0].mediaItem.description in files {
      ItemsInResultOrder(results[1..], files - {results[0].mediaItem.description});
    }
  }

  /**
    Reference condition for a fully confirmed batch: every result is "OK" and
    names a distinct file that exists.
   */
  predicate Confirmable(results: seq<NewMediaItemResult>, files: set<string>)
  {
    && (forall i :: 0 <= i < |results| ==>
          results[i].message == OkMessage && results[i].mediaItem.description in files)
    && (forall i, j :: 0 <= i < j < |results| ==>
          results[i].mediaItem.description != results[j].mediaItem.description)
  }

  /** The walk ends without error exactly when the batch is confirmable. */
  lemma {:induction false} ConfirmedExactly(results: seq<NewMediaItemResult>, files: set<string>)
    ensures RemoveConfirmed(results, files).err.None? <==> Confirmable(results, files)
    decreases |results|
  {
    if results != [] {
      var d := results[0].mediaItem.description;
      var tail := results[1..];
      if results[0].message == OkMessage && d in files {
        ConfirmedExactly(tail, files - {d});
        if Confirmable(results, files) {
          assert forall i :: 0 <= i < |tail| ==> tail[i] == results[i + 1];
          assert Confirmable(tail, files - {d});
        }
        if Confirmable(tail, files - {d}) {
          forall i, j | 0 <= i < j < |results|
            ensures results[i].mediaItem.description != results[j].mediaItem.description
          {
            if i > 0 {
              assert results[i] == tail[i - 1] && results[j] == tail[j - 1];
            } else {
              assert results[j] == tail[j - 1];
            }
          }
          forall i | 0 <= i < |results|
            ensures results[i].message == OkMessage && results[i].mediaItem.description in files
          {
            if i > 0 {
              assert results[i] == tail[i - 1];
            }
          }
        }
      } else {
        assert !Confirmable(results, files);
      }
    }
  }

  /**
    Deletion is not all-or-nothing: when the second of three results is not
    "OK", the first file is already gone, the other two stay, and no items
    are returned.
   */
  lemma PartialFailureKeepsEarlierDeletion(a: MediaItem, b: MediaItem, c: MediaItem)
    requires a.description != b.description && a.description != c.description
    ensures var files := {a.description, b.description, c.description};
      var r := RemoveConfirmed(
        [NewMediaItemResult(OkMessage, a), NewMediaItemResult("INVALID_ARGUMENT", b), NewMediaItemResult(OkMessage, c)],
        files);
      && r.removed == [a.description]
      && r.files == {b.description, c.description}
      && r.items == []
      && r.err == Some(Plain(NotOkMessage))
  {
    var results := [NewMediaItemResult(OkMessage, a), NewMediaItemResult("INVALID_ARGUMENT", b), NewMediaItemResult(OkMessage, c)];
    var files := {a.description, b.description, c.description};
    var left := files - {a.description};
    assert results[1..][0].message != OkMessage;
    assert RemoveConfirmed(results[1..], left) == Removal([], left, [], Some(Plain(NotOkMessage)));
    assert left == {b.description, c.description};
  }

  // ---------------------------------------------------------------------------
  // The whole upload (`Upload`, `UploadWithAlbum`).

  /** Everything one upload did: calls made, files removed and left, items, error. */
  datatype Run = Run(
    uploads: seq<UploadCall>,
    batchCreates: seq<BatchCreateRequest>,
    removed: seq<string>,
    files: set<string>,
    items: seq<MediaItem>,
    err: Option<Error>)

  /** Create the media items of one batch request and delete the confirmed files (`upload`). */
  function CreateMediaItems(
    uploads: seq<UploadCall>,
    request: BatchCreateRequest,
    batchCreate: BatchCreateRequest -> Reply<seq<NewMediaItemResult>>,
    files: set<string>): (r: Run)
    ensures r.uploads == uploads && r.batchCreates == [request]
    ensures batchCreate(request).err.Some? ==>
      r.err == batchCreate(request).err && r.removed == [] && r.files == files && r.items == []
    ensures batchCreate(request).err.None? ==>
      var m := RemoveConfirmed(batchCreate(request).value, files);
      r.removed == m.removed && r.files == m.files && r.items == m.items && r.err == m.err
  {
    var reply := batchCreate(request);
    if reply.err.Some? then Run(uploads, [request], [], files, [], reply.err)
    else
      var m := RemoveConfirmed(reply.value, files);
      Run(uploads, [request], m.removed, m.files, m.items, m.err)
  }

  /** Draft every path, then create them all in one batch for album `albumId`. */
  function UploadInto(
    albumId: string,
    paths: seq<string>,
    uploadMedia: UploadCall -> Reply<string>,
    batchCreate: BatchCreateRequest -> Reply<seq<NewMediaItemResult>>,
    files: set<string>): (r: Run)
    ensures var d := AppendMediaItems(paths, uploadMedia);
      && r.uploads == d.calls
      && (d.err.Some? ==> r == Run(d.calls, [], [], files, [], d.err))
      && (d.err.None? ==> r == CreateMediaItems(d.calls, BatchCreateRequest(albumId, d.drafts), batchCreate, files))
    ensures forall b :: b in r.batchCreates ==> b.albumId == albumId && |b.newMediaItems| == |paths|
    ensures |r.batchCreates| <= 1
  {
    var d := AppendMediaItems(paths, uploadMedia);
    DraftsFollowUploads(paths, uploadMedia);
    if d.err.Some? then Run(d.calls, [], [], files, [], d.err)
    else CreateMediaItems(d.calls, BatchCreateRequest(albumId, d.drafts), batchCreate, files)
  }

  /** `Upload`: the batch names no album. */
  function Upload(
    paths: seq<string>,
    uploadMedia: UploadCall -> Reply<string>,
    batchCreate: BatchCreateRequest -> Reply<seq<NewMediaItemResult>>,
    files: set<string>): (r: Run)
    ensures forall b :: b in r.batchCreates ==> b.albumId == ""
  {
    UploadInto("", paths, uploadMedia, batchCreate, files)
  }

  /** `UploadWithAlbum`: the batch names the given album. */
  function UploadWithAlbum(
    paths: seq<string>,
    album: Album,
    uploadMedia: UploadCall -> Reply<string>,
    batchCreate: BatchCreateRequest -> Reply<seq<NewMediaItemResult>>,
    files: set<string>): (r: Run)
    ensures forall b :: b in r.batchCreates ==> b.albumId == album.id
  {
    UploadInto(album.id, paths, uploadMedia, batchCreate, files)
  }

  // ---------------------------------------------------------------------------
  // Resolving an album by title (`searchAlbum`, `createAlbum`).

  /** An album-list answer that ends the search whatever the title: an error or the last page. */
  predicate Stops(page: Reply<ListResponse>)
  {
    page.err.Some? || page.value.nextPageToken == ""
  }

  /** The scripted answers end with a page that stops the search whatever the title. */
  predicate Ends(pages: seq<Reply<ListResponse>>)
  {
    |pages| > 0 && Stops(pages[|pages| - 1])
  }

  /** The position of the first album titled exactly `name`. */
  function FirstTitled(albums: seq<Album>, name: string): (r: Option<nat>)
    ensures r.Some? ==> r.value < |albums| && albums[r.value].title == name
    ensures r.Some? ==> forall j :: 0 <= j < r.value ==> albums[j].title != name
    ensures r.None? ==> forall j :: 0 <= j < |albums| ==> albums[j].title != name
    decreases |albums|
  {
    if albums == [] then None
    else if albums[0].title == name then Some(0)
    else
      match FirstTitled(albums[1..], name)
      case None => None
      case Some(j) => Some(j + 1)
  }

  /** A page after which no further page is requested. */
  predicate Final(page: Reply<ListResponse>, name: string)
  {
    Stops(page) || FirstTitled(page.value.albums, name).Some?
  }

  /** The modifiers of one list call: page size 1, and the previous token when there is one. */
  function PageQueries(token: string): (qs: seq<ListQuery>)
  {
    [PageSize(1)] + (if token == "" then [] else [PageToken(token)])
  }

  /** The list calls made, the create calls made, and the album or error found. */
  datatype Resolution = Resolution(
    listCalls: seq<seq<ListQuery>>,
    createCalls: seq<CreateRequest>,
    album: Album,
    err: Option<Error>)

  /** The only create request the search can send: an album with just its title set. */
  function TitledAlbum(name: string): (req: CreateRequest)
    ensures req.album.title == name
    ensures req.album.(title := "") == ZeroAlbum
    ensures JsonNumber.Encodable(req.album.mediaItemsCount)
  {
    CreateRequest(ZeroAlbum.(title := name))
  }

  /** `createAlbum`: exactly one create call; on failure the zero album and the error. */
  function CreateAlbum(name: string, create: CreateRequest -> Reply<Album>): (r: Resolution)
    ensures r.listCalls == [] && r.createCalls == [TitledAlbum(name)]
    ensures r.err == create(TitledAlbum(name)).err
    ensures r.err.Some? ==> r.album == ZeroAlbum
    ensures r.err.None? ==> r.album == create(TitledAlbum(name)).value
  {
    var reply := create(TitledAlbum(name));
    if reply.err.Some? then Resolution([], [TitledAlbum(name)], ZeroAlbum, reply.err)
    else Resolution([], [TitledAlbum(name)], reply.value, None)
  }

  lemma EndsLater(pages: seq<Reply<ListResponse>>)
    requires Ends(pages) && !Stops(pages[0])
    ensures Ends(pages[1..])
  {
    assert pages[1..][|pages| - 2] == pages[|pages| - 1];
  }

  /** Walk the album list from page token `token` until a page settles the search. */
  function SearchFrom(name: string, token: string, pages: seq<Reply<ListResponse>>, create: CreateRequest -> Reply<Album>)
    : (r: Resolution)
    requires Ends(pages)
    ensures 1 <= |r.listCalls| <= |pages|
    ensures r.listCalls[0] == PageQueries(token)
    decreases |pages|
  {
    var queries := PageQueries(token);
    var page := pages[0];
    if page.err.Some? then Resolution([queries], [], ZeroAlbum, page.err)
    else
      match FirstTitled(page.value.albums, name)
      case Some(j) => Resolution([queries], [], page.value.albums[j], None)
      case None =>
        if page.value.nextPageToken == "" then
          var c := CreateAlbum(name, create);
          Resolution([queries], c.createCalls, c.album, c.err)
        else
          EndsLater(pages);
          var rest := SearchFrom(name, page.value.nextPageToken, pages[1..], create);
          Resolution([queries] + rest.listCalls, rest.createCalls, rest.album, rest.err)
  }

  /**
    Pages are requested one after another, each with page size 1 and the token
    of the page before; every page but the last one requested neither failed,
    held an album titled `name`, nor was the last page, and the last one did
    one of these.
   */
  lemma {:induction false} SearchWalksPages(
    name: string, token: string, pages: seq<Reply<ListResponse>>, create: CreateRequest -> Reply<Album>)
    requires Ends(pages)
    ensures var r := SearchFrom(name, token, pages, create);
      && (forall i :: 0 < i < |r.listCalls| ==>
            && pages[i - 1].err.None?
            && pages[i - 1].value.nextPageToken != ""
            && r.listCalls[i] == [PageSize(1), PageToken(pages[i - 1].value.nextPageToken)])
      && (forall i :: 0 <= i < |r.listCalls| - 1 ==> !Final(pages[i], name))
      && Final(pages[|r.listCalls| - 1], name)
    decreases |pages|
  {
    var page := pages[0];
    if !Final(page, name) {
      EndsLater(pages);
      SearchWalksPages(name, page.value.nextPageToken, pages[1..], create);
    }
  }

  /**
    The page that settles the search decides it: a failed page yields the zero
    album and its error; a match yields the first matching album of that page;
    otherwise exactly one album titled `name` is created and its outcome is
    the search's.
   */
  lemma {:induction false} SearchOutcome(
    name: string, token: string, pages: seq<Reply<ListResponse>>, create: CreateRequest -> Reply<Album>)
    requires Ends(pages)
    ensures var r := SearchFrom(name, token, pages, create);
      var last := pages[|r.listCalls| - 1];
      && (last.err.Some? ==> r.err == last.err && r.album == ZeroAlbum && r.createCalls == [])
      && (last.err.None? && FirstTitled(last.value.albums, name).Some? ==>
            r.err.None? && r.createCalls == [] && r.album == last.value.albums[FirstTitled(last.value.albums, name).value])
      && (last.err.None? && FirstTitled(last.value.albums, name).None? ==>
            var c := CreateAlbum(name, create);
            r.createCalls == c.createCalls && r.album == c.album && r.err == c.err)
    decreases |pages|
  {
    var page := pages[0];
    var r := SearchFrom(name, token, pages, create);
    if !Final(page, name) {
      EndsLater(pages);
      var rest := SearchFrom(name, page.value.nextPageToken, pages[1..], create);
      SearchOutcome(name, page.value.nextPageToken, pages[1..], create);
      assert r == Resolution([PageQueries(token)] + rest.listCalls, rest.createCalls, rest.album, rest.err);
      assert pages[|r.listCalls| - 1] == pages[1..][|rest.listCalls| - 1];
    } else {
      assert |r.listCalls| == 1;
    }
  }

  /** `searchAlbum`: the first list call carries no page token. */
  function SearchAlbum(name: string, pages: seq<Reply<ListResponse>>, create: CreateRequest -> Reply<Album>): (r: Resolution)
    requires Ends(pages)
    ensures |r.listCalls| >= 1 && r.listCalls[0] == [PageSize(1)]
    ensures |r.createCalls| <= 1
    ensures r.createCalls != [] ==> r.createCalls == [TitledAlbum(name)]
    ensures r.err.None? && r.createCalls == [] ==> r.album.title == name
  {
    SearchOutcome(name, "", pages, create);
    SearchFrom(name, "", pages, create)
  }

  // ---------------------------------------------------------------------------
  // Uploading into an album found or created by title (`UploadWithAlbumname`).

  /** The album search, the upload run, and the album and error returned. */
  datatype NamedUpload = NamedUpload(search: Resolution, run: Run, album: Album, err: Option<Error>)

  /**
    The album is resolved first; if that fails, nothing is uploaded, no file
    is touched, and the zero album is returned with the search's error.
    Otherwise every batch names the resolved album, and that album is returned
    even when the upload itself fails.
   */
  function UploadWithAlbumname(
    paths: seq<string>,
    name: string,
    pages: seq<Reply<ListResponse>>,
    create: CreateRequest -> Reply<Album>,
    uploadMedia: UploadCall -> Reply<string>,
    batchCreate: BatchCreateRequest -> Reply<seq<NewMediaItemResult>>,
    files: set<string>): (r: NamedUpload)
    requires Ends(pages)
    ensures r.search == SearchAlbum(name, pages, create)
    ensures r.search.err.Some? ==>
      && r.album == ZeroAlbum && r.err == r.search.err
      && r.run.uploads == [] && r.run.batchCreates == [] && r.run.removed == [] && r.run.files == files
    ensures r.search.err.None? ==>
      && r.album == r.search.album
      && r.run == UploadWithAlbum(paths, r.search.album, uploadMedia, batchCreate, files)
      && r.err == r.run.err
      && forall b :: b in r.run.batchCreates ==> b.albumId == r.album.id
  {
    var search := SearchAlbum(name, pages, create);
    if search.err.Some? then NamedUpload(search, Run([], [], [], files, [], search.err), ZeroAlbum, search.err)
    else
      var run := UploadWithAlbum(paths, search.album, uploadMedia, batchCreate, files);
      NamedUpload(search, run, search.album, run.err)
  }

  /** An album with the given id and title and every other field zero. */
  function Titled(id: string, title: string): (a: Album)
  {
    ZeroAlbum.(id := id, title := title)
  }

  /**
    When the second page of the listing holds an album titled "Trip", two
    list calls are made, no album is created, and the existing album is
    returned and named by the batch.
   */
  lemma ExistingAlbumIsReused(
    paths: seq<string>,
    create: CreateRequest -> Reply<Album>,
    uploadMedia: UploadCall -> Reply<string>,
    batchCreate: BatchCreateRequest -> Reply<seq<NewMediaItemResult>>,
    files: set<string>)
    ensures var pages := [
        Reply(ListResponse([Titled("a1", "Holiday")], "abc"), None),
        Reply(ListResponse([Titled("a2", "Trip")], ""), None)];
      var r := UploadWithAlbumname(paths, "Trip", pages, create, uploadMedia, batchCreate, files);
      && r.search.listCalls == [[PageSize(1)], [PageSize(1), PageToken("abc")]]
      && r.search.createCalls == []
      && r.album == Titled("a2", "Trip")
      && forall b :: b in r.run.batchCreates ==> b.albumId == "a2"
  {
    var pages := [
      Reply(ListResponse([Titled("a1", "Holiday")], "abc"), None),
      Reply(ListResponse([Titled("a2", "Trip")], ""), None)];
    assert Stops(pages[1]);
    var second := SearchFrom("Trip", "abc", pages[1..], create);
    assert FirstTitled(pages[1..][0].value.albums, "Trip") == Some(0);
    assert second == Resolution([PageQueries("abc")], [], Titled("a2", "Trip"), None);
    assert FirstTitled(pages[0].value.albums, "Trip") == None;
    EndsLater(pages);
    assert SearchFrom("Trip", "", pages, create) == Resolution([PageQueries("")] + second.listCalls, [], Titled("a2", "Trip"), None);
    assert PageQueries("") == [PageSize(1)] && PageQueries("abc") == [PageSize(1), PageToken("abc")];
  }

  /**
    When no listed album is titled "NewAlbum", exactly one create call is made
    for it, and the created album's id is the one the batch names.
   */
  lemma MissingAlbumIsCreatedOnce(
    paths: seq<string>,
    created: Album,
    create: CreateRequest -> Reply<Album>,
    uploadMedia: UploadCall -> Reply<string>,
    batchCreate: BatchCreateRequest -> Reply<seq<NewMediaItemResult>>,
    files: set<string>)
    requires create(TitledAlbum("NewAlbum")) == Reply(created, None)
    ensures var pages := [Reply(ListResponse([Titled("a1", "Holiday")], ""), None)];
      var r := UploadWithAlbumname(paths, "NewAlbum", pages, create, uploadMedia, batchCreate, files);
      && r.search.createCalls == [TitledAlbum("NewAlbum")]
      && r.album == created
      && forall b :: b in r.run.batchCreates ==> b.albumId == created.id
  {
    var pages := [Reply(ListResponse([Titled("a1", "Holiday")], ""), None)];
    assert Stops(pages[0]);
    assert FirstTitled(pages[0].value.albums, "NewAlbum") == None;
  }
}
