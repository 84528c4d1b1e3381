# gphotos client core in Dafny

A model of the core of `gphotos`, a Go client for a photo-library REST service.
It covers:

- the album and shared-album endpoints (request shape and result);
- the status check every endpoint runs on a response (`RequestError`);
- the list-query modifiers and the multi-valued query they fill;
- the upload workflow: upload files, create media items in one batch, delete the confirmed local files, and optionally resolve an album by title first.

Everything is pure functions over immutable datatypes. The network and the file system are inputs:

- the outcome of one HTTP exchange is a value `Result<Response<T>>`. The response body is either a read error or the already-decoded results of reading it as the service's error payload and as the endpoint's own response type;
- raw uploads, batch creation and album creation are total function parameters (oracles);
- the answers to successive album-list calls are a finite sequence of pages;
- the local file system is the set of existing paths.

Modules, by source file:

| module | models |
|---|---|
| `Errors` | Go's `(value, error)` pairs as `Reply<T>`; the error kinds |
| `Records` | the records of albums.go, mediaItems.go and types.go, and their zero values |
| `Status` | `RequestError` in error.go: classification by `StatusCode/100` (Go's truncating division) |
| `Exchange` | the send / status-check / read / decode sequence every endpoint repeats |
| `Urls` | base URLs and URL shapes, with a parser that reads a URL back |
| `JsonNumber` | the number-literal check `encoding/json` applies when it encodes a `json.Number` |
| `Queries` | `ListQuery`, `PageSize`, `PageToken`, `ExcludeNonAppCreatedData`, `url.Values.Add`, `strconv.Itoa`/`Atoi`, `FormatBool`/`ParseBool` |
| `Albums`, `SharedAlbums` | the endpoints of albums.go and sharedAlbums.go; the shared-album listing decodes into a record of its own, `SharedAlbumsListResponse` with field `sharedAlbums`, as in the source |
| `Paths` | `strings.Split(path, "/")` and the file name taken from it |
| `Uploader` | everything in uploader.go |

### Behaviour the model makes visible

- **A decoded error payload is swallowed.** Outside class 2, `RequestError` reads the body. If the body decodes as an error payload, the function prints it and returns nil.
  - The status-only endpoints (`BatchAddMediaItems`, `BatchRemoveMediaItems`, `Unshare`, `Leave`) then report success, e.g. on a 404 with the service's "not found" payload.
  - The decoding endpoints still fail, but only by accident: their own read finds the body already drained, and decoding no bytes fails with "unexpected end of JSON input" (`Exchange.SwallowedPayload`).
  - A caller never sees the payload's code or message.
- **Deleting confirmed files is not all-or-nothing.** Files of "OK" results before the first failure stay deleted when the upload fails (`Uploader.PartialFailureKeepsEarlierDeletion`).
- **A repeated list modifier accumulates.** It adds a second value under the same key (`Queries.RepeatedModifierAccumulates`).

## Model

| member | source | states |
|---|---|---|
| Status.ClassTwoIsSuccessful | error.go:21 | `StatusCode/100 == 2` under truncating division holds for 200 through 299 and for nothing else, negative codes included |
| Status.StatusClass | error.go:21 | the class the status check inspects, `StatusCode/100` truncated toward zero; `Status.ClassTwoIsSuccessful` states that it is 2 exactly for 200 through 299 |
| Status.RequestError | error.go:20-33 | the body is consumed exactly for non-2xx codes; no error exactly when the code is 2xx or the error payload decodes; otherwise the read error or the decode error, unchanged |
| Exchange.ReadAll | albums.go:111-114 | reading a body: a consumed body yields no bytes, an unreadable one its read error; `Exchange.Complete` and `Exchange.SwallowedPayload` state the results |
| Exchange.Unmarshal | albums.go:115-118 | decoding: no bytes fail with "unexpected end of JSON input", otherwise the decoded value or decode error; `Exchange.Complete` states the results |
| Exchange.Complete | albums.go:96-120 | a decoding endpoint returns no error exactly when the exchange is a 2xx response whose body decodes, and then returns the decoded value; on any failure it returns the zero value and the transport, read, decode or drained-body error |
| Exchange.CompleteStatus | albums.go:184-200 | an endpoint that decodes nothing fails exactly when the transport fails or the status check does, with that error |
| Exchange.SwallowedPayload | error.go:26-32 | a non-2xx response with a decodable error payload makes decoding endpoints fail with "unexpected end of JSON input" and status-only endpoints succeed |
| Exchange.NotFoundIsSilent | error.go:30-32 | a 404 with the service's "not found" payload is reported as success by an endpoint that decodes nothing |
| Urls.ParseUrl | albums.go:101 | every URL form (`base`, `base/id`, `base/id:action`, `base:action`) reads back as the endpoint it was built for, when the id holds no `:` |
| Urls.Url | albums.go:101 | the URL of an endpoint: the base, then `/id`, `/id:action` or `:action`; `Urls.ParseUrl` states that each form reads back as the endpoint it was built for |
| Urls.ColonIdReadsAsAction | albums.go:275 | for every id `a:b` whose part `a` holds no `:`, the resource URL equals the URL of action `b` on `a` and reads back as that action, so the forms are ambiguous without that condition |
| Urls.BasesApart | variables.go:27-42 | no URL under one resource's base address is read as addressing another resource |
| Albums.ActionNamesDistinct | albums.go:403 | the five album actions give five pairwise different URLs for the same album, for every id |
| Albums.AddEnrichment | albums.go:96-120 | POST to `base/albumId:addEnrichment` with the request as body; the decoding-endpoint result with the zero enrichment response on failure |
| Albums.BatchAddMediaItems | albums.go:184-200 | POST to `base/albumId:batchAddMediaItems` with the ids as body; the outcome is only the transport and status check |
| Albums.BatchRemoveMediaItems | albums.go:210-226 | POST to `base/albumId:batchRemoveMediaItems` with the ids as body; the outcome is only the transport and status check |
| Albums.Create | albums.go:236-260 | when the album's item count is neither empty nor a number literal, the zero album and an invalid-number error with nothing sent; otherwise POST to the bare base URL with the create request as body, and the decoded album, or the zero album and the error |
| Albums.IntegerCountIsSent | albums.go:237-240 | a create request whose item count is a decimal integer always encodes and is sent to the bare base URL |
| Albums.WordCountIsNotSent | albums.go:237-239 | a create request whose item count is "many" sends nothing and returns the zero album and the invalid-number error |
| JsonNumber.DigitRun | albums.go:72 | the length of the longest all-digit prefix: every character before it is a digit, and the one at it is not |
| JsonNumber.NonLiterals | albums.go:72 | a word, a leading zero before digits, a bare sign and a dangling point are not number literals; `12` and `-0.5e+3` are |
| Albums.Get | albums.go:274-294 | GET `base/albumId` with no body; the decoded album, or the zero album and the error |
| Albums.List | albums.go:302-327 | GET the bare base URL; under each key exactly the values of the modifiers with that key in the order supplied, no other keys; the decoded page, or the zero page and the error |
| Albums.Share | albums.go:362-386 | POST to `base/albumId:share` with the options as body; the decoded share response, or the zero one and the error |
| Albums.Unshare | albums.go:402-414 | POST to `base/albumId:unshare` with no body; the outcome is only the transport and status check |
| SharedAlbums.Get | sharedAlbums.go:17-40 | when building the request fails, the zero album and that error with nothing sent; otherwise GET `base/shareToken`, and the decoded album, or the zero album and the error |
| SharedAlbums.Join | sharedAlbums.go:48-72 | POST to `base:join`, read back as a collection action with no id, the share token in the body; the decoded join response, or the zero one and the error |
| SharedAlbums.Leave | sharedAlbums.go:88-104 | POST to `base:leave` with the share token in the body; the outcome is only the transport and status check |
| SharedAlbums.List | sharedAlbums.go:114-139 | GET the bare shared-albums base URL with the modifiers applied in order; the decoded page, or the zero page and the error |
| Queries.Decimal | albums.go:342 | the rendering of a natural number is a non-empty digit string with no leading zero |
| Queries.Itoa | albums.go:342 | `strconv.Itoa`: a minus sign for negatives, then the decimal digits; `Queries.ItoaRoundTrip` states that `Atoi` reads it back |
| Queries.ItoaRoundTrip | albums.go:340-344 | the page size's decimal rendering reads back as the same integer, negative sizes included |
| Queries.FormatBool | albums.go:354-358 | the flag is rendered as "true" or "false" and parses back to itself |
| Queries.Key | albums.go:340-358 | the query key each library modifier uses; `Queries.RenderedReadsBack` states the three keys |
| Queries.Rendered | albums.go:340-358 | the value each library modifier adds; `Queries.RenderedReadsBack` states that it reads back as the modifier's argument |
| Queries.RenderedReadsBack | albums.go:339-358 | each modifier uses its own key (`pageSize`, `pageToken`, `excludeNonAppCreatedData`) and a value that reads back as the argument; the token is sent verbatim |
| Queries.Add | albums.go:342 | adding appends the value after those already under the key and leaves every other key untouched |
| Queries.Apply | albums.go:305 | one modifier applied to the values; `Queries.ApplyOne` states its effect |
| Queries.ApplyAll | albums.go:304-306 | the modifiers applied in the order supplied; `Queries.ApplyAllAppends` and `Queries.ApplyAllKeys` state the result against the reference `Selected` |
| Queries.ApplyOne | albums.go:305 | one modifier adds its own value under its own key and nothing else |
| Queries.ApplyAllAppends | albums.go:303-306 | applying modifiers in order leaves under each key the earlier values followed by the values of the modifiers with that key, in order |
| Queries.ApplyAllKeys | albums.go:303-306 | a key is present after applying the modifiers exactly when it was before or some modifier has it |
| Queries.QueryValues | albums.go:303-306 | the query sent holds under each key exactly the values of the modifiers with that key, in the order supplied, and no other keys |
| Queries.RepeatedModifierAccumulates | albums.go:340-344 | two page sizes give two values under `pageSize`, the first one first |
| Paths.Split | uploader.go:59 | splitting always yields at least one segment |
| Paths.SplitSegments | uploader.go:59 | no segment holds `/`, and there is one segment exactly when the path has no `/` |
| Paths.SplitThenJoin | uploader.go:59 | rejoining the segments with `/` gives back the path |
| Paths.JoinThenSplit | uploader.go:59 | splitting `/`-free segments joined with `/` gives back the segments |
| Paths.Filename | uploader.go:59-60 | the last segment of the split path; `Paths.FilenameAfterSlash` and `Paths.FilenameIsLastSegment` state what it is |
| Paths.FilenameAfterSlash | uploader.go:59-60 | the file name holds no `/`; it is the whole path when the path has no `/`, and otherwise it follows the last `/` |
| Paths.FilenameIsLastSegment | uploader.go:59-60 | the file name is a suffix of the path, and empty when the path ends in `/` |
| Uploader.AppendMediaItems | uploader.go:57-77 | no more uploads than paths; all paths uploaded when no error; an error comes with at least one upload |
| Uploader.UploadsInPathOrder | uploader.go:58-61 | the uploads made are those of a prefix of the paths, in order, each sent with the file name of its path |
| Uploader.StopsAtFailedUpload | uploader.go:61-64 | drafting fails with the error of its last upload, so no path after a failed upload is uploaded |
| Uploader.DraftsFollowUploads | uploader.go:58-75 | one draft per successful upload, in path order, described by the original path and carrying that upload's token |
| Uploader.Remove | uploader.go:88 | `os.Remove` on the set of existing files: an existing path is removed, an absent one fails with a path error naming it; `Uploader.RemovesConfirmedPrefix` and `Uploader.StopsAtFirstFailure` state its effect in the walk |
| Uploader.RemoveConfirmed | uploader.go:85-96 | the walk removes at most one file per result; it succeeds exactly when it gets through every result; on error no items are returned |
| Uploader.RemovesConfirmedPrefix | uploader.go:86-94 | the removed files are those named by the descriptions of a prefix of "OK" results, they existed, and exactly they are gone afterwards, also after an error |
| Uploader.StopsAtFirstFailure | uploader.go:86-94 | the walk stops at the first result that is not "OK" (fixed message) or whose file cannot be removed (the removal error for that path) |
| Uploader.ItemsInResultOrder | uploader.go:86-96 | after a successful walk the items are the results' media items in result order |
| Uploader.ConfirmedExactly | uploader.go:86-96 | the walk succeeds exactly when every result is "OK" and names a distinct existing file |
| Uploader.PartialFailureKeepsEarlierDeletion | uploader.go:86-94 | when the second of three results is not "OK", the first file is already deleted, the other two remain, and no items are returned |
| Uploader.CreateMediaItems | uploader.go:79-97 | one batch call; if it fails, its error is returned and no file is removed; otherwise the result of walking its results |
| Uploader.UploadInto | uploader.go:30-55 | the batch is sent only when every path was drafted, with one draft per path and the given album id; a drafting error is returned with no batch and no removal |
| Uploader.Upload | uploader.go:30-39 | the batch names no album |
| Uploader.UploadWithAlbum | uploader.go:41-55 | the batch names the given album's id |
| Uploader.FirstTitled | uploader.go:127-131 | the position of the first album whose title equals the name exactly, or none when no title equals it |
| Uploader.TitledAlbum | uploader.go:143-147 | the create request is the zero album with only the title set, so its item count is empty and it always encodes |
| Uploader.CreateAlbum | uploader.go:142-155 | exactly one create call; its album, or the zero album and its error |
| Uploader.PageQueries | uploader.go:116-120 | the modifiers of one list call: page size 1, plus the previous token when it is not empty; `Uploader.SearchAlbum` and `Uploader.SearchWalksPages` state the calls made |
| Uploader.SearchFrom | uploader.go:114-137 | at least one list call and no more calls than answers; the first call carries the starting token |
| Uploader.SearchWalksPages | uploader.go:116-136 | every call has page size 1 and, after the first, the previous page's non-empty token; every page before the last requested neither failed, matched, nor ended the listing, and the last did one of these |
| Uploader.SearchOutcome | uploader.go:122-139 | a failed page gives the zero album and its error with no create call; a match gives the first matching album of that page with no create call; otherwise the result of exactly one create call |
| Uploader.SearchAlbum | uploader.go:113-140 | the first list call is `pageSize=1` with no token; at most one create call, only for the album titled with the name; an album found by listing has that title |
| Uploader.UploadWithAlbumname | uploader.go:99-111 | a failed search returns the zero album and its error and uploads nothing; otherwise the upload into the resolved album, whose id every batch names, and that album is returned even when the upload fails |
| Uploader.ExistingAlbumIsReused | uploader.go:113-140 | with "Trip" on the second page: two list calls, the second with the first page's token, no create call, and the existing album returned and used for the batch |
| Uploader.MissingAlbumIsCreatedOnce | uploader.go:139-155 | with no album titled "NewAlbum": exactly one create call, and the created album's id is used for the batch |

## Left out

- HTTP transport, request headers and JSON encoding and decoding are library behaviour. A response is modelled by its status code and the already-decoded results of reading its body.
- Albums.Create: a `json.Marshal` failure is possible only here, because the album's `mediaItemsCount` is a `json.Number`; the literal check is modelled (`JsonNumber.Encodable`). The other request types hold only strings, integers and booleans, which always encode. Encoding of a valid request is not modelled beyond its record.
- Rendering the query map as a query string (`url.Values.Encode`: sorting and escaping) is library behaviour. The model stops at the map.
- Ids, share tokens and album ids are concatenated into the URL unescaped, and the model keeps them as plain strings.
- SharedAlbums.Get: which share tokens fail to parse as part of a URL (`url.Parse` inside `http.NewRequest`, for example "%zz" or a control character) is not modelled; the parse outcome is an input, and its error path is modelled.
- Albums.Get: the album endpoints ignore the `http.NewRequest` error, so an id that does not parse gives a nil request to the client, which panics; a panic is not modelled, and the model records the request.
- Urls.Url: an id holding `?` or `#` moves the `:action` suffix into the query or the fragment of the URL actually sent; the model compares URLs as whole strings.
- Printing the swallowed error payload is console output and is not modelled.
- Raw byte uploads (uploadingMedia.go) are not modelled. Neither is authentication (auth.go), nor the media-items endpoints, including `MediaItems.BatchCreate`. Each upload, the batch creation and album creation are oracle parameters.
- `os.Remove` is modelled as removing a path from the set of existing files. It fails only when the path is absent. Permission and other file-system errors are not modelled.
- Uploader.Remove: paths are compared as strings. Two spellings of one file ("a.jpg" and "./a.jpg", or a symbolic link and its target) are different members of the file set, so aliasing is not modelled. "Distinct existing file" in `Uploader.ConfirmedExactly` means distinct path strings.
- Uploader.AppendMediaItems: the upload oracle is a function of the call, so a path listed twice gets the same token and outcome both times, whereas the service issues a fresh token per upload. No proved property depends on this.
- Albums.List: `ListQuery` is an open function type. Only the three library modifiers (`PageSize`, `PageToken`, `ExcludeNonAppCreatedData`) are modelled. Caller-written modifiers that use `Set` or `Del`, and a nil modifier, which panics when called (albums.go:305), are not.
- SharedAlbums.List: the same holds for its modifiers; a nil one panics at sharedAlbums.go:117.
- Uploader.SearchFrom: the Go loop never ends if the service never returns an empty page token. The model takes a finite script of answers whose last answer ends the listing (an error or an empty token), so a non-terminating search is not modelled.
- Uploader.Upload: on an error the Go function returns a nil slice. The model returns an empty sequence of items, which is what nil means to every caller.
- JSON numbers kept as `json.Number` (for example `mediaItemsCount`) are strings. The three kinds of enrichment are flattened into one record with a text, a location, an origin and a destination.
