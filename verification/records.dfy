/**
  The records exchanged with the photo-library service, and the zero value of
  each one that an endpoint returns on failure.

  JSON numbers that the library keeps as `json.Number` are strings here, as
  they are on the wire.
 */
module Records {

  datatype SharedAlbumOptions = SharedAlbumOptions(isCollaborative: bool, isCommentable: bool)

  datatype ShareInfo = ShareInfo(
    sharedAlbumOptions: SharedAlbumOptions,
    shareableUrl: string,
    shareToken: string,
    isJoined: bool,
    isOwned: bool)

  datatype Album = Album(
    id: string,
    title: string,
    productUrl: string,
    isWriteable: bool,
    shareInfo: ShareInfo,
    mediaItemsCount: string,
    coverPhotoBaseUrl: string,
    coverPhotoMediaItemId: string)

  datatype VideoProcessingStatus = Unspecified | Processing | Ready | Failed

  datatype Photo = Photo(
    cameraMake: string,
    cameraModel: string,
    focalLength: int,
    apertureFNumber: int,
    isoEquivalent: int,
    exposureTime: string)

  datatype Video = Video(cameraMake: string, cameraModel: string, fps: int, status: VideoProcessingStatus)

  datatype MediaMetadata = MediaMetadata(
    creationTime: string,
    width: string,
    height: string,
    photo: Photo,
    video: Video)

  datatype ContributorInfo = ContributorInfo(profilePictureBaseUrl: string, displayName: string)

  datatype MediaItem = MediaItem(
    id: string,
    description: string,
    productUrl: string,
    baseUrl: string,
    mimeType: string,
    mediaMetadata: MediaMetadata,
    contributorInfo: ContributorInfo,
    filename: string)

  // Positions and enrichments: input-only value objects.

  datatype PositionType = PositionTypeUnspecified | FirstInAlbum | LastInAlbum | AfterMediaItem | AfterEnrichmentItem

  datatype AlbumPosition = AlbumPosition(
    position: PositionType,
    relativeMediaItemId: string,
    relativeEnrichmentItemId: string)

  datatype LatLng = LatLng(latitude: int, longitude: int)

  datatype Location = Location(locationName: string, latlng: LatLng)

  datatype NewEnrichmentItem = NewEnrichmentItem(
    text: string,
    location: Location,
    origin: Location,
    destination: Location)

  datatype EnrichmentItem = EnrichmentItem(id: string)

  // Request and response bodies of the album and shared-album endpoints.

  datatype AddEnrichmentRequest = AddEnrichmentRequest(newEnrichmentItem: NewEnrichmentItem, albumPosition: AlbumPosition)

  datatype AddEnrichmentResponse = AddEnrichmentResponse(enrichmentItem: EnrichmentItem)

  datatype CreateRequest = CreateRequest(album: Album)

  datatype ListResponse = ListResponse(albums: seq<Album>, nextPageToken: string)

  /** The shared-albums listing names its albums `sharedAlbums`. */
  datatype SharedAlbumsListResponse = SharedAlbumsListResponse(sharedAlbums: seq<Album>, nextPageToken: string)

  datatype ShareResponse = ShareResponse(shareInfo: ShareInfo)

  datatype JoinResponse = JoinResponse(album: Album)

  /** The `error` object of a non-2xx response body. */
  datatype ErrorResponse = ErrorResponse(code: string, message: string, status: string)

  // Media-item creation, as the upload workflow uses it.

  /** A draft for one new media item: its description and the token of its uploaded bytes. */
  datatype NewMediaItem = NewMediaItem(description: string, uploadToken: string)

  datatype BatchCreateRequest = BatchCreateRequest(albumId: string, newMediaItems: seq<NewMediaItem>)

  datatype NewMediaItemResult = NewMediaItemResult(message: string, mediaItem: MediaItem)

  // Zero values.

  const ZeroShareInfo := ShareInfo(SharedAlbumOptions(false, false), "", "", false, false)

  const ZeroAlbum := Album("", "", "", false, ZeroShareInfo, "", "", "")

  const ZeroAddEnrichmentResponse := AddEnrichmentResponse(EnrichmentItem(""))

  const ZeroListResponse := ListResponse([], "")

  const ZeroSharedAlbumsListResponse := SharedAlbumsListResponse([], "")

  const ZeroShareResponse := ShareResponse(ZeroShareInfo)

  const ZeroJoinResponse := JoinResponse(ZeroAlbum)
}
