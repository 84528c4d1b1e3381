/**
  Endpoint addressing. Every resource client owns a fixed base URL and forms
  request URLs as the base itself, `base + "/" + id`, `base + "/" + id + ":" +
  action`, or `base + ":" + action`. `Parse` reads a URL back into the
  endpoint it addresses; the round trip holds as long as the id has no `:`.
 */
module Urls {
  import opened Errors
  import Text

  const AlbumsBase := "https://photoslibrary.googleapis.com/v1/albums"
  const MediaItemsBase := "https://photoslibrary.googleapis.com/v1/mediaItems"
  const SharedAlbumsBase := "https://photoslibrary.googleapis.com/v1/sharedAlbums"

  /** What a request URL addresses under its base. */
  datatype Target =
    | Collection
    | Resource(id: string)
    | ResourceAction(id: string, action: string)
    | CollectionAction(action: string)

  function Url(base: string, t: Target): (url: string)
  {
    match t
    case Collection => base
    case Resource(id) => base + "/" + id
    case ResourceAction(id, action) => base + "/" + id + ":" + action
    case CollectionAction(action) => base + ":" + action
  }

  /** Ids that contain a `:` cannot be told apart from an action suffix. */
  predicate Unambiguous(t: Target)
  {
    match t
    case Resource(id) => ':' !in id
    case ResourceAction(id, _) => ':' !in id
    case _ => true
  }

  function Parse(base: string, url: string): (r: Option<Target>)
  {
    if |url| < |base| || url[..|base|] != base then None
    else
      var rest := url[|base|..];
      if rest == [] then Some(Collection)
      else if rest[0] == ':' then Some(CollectionAction(rest[1..]))
      else if rest[0] == '/' then
        var path := rest[1..];
        if ':' in path then
          var i := Text.IndexOf(path, ':');
          Some(ResourceAction(path[..i], path[i + 1..]))
        else Some(Resource(path))
      else None
  }

  /** A URL built for an unambiguous target addresses exactly that target. */
  lemma ParseUrl(base: string, t: Target)
    requires Unambiguous(t)
    ensures Parse(base, Url(base, t)) == Some(t)
  {
    var url := Url(base, t);
    assert url[..|base|] == base;
    var rest := url[|base|..];
    match t
    case Collection =>
      assert rest == [];
    case Resource(id) =>
      assert rest == "/" + id;
      assert rest[1..] == id;
    case ResourceAction(id, action) =>
      assert rest == "/" + id + ":" + action;
      var path := rest[1..];
      assert path == id + ":" + action;
      Text.FirstAfter(id, ':', action);
      assert path[..|id|] == id;
      assert path[|id| + 1..] == action;
      assert Parse(base, url) == Some(ResourceAction(path[..|id|], path[|id| + 1..]));
    case CollectionAction(action) =>
      assert rest == ":" + action;
      assert rest[1..] == action;
  }

  /**
    Where the round trip breaks: an id `a + ":" + b` whose first colon comes
    after `a` names the same URL as action `b` on resource `a`, and reads back
    as that action.
   */
  lemma ColonIdReadsAsAction(base: string, a: string, b: string)
    requires ':' !in a
    ensures Url(base, Resource(a + ":" + b)) == Url(base, ResourceAction(a, b))
    ensures Parse(base, Url(base, Resource(a + ":" + b))) == Some(ResourceAction(a, b))
  {
    assert base + "/" + (a + ":" + b) == base + "/" + a + ":" + b;
    ParseUrl(base, ResourceAction(a, b));
  }

  /** Fewer than `n` characters in common at the front of two strings. */
  predicate DifferAt(a: string, b: string, n: nat)
  {
    n < |a| && n < |b| && a[n] != b[n]
  }

  lemma PrefixMismatch(url: string, base: string, other: string, n: nat)
    requires |other| <= |url| && url[..|other|] == other
    requires DifferAt(other, base, n)
    ensures Parse(base, url) == None
  {
    assert url[n] == other[n];
  }

  /** No URL of one resource client addresses anything under another's base. */
  lemma BasesApart(t: Target)
    ensures Parse(AlbumsBase, Url(SharedAlbumsBase, t)) == None
    ensures Parse(SharedAlbumsBase, Url(AlbumsBase, t)) == None
    ensures Parse(AlbumsBase, Url(MediaItemsBase, t)) == None
    ensures Parse(MediaItemsBase, Url(AlbumsBase, t)) == None
    ensures Parse(SharedAlbumsBase, Url(MediaItemsBase, t)) == None
    ensures Parse(MediaItemsBase, Url(SharedAlbumsBase, t)) == None
  {
    assert AlbumsBase[40] == 'a' && SharedAlbumsBase[40] == 's' && MediaItemsBase[40] == 'm';
    var a, s, m := Url(AlbumsBase, t), Url(SharedAlbumsBase, t), Url(MediaItemsBase, t);
    assert a[..|AlbumsBase|] == AlbumsBase;
    assert s[..|SharedAlbumsBase|] == SharedAlbumsBase;
    assert m[..|MediaItemsBase|] == MediaItemsBase;
    PrefixMismatch(s, AlbumsBase, SharedAlbumsBase, 40);
    PrefixMismatch(a, SharedAlbumsBase, AlbumsBase, 40);
    PrefixMismatch(m, AlbumsBase, MediaItemsBase, 40);
    PrefixMismatch(a, MediaItemsBase, AlbumsBase, 40);
    PrefixMismatch(m, SharedAlbumsBase, MediaItemsBase, 40);
    PrefixMismatch(s, MediaItemsBase, SharedAlbumsBase, 40);
  }
}
