/** The media block of a post (components/PostMedia.tsx): a video player when
    the post has a video, otherwise a grid of at most nine image tiles whose
    ninth tile carries a "+N" overlay for the images not shown. */
module PostMedia {
  import opened Common
  import Url

  /** `ApiPostImage` as the grid reads it. */
  datatype PostImage = PostImage(id: int, image: Option<string>)

  /** One grid tile: key, resolved source, position (the alt text is
      `Image {position + 1}`), whether the single-image style applies, and the
      overlay count if any. */
  datatype Tile = Tile(key: int, src: string, position: nat, singleStyle: bool, overlay: Option<int>)

  datatype Media = NoMedia | Video(src: Option<string>) | Grid(columns: nat, tiles: seq<Tile>)

  const MaxTiles: nat := 9

  /** Column count: two for exactly two images, three from three on, else one. */
  function Columns(count: nat): (c: nat)
    ensures count == 2 ==> c == 2
    ensures count >= 3 ==> c == 3
    ensures count < 2 ==> c == 1
  {
    if count == 2 then 2 else if count >= 3 then 3 else 1
  }

  /** `getImageUrl(img.image) || ''` */
  function TileSrc(image: Option<string>, env: Option<string>): (s: string)
    ensures Url.ImageUrl(image, env).Some? ==> s == Url.ImageUrl(image, env).value
    ensures Url.ImageUrl(image, env).None? ==> s == ""
  {
    match Url.ImageUrl(image, env)
    case Some(u) => u
    case None => ""
  }

  function TileAt(images: seq<PostImage>, i: nat, env: Option<string>): (t: Tile)
    requires i < |images|
  {
    Tile(images[i].id, TileSrc(images[i].image, env), i, |images| == 1,
      if i == MaxTiles - 1 && |images| > MaxTiles then Some(|images| - MaxTiles) else None)
  }

  /** What the component renders. */
  function Render(video: Option<string>, images: Option<seq<PostImage>>, env: Option<string>): (m: Media)
    ensures m == NoMedia <==> !Truthy(video) && (images.None? || images.value == [])
    ensures Truthy(video) ==> m == Video(Url.ImageUrl(video, env))
    ensures m.Grid? ==> !Truthy(video) && images.Some? && m.columns == Columns(|images.value|)
    ensures m.Grid? ==> |m.tiles| == if |images.value| < MaxTiles then |images.value| else MaxTiles
    ensures m.Grid? ==> forall i :: 0 <= i < |m.tiles| ==> m.tiles[i] == TileAt(images.value, i, env)
  {
    var hasImages := images.Some? && |images.value| > 0;
    if !Truthy(video) && !hasImages then NoMedia
    else if Truthy(video) then Video(Url.ImageUrl(video, env))
    else
      var shown := Take(images.value, MaxTiles);
      Grid(Columns(|images.value|), seq(|shown|, i requires 0 <= i < |shown| => TileAt(images.value, i, env)))
  }

  /** The overlay appears on the ninth tile only, exactly when images are
      hidden, and the shown tiles plus the overlay count account for every
      image. */
  lemma OverlayAccountsForHidden(video: Option<string>, images: seq<PostImage>, env: Option<string>)
    requires !Truthy(video) && images != []
    ensures var m := Render(video, Some(images), env);
      && m.Grid?
      && (forall i :: 0 <= i < |m.tiles| ==> (m.tiles[i].overlay.Some? <==> i == MaxTiles - 1 && |images| > MaxTiles))
      && (|images| > MaxTiles ==> |m.tiles| + m.tiles[MaxTiles - 1].overlay.value == |images|)
      && (|images| <= MaxTiles ==> |m.tiles| == |images|)
  {
  }

  /** Every shown tile is the image at the same position, in order. */
  lemma TilesKeepOrder(images: seq<PostImage>, env: Option<string>, i: nat)
    requires i < |images| && i < MaxTiles
    ensures Render(None, Some(images), env).tiles[i].key == images[i].id
    ensures Render(None, Some(images), env).tiles[i].position == i
  {
  }

  /** The single-image style applies to every tile or to none. */
  lemma SingleStyleOnlyAlone(images: seq<PostImage>, env: Option<string>)
    requires images != []
    ensures var m := Render(None, Some(images), env);
      forall i :: 0 <= i < |m.tiles| ==> (m.tiles[i].singleStyle <==> |images| == 1)
  {
  }
}
