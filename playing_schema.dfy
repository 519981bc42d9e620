/**
  The payload schemas of src/types/current-playing-music.ts: `artistSchema`,
  `albumSchema`, `currentItemPlayingSchema`, `contextSchema`, `playingSchema`
  and the two validate functions.

  The artist, album and context schemas are repeated word for word in
  current-playing.music.ts (and the artist schema in top-tracks.ts); they are
  defined once, here.
*/
module PlayingSchema {
  import opened Wrappers
  import opened Schema

  datatype Artist = Artist(id: string, name: string, url: string)

  datatype Album = Album(id: string, name: string, imageUrl: string, releaseDate: Date)

  /** `itemType` is the payload's `type` key (a reserved word in Dafny). */
  datatype CurrentItemPlaying = CurrentItemPlaying(
    id: string, album: Album, artists: seq<Artist>, durationMs: int, progressMs: int,
    explicit: bool, spotifyHref: string, name: string, itemType: string)

  /** `contextType` is the payload's `type` key. */
  datatype Context = Context(spotifyHref: string, contextType: string)

  datatype PlayingMusicResponse = PlayingMusicResponse(
    context: Context, isPlaying: bool, currentlyPlayingType: string,
    currentItemPlaying: CurrentItemPlaying)

  /** Both names are inferred from `playingSchema`: they are one type. */
  type CurrentPlayingMusicResponse = PlayingMusicResponse

  // ---------------------------------------------------------------------------
  // What each schema accepts, field by field.

  predicate ValidArtist(f: Formats, v: Option<Json>) {
    && IsObject(v)
    && IsString(Field(v, "id"))
    && IsString(Field(v, "name"))
    && IsUrl(f, Field(v, "url"))
  }

  predicate ValidArtists(f: Formats, v: Option<Json>) {
    v.Some? && v.value.JArr? &&
    forall i :: 0 <= i < |v.value.items| ==> ValidArtist(f, Some(v.value.items[i]))
  }

  predicate ValidAlbum(f: Formats, v: Option<Json>) {
    && IsObject(v)
    && IsString(Field(v, "id"))
    && IsString(Field(v, "name"))
    && IsUrl(f, Field(v, "imageUrl"))
    && IsDate(f, Field(v, "releaseDate"))
  }

  predicate ValidItem(f: Formats, v: Option<Json>) {
    && IsObject(v)
    && IsString(Field(v, "id"))
    && ValidAlbum(f, Field(v, "album"))
    && ValidArtists(f, Field(v, "artists"))
    && IsPositiveInt(Field(v, "durationMs"))
    && IsPositiveInt(Field(v, "progressMs"))
    && IsBool(Field(v, "explicit"))
    && IsUrl(f, Field(v, "spotifyHref"))
    && IsString(Field(v, "name"))
    && IsString(Field(v, "type"))
  }

  predicate ValidContext(f: Formats, v: Option<Json>) {
    && IsObject(v)
    && IsUrl(f, Field(v, "spotifyHref"))
    && IsString(Field(v, "type"))
  }

  predicate ValidPlaying(f: Formats, v: Option<Json>) {
    && IsObject(v)
    && ValidContext(f, Field(v, "context"))
    && IsBool(Field(v, "isPlaying"))
    && IsString(Field(v, "currentlyPlayingType"))
    && ValidItem(f, Field(v, "currentItemPlaying"))
  }

  // ---------------------------------------------------------------------------
  // The schemas. Each accepts exactly what its predicate describes, and what
  // it returns holds the input's values for the declared keys (unknown keys
  // are dropped).

  function ParseArtist(f: Formats, path: seq<PathItem>, v: Option<Json>): (r: Result<Artist, Issue>)
    ensures r.Success? <==> ValidArtist(f, v)
    ensures r.Success? ==>
      && Field(v, "id") == Some(JStr(r.value.id))
      && Field(v, "name") == Some(JStr(r.value.name))
      && Field(v, "url") == Some(JStr(r.value.url))
  {
    var _ :- ExpectObject(path, v);
    var id :- At(path + [Key("id")], ParseString(Field(v, "id")));
    var name :- At(path + [Key("name")], ParseString(Field(v, "name")));
    var url :- At(path + [Key("url")], ParseUrl(f, Field(v, "url")));
    Success(Artist(id, name, url))
  }

  /** `artistSchema` as the element schema of `z.array`. */
  function ArtistElement(f: Formats): (seq<PathItem>, Json) -> Result<Artist, Issue> {
    (p, j) => ParseArtist(f, p, Some(j))
  }

  function ParseArtists(f: Formats, path: seq<PathItem>, v: Option<Json>): (r: Result<seq<Artist>, Issue>)
    ensures r.Success? <==> ValidArtists(f, v)
    ensures r.Success? ==> |r.value| == |v.value.items|
    ensures r.Success? ==>
      forall i :: 0 <= i < |r.value| ==> ParseArtist(f, path + [Index(i)], Some(v.value.items[i])) == Success(r.value[i])
  {
    ParseArray(path, v, ArtistElement(f))
  }

  function ParseAlbum(f: Formats, path: seq<PathItem>, v: Option<Json>): (r: Result<Album, Issue>)
    ensures r.Success? <==> ValidAlbum(f, v)
    ensures r.Success? ==>
      && Field(v, "id") == Some(JStr(r.value.id))
      && Field(v, "name") == Some(JStr(r.value.name))
      && Field(v, "imageUrl") == Some(JStr(r.value.imageUrl))
      && Field(v, "releaseDate") == Some(r.value.releaseDate.source)
  {
    var _ :- ExpectObject(path, v);
    var id :- At(path + [Key("id")], ParseString(Field(v, "id")));
    var name :- At(path + [Key("name")], ParseString(Field(v, "name")));
    var imageUrl :- At(path + [Key("imageUrl")], ParseUrl(f, Field(v, "imageUrl")));
    var releaseDate :- At(path + [Key("releaseDate")], ParseCoercedDate(f, Field(v, "releaseDate")));
    Success(Album(id, name, imageUrl, releaseDate))
  }

  function ParseItem(f: Formats, path: seq<PathItem>, v: Option<Json>): (r: Result<CurrentItemPlaying, Issue>)
    ensures r.Success? <==> ValidItem(f, v)
    ensures r.Success? ==>
      && Field(v, "id") == Some(JStr(r.value.id))
      && ParseAlbum(f, path + [Key("album")], Field(v, "album")) == Success(r.value.album)
      && ParseArtists(f, path + [Key("artists")], Field(v, "artists")) == Success(r.value.artists)
      && Field(v, "durationMs") == Some(JNum(r.value.durationMs as real)) && r.value.durationMs > 0
      && Field(v, "progressMs") == Some(JNum(r.value.progressMs as real)) && r.value.progressMs > 0
      && Field(v, "explicit") == Some(JBool(r.value.explicit))
      && Field(v, "spotifyHref") == Some(JStr(r.value.spotifyHref))
      && Field(v, "name") == Some(JStr(r.value.name))
      && Field(v, "type") == Some(JStr(r.value.itemType))
  {
    var _ :- ExpectObject(path, v);
    var id :- At(path + [Key("id")], ParseString(Field(v, "id")));
    var album :- ParseAlbum(f, path + [Key("album")], Field(v, "album"));
    var artists :- ParseArtists(f, path + [Key("artists")], Field(v, "artists"));
    var durationMs :- At(path + [Key("durationMs")], ParsePositiveInt(Field(v, "durationMs")));
    var progressMs :- At(path + [Key("progressMs")], ParsePositiveInt(Field(v, "progressMs")));
    var explicit :- At(path + [Key("explicit")], ParseBool(Field(v, "explicit")));
    var spotifyHref :- At(path + [Key("spotifyHref")], ParseUrl(f, Field(v, "spotifyHref")));
    var name :- At(path + [Key("name")], ParseString(Field(v, "name")));
    var itemType :- At(path + [Key("type")], ParseString(Field(v, "type")));
    Success(CurrentItemPlaying(id, album, artists, durationMs, progressMs, explicit, spotifyHref, name, itemType))
  }

  function ParseContext(f: Formats, path: seq<PathItem>, v: Option<Json>): (r: Result<Context, Issue>)
    ensures r.Success? <==> ValidContext(f, v)
    ensures r.Success? ==>
      && Field(v, "spotifyHref") == Some(JStr(r.value.spotifyHref))
      && Field(v, "type") == Some(JStr(r.value.contextType))
  {
    var _ :- ExpectObject(path, v);
    var spotifyHref :- At(path + [Key("spotifyHref")], ParseUrl(f, Field(v, "spotifyHref")));
    var contextType :- At(path + [Key("type")], ParseString(Field(v, "type")));
    Success(Context(spotifyHref, contextType))
  }

  function ParsePlaying(f: Formats, path: seq<PathItem>, v: Option<Json>): (r: Result<PlayingMusicResponse, Issue>)
    ensures r.Success? <==> ValidPlaying(f, v)
    ensures r.Success? ==>
      && ParseContext(f, path + [Key("context")], Field(v, "context")) == Success(r.value.context)
      && Field(v, "isPlaying") == Some(JBool(r.value.isPlaying))
      && Field(v, "currentlyPlayingType") == Some(JStr(r.value.currentlyPlayingType))
      && ParseItem(f, path + [Key("currentItemPlaying")], Field(v, "currentItemPlaying")) == Success(r.value.currentItemPlaying)
  {
    var _ :- ExpectObject(path, v);
    var context :- ParseContext(f, path + [Key("context")], Field(v, "context"));
    var isPlaying :- At(path + [Key("isPlaying")], ParseBool(Field(v, "isPlaying")));
    var currentlyPlayingType :- At(path + [Key("currentlyPlayingType")], ParseString(Field(v, "currentlyPlayingType")));
    var item :- ParseItem(f, path + [Key("currentItemPlaying")], Field(v, "currentItemPlaying"));
    Success(PlayingMusicResponse(context, isPlaying, currentlyPlayingType, item))
  }

  // ---------------------------------------------------------------------------
  // The exported validate functions. A thrown `ZodError` is a `Failure`.

  /** `playingSchema.parse(data)` */
  function ValidateCurrentPlayingMusic(f: Formats, data: Json): (r: Result<CurrentPlayingMusicResponse, Issue>)
    ensures r.Success? <==> ValidPlaying(f, Some(data))
    ensures r.Success? ==> r.value.currentItemPlaying.durationMs > 0 && r.value.currentItemPlaying.progressMs > 0
    ensures r.Success? ==> data.JObj? && data.fields["isPlaying"] == JBool(r.value.isPlaying)
  {
    ParsePlaying(f, [], Some(data))
  }

  /** `safeValidateCurrentPlayingMusic(data)`: the same verdict without throwing. */
  function SafeValidateCurrentPlayingMusic(f: Formats, data: Json): (r: SafeParseResult<CurrentPlayingMusicResponse>)
    ensures r.success <==> ValidateCurrentPlayingMusic(f, data).Success?
    ensures r.success ==> r.data == Some(ValidateCurrentPlayingMusic(f, data).value) && r.error.None?
    ensures !r.success ==> r.data.None? && r.error == Some(ValidateCurrentPlayingMusic(f, data).error)
  {
    ToSafe(ParsePlaying(f, [], Some(data)))
  }

  // ---------------------------------------------------------------------------
  // Encoding a typed value back to JSON, and the round trip.

  function ArtistJson(a: Artist): Json {
    JObj(map["id" := JStr(a.id), "name" := JStr(a.name), "url" := JStr(a.url)])
  }

  function ArtistsJson(artists: seq<Artist>): (j: Json)
    ensures j.JArr? && |j.items| == |artists|
    ensures forall i :: 0 <= i < |artists| ==> j.items[i] == ArtistJson(artists[i])
  {
    JArr(seq(|artists|, i requires 0 <= i < |artists| => ArtistJson(artists[i])))
  }

  function AlbumJson(a: Album): Json {
    JObj(map["id" := JStr(a.id), "name" := JStr(a.name), "imageUrl" := JStr(a.imageUrl),
             "releaseDate" := a.releaseDate.source])
  }

  function ItemJson(x: CurrentItemPlaying): Json {
    JObj(map["id" := JStr(x.id), "album" := AlbumJson(x.album), "artists" := ArtistsJson(x.artists),
             "durationMs" := JNum(x.durationMs as real), "progressMs" := JNum(x.progressMs as real),
             "explicit" := JBool(x.explicit), "spotifyHref" := JStr(x.spotifyHref),
             "name" := JStr(x.name), "type" := JStr(x.itemType)])
  }

  function ContextJson(c: Context): Json {
    JObj(map["spotifyHref" := JStr(c.spotifyHref), "type" := JStr(c.contextType)])
  }

  function PlayingJson(p: PlayingMusicResponse): Json {
    JObj(map["context" := ContextJson(p.context), "isPlaying" := JBool(p.isPlaying),
             "currentlyPlayingType" := JStr(p.currentlyPlayingType),
             "currentItemPlaying" := ItemJson(p.currentItemPlaying)])
  }

  /** The refinements a typed value must meet for its JSON to pass the schema. */
  predicate AlbumOk(f: Formats, a: Album) {
    f.isUrl(a.imageUrl) && f.coercesToDate(a.releaseDate.source)
  }

  predicate ItemOk(f: Formats, x: CurrentItemPlaying) {
    && AlbumOk(f, x.album)
    && (forall i :: 0 <= i < |x.artists| ==> f.isUrl(x.artists[i].url))
    && x.durationMs > 0 && x.progressMs > 0
    && f.isUrl(x.spotifyHref)
  }

  predicate PlayingOk(f: Formats, p: PlayingMusicResponse) {
    f.isUrl(p.context.spotifyHref) && ItemOk(f, p.currentItemPlaying)
  }

  lemma ArtistsRoundTrip(f: Formats, path: seq<PathItem>, artists: seq<Artist>)
    requires forall i :: 0 <= i < |artists| ==> f.isUrl(artists[i].url)
    ensures ParseArtists(f, path, Some(ArtistsJson(artists))) == Success(artists)
  {
    var j := ArtistsJson(artists);
    forall i | 0 <= i < |artists|
      ensures ValidArtist(f, Some(j.items[i]))
    {
      assert j.items[i] == ArtistJson(artists[i]);
    }
    var r := ParseArtists(f, path, Some(j));
    assert r.Success?;
    forall i | 0 <= i < |artists|
      ensures r.value[i] == artists[i]
    {
      assert ParseArtist(f, path + [Index(i)], Some(j.items[i])) == Success(r.value[i]);
      assert j.items[i] == ArtistJson(artists[i]);
    }
    assert r.value == artists;
  }

  lemma AlbumRoundTrip(f: Formats, path: seq<PathItem>, a: Album)
    requires AlbumOk(f, a)
    ensures ParseAlbum(f, path, Some(AlbumJson(a))) == Success(a)
  {
    var v := Some(AlbumJson(a));
    assert Field(v, "id") == Some(JStr(a.id));
    assert Field(v, "name") == Some(JStr(a.name));
    assert Field(v, "imageUrl") == Some(JStr(a.imageUrl));
    assert Field(v, "releaseDate") == Some(a.releaseDate.source);
  }

  lemma ContextRoundTrip(f: Formats, path: seq<PathItem>, c: Context)
    requires f.isUrl(c.spotifyHref)
    ensures ParseContext(f, path, Some(ContextJson(c))) == Success(c)
  {
    var v := Some(ContextJson(c));
    assert Field(v, "spotifyHref") == Some(JStr(c.spotifyHref));
    assert Field(v, "type") == Some(JStr(c.contextType));
  }

  lemma ItemRoundTrip(f: Formats, path: seq<PathItem>, x: CurrentItemPlaying)
    requires ItemOk(f, x)
    ensures ParseItem(f, path, Some(ItemJson(x))) == Success(x)
  {
    var v := Some(ItemJson(x));
    assert Field(v, "id") == Some(JStr(x.id));
    assert Field(v, "album") == Some(AlbumJson(x.album));
    assert Field(v, "artists") == Some(ArtistsJson(x.artists));
    assert Field(v, "durationMs") == Some(JNum(x.durationMs as real));
    assert Field(v, "progressMs") == Some(JNum(x.progressMs as real));
    assert Field(v, "explicit") == Some(JBool(x.explicit));
    assert Field(v, "spotifyHref") == Some(JStr(x.spotifyHref));
    assert Field(v, "name") == Some(JStr(x.name));
    assert Field(v, "type") == Some(JStr(x.itemType));
    AlbumRoundTrip(f, path + [Key("album")], x.album);
    ArtistsRoundTrip(f, path + [Key("artists")], x.artists);
    assert (x.durationMs as real).Floor == x.durationMs;
    assert (x.progressMs as real).Floor == x.progressMs;
    assert ValidItem(f, v);
  }

  /** `playingSchema` assembled from its parts once each part is known to parse. */
  lemma ParsePlayingFromParts(f: Formats, path: seq<PathItem>, v: Option<Json>,
                              context: Context, isPlaying: bool, playingType: string, item: CurrentItemPlaying)
    requires IsObject(v)
    requires ParseContext(f, path + [Key("context")], Field(v, "context")) == Success(context)
    requires Field(v, "isPlaying") == Some(JBool(isPlaying))
    requires Field(v, "currentlyPlayingType") == Some(JStr(playingType))
    requires ParseItem(f, path + [Key("currentItemPlaying")], Field(v, "currentItemPlaying")) == Success(item)
    ensures ParsePlaying(f, path, v) == Success(PlayingMusicResponse(context, isPlaying, playingType, item))
  {
  }

  /**
    Every well-formed response, written out as JSON, passes
    `validateCurrentPlayingMusic` and comes back unchanged.
  */
  lemma PlayingRoundTrip(f: Formats, p: PlayingMusicResponse)
    requires PlayingOk(f, p)
    ensures ValidateCurrentPlayingMusic(f, PlayingJson(p)) == Success(p)
  {
    var v := Some(PlayingJson(p));
    assert Field(v, "context") == Some(ContextJson(p.context));
    assert Field(v, "isPlaying") == Some(JBool(p.isPlaying));
    assert Field(v, "currentlyPlayingType") == Some(JStr(p.currentlyPlayingType));
    assert Field(v, "currentItemPlaying") == Some(ItemJson(p.currentItemPlaying));
    assert [] + [Key("context")] == [Key("context")];
    assert [] + [Key("currentItemPlaying")] == [Key("currentItemPlaying")];
    ContextRoundTrip(f, [Key("context")], p.context);
    ItemRoundTrip(f, [Key("currentItemPlaying")], p.currentItemPlaying);
    ParsePlayingFromParts(f, [], v, p.context, p.isPlaying, p.currentlyPlayingType, p.currentItemPlaying);
  }

  /** A payload missing any of the four top-level keys is rejected. */
  lemma TopLevelFieldsRequired(f: Formats, data: Json, key: string)
    requires key in {"context", "isPlaying", "currentlyPlayingType", "currentItemPlaying"}
    requires data.JObj? && key !in data.fields
    ensures ValidateCurrentPlayingMusic(f, data).Failure?
  {
  }

  /** A track that has not started yet (`progressMs` of 0) is rejected. */
  lemma ZeroProgressRejected(f: Formats, data: Json)
    requires Field(Field(Some(data), "currentItemPlaying"), "progressMs") == Some(JNum(0.0))
    ensures ValidateCurrentPlayingMusic(f, data).Failure?
  {
  }
}
