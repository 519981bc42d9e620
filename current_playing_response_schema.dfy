/**
  The payload schemas of src/types/current-playing.music.ts. They repeat
  current-playing-music.ts except that `currentItemPlaying` has no
  `progressMs`; the repeated artist, album and context schemas are the ones
  of `PlayingSchema`.
*/
module CurrentPlayingResponseSchema {
  import opened Wrappers
  import opened Schema
  import P = PlayingSchema

  /** `itemType` is the payload's `type` key. */
  datatype CurrentItemPlaying = CurrentItemPlaying(
    id: string, album: P.Album, artists: seq<P.Artist>, durationMs: int,
    explicit: bool, spotifyHref: string, name: string, itemType: string)

  datatype CurrentPlayingMusicResponse = CurrentPlayingMusicResponse(
    context: P.Context, isPlaying: bool, currentlyPlayingType: string,
    currentItemPlaying: CurrentItemPlaying)

  predicate ValidItem(f: Formats, v: Option<Json>) {
    && IsObject(v)
    && IsString(Field(v, "id"))
    && P.ValidAlbum(f, Field(v, "album"))
    && P.ValidArtists(f, Field(v, "artists"))
    && IsPositiveInt(Field(v, "durationMs"))
    && IsBool(Field(v, "explicit"))
    && IsUrl(f, Field(v, "spotifyHref"))
    && IsString(Field(v, "name"))
    && IsString(Field(v, "type"))
  }

  predicate ValidResponse(f: Formats, v: Option<Json>) {
    && IsObject(v)
    && P.ValidContext(f, Field(v, "context"))
    && IsBool(Field(v, "isPlaying"))
    && IsString(Field(v, "currentlyPlayingType"))
    && ValidItem(f, Field(v, "currentItemPlaying"))
  }

  function ParseItem(f: Formats, path: seq<PathItem>, v: Option<Json>): (r: Result<CurrentItemPlaying, Issue>)
    ensures r.Success? <==> ValidItem(f, v)
    ensures r.Success? ==>
      && Field(v, "id") == Some(JStr(r.value.id))
      && P.ParseAlbum(f, path + [Key("album")], Field(v, "album")) == Success(r.value.album)
      && P.ParseArtists(f, path + [Key("artists")], Field(v, "artists")) == Success(r.value.artists)
      && Field(v, "durationMs") == Some(JNum(r.value.durationMs as real)) && r.value.durationMs > 0
      && Field(v, "explicit") == Some(JBool(r.value.explicit))
      && Field(v, "spotifyHref") == Some(JStr(r.value.spotifyHref))
      && Field(v, "name") == Some(JStr(r.value.name))
      && Field(v, "type") == Some(JStr(r.value.itemType))
  {
    var _ :- ExpectObject(path, v);
    var id :- At(path + [Key("id")], ParseString(Field(v, "id")));
    var album :- P.ParseAlbum(f, path + [Key("album")], Field(v, "album"));
    var artists :- P.ParseArtists(f, path + [Key("artists")], Field(v, "artists"));
    var durationMs :- At(path + [Key("durationMs")], ParsePositiveInt(Field(v, "durationMs")));
    var explicit :- At(path + [Key("explicit")], ParseBool(Field(v, "explicit")));
    var spotifyHref :- At(path + [Key("spotifyHref")], ParseUrl(f, Field(v, "spotifyHref")));
    var name :- At(path + [Key("name")], ParseString(Field(v, "name")));
    var itemType :- At(path + [Key("type")], ParseString(Field(v, "type")));
    Success(CurrentItemPlaying(id, album, artists, durationMs, explicit, spotifyHref, name, itemType))
  }

  /** `currentPlayingMusicResponseSchema` at `path`. */
  function ParseResponse(f: Formats, path: seq<PathItem>, v: Option<Json>): (r: Result<CurrentPlayingMusicResponse, Issue>)
    ensures r.Success? <==> ValidResponse(f, v)
    ensures r.Success? ==>
      && P.ParseContext(f, path + [Key("context")], Field(v, "context")) == Success(r.value.context)
      && Field(v, "isPlaying") == Some(JBool(r.value.isPlaying))
      && Field(v, "currentlyPlayingType") == Some(JStr(r.value.currentlyPlayingType))
      && ParseItem(f, path + [Key("currentItemPlaying")], Field(v, "currentItemPlaying")) == Success(r.value.currentItemPlaying)
  {
    var _ :- ExpectObject(path, v);
    var context :- P.ParseContext(f, path + [Key("context")], Field(v, "context"));
    var isPlaying :- At(path + [Key("isPlaying")], ParseBool(Field(v, "isPlaying")));
    var currentlyPlayingType :- At(path + [Key("currentlyPlayingType")], ParseString(Field(v, "currentlyPlayingType")));
    var item :- ParseItem(f, path + [Key("currentItemPlaying")], Field(v, "currentItemPlaying"));
    Success(CurrentPlayingMusicResponse(context, isPlaying, currentlyPlayingType, item))
  }

  /** `currentPlayingMusicResponseSchema.parse(data)` */
  function ValidateCurrentPlayingMusic(f: Formats, data: Json): (r: Result<CurrentPlayingMusicResponse, Issue>)
    ensures r.Success? <==> ValidResponse(f, Some(data))
    ensures r.Success? ==> r.value.currentItemPlaying.durationMs > 0
    ensures r.Success? ==> data.JObj? && data.fields["isPlaying"] == JBool(r.value.isPlaying)
  {
    ParseResponse(f, [], Some(data))
  }

  /** `safeValidateCurrentPlayingMusic(data)` */
  function SafeValidateCurrentPlayingMusic(f: Formats, data: Json): (r: SafeParseResult<CurrentPlayingMusicResponse>)
    ensures r.success <==> ValidateCurrentPlayingMusic(f, data).Success?
    ensures r.success ==> r.data == Some(ValidateCurrentPlayingMusic(f, data).value) && r.error.None?
    ensures !r.success ==> r.data.None? && r.error == Some(ValidateCurrentPlayingMusic(f, data).error)
  {
    ToSafe(ParseResponse(f, [], Some(data)))
  }

  // ---------------------------------------------------------------------------
  // How the two current-playing schemas relate.

  /** The item of `playingSchema` with its `progressMs` dropped. */
  function WithoutProgress(x: P.CurrentItemPlaying): CurrentItemPlaying {
    CurrentItemPlaying(x.id, x.album, x.artists, x.durationMs, x.explicit, x.spotifyHref, x.name, x.itemType)
  }

  /**
    Everything `playingSchema` accepts, this schema accepts too, with the same
    values apart from the `progressMs` it does not declare.
  */
  lemma PlayingSchemaIsStricter(f: Formats, data: Json)
    requires P.ValidateCurrentPlayingMusic(f, data).Success?
    ensures ValidateCurrentPlayingMusic(f, data).Success?
    ensures var x := P.ValidateCurrentPlayingMusic(f, data).value;
            var y := ValidateCurrentPlayingMusic(f, data).value;
            && y.context == x.context && y.isPlaying == x.isPlaying
            && y.currentlyPlayingType == x.currentlyPlayingType
            && y.currentItemPlaying == WithoutProgress(x.currentItemPlaying)
  {
    var v := Some(data);
    var item := Field(v, "currentItemPlaying");
    var x := P.ParsePlaying(f, [], v).value;
    assert [] + [Key("currentItemPlaying")] == [Key("currentItemPlaying")];
    assert P.ValidItem(f, item);
    assert ValidItem(f, item);
    var y := ParseResponse(f, [], v).value;
    assert P.ParseItem(f, [Key("currentItemPlaying")], item) == Success(x.currentItemPlaying);
    assert ParseItem(f, [Key("currentItemPlaying")], item) == Success(y.currentItemPlaying);
  }

  /**
    An item whose `progressMs` is 0 (or missing, or not a number) can still
    pass this schema, while `playingSchema` rejects it.
  */
  lemma ProgressIsNotChecked(f: Formats, data: Json)
    requires ValidateCurrentPlayingMusic(f, data).Success?
    requires !IsPositiveInt(Field(Field(Some(data), "currentItemPlaying"), "progressMs"))
    ensures P.ValidateCurrentPlayingMusic(f, data).Failure?
  {
  }
}
