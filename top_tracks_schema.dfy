/**
  The payload schemas of src/types/top-tracks.ts: `trackSchema`,
  `tracksResponseSchema` and the two validate functions. The artist schema is
  the one of `PlayingSchema`; this file's album differs in taking
  `releaseDate` as a string that is then turned into a `Date`.
*/
module TopTracksSchema {
  import opened Wrappers
  import opened Schema
  import P = PlayingSchema

  /** `releaseDate` is `new Date(str)` of the string the payload held. */
  datatype Album = Album(id: string, name: string, imageUrl: string, releaseDate: Date)

  datatype Track = Track(
    id: string, name: string, artists: seq<P.Artist>, album: Album,
    durationMs: int, popularity: int, userRank: int, spotifyUrl: string)

  datatype TracksResponse = TracksResponse(tracks: seq<Track>)

  predicate ValidAlbum(f: Formats, v: Option<Json>) {
    && IsObject(v)
    && IsString(Field(v, "id"))
    && IsString(Field(v, "name"))
    && IsUrl(f, Field(v, "imageUrl"))
    && IsString(Field(v, "releaseDate"))
  }

  predicate ValidTrack(f: Formats, v: Option<Json>) {
    && IsObject(v)
    && IsString(Field(v, "id"))
    && IsString(Field(v, "name"))
    && P.ValidArtists(f, Field(v, "artists"))
    && ValidAlbum(f, Field(v, "album"))
    && IsPositiveInt(Field(v, "durationMs"))
    && IsIntBetween(Field(v, "popularity"), 0, 100)
    && IsPositiveInt(Field(v, "userRank"))
    && IsUrl(f, Field(v, "spotifyUrl"))
  }

  predicate ValidTracksResponse(f: Formats, v: Option<Json>) {
    && IsObject(v)
    && var tracks := Field(v, "tracks");
       tracks.Some? && tracks.value.JArr? &&
       forall i :: 0 <= i < |tracks.value.items| ==> ValidTrack(f, Some(tracks.value.items[i]))
  }

  /** `z.string().transform((str) => new Date(str))`: any string is accepted. */
  function ParseDateString(v: Option<Json>): (r: Result<Date, IssueKind>)
    ensures r.Success? <==> IsString(v)
    ensures r.Success? ==> v == Some(r.value.source) && r.value.source.JStr?
  {
    var s :- ParseString(v);
    Success(DateFrom(JStr(s)))
  }

  function ParseAlbum(f: Formats, path: seq<PathItem>, v: Option<Json>): (r: Result<Album, Issue>)
    ensures r.Success? <==> ValidAlbum(f, v)
    ensures r.Success? ==>
      && Field(v, "id") == Some(JStr(r.value.id))
      && Field(v, "name") == Some(JStr(r.value.name))
      && Field(v, "imageUrl") == Some(JStr(r.value.imageUrl))
      && Field(v, "releaseDate") == Some(r.value.releaseDate.source)
  {
    var _ :- ExpectObject(path, v);
    var id :- At(path + [Key("id")], ParseString(Field(v, "id")));
    var name :- At(path + [Key("name")], ParseString(Field(v, "name")));
    var imageUrl :- At(path + [Key("imageUrl")], ParseUrl(f, Field(v, "imageUrl")));
    var releaseDate :- At(path + [Key("releaseDate")], ParseDateString(Field(v, "releaseDate")));
    Success(Album(id, name, imageUrl, releaseDate))
  }

  function ParseTrack(f: Formats, path: seq<PathItem>, v: Option<Json>): (r: Result<Track, Issue>)
    ensures r.Success? <==> ValidTrack(f, v)
    ensures r.Success? ==>
      && Field(v, "id") == Some(JStr(r.value.id))
      && Field(v, "name") == Some(JStr(r.value.name))
      && P.ParseArtists(f, path + [Key("artists")], Field(v, "artists")) == Success(r.value.artists)
      && ParseAlbum(f, path + [Key("album")], Field(v, "album")) == Success(r.value.album)
      && Field(v, "durationMs") == Some(JNum(r.value.durationMs as real)) && r.value.durationMs > 0
      && Field(v, "popularity") == Some(JNum(r.value.popularity as real)) && 0 <= r.value.popularity <= 100
      && Field(v, "userRank") == Some(JNum(r.value.userRank as real)) && r.value.userRank > 0
      && Field(v, "spotifyUrl") == Some(JStr(r.value.spotifyUrl))
  {
    var _ :- ExpectObject(path, v);
    var id :- At(path + [Key("id")], ParseString(Field(v, "id")));
    var name :- At(path + [Key("name")], ParseString(Field(v, "name")));
    var artists :- P.ParseArtists(f, path + [Key("artists")], Field(v, "artists"));
    var album :- ParseAlbum(f, path + [Key("album")], Field(v, "album"));
    var durationMs :- At(path + [Key("durationMs")], ParsePositiveInt(Field(v, "durationMs")));
    var popularity :- At(path + [Key("popularity")], ParseIntBetween(Field(v, "popularity"), 0, 100));
    var userRank :- At(path + [Key("userRank")], ParsePositiveInt(Field(v, "userRank")));
    var spotifyUrl :- At(path + [Key("spotifyUrl")], ParseUrl(f, Field(v, "spotifyUrl")));
    Success(Track(id, name, artists, album, durationMs, popularity, userRank, spotifyUrl))
  }

  /** `trackSchema` as the element schema of `z.array`. */
  function TrackElement(f: Formats): (seq<PathItem>, Json) -> Result<Track, Issue> {
    (p, j) => ParseTrack(f, p, Some(j))
  }

  /** `tracksResponseSchema` at `path`. */
  function ParseTracksResponse(f: Formats, path: seq<PathItem>, v: Option<Json>): (r: Result<TracksResponse, Issue>)
    ensures r.Success? <==> ValidTracksResponse(f, v)
    ensures r.Success? ==>
      var items := Field(v, "tracks").value.items;
      && |r.value.tracks| == |items|
      && forall i :: 0 <= i < |items| ==>
           ParseTrack(f, path + [Key("tracks")] + [Index(i)], Some(items[i])) == Success(r.value.tracks[i])
  {
    var _ :- ExpectObject(path, v);
    var tracks :- ParseArray(path + [Key("tracks")], Field(v, "tracks"), TrackElement(f));
    Success(TracksResponse(tracks))
  }

  /** `tracksResponseSchema.parse(data)` */
  function ValidateTracksResponse(f: Formats, data: Json): (r: Result<TracksResponse, Issue>)
    ensures r.Success? <==> ValidTracksResponse(f, Some(data))
    ensures r.Success? ==> forall i :: 0 <= i < |r.value.tracks| ==>
      var t := r.value.tracks[i];
      0 <= t.popularity <= 100 && t.userRank > 0 && t.durationMs > 0
  {
    ParseTracksResponse(f, [], Some(data))
  }

  /** `safeValidateTracksResponse(data)` */
  function SafeValidateTracksResponse(f: Formats, data: Json): (r: SafeParseResult<TracksResponse>)
    ensures r.success <==> ValidateTracksResponse(f, data).Success?
    ensures r.success ==> r.data == Some(ValidateTracksResponse(f, data).value) && r.error.None?
    ensures !r.success ==> r.data.None? && r.error == Some(ValidateTracksResponse(f, data).error)
  {
    ToSafe(ParseTracksResponse(f, [], Some(data)))
  }

  /**
    One bad track spoils the whole response: the response is valid exactly
    when every element of `tracks` is.
  */
  lemma OneInvalidTrackRejectsAll(f: Formats, data: Json, k: nat)
    requires Field(Some(data), "tracks").Some? && Field(Some(data), "tracks").value.JArr?
    requires k < |Field(Some(data), "tracks").value.items|
    requires !ValidTrack(f, Some(Field(Some(data), "tracks").value.items[k]))
    ensures ValidateTracksResponse(f, data).Failure?
  {
  }

  /** A popularity outside [0, 100] or not a whole number makes a track invalid. */
  lemma PopularityOutOfRange(f: Formats, v: Option<Json>, x: real)
    requires Field(v, "popularity") == Some(JNum(x))
    requires x < 0.0 || x > 100.0 || !IsIntegral(x)
    ensures ParseTrack(f, [], v).Failure?
  {
  }
}
