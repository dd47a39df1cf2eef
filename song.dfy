/**
 * The song records of `hyukebox/models/song.py` and their derived
 * properties. Floating-point audio features and URL validation are not
 * modelled; the `0..100` popularity bound is, as a subset type. Case folding
 * (`str.lower`) is a parameter `lower`.
 */
module Songs {
  import opened Wrappers
  import opened Text

  /** Spotify's popularity score, which the record accepts only within `0..100`. */
  type Popularity = p: int | 0 <= p <= 100

  datatype SpotifyMetadata = SpotifyMetadata(
    trackId: string,
    artist: string,
    title: string,
    album: Option<string>,
    releaseDate: Option<string>,
    durationMs: int,
    popularity: Popularity,
    previewUrl: Option<string>,
    externalUrl: string)

  datatype LastFmMetadata = LastFmMetadata(
    artist: string,
    title: string,
    playCount: Option<int>,
    listeners: Option<int>,
    tags: seq<string>,
    wikiSummary: Option<string>)

  /** `Song`; `cachedAt` is the creation time as an integer clock reading. */
  datatype Song = Song(
    artist: string,
    title: string,
    spotify: Option<SpotifyMetadata>,
    lastfm: Option<LastFmMetadata>,
    youtubeUrl: Option<string>,
    youtubeId: Option<string>,
    cachedAt: int)

  /** `display_name`: the artist, `" - "`, then the title. */
  function DisplayName(s: Song): (r: string)
    ensures |r| == |s.artist| + 3 + |s.title|
    ensures r[..|s.artist|] == s.artist && r[|s.artist|..|s.artist| + 3] == " - " && r[|s.artist| + 3..] == s.title
  {
    s.artist + " - " + s.title
  }

  /** `genres`: the Last.fm tags when there are Last.fm metadata with tags, else `[]`. */
  function Genres(s: Song): seq<string> {
    if s.lastfm.Some? && s.lastfm.value.tags != [] then s.lastfm.value.tags else []
  }

  /** The emptiness test is no filter: the genres are the Last.fm tags whenever there are Last.fm metadata. */
  lemma GenresAreTags(s: Song)
    ensures Genres(s) == if s.lastfm.Some? then s.lastfm.value.tags else []
  {
  }

  /** `popularity_score`: Spotify's popularity when there are Spotify metadata, within `0..100`. */
  function PopularityScore(s: Song): (r: Option<int>)
    ensures r.Some? <==> s.spotify.Some?
    ensures r.Some? ==> 0 <= r.value <= 100 && r.value == s.spotify.value.popularity
  {
    if s.spotify.Some? then Some(s.spotify.value.popularity as int) else None
  }

  /** `"song:{artist.lower()}:{title.lower()}"`, the key shape the metadata service also caches under. */
  function TrackCacheKey(artist: string, title: string, lower: string -> string): string {
    "song:" + lower(artist) + ":" + lower(title)
  }

  /** `to_cache_key`. */
  function SongCacheKey(s: Song, lower: string -> string): string {
    TrackCacheKey(s.artist, s.title, lower)
  }

  /**
   * When folded artist names hold no `:`, two songs share a cache key exactly
   * when their folded artists and folded titles agree.
   */
  lemma SongCacheKeyInjective(s1: Song, s2: Song, lower: string -> string)
    requires ':' !in lower(s1.artist) && ':' !in lower(s2.artist)
    ensures SongCacheKey(s1, lower) == SongCacheKey(s2, lower) <==>
      lower(s1.artist) == lower(s2.artist) && lower(s1.title) == lower(s2.title)
  {
    var a1, a2 := lower(s1.artist), lower(s2.artist);
    var t1, t2 := lower(s1.title), lower(s2.title);
    var k1, k2 := SongCacheKey(s1, lower), SongCacheKey(s2, lower);
    if k1 == k2 {
      assert k1 == "song" + [':'] + (a1 + ":" + t1);
      assert k2 == "song" + [':'] + (a2 + ":" + t2);
      var r1, r2 := a1 + ":" + t1, a2 + ":" + t2;
      assert r1 == k1[5..] && r2 == k2[5..];
      assert r1 == a1 + [':'] + t1 && r2 == a2 + [':'] + t2;
      FindAfterPiece(a1, ':', t1);
      FindAfterPiece(a2, ':', t2);
      assert |a1| == |a2|;
      assert a1 == r1[..|a1|] && a2 == r2[..|a2|];
      assert t1 == r1[|a1| + 1..] && t2 == r2[|a2| + 1..];
    }
  }
}
