/**
 * The generated playlist of `hyukebox/models/album.py`: its song count, total
 * duration and its rendering, its cache key and its YouTube video ids. Time
 * stamps are integer clock readings; `isoformat` and `str.lower` are
 * parameters.
 */
module Album {
  import opened Wrappers
  import opened Text
  import opened Narrative
  import opened Songs

  datatype PlaylistMetadata = PlaylistMetadata(
    title: string,
    description: string,
    primaryGenre: Option<string>,
    genres: seq<string>,
    moods: seq<string>,
    createdBy: string,
    createdAt: int,
    youtubePlaylistId: Option<string>,
    youtubePlaylistUrl: Option<string>)

  datatype AlbumPlaylist = AlbumPlaylist(
    metadata: PlaylistMetadata,
    narrative: NarrativeArc,
    songs: seq<Song>,
    titleTrack: Song)

  /** The field constraints: at least one song, and a valid arc. */
  predicate ValidAlbum(a: AlbumPlaylist) {
    |a.songs| >= 1 && ValidArc(a.narrative)
  }

  /** `song_count`. */
  function SongCount(a: AlbumPlaylist): nat {
    |a.songs|
  }

  lemma SongCountPositive(a: AlbumPlaylist)
    requires ValidAlbum(a)
    ensures SongCount(a) >= 1 && SongCount(a) == |a.songs|
  {
  }

  // ---------------------------------------------------------------------------
  // total_duration_ms

  /** What a song adds to the total: its Spotify duration when it has one that is non-zero. */
  function Contribution(s: Song): int {
    if s.spotify.Some? && s.spotify.value.durationMs != 0 then s.spotify.value.durationMs else 0
  }

  /** The total over a list of songs. */
  function SumDurations(songs: seq<Song>): int {
    if songs == [] then 0 else SumDurations(songs[..|songs| - 1]) + Contribution(songs[|songs| - 1])
  }

  /** `total_duration_ms`: the loop adding each song's contribution. */
  method TotalDurationMs(a: AlbumPlaylist) returns (total: int)
    ensures total == SumDurations(a.songs)
  {
    total := 0;
    var i := 0;
    while i < |a.songs|
      invariant 0 <= i <= |a.songs|
      invariant total == SumDurations(a.songs[..i])
    {
      var song := a.songs[i];
      assert a.songs[..i + 1][..i] == a.songs[..i];
      if song.spotify.Some? && song.spotify.value.durationMs != 0 {
        total := total + song.spotify.value.durationMs;
      }
      i := i + 1;
    }
    assert a.songs[..|a.songs|] == a.songs;
  }

  /** The non-zero test changes nothing: a song adds its Spotify duration, or 0 without Spotify metadata. */
  lemma ContributionIsDuration(s: Song)
    ensures Contribution(s) == if s.spotify.Some? then s.spotify.value.durationMs else 0
  {
  }

  /** The total of a concatenation is the sum of the totals. */
  lemma {:induction false} SumDurationsAppend(xs: seq<Song>, ys: seq<Song>)
    ensures SumDurations(xs + ys) == SumDurations(xs) + SumDurations(ys)
    decreases |ys|
  {
    if ys != [] {
      var init := ys[..|ys| - 1];
      SumDurationsAppend(xs, init);
      assert (xs + ys)[..|xs + ys| - 1] == xs + init;
      assert (xs + ys)[|xs + ys| - 1] == ys[|ys| - 1];
    } else {
      assert xs + ys == xs;
    }
  }

  /** With no negative duration the total is at least 0, and at least any one song's duration. */
  lemma {:induction false} SumDurationsLowerBound(songs: seq<Song>)
    requires forall i :: 0 <= i < |songs| ==> Contribution(songs[i]) >= 0
    ensures SumDurations(songs) >= 0
    ensures forall i :: 0 <= i < |songs| ==> SumDurations(songs) >= Contribution(songs[i])
  {
    if songs != [] {
      var init := songs[..|songs| - 1];
      assert forall i :: 0 <= i < |init| ==> init[i] == songs[i];
      SumDurationsLowerBound(init);
    }
  }

  /** Songs without Spotify metadata add nothing. */
  lemma {:induction false} SumDurationsWithoutSpotify(songs: seq<Song>)
    requires forall i :: 0 <= i < |songs| ==> songs[i].spotify.None?
    ensures SumDurations(songs) == 0
  {
    if songs != [] {
      var init := songs[..|songs| - 1];
      assert forall i :: 0 <= i < |init| ==> init[i] == songs[i];
      SumDurationsWithoutSpotify(init);
    }
  }

  // ---------------------------------------------------------------------------
  // total_duration_str

  /**
   * Whole hours and the remaining whole minutes of a duration in
   * milliseconds. Python's `//` and `%` floor; with positive divisors Dafny's
   * Euclidean `/` and `%` agree with them, negative totals included.
   */
  function DurationParts(totalMs: int): (r: (int, int))
    ensures 0 <= r.1 < 60
    ensures 3600 * r.0 + 60 * r.1 <= totalMs / 1000 < 3600 * r.0 + 60 * r.1 + 60
    ensures r.0 > 0 <==> totalMs >= 3600000
  {
    var totalSeconds := totalMs / 1000;
    (totalSeconds / 3600, (totalSeconds % 3600) / 60)
  }

  /** `"{hours}h {minutes}m"` from one hour on, `"{minutes}m"` below. */
  function DurationText(totalMs: int): string {
    var (hours, minutes) := DurationParts(totalMs);
    if hours > 0 then IntToString(hours) + "h " + IntToString(minutes) + "m" else IntToString(minutes) + "m"
  }

  /** `total_duration_str`. */
  function TotalDurationStr(a: AlbumPlaylist): string {
    DurationText(SumDurations(a.songs))
  }

  // ---------------------------------------------------------------------------
  // get_youtube_video_ids

  /** The ids of the songs that carry a non-empty YouTube id, in playlist order. */
  function VideoIds(songs: seq<Song>): seq<string> {
    if songs == [] then []
    else
      var last := songs[|songs| - 1];
      VideoIds(songs[..|songs| - 1]) + (if last.youtubeId.Some? && last.youtubeId.value != "" then [last.youtubeId.value] else [])
  }

  /** `get_youtube_video_ids`: the loop collecting the ids. */
  method GetYoutubeVideoIds(a: AlbumPlaylist) returns (videoIds: seq<string>)
    ensures videoIds == VideoIds(a.songs)
  {
    videoIds := [];
    var i := 0;
    while i < |a.songs|
      invariant 0 <= i <= |a.songs|
      invariant videoIds == VideoIds(a.songs[..i])
    {
      var song := a.songs[i];
      assert a.songs[..i + 1][..i] == a.songs[..i];
      if song.youtubeId.Some? && song.youtubeId.value != "" {
        videoIds := videoIds + [song.youtubeId.value];
      }
      i := i + 1;
    }
    assert a.songs[..|a.songs|] == a.songs;
  }

  /** The ids of a concatenation are the ids of each part in turn: playlist order is kept. */
  lemma {:induction false} VideoIdsAppend(xs: seq<Song>, ys: seq<Song>)
    ensures VideoIds(xs + ys) == VideoIds(xs) + VideoIds(ys)
    decreases |ys|
  {
    if ys != [] {
      var init := ys[..|ys| - 1];
      VideoIdsAppend(xs, init);
      var last := ys[|ys| - 1];
      var tail := if last.youtubeId.Some? && last.youtubeId.value != "" then [last.youtubeId.value] else [];
      assert (xs + ys)[..|xs + ys| - 1] == xs + init;
      assert (xs + ys)[|xs + ys| - 1] == last;
      ConcatAssoc(VideoIds(xs), VideoIds(init), tail);
    } else {
      assert xs + ys == xs;
    }
  }

  /** At most one id per song; an id is listed exactly when some song carries it. */
  lemma {:induction false} VideoIdsMembers(songs: seq<Song>)
    ensures |VideoIds(songs)| <= |songs|
    ensures forall id :: id in VideoIds(songs) <==>
      id != "" && exists i :: 0 <= i < |songs| && songs[i].youtubeId == Some(id)
  {
    if songs != [] {
      var init := songs[..|songs| - 1];
      VideoIdsMembers(init);
      assert forall i :: 0 <= i < |init| ==> init[i] == songs[i];
      forall id | id != "" && exists i :: 0 <= i < |songs| && songs[i].youtubeId == Some(id)
        ensures id in VideoIds(songs)
      {
        var i :| 0 <= i < |songs| && songs[i].youtubeId == Some(id);
        if i < |init| {
          assert init[i].youtubeId == Some(id);
        }
      }
    }
  }

  // ---------------------------------------------------------------------------
  // format_summary

  /** How many stages the mood line covers: `min(3, stage count)`. */
  function TrailLength(arc: NarrativeArc): nat {
    if |arc.stages| < 3 then |arc.stages| else 3
  }

  /**
   * The mood trail as the summary line writes it: the first stage's mood
   * once for each of the first `min(3, stage count)` stages.
   */
  function MoodTrailAsWritten(arc: NarrativeArc): string {
    var k := TrailLength(arc);
    Join(seq(k, i requires 0 <= i < k => MoodValue(arc.stages[0].0)), " → ")
  }

  /** The moods of the first `min(3, stage count)` stages, in order. */
  function TrailMoods(arc: NarrativeArc): (r: seq<string>)
    ensures |r| == TrailLength(arc)
    ensures forall i :: 0 <= i < |r| ==> r[i] == MoodValue(arc.stages[i].0)
  {
    var k := TrailLength(arc);
    seq(k, i requires 0 <= i < k => MoodValue(arc.stages[i].0))
  }

  /** The mood trail as evidently intended: the first `min(3, stage count)` stages' moods. */
  function MoodTrail(arc: NarrativeArc): string {
    Join(TrailMoods(arc), " → ")
  }

  /** On a valid arc the written trail is the first mood three times. */
  lemma MoodTrailAsWrittenRepeats(arc: NarrativeArc)
    requires ValidArc(arc)
    ensures var m := MoodValue(arc.stages[0].0);
      MoodTrailAsWritten(arc) == m + " → " + m + " → " + m
  {
    var m := MoodValue(arc.stages[0].0);
    var parts := seq(3, i requires 0 <= i < 3 => m);
    assert parts == [m, m, m];
    Join3(m, m, m, " → ");
  }

  /** On a valid arc the intended trail names the first three stages' moods in order. */
  lemma MoodTrailNamesFirstThree(arc: NarrativeArc)
    requires ValidArc(arc)
    ensures MoodTrail(arc) ==
      MoodValue(arc.stages[0].0) + " → " + MoodValue(arc.stages[1].0) + " → " + MoodValue(arc.stages[2].0)
  {
    var m0, m1, m2 := MoodValue(arc.stages[0].0), MoodValue(arc.stages[1].0), MoodValue(arc.stages[2].0);
    assert TrailMoods(arc) == [m0, m1, m2];
    Join3(m0, m1, m2, " → ");
  }

  /** On the break-up template the written trail repeats "sadness" where the stages go on to regret and despair. */
  lemma MoodTrailDiscrepancy()
    ensures MoodTrailAsWritten(BreakupRecovery()) == "sadness" + " → " + "sadness" + " → " + "sadness"
    ensures MoodTrail(BreakupRecovery()) == "sadness" + " → " + "regret" + " → " + "despair"
    ensures MoodTrailAsWritten(BreakupRecovery()) != MoodTrail(BreakupRecovery())
  {
    var arc := BreakupRecovery();
    assert MoodValue(arc.stages[0].0) == "sadness";
    assert MoodValue(arc.stages[1].0) == "regret";
    assert MoodValue(arc.stages[2].0) == "despair";
    MoodTrailAsWrittenRepeats(arc);
    MoodTrailNamesFirstThree(arc);
    var arrow := " → ";
    assert |arrow| == 3;
    assert ("sadness" + arrow + "sadness" + arrow + "sadness")[10] == 's';
    assert ("sadness" + arrow + "regret" + arrow + "despair")[10] == 'r';
  }


  /** `primary_genre or 'Various'`. */
  function GenreLabel(primaryGenre: Option<string>): string {
    if primaryGenre.Some? && primaryGenre.value != "" then primaryGenre.value else "Various"
  }

  /**
   * The ten entries before the tracklist (the narrative entry itself spans
   * several lines). The mood entry uses the trail as written.
   */
  function SummaryHead(a: AlbumPlaylist): seq<string> {
    ["📀 Album: " + a.metadata.title,
     "🎤 Title Track: " + DisplayName(a.titleTrack),
     "🎵 Genre: " + GenreLabel(a.metadata.primaryGenre),
     "🎭 Mood: " + MoodTrailAsWritten(a.narrative) + "...",
     "⏱️  Duration: " + TotalDurationStr(a) + " (" + IntToString(SongCount(a)) + " songs)",
     "",
     "📝 Narrative Arc:",
     FormatStages(a.narrative),
     "",
     "🎵 Tracklist:"]
  }

  /** One line per song, `"  {i}. {artist} - {title}"`, numbered from 1. */
  function TrackLines(songs: seq<Song>): (r: seq<string>)
    ensures |r| == |songs|
  {
    if songs == [] then []
    else TrackLines(songs[..|songs| - 1]) + ["  " + Numbered(|songs|, DisplayName(songs[|songs| - 1]))]
  }

  /** The closing lines: the playlist link when there is one. */
  function PlaylistLink(m: PlaylistMetadata): seq<string> {
    if m.youtubePlaylistUrl.Some? && m.youtubePlaylistUrl.value != "" then
      ["", "▶️  Playlist: " + m.youtubePlaylistUrl.value]
    else []
  }

  function SummaryLines(a: AlbumPlaylist): seq<string> {
    SummaryHead(a) + TrackLines(a.songs) + PlaylistLink(a.metadata)
  }

  /** The tracklist loop of `format_summary`, appending to `lines`. */
  method AppendTrackLines(lines: seq<string>, songs: seq<Song>) returns (lines': seq<string>)
    ensures lines' == lines + TrackLines(songs)
  {
    lines' := lines;
    var i := 0;
    while i < |songs|
      invariant 0 <= i <= |songs|
      invariant lines' == lines + TrackLines(songs[..i])
    {
      assert songs[..i + 1][..i] == songs[..i];
      ConcatAssoc(lines, TrackLines(songs[..i]), ["  " + Numbered(i + 1, DisplayName(songs[i]))]);
      lines' := lines' + ["  " + Numbered(i + 1, DisplayName(songs[i]))];
      i := i + 1;
    }
    assert songs[..|songs|] == songs;
  }

  /** `format_summary`: the head, then the tracklist, then the link, joined by newlines. */
  method FormatSummary(a: AlbumPlaylist) returns (text: string)
    ensures text == Join(SummaryLines(a), "\n")
  {
    var lines := SummaryHead(a);
    lines := AppendTrackLines(lines, a.songs);
    ghost var body := lines;
    if a.metadata.youtubePlaylistUrl.Some? && a.metadata.youtubePlaylistUrl.value != "" {
      lines := lines + [""];
      lines := lines + ["▶️  Playlist: " + a.metadata.youtubePlaylistUrl.value];
      assert lines == body + PlaylistLink(a.metadata);
    } else {
      assert lines == body + PlaylistLink(a.metadata);
    }
    text := Join(lines, "\n");
  }

  /** The `i`-th track line names the `i`-th song under number `i + 1`. */
  lemma {:induction false} TrackLineAt(songs: seq<Song>, i: nat)
    requires i < |songs|
    ensures TrackLines(songs)[i] == "  " + Numbered(i + 1, DisplayName(songs[i]))
  {
    var init := songs[..|songs| - 1];
    var last := "  " + Numbered(|songs|, DisplayName(songs[|songs| - 1]));
    assert TrackLines(songs) == TrackLines(init) + [last];
    if i < |init| {
      TrackLineAt(init, i);
      assert init[i] == songs[i];
    }
  }

  /** Every track line names its song under its position plus one, and reads back as that number. */
  lemma TrackLinesNumbered(songs: seq<Song>)
    ensures forall i :: 0 <= i < |songs| ==>
      && TrackLines(songs)[i] == "  " + Numbered(i + 1, DisplayName(songs[i]))
      && ItemNumber(TrackLines(songs)[i]) == i + 1
  {
    forall i | 0 <= i < |songs|
      ensures TrackLines(songs)[i] == "  " + Numbered(i + 1, DisplayName(songs[i]))
      ensures ItemNumber(TrackLines(songs)[i]) == i + 1
    {
      TrackLineAt(songs, i);
      ItemNumberOf(i + 1, DisplayName(songs[i]));
    }
  }

  /** The summary's parts: ten head entries, the tracklist, the link. */
  lemma SummaryParts(a: AlbumPlaylist)
    ensures SummaryLines(a) == SummaryHead(a) + TrackLines(a.songs) + PlaylistLink(a.metadata)
    ensures |SummaryHead(a)| == 10
    ensures SummaryLines(a)[3] == "🎭 Mood: " + MoodTrailAsWritten(a.narrative) + "..."
  {
  }

  /** On a valid arc the summary's mood entry names the first stage's mood three times. */
  lemma {:induction false} SummaryMoodRepeatsFirst(a: AlbumPlaylist)
    requires ValidArc(a.narrative)
    ensures var m := MoodValue(a.narrative.stages[0].0);
      SummaryLines(a)[3] == "🎭 Mood: " + (m + " → " + m + " → " + m) + "..."
  {
    SummaryParts(a);
    MoodTrailAsWrittenRepeats(a.narrative);
  }

  /**
   * The summary lists one tracklist line per song, numbered 1..n in playlist
   * order, after ten head entries, with two more lines when there is a link.
   */
  lemma SummaryTracklist(a: AlbumPlaylist)
    ensures |SummaryLines(a)| == 10 + |a.songs| + |PlaylistLink(a.metadata)|
    ensures forall i :: 0 <= i < |a.songs| ==>
      && SummaryLines(a)[10 + i] == "  " + Numbered(i + 1, DisplayName(a.songs[i]))
      && ItemNumber(SummaryLines(a)[10 + i]) == i + 1
  {
    SummaryParts(a);
    TrackLinesNumbered(a.songs);
    var head, tracks, link := SummaryHead(a), TrackLines(a.songs), PlaylistLink(a.metadata);
    forall i | 0 <= i < |a.songs| ensures SummaryLines(a)[10 + i] == tracks[i] {
      MiddleIndex(head, tracks, link, i);
    }
  }

  // ---------------------------------------------------------------------------
  // to_cache_key

  /** `to_cache_key`: `"playlist:{title track key}:{created_at.isoformat()}"`. */
  function AlbumCacheKey(a: AlbumPlaylist, lower: string -> string, isoformat: int -> string): (r: string)
    ensures StartsWith(r, "playlist:song:")
    ensures var k := SongCacheKey(a.titleTrack, lower);
      |r| == 9 + |k| + 1 + |isoformat(a.metadata.createdAt)| && r[9..9 + |k|] == k && r[9 + |k|] == ':'
  {
    "playlist:" + SongCacheKey(a.titleTrack, lower) + ":" + isoformat(a.metadata.createdAt)
  }
}
