/**
 * The YouTube adapter's service operations: listing a channel's playlists, searching
 * public playlists with official channels first, and picking the preferred video among
 * search results. The Data API is reached through request-to-reply functions; a reply
 * of `None` stands for the `HttpError` (or any other exception) the client raises.
 */
module YoutubeService {
  import opened Wrappers
  import opened Strings
  import opened Seqs
  import opened MusicModel
  import opened YoutubeTitles

  /**
   * An adapter instance. `clientBuilt` says whether `self.youtube` holds a client: only
   * when an API key was given and building the client did not raise.
   */
  datatype Service = Service(apiKey: string, channelId: string, clientBuilt: bool)

  /** `YouTubeService(api_key, channel_id)`, where `build` is whether building the client succeeds. */
  function NewService(apiKey: string, channelId: string, build: bool): (s: Service)
    ensures s.apiKey == apiKey && s.channelId == channelId
    ensures s.clientBuilt <==> apiKey != "" && build
  {
    Service(apiKey, channelId, apiKey != "" && build)
  }

  /** Why an operation raised. */
  datatype Failure = NotInitialized | ChannelIdRequired | ApiError

  /** A `search().list` call: query, page size, resource kind and ordering ("" when not sent). */
  datatype SearchRequest = SearchRequest(query: string, maxResults: int, kind: string, order: string)

  /** A `playlists().list` call for a channel. */
  datatype ListRequest = ListRequest(channelId: string, maxResults: int)

  /** `snippet.thumbnails`: size name to a dictionary holding its `url`. */
  type Thumbnails = map<string, map<string, string>>

  /** `thumbnails.get('medium', {}).get('url', '')` */
  function MediumThumbnail(th: Thumbnails): (url: string)
    ensures "medium" in th && "url" in th["medium"] ==> url == th["medium"]["url"]
    ensures !("medium" in th && "url" in th["medium"]) ==> url == ""
  {
    if "medium" in th && "url" in th["medium"] then th["medium"]["url"] else ""
  }

  /** A video search hit. */
  datatype Video = Video(videoId: string, title: string, channelTitle: string)

  /** A playlist search hit. */
  datatype PlaylistHit = PlaylistHit(playlistId: string, title: string, description: string,
                                     channelTitle: string, thumbnails: Thumbnails)

  /** An item of a channel's playlist listing. */
  datatype PlaylistItem = PlaylistItem(id: string, title: string, description: string,
                                       channelTitle: string, thumbnails: Thumbnails, itemCount: int)

  // ---------------------------------------------------------------------------
  // Connection test and supported types

  /** The one-result video search for "test" that probes the connection. */
  const ProbeRequest: SearchRequest := SearchRequest("test", 1, "video", "")

  /** `test_connection`: a client exists and the probe search does not raise. */
  function TestConnection(s: Service, videoSearch: SearchRequest -> Option<seq<Video>>): (ok: bool)
    ensures ok ==> s.clientBuilt
    ensures s.clientBuilt ==> (ok <==> videoSearch(ProbeRequest).Some?)
  {
    s.clientBuilt && videoSearch(ProbeRequest).Some?
  }

  /** `get_supported_playlist_types`: the three YouTube kinds, each once. */
  function SupportedPlaylistTypes(): (r: seq<PlaylistType>)
    ensures |r| == 3
    ensures forall p :: p in r <==> p.YouTubePlaylist? || p.YouTubeLikedVideos? || p.YouTubeWatchLater?
  {
    [YouTubePlaylist, YouTubeLikedVideos, YouTubeWatchLater]
  }

  // ---------------------------------------------------------------------------
  // A channel's playlists

  /** The `channel_id` keyword argument when given (even if empty), else the default. */
  function ChannelFor(s: Service, channelArg: Option<string>): string {
    match channelArg
    case Some(c) => c
    case None => s.channelId
  }

  /** One listed playlist; its track count is the listing's `itemCount`. */
  function ItemPlaylist(p: PlaylistItem): PlaylistInfo {
    MakePlaylistInfo(p.title, [], p.description, p.itemCount, YouTube, YouTubePlaylist,
                     p.id, MediumThumbnail(p.thumbnails), p.channelTitle)
  }

  const LikedVideos: PlaylistInfo :=
    MakePlaylistInfo("Liked Videos", [], "Your liked videos on YouTube", 0, YouTube,
                     YouTubeLikedVideos, "LL", "", "You")

  const WatchLater: PlaylistInfo :=
    MakePlaylistInfo("Watch Later", [], "Your Watch Later playlist", 0, YouTube,
                     YouTubeWatchLater, "WL", "", "You")

  /**
   * The list a successful listing yields: one playlist per item, in the API's order, each
   * with no tracks loaded, then the liked-videos and watch-later collections.
   */
  function UserPlaylistsOf(items: seq<PlaylistItem>): (r: seq<PlaylistInfo>)
    ensures |r| == |items| + 2
    ensures forall i :: 0 <= i < |items| ==>
      r[i].serviceId == items[i].id && r[i].name == items[i].title &&
      r[i].owner == items[i].channelTitle && r[i].tracks == [] &&
      r[i].description == items[i].description && r[i].totalTracks == items[i].itemCount &&
      r[i].thumbnailUrl == MediumThumbnail(items[i].thumbnails) &&
      r[i].playlistType == YouTubePlaylist && r[i].serviceType == YouTube
    ensures r[|items|].serviceId == "LL" && r[|items|].playlistType == YouTubeLikedVideos
    ensures r[|items| + 1].serviceId == "WL" && r[|items| + 1].playlistType == YouTubeWatchLater
    ensures forall p :: p in r ==> p.tracks == [] && p.serviceType == YouTube
  {
    MapSeq(items, ItemPlaylist) + [LikedVideos, WatchLater]
  }

  /**
   * `get_user_playlists(**kwargs)`: raises without a client, raises `ValueError` for an
   * empty channel id, otherwise lists the channel's playlists (at most 50 per call) and
   * appends the two special collections; an API error is re-raised.
   */
  method GetUserPlaylists(s: Service, channelArg: Option<string>,
                          listPlaylists: ListRequest -> Option<seq<PlaylistItem>>)
    returns (sent: Option<ListRequest>, r: Result<seq<PlaylistInfo>, Failure>)
    ensures !s.clientBuilt ==> sent.None? && r == Err(NotInitialized)
    ensures s.clientBuilt && ChannelFor(s, channelArg) == "" ==> sent.None? && r == Err(ChannelIdRequired)
    ensures s.clientBuilt && ChannelFor(s, channelArg) != "" ==>
      sent == Some(ListRequest(ChannelFor(s, channelArg), 50)) &&
      r == (match listPlaylists(sent.value)
            case None => Err(ApiError)
            case Some(items) => Ok(UserPlaylistsOf(items)))
  {
    if !s.clientBuilt {
      return None, Err(NotInitialized);
    }
    var channel := ChannelFor(s, channelArg);
    if channel == "" {
      return None, Err(ChannelIdRequired);
    }
    var request := ListRequest(channel, 50);
    sent := Some(request);
    var reply := listPlaylists(request);
    if reply.None? {
      return sent, Err(ApiError);
    }
    var items := reply.value;
    var playlists: seq<PlaylistInfo> := [];
    var i := 0;
    while i < |items|
      invariant 0 <= i <= |items|
      invariant playlists == MapSeq(items[..i], ItemPlaylist)
    {
      playlists := playlists + [ItemPlaylist(items[i])];
      i := i + 1;
    }
    assert items[..i] == items;
    r := Ok(playlists + [LikedVideos, WatchLater]);
  }

  // ---------------------------------------------------------------------------
  // Playlist search


  /** The request `search_playlists` sends: twice the limit, capped at 50, playlists only. */
  function PlaylistSearchRequest(query: string, limit: int): (q: SearchRequest)
    ensures q.query == query && q.kind == "playlist"
    ensures q.maxResults <= 50 && q.maxResults <= 2 * limit
    ensures q.maxResults == 50 || q.maxResults == 2 * limit
  {
    SearchRequest(query, Min(limit * 2, 50), "playlist", "")
  }

  /** Whether a hit comes from an official channel, judged on the raw channel title. */
  function HitOfficial(h: PlaylistHit): bool {
    IsOfficialChannel(h.channelTitle)
  }

  /** A hit as a playlist: no tracks loaded, owned by the cleaned channel name. */
  function HitPlaylist(h: PlaylistHit): PlaylistInfo {
    MakePlaylistInfo(h.title, [], h.description, 0, YouTube, YouTubePlaylist,
                     h.playlistId, MediumThumbnail(h.thumbnails), CleanedArtist(h.channelTitle))
  }

  /** The hits from official channels, then the others, each group in the API's order. */
  function OfficialFirst(hs: seq<PlaylistHit>): seq<PlaylistHit> {
    Pick(hs, HitOfficial, true) + Pick(hs, HitOfficial, false)
  }

  /** What a successful search returns: the reordered hits as playlists, cut to `limit`. */
  function SearchResult(hs: seq<PlaylistHit>, limit: int): seq<PlaylistInfo> {
    PyPrefix(MapSeq(OfficialFirst(hs), HitPlaylist), limit)
  }

  /** The reordering keeps every hit exactly once. */
  lemma {:induction false} OfficialFirstPermutation(hs: seq<PlaylistHit>)
    ensures multiset(OfficialFirst(hs)) == multiset(hs)
    decreases |hs|
  {
    if hs != [] {
      var init := hs[..|hs| - 1];
      var h := hs[|hs| - 1];
      assert hs == init + [h];
      OfficialFirstPermutation(init);
      PickSnoc(init, h, HitOfficial, true);
      PickSnoc(init, h, HitOfficial, false);
    }
  }

  /** No non-official hit comes before an official one. */
  lemma OfficialFirstOrdered(hs: seq<PlaylistHit>)
    ensures var o := OfficialFirst(hs);
      forall i, j :: 0 <= i < j < |o| && HitOfficial(o[j]) ==> HitOfficial(o[i])
  {
    var a := Pick(hs, HitOfficial, true);
    var o := OfficialFirst(hs);
    forall i, j | 0 <= i < j < |o|
      ensures HitOfficial(o[j]) ==> HitOfficial(o[i])
    {
      if i < |a| {
        assert o[i] == a[i];
      } else {
        assert o[j] == Pick(hs, HitOfficial, false)[j - |a|];
      }
    }
  }

  /**
   * A search returns at most `limit` playlists (none for a zero limit, and all but the last
   * `-limit` hits for a negative one, as Python's slicing counts from the end), each the
   * conversion of a hit, official-channel hits first: the result is a prefix of the
   * reordered hits, which hold every hit once.
   */
  lemma SearchResultShape(hs: seq<PlaylistHit>, limit: int)
    ensures var r := SearchResult(hs, limit);
      |r| <= |hs| && (limit >= 0 ==> |r| <= limit) &&
      (limit >= 0 && limit <= |hs| ==> |r| == limit) &&
      (limit < 0 ==> |r| == (if -limit >= |hs| then 0 else |hs| + limit)) &&
      (forall i :: 0 <= i < |r| ==> r[i] == HitPlaylist(OfficialFirst(hs)[i])) &&
      (forall i :: 0 <= i < |r| ==> r[i].tracks == [] && r[i].playlistType == YouTubePlaylist)
    ensures multiset(OfficialFirst(hs)) == multiset(hs)
  {
    OfficialFirstPermutation(hs);
    var m := MapSeq(OfficialFirst(hs), HitPlaylist);
    var r := SearchResult(hs, limit);
    assert |m| == |hs| by {
      assert |multiset(OfficialFirst(hs))| == |multiset(hs)|;
    }
    assert forall i :: 0 <= i < |r| ==> r[i] == m[i];
  }

  /**
   * `search_playlists(query, limit)`: raises without a client; otherwise one playlist
   * search, then official-channel playlists before the others, cut to `limit`. An API
   * error is re-raised.
   */
  method SearchPlaylists(s: Service, query: string, limit: int,
                         playlistSearch: SearchRequest -> Option<seq<PlaylistHit>>)
    returns (sent: Option<SearchRequest>, r: Result<seq<PlaylistInfo>, Failure>)
    ensures !s.clientBuilt ==> sent.None? && r == Err(NotInitialized)
    ensures s.clientBuilt ==> sent == Some(PlaylistSearchRequest(query, limit))
    ensures s.clientBuilt ==>
      r == (match playlistSearch(PlaylistSearchRequest(query, limit))
            case None => Err(ApiError)
            case Some(hs) => Ok(SearchResult(hs, limit)))
  {
    if !s.clientBuilt {
      return None, Err(NotInitialized);
    }
    var request := PlaylistSearchRequest(query, limit);
    sent := Some(request);
    var reply := playlistSearch(request);
    if reply.None? {
      return sent, Err(ApiError);
    }
    var hs := reply.value;
    var official, other := Partition(hs, HitOfficial, HitPlaylist);
    MapSeqAppend(Pick(hs, HitOfficial, true), Pick(hs, HitOfficial, false), HitPlaylist);
    r := Ok(PyPrefix(official + other, limit));
  }


  // ---------------------------------------------------------------------------
  // Preferred video for a track

  /** Preference class of a channel: official, then ordinary, then auto-generated topic channels. */
  datatype Rank = OfficialRank | OtherRank | TopicRank

  function RankValue(k: Rank): nat {
    match k
    case OfficialRank => 0
    case OtherRank => 1
    case TopicRank => 2
  }

  /** The class a channel falls in; the official test runs first and never admits a topic channel. */
  function RankOf(channel: string): (k: Rank)
    ensures k == OfficialRank <==> IsOfficialChannel(channel)
    ensures k == TopicRank <==> EndsWith(channel, " - Topic")
  {
    if IsOfficialChannel(channel) then OfficialRank
    else if EndsWith(channel, " - Topic") then TopicRank
    else OtherRank
  }

  function VideoRank(v: Video): Rank {
    RankOf(v.channelTitle)
  }

  /** Official videos, then others, then topic-channel videos, each group in the API's order. */
  function PreferredVideos(vs: seq<Video>): seq<Video> {
    Pick(vs, VideoRank, OfficialRank) + Pick(vs, VideoRank, OtherRank) + Pick(vs, VideoRank, TopicRank)
  }

  /** The first preferred video, if there is any. */
  function BestVideo(vs: seq<Video>): Option<Video> {
    var p := PreferredVideos(vs);
    if p == [] then None else Some(p[0])
  }

  /** The preference order holds every hit exactly once. */
  lemma {:induction false} PreferredVideosPermutation(vs: seq<Video>)
    ensures multiset(PreferredVideos(vs)) == multiset(vs)
    decreases |vs|
  {
    if vs != [] {
      var init := vs[..|vs| - 1];
      var v := vs[|vs| - 1];
      assert vs == init + [v];
      PreferredVideosPermutation(init);
      PickSnoc(init, v, VideoRank, OfficialRank);
      PickSnoc(init, v, VideoRank, OtherRank);
      PickSnoc(init, v, VideoRank, TopicRank);
    }
  }

  /** Ranks never decrease along the preference order. */
  lemma PreferredVideosRanked(vs: seq<Video>)
    ensures var p := PreferredVideos(vs);
      forall i, j :: 0 <= i < j < |p| ==> RankValue(VideoRank(p[i])) <= RankValue(VideoRank(p[j]))
  {
    var a := Pick(vs, VideoRank, OfficialRank);
    var b := Pick(vs, VideoRank, OtherRank);
    var c := Pick(vs, VideoRank, TopicRank);
    var p := PreferredVideos(vs);
    assert forall i :: 0 <= i < |p| ==>
      (i < |a| ==> p[i] == a[i]) &&
      (|a| <= i < |a| + |b| ==> p[i] == b[i - |a|]) &&
      (|a| + |b| <= i ==> p[i] == c[i - |a| - |b|]);
  }

  /**
   * The chosen video: there is one exactly when the search found any; it is one of the
   * hits, and no hit has a better class (so an official hit, when present, wins).
   */
  lemma BestVideoIsBest(vs: seq<Video>)
    ensures BestVideo(vs).None? <==> vs == []
    ensures BestVideo(vs).Some? ==> BestVideo(vs).value in vs
    ensures BestVideo(vs).Some? ==>
      forall v :: v in vs ==> RankValue(VideoRank(BestVideo(vs).value)) <= RankValue(VideoRank(v))
  {
    var p := PreferredVideos(vs);
    PreferredVideosPermutation(vs);
    if p == [] {
      assert |multiset(vs)| == 0;
    } else {
      assert p[0] in multiset(p);
      forall v | v in vs
        ensures RankValue(VideoRank(p[0])) <= RankValue(VideoRank(v))
      {
        assert v in multiset(p);
        FirstPreferredBeats(vs, v);
      }
    }
  }

  /** The head of the preference order is ranked no worse than anything in it. */
  lemma FirstPreferredBeats(vs: seq<Video>, v: Video)
    requires v in PreferredVideos(vs)
    ensures RankValue(VideoRank(PreferredVideos(vs)[0])) <= RankValue(VideoRank(v))
  {
    var p := PreferredVideos(vs);
    PreferredVideosRanked(vs);
    var j :| 0 <= j < |p| && p[j] == v;
    if j > 0 {
      assert RankValue(VideoRank(p[0])) <= RankValue(VideoRank(p[j]));
    }
  }

  /** When some hit is from an official channel, the chosen video is too. */
  lemma BestVideoOfficialWins(vs: seq<Video>, v: Video)
    requires v in vs && IsOfficialChannel(v.channelTitle)
    ensures BestVideo(vs).Some? && IsOfficialChannel(BestVideo(vs).value.channelTitle)
  {
    BestVideoIsBest(vs);
  }

  /** The request `_search_for_official_version` sends. */
  function OfficialVersionRequest(artist: string, title: string): (q: SearchRequest)
    ensures q.query == artist + " " + title
    ensures q.maxResults == 10 && q.kind == "video" && q.order == "relevance"
  {
    SearchRequest(artist + " " + title, 10, "video", "relevance")
  }

  /**
   * `_search_for_official_version(artist, title)`: nothing without a client or when the
   * search raises; otherwise the best-ranked of up to ten relevance-ordered hits.
   */
  method SearchForOfficialVersion(s: Service, artist: string, title: string,
                                  videoSearch: SearchRequest -> Option<seq<Video>>)
    returns (sent: Option<SearchRequest>, r: Option<Video>)
    ensures !s.clientBuilt ==> sent.None? && r.None?
    ensures s.clientBuilt ==> sent == Some(OfficialVersionRequest(artist, title))
    ensures s.clientBuilt ==>
      r == (match videoSearch(OfficialVersionRequest(artist, title))
            case None => None
            case Some(vs) => BestVideo(vs))
  {
    if !s.clientBuilt {
      return None, None;
    }
    var request := OfficialVersionRequest(artist, title);
    sent := Some(request);
    var reply := videoSearch(request);
    if reply.None? {
      return sent, None;
    }
    var vs := reply.value;
    var official: seq<Video> := [];
    var topic: seq<Video> := [];
    var other: seq<Video> := [];
    var i := 0;
    while i < |vs|
      invariant 0 <= i <= |vs|
      invariant official == Pick(vs[..i], VideoRank, OfficialRank)
      invariant other == Pick(vs[..i], VideoRank, OtherRank)
      invariant topic == Pick(vs[..i], VideoRank, TopicRank)
    {
      PickPrefix(vs, i, VideoRank, OfficialRank);
      PickPrefix(vs, i, VideoRank, OtherRank);
      PickPrefix(vs, i, VideoRank, TopicRank);
      var channel := vs[i].channelTitle;
      if IsOfficialChannel(channel) {
        official := official + [vs[i]];
      } else if EndsWith(channel, " - Topic") {
        topic := topic + [vs[i]];
      } else {
        other := other + [vs[i]];
      }
      i := i + 1;
    }
    assert vs[..i] == vs;
    var preferred := official + other + topic;
    if preferred != [] {
      r := Some(preferred[0]);
    } else {
      r := None;
    }
  }
}
