/**
 * The Last.fm adapter behind the common service interface. Last.fm has no playlists,
 * so the adapter offers three synthetic collections (top, loved and recent tracks) and
 * fetches each on demand. Replies come from the same oracle as in `LastfmClient`.
 */
module LastfmService {
  import opened Wrappers
  import opened Strings
  import opened Seqs
  import opened MusicModel
  import LC = LastfmClient

  datatype Service = Service(apiKey: string, apiSecret: string, username: string)

  /** What an adapter call raises: a failure of the request layer, or an unknown collection id. */
  datatype Failure = Raised(cause: LC.Failure) | UnknownPlaylistId(id: string)

  /** `test_connection`: a user-info request for the configured username; never raises. */
  function TestConnection(s: Service, server: LC.Request -> LC.Reply): (ok: bool)
    ensures ok ==> s.username != ""
    ensures ok <==> s.username != "" && LC.CheckReply(server(LC.RequestParams("user.getinfo", s.apiKey,
                                                                             map["user" := s.username]))).Ok?
  {
    if s.username == "" then false
    else LC.CheckReply(server(LC.RequestParams("user.getinfo", s.apiKey, map["user" := s.username]))).Ok?
  }

  /** A reply that carries an `error` key fails the connection test. */
  lemma ApiErrorFailsConnection(s: Service, server: LC.Request -> LC.Reply)
    requires server(LC.RequestParams("user.getinfo", s.apiKey, map["user" := s.username])).Body?
    requires server(LC.RequestParams("user.getinfo", s.apiKey, map["user" := s.username])).hasError
    ensures !TestConnection(s, server)
  {
  }

  function SupportedPlaylistTypes(): (r: seq<PlaylistType>)
    ensures r == [LastFmTopTracks, LastFmLovedTracks, LastFmRecentTracks]
  {
    [LastFmTopTracks, LastFmLovedTracks, LastFmRecentTracks]
  }

  const CollectionIds: seq<string> := ["top_tracks", "loved_tracks", "recent_tracks"]

  function Collection(s: Service, name: string, description: string, kind: PlaylistType, id: string): PlaylistInfo {
    MakePlaylistInfo(name, [], description, 0, LastFm, kind, id, "", s.username)
  }

  /**
   * `get_user_playlists`: always the same three collections, in the order top, loved,
   * recent, each empty and owned by the configured user.
   */
  function GetUserPlaylists(s: Service): (r: seq<PlaylistInfo>)
    ensures |r| == 3
    ensures forall i :: 0 <= i < 3 ==>
      r[i].serviceId == CollectionIds[i] && r[i].playlistType == SupportedPlaylistTypes()[i]
      && r[i].tracks == [] && r[i].totalTracks == 0 && r[i].owner == s.username
      && r[i].serviceType == LastFm
    ensures r[0].name == "Top Tracks" && r[1].name == "Loved Tracks" && r[2].name == "Recent Tracks"
  {
    [Collection(s, "Top Tracks", "Your most played tracks", LastFmTopTracks, "top_tracks"),
     Collection(s, "Loved Tracks", "Your loved tracks on Last.fm", LastFmLovedTracks, "loved_tracks"),
     Collection(s, "Recent Tracks", "Your recently played tracks", LastFmRecentTracks, "recent_tracks")]
  }

  /** `search_playlists`: Last.fm has nothing to search. */
  function SearchPlaylists(query: string, limit: int): (r: seq<PlaylistInfo>)
    ensures |r| == 0
  {
    []
  }

  function TopTrack(e: LC.Entry): Result<Track, Failure> {
    var pc := LC.IntOr(e.playcount);
    if pc.None? then Err(Raised(LC.NotAnInteger))
    else Ok(Track(LC.TextOr(e.name), LC.MemberOrText(e.artist, "name"), "", 0, LC.TextOr(e.url),
                  LC.TextOr(e.mbid), LastFm, pc.value, ""))
  }

  function LovedTrack(e: LC.Entry): Track {
    Track(LC.TextOr(e.name), LC.MemberOrText(e.artist, "name"), "", 0, LC.TextOr(e.url),
          LC.TextOr(e.mbid), LastFm, 0, "")
  }

  function RecentTrack(e: LC.Entry): Track {
    Track(LC.TextOr(e.name), LC.MemberOrText(e.artist, "#text"), LC.MemberOrText(e.album, "#text"), 0,
          LC.TextOr(e.url), LC.TextOr(e.mbid), LastFm, 0, "")
  }

  /**
   * The adapter's skip test: `@attr.nowplaying` equals the string `true`. An `@attr`
   * that is a string has no `.get`, which raises.
   */
  function NowPlaying(e: LC.Entry): Result<bool, Failure> {
    match e.attr
    case None => Ok(false)
    case Some(f) =>
      if f.Object? then Ok("nowplaying" in f.members && f.members["nowplaying"] == "true")
      else Err(Raised(LC.NotAnObject))
  }

  /** All top-tracks entries converted in order; the first bad entry aborts the call. */
  function TopTracksOf(entries: seq<LC.Entry>): Result<seq<Track>, Failure> {
    MapResult(entries, TopTrack)
  }


  function LovedTracksOf(entries: seq<LC.Entry>): (r: seq<Track>)
    ensures |r| == |entries|
    ensures forall i :: 0 <= i < |entries| ==> r[i] == LovedTrack(entries[i])
  {
    if entries == [] then [] else LovedTracksOf(entries[..|entries| - 1]) + [LovedTrack(entries[|entries| - 1])]
  }

  /** Recent tracks with the now-playing entries dropped; a malformed `@attr` aborts the call. */
  function RecentTracksOf(entries: seq<LC.Entry>): (r: Result<seq<Track>, Failure>)
    ensures r.Ok? <==> forall i :: 0 <= i < |entries| ==> NowPlaying(entries[i]).Ok?
    ensures r.Ok? ==> |r.value| <= |entries|
  {
    if entries == [] then Ok([])
    else
      var init := RecentTracksOf(entries[..|entries| - 1]);
      var e := entries[|entries| - 1];
      var skip := NowPlaying(e);
      if init.Err? then init
      else if skip.Err? then Err(skip.error)
      else if skip.value then init
      else Ok(init.value + [RecentTrack(e)])
  }

  /** Order is kept: the tracks for a concatenation are the tracks of each part, concatenated. */
  lemma {:induction false} RecentTracksOfAppend(a: seq<LC.Entry>, b: seq<LC.Entry>)
    requires RecentTracksOf(a + b).Ok?
    ensures RecentTracksOf(a).Ok? && RecentTracksOf(b).Ok?
    ensures RecentTracksOf(a + b).value == RecentTracksOf(a).value + RecentTracksOf(b).value
    decreases |b|
  {
    assert forall i :: 0 <= i < |a| ==> a[i] == (a + b)[i];
    assert forall i :: 0 <= i < |b| ==> b[i] == (a + b)[|a| + i];
    if b == [] {
      assert a + b == a;
    } else {
      assert (a + b)[..|a + b| - 1] == a + b[..|b| - 1];
      RecentTracksOfAppend(a, b[..|b| - 1]);
    }
  }

  /**
   * The adapter and the original client disagree on `@attr`: an entry marked
   * `nowplaying: "false"` is kept here but skipped by the client.
   */
  lemma NowPlayingFalseKeptHereSkippedByClient(e: LC.Entry)
    requires e.attr == Some(LC.Object(map["nowplaying" := "false"]))
    ensures RecentTracksOf([e]) == Ok([RecentTrack(e)])
    ensures LC.RecentTracksOf([e]) == []
  {
    var xs := [e];
    assert xs[..|xs| - 1] == [];
    assert RecentTracksOf(xs) == Ok([] + [RecentTrack(e)]);
    assert [] + [RecentTrack(e)] == [RecentTrack(e)];
    assert LC.NowPlaying(e);
  }


  lemma {:induction false} RecentTracksOfPrefixErr(entries: seq<LC.Entry>, n: nat)
    requires n <= |entries| && RecentTracksOf(entries[..n]).Err?
    ensures RecentTracksOf(entries) == RecentTracksOf(entries[..n])
    decreases |entries| - n
  {
    if n < |entries| {
      var p := entries[..n + 1];
      assert p[..|p| - 1] == entries[..n];
      assert RecentTracksOf(p) == RecentTracksOf(entries[..n]);
      RecentTracksOfPrefixErr(entries, n + 1);
    } else {
      assert entries[..n] == entries;
    }
  }

  function ResolveUser(s: Service, username: string): string {
    if username != "" then username else s.username
  }

  function TopRequest(s: Service, user: string, period: string, limit: int, page: int): LC.Request {
    LC.RequestParams("user.gettoptracks", s.apiKey, LC.UserParams(user, limit, page)["period" := period])
  }

  function LovedRequest(s: Service, user: string, limit: int, page: int): LC.Request {
    LC.RequestParams("user.getlovedtracks", s.apiKey, LC.UserParams(user, limit, page))
  }

  function RecentRequest(s: Service, user: string, limit: int, page: int): LC.Request {
    LC.RequestParams("user.getrecenttracks", s.apiKey, LC.UserParams(user, limit, page))
  }

  /** The outcome for a reply: request failures raise, otherwise the list under `key` is converted. */
  function FromReply<T>(reply: LC.Reply, key: string, convert: seq<LC.Entry> -> Result<T, Failure>): Result<T, Failure> {
    match LC.CheckReply(reply)
    case Err(f) => Err(Raised(f))
    case Ok(body) => convert(LC.ListOf(body, key))
  }

  /** `_get_user_top_tracks` */
  method GetUserTopTracks(s: Service, username: string, period: string, limit: int, page: int,
                          server: LC.Request -> LC.Reply)
    returns (sent: Option<LC.Request>, r: Result<seq<Track>, Failure>)
    ensures r.Err? ==> r.error.Raised?
    ensures sent.None? <==> ResolveUser(s, username) == ""
    ensures sent.None? ==> r == Err(Raised(LC.UsernameRequired))
    ensures sent.Some? ==> sent.value == TopRequest(s, ResolveUser(s, username), period, limit, page)
    ensures sent.Some? ==> r == FromReply(server(sent.value), "toptracks", TopTracksOf)
  {
    var user := ResolveUser(s, username);
    if user == "" {
      return None, Err(Raised(LC.UsernameRequired));
    }
    var params := TopRequest(s, user, period, limit, page);
    sent := Some(params);
    var checked := LC.CheckReply(server(params));
    if checked.Err? {
      return sent, Err(Raised(checked.error));
    }
    var entries := LC.ListOf(checked.value, "toptracks");
    var tracks: seq<Track> := [];
    var i := 0;
    while i < |entries|
      invariant 0 <= i <= |entries|
      invariant TopTracksOf(entries[..i]) == Ok(tracks)
    {
      assert entries[..i + 1][..i] == entries[..i];
      var t := TopTrack(entries[i]);
      if t.Err? {
        MapResultPrefixErr(entries, TopTrack, i + 1);
        return sent, Err(t.error);
      }
      tracks := tracks + [t.value];
      i := i + 1;
    }
    assert entries[..i] == entries;
    r := Ok(tracks);
  }

  function LovedOk(entries: seq<LC.Entry>): Result<seq<Track>, Failure> {
    Ok(LovedTracksOf(entries))
  }

  /** `_get_user_loved_tracks` */
  method GetUserLovedTracks(s: Service, username: string, limit: int, page: int,
                            server: LC.Request -> LC.Reply)
    returns (sent: Option<LC.Request>, r: Result<seq<Track>, Failure>)
    ensures r.Err? ==> r.error.Raised?
    ensures sent.None? <==> ResolveUser(s, username) == ""
    ensures sent.None? ==> r == Err(Raised(LC.UsernameRequired))
    ensures sent.Some? ==> sent.value == LC.RequestParams("user.getlovedtracks", s.apiKey,
                                                          LC.UserParams(ResolveUser(s, username), limit, page))
    ensures sent.Some? ==> r == FromReply(server(sent.value), "lovedtracks", LovedOk)
  {
    var user := ResolveUser(s, username);
    if user == "" {
      return None, Err(Raised(LC.UsernameRequired));
    }
    var params := LC.RequestParams("user.getlovedtracks", s.apiKey, LC.UserParams(user, limit, page));
    sent := Some(params);
    var checked := LC.CheckReply(server(params));
    if checked.Err? {
      return sent, Err(Raised(checked.error));
    }
    var entries := LC.ListOf(checked.value, "lovedtracks");
    var tracks: seq<Track> := [];
    var i := 0;
    while i < |entries|
      invariant 0 <= i <= |entries|
      invariant tracks == LovedTracksOf(entries[..i])
    {
      assert entries[..i + 1][..i] == entries[..i];
      tracks := tracks + [LovedTrack(entries[i])];
      i := i + 1;
    }
    assert entries[..i] == entries;
    r := Ok(tracks);
  }

  /** `_get_user_recent_tracks` */
  method GetUserRecentTracks(s: Service, username: string, limit: int, page: int,
                             server: LC.Request -> LC.Reply)
    returns (sent: Option<LC.Request>, r: Result<seq<Track>, Failure>)
    ensures r.Err? ==> r.error.Raised?
    ensures sent.None? <==> ResolveUser(s, username) == ""
    ensures sent.None? ==> r == Err(Raised(LC.UsernameRequired))
    ensures sent.Some? ==> sent.value == LC.RequestParams("user.getrecenttracks", s.apiKey,
                                                          LC.UserParams(ResolveUser(s, username), limit, page))
    ensures sent.Some? ==> r == FromReply(server(sent.value), "recenttracks", RecentTracksOf)
  {
    var user := ResolveUser(s, username);
    if user == "" {
      return None, Err(Raised(LC.UsernameRequired));
    }
    var params := LC.RequestParams("user.getrecenttracks", s.apiKey, LC.UserParams(user, limit, page));
    sent := Some(params);
    var checked := LC.CheckReply(server(params));
    if checked.Err? {
      return sent, Err(Raised(checked.error));
    }
    var entries := LC.ListOf(checked.value, "recenttracks");
    var tracks: seq<Track> := [];
    var i := 0;
    while i < |entries|
      invariant 0 <= i <= |entries|
      invariant RecentTracksOf(entries[..i]) == Ok(tracks)
    {
      assert entries[..i + 1][..i] == entries[..i];
      var skip := NowPlaying(entries[i]);
      if skip.Err? {
        RecentTracksOfPrefixErr(entries, i + 1);
        return sent, Err(skip.error);
      }
      if !skip.value {
        tracks := tracks + [RecentTrack(entries[i])];
      }
      i := i + 1;
    }
    assert entries[..i] == entries;
    r := Ok(tracks);
  }

  /**
   * `get_playlist_tracks`: one of the three collection ids, fetched for the configured
   * user (`limit` defaults to 50, `period` to "overall"); any other id raises.
   */
  method GetPlaylistTracks(s: Service, id: string, limitArg: Option<int>, periodArg: Option<string>,
                           server: LC.Request -> LC.Reply)
    returns (r: Result<PlaylistInfo, Failure>)
    ensures id !in CollectionIds <==> r == Err(UnknownPlaylistId(id))
    ensures s.username == "" && id in CollectionIds ==> r == Err(Raised(LC.UsernameRequired))
    ensures r.Ok? ==> r.value.serviceId == id && r.value.owner == s.username && r.value.serviceType == LastFm
    ensures r.Ok? ==> r.value.totalTracks == |r.value.tracks|
    ensures r.Ok? && id == "top_tracks" ==>
      var limit := if limitArg.Some? then limitArg.value else 50;
      var period := if periodArg.Some? then periodArg.value else "overall";
      && r.value.name == "Top Tracks (" + period + ")"
      && r.value.description == "Your top " + IntToString(limit) + " tracks from " + period
      && r.value.playlistType == LastFmTopTracks
      && Ok(r.value.tracks) == FromReply(server(TopRequest(s, s.username, period, limit, 1)), "toptracks", TopTracksOf)
    ensures r.Ok? && id == "loved_tracks" ==>
      && r.value.name == "Loved Tracks"
      && r.value.description == "Your " + NatToString(|r.value.tracks|) + " loved tracks on Last.fm"
      && r.value.playlistType == LastFmLovedTracks
      && Ok(r.value.tracks) == FromReply(server(LovedRequest(s, s.username, (if limitArg.Some? then limitArg.value else 50), 1)), "lovedtracks", LovedOk)
    ensures r.Ok? && id == "recent_tracks" ==>
      && r.value.name == "Recent Tracks"
      && r.value.description == "Your " + NatToString(|r.value.tracks|) + " most recent tracks"
      && r.value.playlistType == LastFmRecentTracks
      && Ok(r.value.tracks) == FromReply(server(RecentRequest(s, s.username, (if limitArg.Some? then limitArg.value else 50), 1)), "recenttracks", RecentTracksOf)
    ensures s.username != "" && id == "top_tracks" ==>
      var period := if periodArg.Some? then periodArg.value else "overall";
      (r.Err? <==> FromReply(server(TopRequest(s, s.username, period, (if limitArg.Some? then limitArg.value else 50), 1)), "toptracks", TopTracksOf).Err?)
    ensures s.username != "" && id == "loved_tracks" ==>
      (r.Err? <==> FromReply(server(LovedRequest(s, s.username, (if limitArg.Some? then limitArg.value else 50), 1)), "lovedtracks", LovedOk).Err?)
    ensures s.username != "" && id == "recent_tracks" ==>
      (r.Err? <==> FromReply(server(RecentRequest(s, s.username, (if limitArg.Some? then limitArg.value else 50), 1)), "recenttracks", RecentTracksOf).Err?)
  {
    var limit := if limitArg.Some? then limitArg.value else 50;
    var period := if periodArg.Some? then periodArg.value else "overall";
    if id == "top_tracks" {
      var sent, tracks := GetUserTopTracks(s, "", period, limit, 1, server);
      if tracks.Err? {
        return Err(tracks.error);
      }
      var n := |tracks.value|;
      r := Ok(MakePlaylistInfo("Top Tracks (" + period + ")", tracks.value,
                               "Your top " + IntToString(limit) + " tracks from " + period,
                               0, LastFm, LastFmTopTracks, id, "", s.username));
    } else if id == "loved_tracks" {
      var sent, tracks := GetUserLovedTracks(s, "", limit, 1, server);
      if tracks.Err? {
        return Err(tracks.error);
      }
      r := Ok(MakePlaylistInfo("Loved Tracks", tracks.value,
                               "Your " + NatToString(|tracks.value|) + " loved tracks on Last.fm",
                               0, LastFm, LastFmLovedTracks, id, "", s.username));
    } else if id == "recent_tracks" {
      var sent, tracks := GetUserRecentTracks(s, "", limit, 1, server);
      if tracks.Err? {
        return Err(tracks.error);
      }
      r := Ok(MakePlaylistInfo("Recent Tracks", tracks.value,
                               "Your " + NatToString(|tracks.value|) + " most recent tracks",
                               0, LastFm, LastFmRecentTracks, id, "", s.username));
    } else {
      r := Err(UnknownPlaylistId(id));
    }
  }

  /** Every collection `get_user_playlists` lists is one `get_playlist_tracks` accepts. */
  lemma ListedCollectionsAreFetchable(s: Service)
    ensures forall p :: p in GetUserPlaylists(s) ==> p.serviceId in CollectionIds
  {
    var r := GetUserPlaylists(s);
    forall p | p in r ensures p.serviceId in CollectionIds {
      var i :| 0 <= i < |r| && r[i] == p;
      assert p.serviceId == CollectionIds[i];
    }
  }
}
