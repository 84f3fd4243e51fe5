/**
 * The original Last.fm client: its own `Track` and `Playlist` records, the request
 * parameters it sends, how it turns the track entries of a reply into tracks, and the
 * two playlists it builds from them.
 *
 * The HTTP layer is an oracle `server: Request -> Reply`: the reply the server gives to
 * the parameters sent. A Python exception is an `Err` carrying what was raised.
 */
module LastfmClient {
  import opened Wrappers
  import opened Strings
  import opened Seqs

  /** A track as the Last.fm client reports it; `duration` is in seconds. */
  datatype Track = Track(
    title: string,
    artist: string,
    album: string,
    duration: int,
    url: string,
    mbid: string,
    playcount: int)

  /** `Track(title, artist)` with every other field at its default. */
  function NewTrack(title: string, artist: string): (t: Track)
    ensures t.title == title && t.artist == artist
    ensures t.album == "" && t.duration == 0 && t.url == "" && t.mbid == "" && t.playcount == 0
  {
    Track(title, artist, "", 0, "", "", 0)
  }

  /** `str(track)`: the artist, a spaced dash, then the title. */
  function TrackDisplay(t: Track): (r: string)
    ensures |r| == |t.artist| + 3 + |t.title|
    ensures r[..|t.artist|] == t.artist
    ensures r[|t.artist|..|t.artist| + 3] == " - "
    ensures r[|t.artist| + 3..] == t.title
  {
    t.artist + " - " + t.title
  }

  /** The album plays no part in the display string. */
  lemma TrackDisplayExample()
    ensures TrackDisplay(NewTrack("Test Song", "Test Artist").(album := "Test Album"))
         == "Test Artist - Test Song"
  {
  }

  datatype Playlist = Playlist(name: string, tracks: seq<Track>, description: string, totalTracks: int)

  /** The dataclass constructor and `__post_init__`: a zero count becomes the number of tracks. */
  function MakePlaylist(name: string, tracks: seq<Track>, description: string, totalTracks: int): (p: Playlist)
    ensures p.name == name && p.tracks == tracks && p.description == description
    ensures totalTracks == 0 ==> p.totalTracks == |tracks|
    ensures totalTracks != 0 ==> p.totalTracks == totalTracks
  {
    Playlist(name, tracks, description, if totalTracks == 0 then |tracks| else totalTracks)
  }

  lemma PlaylistExample()
    ensures MakePlaylist("Test Playlist", [NewTrack("Song 1", "Artist 1"), NewTrack("Song 2", "Artist 2")],
                         "A test playlist", 0).totalTracks == 2
  {
  }

  /** One value of a track entry: a JSON string, or a JSON object whose members are strings. */
  datatype Field = Text(text: string) | Object(members: map<string, string>)

  /** One element of a reply's `track` list; `None` where the key is absent. */
  datatype Entry = Entry(
    name: Option<string>,
    artist: Option<Field>,
    album: Option<Field>,
    url: Option<string>,
    mbid: Option<string>,
    playcount: Option<string>,
    duration: Option<string>,
    attr: Option<Field>)

  /**
   * What `session.get(...).json()` yields. `lists[k]` is present when the body has a key
   * `k` holding an object with a `track` list; `track` is the body's `track` object.
   */
  datatype Reply =
    | NetworkFailure
    | InvalidJson
    | Body(hasError: bool, lists: map<string, seq<Entry>>, track: Option<Entry>)

  /** What a call raises. */
  datatype Failure =
    | UsernameRequired
    | ApiError
    | NetworkError
    | InvalidJsonResponse
    | NotAnInteger
    | NotAnObject

  datatype Client = Client(apiKey: string, apiSecret: string, username: string)

  type Request = map<string, string>

  const ReservedKeys: set<string> := {"method", "api_key", "format"}

  /**
   * The parameters `_make_request` sends: the caller's parameters updated in place with
   * the method name, the API key and the response format, which override any caller value.
   */
  function RequestParams(apiMethod: string, apiKey: string, params: Request): (r: Request)
    ensures r.Keys == params.Keys + ReservedKeys
    ensures r["method"] == apiMethod && r["api_key"] == apiKey && r["format"] == "json"
    ensures forall k :: k in params && k !in ReservedKeys ==> r[k] == params[k]
  {
    params["method" := apiMethod]["api_key" := apiKey]["format" := "json"]
  }

  /** `_make_request` after the reply arrives: transport, decoding and API errors raise. */
  function CheckReply(reply: Reply): (r: Result<Reply, Failure>)
    ensures r.Ok? <==> reply.Body? && !reply.hasError
    ensures r.Ok? ==> r.value == reply
  {
    match reply
    case NetworkFailure => Err(NetworkError)
    case InvalidJson => Err(InvalidJsonResponse)
    case Body(hasError, _, _) => if hasError then Err(ApiError) else Ok(reply)
  }

  /** The username a getter uses: its argument when given, else the client's default. */
  function ResolveUser(c: Client, username: string): string {
    if username != "" then username else c.username
  }

  /** `entry.get(key, '')` for a string-valued key. */
  function TextOr(v: Option<string>): string {
    if v.Some? then v.value else ""
  }

  /**
   * The artist and album rule: a member of the object when the value is an object
   * (empty when the member is missing), the string itself otherwise, empty when absent.
   */
  function MemberOrText(f: Option<Field>, member: string): (r: string)
    ensures f.None? ==> r == ""
    ensures f.Some? && f.value.Text? ==> r == f.value.text
    ensures f.Some? && f.value.Object? && member in f.value.members ==> r == f.value.members[member]
    ensures f.Some? && f.value.Object? && member !in f.value.members ==> r == ""
  {
    match f
    case None => ""
    case Some(Text(s)) => s
    case Some(Object(m)) => if member in m then m[member] else ""
  }

  /** `int(entry.get(key, 0))` */
  function IntOr(v: Option<string>): Option<int> {
    if v.None? then Some(0) else ParseInt(v.value)
  }

  /** A top-tracks entry; the play count must be an integer. */
  function TopTrack(e: Entry): Result<Track, Failure> {
    var pc := IntOr(e.playcount);
    if pc.None? then Err(NotAnInteger)
    else Ok(Track(TextOr(e.name), MemberOrText(e.artist, "name"), "", 0, TextOr(e.url), TextOr(e.mbid), pc.value))
  }

  function LovedTrack(e: Entry): Track {
    Track(TextOr(e.name), MemberOrText(e.artist, "name"), "", 0, TextOr(e.url), TextOr(e.mbid), 0)
  }

  function RecentTrack(e: Entry): Track {
    Track(TextOr(e.name), MemberOrText(e.artist, "#text"), MemberOrText(e.album, "#text"), 0,
          TextOr(e.url), TextOr(e.mbid), 0)
  }

  /**
   * The recent-tracks skip test: `@attr` is present and `nowplaying` is in it. For an
   * object that is a key test, whatever the value; for a string it is a substring test.
   */
  predicate NowPlaying(e: Entry) {
    match e.attr
    case None => false
    case Some(Object(m)) => "nowplaying" in m
    case Some(Text(s)) => Contains(s, "nowplaying")
  }

  /** All top-tracks entries converted in order; the first bad entry aborts the call. */
  function TopTracksOf(entries: seq<Entry>): Result<seq<Track>, Failure> {
    MapResult(entries, TopTrack)
  }


  function LovedTracksOf(entries: seq<Entry>): (r: seq<Track>)
    ensures |r| == |entries|
    ensures forall i :: 0 <= i < |entries| ==> r[i] == LovedTrack(entries[i])
  {
    if entries == [] then [] else LovedTracksOf(entries[..|entries| - 1]) + [LovedTrack(entries[|entries| - 1])]
  }

  /** The recent-tracks list: now-playing entries dropped, the others converted in order. */
  function RecentTracksOf(entries: seq<Entry>): (r: seq<Track>)
    ensures |r| <= |entries|
  {
    if entries == [] then []
    else
      var init := RecentTracksOf(entries[..|entries| - 1]);
      var e := entries[|entries| - 1];
      if NowPlaying(e) then init else init + [RecentTrack(e)]
  }

  /** The filter works entry by entry: the result for a concatenation is the concatenation of the results. */
  lemma {:induction false} RecentTracksOfAppend(a: seq<Entry>, b: seq<Entry>)
    ensures RecentTracksOf(a + b) == RecentTracksOf(a) + RecentTracksOf(b)
    decreases |b|
  {
    if b == [] {
      assert a + b == a;
    } else {
      assert (a + b)[..|a + b| - 1] == a + b[..|b| - 1];
      RecentTracksOfAppend(a, b[..|b| - 1]);
    }
  }

  /** A single entry is dropped exactly when it is now playing. */
  lemma RecentTracksOfSingle(e: Entry)
    ensures RecentTracksOf([e]) == if NowPlaying(e) then [] else [RecentTrack(e)]
  {
    assert [e][..0] == [];
  }

  /** Every kept track comes from an entry that is not now playing, and nothing else is dropped. */
  lemma {:induction false} RecentTracksOfMembers(entries: seq<Entry>)
    ensures forall t :: t in RecentTracksOf(entries) ==>
      exists i :: 0 <= i < |entries| && !NowPlaying(entries[i]) && t == RecentTrack(entries[i])
    ensures (forall i :: 0 <= i < |entries| ==> !NowPlaying(entries[i])) ==>
      |RecentTracksOf(entries)| == |entries|
    decreases |entries|
  {
    if entries != [] {
      var init := entries[..|entries| - 1];
      RecentTracksOfMembers(init);
      forall t | t in RecentTracksOf(entries)
        ensures exists i :: 0 <= i < |entries| && !NowPlaying(entries[i]) && t == RecentTrack(entries[i])
      {
        if t in RecentTracksOf(init) {
          var i :| 0 <= i < |init| && !NowPlaying(init[i]) && t == RecentTrack(init[i]);
          assert entries[i] == init[i];
        } else {
          assert t == RecentTrack(entries[|entries| - 1]);
        }
      }
    }
  }

  /** The payload's list under `key`, or nothing when the key or its `track` list is missing. */
  function ListOf(reply: Reply, key: string): seq<Entry>
    requires reply.Body?
  {
    if key in reply.lists then reply.lists[key] else []
  }

  function UserParams(user: string, limit: int, page: int): Request {
    map["user" := user, "limit" := IntToString(limit), "page" := IntToString(page)]
  }

  /** `get_user_top_tracks` */
  method GetUserTopTracks(c: Client, username: string, period: string, limit: int, page: int,
                          server: Request -> Reply)
    returns (sent: Option<Request>, r: Result<seq<Track>, Failure>)
    ensures sent.None? <==> ResolveUser(c, username) == ""
    ensures sent.None? ==> r == Err(UsernameRequired)
    ensures sent.Some? ==> sent.value == RequestParams("user.gettoptracks", c.apiKey,
              UserParams(ResolveUser(c, username), limit, page)["period" := period])
    ensures sent.Some? ==> r == (match CheckReply(server(sent.value))
                                 case Err(f) => Err(f)
                                 case Ok(body) => TopTracksOf(ListOf(body, "toptracks")))
  {
    var user := ResolveUser(c, username);
    if user == "" {
      return None, Err(UsernameRequired);
    }
    var params := RequestParams("user.gettoptracks", c.apiKey, UserParams(user, limit, page)["period" := period]);
    sent := Some(params);
    var checked := CheckReply(server(params));
    if checked.Err? {
      return sent, Err(checked.error);
    }
    var entries := ListOf(checked.value, "toptracks");
    var tracks: seq<Track> := [];
    var i := 0;
    while i < |entries|
      invariant 0 <= i <= |entries|
      invariant TopTracksOf(entries[..i]) == Ok(tracks)
    {
      assert entries[..i + 1][..i] == entries[..i];
      var t := TopTrack(entries[i]);
      if t.Err? {
        MapResultPrefixErr(entries, TopTrack, i + 1);
        return sent, Err(t.error);
      }
      tracks := tracks + [t.value];
      i := i + 1;
    }
    assert entries[..i] == entries;
    r := Ok(tracks);
  }

  /** `get_user_loved_tracks` */
  method GetUserLovedTracks(c: Client, username: string, limit: int, page: int, server: Request -> Reply)
    returns (sent: Option<Request>, r: Result<seq<Track>, Failure>)
    ensures sent.None? <==> ResolveUser(c, username) == ""
    ensures sent.None? ==> r == Err(UsernameRequired)
    ensures sent.Some? ==> sent.value == RequestParams("user.getlovedtracks", c.apiKey,
              UserParams(ResolveUser(c, username), limit, page))
    ensures sent.Some? ==> r == (match CheckReply(server(sent.value))
                                 case Err(f) => Err(f)
                                 case Ok(body) => Ok(LovedTracksOf(ListOf(body, "lovedtracks"))))
  {
    var user := ResolveUser(c, username);
    if user == "" {
      return None, Err(UsernameRequired);
    }
    var params := RequestParams("user.getlovedtracks", c.apiKey, UserParams(user, limit, page));
    sent := Some(params);
    var checked := CheckReply(server(params));
    if checked.Err? {
      return sent, Err(checked.error);
    }
    var entries := ListOf(checked.value, "lovedtracks");
    var tracks: seq<Track> := [];
    var i := 0;
    while i < |entries|
      invariant 0 <= i <= |entries|
      invariant tracks == LovedTracksOf(entries[..i])
    {
      assert entries[..i + 1][..i] == entries[..i];
      tracks := tracks + [LovedTrack(entries[i])];
      i := i + 1;
    }
    assert entries[..i] == entries;
    r := Ok(tracks);
  }

  /** `get_user_recent_tracks` */
  method GetUserRecentTracks(c: Client, username: string, limit: int, page: int, server: Request -> Reply)
    returns (sent: Option<Request>, r: Result<seq<Track>, Failure>)
    ensures sent.None? <==> ResolveUser(c, username) == ""
    ensures sent.None? ==> r == Err(UsernameRequired)
    ensures sent.Some? ==> sent.value == RequestParams("user.getrecenttracks", c.apiKey,
              UserParams(ResolveUser(c, username), limit, page))
    ensures sent.Some? ==> r == (match CheckReply(server(sent.value))
                                 case Err(f) => Err(f)
                                 case Ok(body) => Ok(RecentTracksOf(ListOf(body, "recenttracks"))))
  {
    var user := ResolveUser(c, username);
    if user == "" {
      return None, Err(UsernameRequired);
    }
    var params := RequestParams("user.getrecenttracks", c.apiKey, UserParams(user, limit, page));
    sent := Some(params);
    var checked := CheckReply(server(params));
    if checked.Err? {
      return sent, Err(checked.error);
    }
    var entries := ListOf(checked.value, "recenttracks");
    var tracks: seq<Track> := [];
    var i := 0;
    while i < |entries|
      invariant 0 <= i <= |entries|
      invariant tracks == RecentTracksOf(entries[..i])
    {
      assert entries[..i + 1][..i] == entries[..i];
      if !NowPlaying(entries[i]) {
        tracks := tracks + [RecentTrack(entries[i])];
      }
      i := i + 1;
    }
    assert entries[..i] == entries;
    r := Ok(tracks);
  }

  /**
   * The album of a track-info entry: the object's `title` when the value is a non-empty
   * object, empty when it is absent or empty; a non-empty string has no `.get` and raises.
   */
  function InfoAlbum(f: Option<Field>): Option<string> {
    match f
    case None => Some("")
    case Some(Object(m)) => if m == map[] then Some("") else Some(if "title" in m then m["title"] else "")
    case Some(Text(s)) => if s == "" then Some("") else None
  }

  /** Whether a track-info entry converts without raising. */
  predicate InfoConvertible(e: Entry) {
    InfoAlbum(e.album).Some? && IntOr(e.duration).Some? && IntOr(e.playcount).Some?
  }

  function InfoParams(artist: string, track: string, username: string): Request {
    var p := map["artist" := artist, "track" := track];
    if username != "" then p["username" := username] else p
  }

  /**
   * `get_track_info`: the reply's track with the duration converted from milliseconds to
   * whole seconds (rounded down), or `None` when anything along the way raises.
   */
  function GetTrackInfo(c: Client, artist: string, track: string, username: string,
                        server: Request -> Reply): (r: Option<Track>)
    ensures var reply := server(RequestParams("track.getinfo", c.apiKey, InfoParams(artist, track, username)));
      && (r.Some? <==> CheckReply(reply).Ok? && reply.track.Some? && InfoConvertible(reply.track.value))
      && (r.Some? ==> var ms := IntOr(reply.track.value.duration).value;
                      r.value.duration * 1000 <= ms < r.value.duration * 1000 + 1000)
      && (r.Some? ==> r.value.playcount == IntOr(reply.track.value.playcount).value
                      && r.value.album == InfoAlbum(reply.track.value.album).value)
  {
    var reply := server(RequestParams("track.getinfo", c.apiKey, InfoParams(artist, track, username)));
    var checked := CheckReply(reply);
    if checked.Err? || reply.track.None? then None
    else
      var e := reply.track.value;
      if !InfoConvertible(e) then None
      else
        Some(Track(TextOr(e.name), MemberOrText(e.artist, "name"), InfoAlbum(e.album).value,
                   IntOr(e.duration).value / 1000, TextOr(e.url), TextOr(e.mbid), IntOr(e.playcount).value))
  }

  /** `create_playlist_from_top_tracks` */
  method CreatePlaylistFromTopTracks(c: Client, period: string, limit: int, username: string,
                                     server: Request -> Reply)
    returns (r: Result<Playlist, Failure>)
    ensures var reply := server(RequestParams("user.gettoptracks", c.apiKey,
                                UserParams(ResolveUser(c, username), limit, 1)["period" := period]));
      r.Err? <==> (ResolveUser(c, username) == "" || CheckReply(reply).Err?
                   || TopTracksOf(ListOf(reply, "toptracks")).Err?)
    ensures r.Ok? ==> r.value.name == "Top Tracks (" + Title(period) + ")"
    ensures r.Ok? ==>
      r.value.description == "Your top " + NatToString(|r.value.tracks|) + " tracks from " + period
    ensures r.Ok? ==> r.value.totalTracks == |r.value.tracks|
    ensures var reply := server(RequestParams("user.gettoptracks", c.apiKey,
                                UserParams(ResolveUser(c, username), limit, 1)["period" := period]));
      r.Ok? ==> TopTracksOf(ListOf(reply, "toptracks")) == Ok(r.value.tracks)
  {
    var sent, tracks := GetUserTopTracks(c, username, period, limit, 1, server);
    if tracks.Err? {
      return Err(tracks.error);
    }
    r := Ok(MakePlaylist("Top Tracks (" + Title(period) + ")", tracks.value,
                         "Your top " + NatToString(|tracks.value|) + " tracks from " + period, 0));
  }

  /** `str.title()` capitalises after a digit too, so the 7-day period shows as "7Day". */
  lemma TopTracksNameExample()
    ensures "Top Tracks (" + Title("7day") + ")" == "Top Tracks (7Day)"
  {
  }

  /** `create_playlist_from_loved_tracks` */
  method CreatePlaylistFromLovedTracks(c: Client, limit: int, username: string, server: Request -> Reply)
    returns (r: Result<Playlist, Failure>)
    ensures var reply := server(RequestParams("user.getlovedtracks", c.apiKey,
                                UserParams(ResolveUser(c, username), limit, 1)));
      r.Err? <==> (ResolveUser(c, username) == "" || CheckReply(reply).Err?)
    ensures r.Ok? ==> r.value.name == "Loved Tracks"
    ensures r.Ok? ==> r.value.description == "Your " + NatToString(|r.value.tracks|) + " most loved tracks"
    ensures r.Ok? ==> r.value.totalTracks == |r.value.tracks|
    ensures var reply := server(RequestParams("user.getlovedtracks", c.apiKey,
                                UserParams(ResolveUser(c, username), limit, 1)));
      r.Ok? ==> r.value.tracks == LovedTracksOf(ListOf(reply, "lovedtracks"))
  {
    var sent, tracks := GetUserLovedTracks(c, username, limit, 1, server);
    if tracks.Err? {
      return Err(tracks.error);
    }
    r := Ok(MakePlaylist("Loved Tracks", tracks.value,
                         "Your " + NatToString(|tracks.value|) + " most loved tracks", 0));
  }
}
