/**
 * The Spotify adapter: a client-credentials token kept in a field, requests that
 * re-authenticate once on a 401 and retry once, and the conversions of playlist
 * listings, search results and (paginated) playlist tracks.
 *
 * The network is an `Http` object that answers each call with the next reply of a
 * scripted queue and records what was sent. `World` bundles the token with that queue
 * and log, and the specification functions say what each operation does to a `World`.
 */
module SpotifyService {
  import opened Wrappers
  import opened Strings
  import opened Seqs
  import opened MusicModel

  const BaseUrl: string := "https://api.spotify.com/v1"
  const TokenUrl: string := "https://accounts.spotify.com/api/token"

  /** A query parameter value. */
  datatype Param = Num(n: int) | Text(t: string)
  type Params = map<string, Param>

  /** A playlist item's `track` object; `None` fields are absent keys. */
  datatype TrackData = TrackData(
    kind: Option<string>,
    name: Option<string>,
    artists: seq<Option<string>>,   // each artist's "name" (None: the key is missing)
    albumName: Option<string>,
    spotifyUrl: Option<string>,
    durationMs: Option<int>,
    id: Option<string>)

  /** An entry of a playlist's tracks page; `None` when `track` is missing, null or empty. */
  datatype TrackItem = TrackItem(track: Option<TrackData>)

  /** A playlist object of a listing or a search. */
  datatype PlaylistEntry = PlaylistEntry(
    name: Option<string>,
    description: Option<string>,
    total: Option<int>,   // tracks.total
    id: Option<string>,
    owner: Option<string>)   // owner.display_name

  /** The decoded JSON bodies the adapter reads; an absent key is `None`. */
  datatype Body =
    | TokenGrant(accessToken: Option<string>)
    | PlaylistMeta(name: Option<string>, description: Option<string>)
    | TrackPage(items: Option<seq<TrackItem>>, next: Option<string>)
    | PlaylistPage(entries: Option<seq<PlaylistEntry>>)
    | SearchPage(playlists: Option<seq<PlaylistEntry>>)
    | OtherBody

  /** What an HTTP call comes back with: a status and a body, or an exception. */
  datatype Reply = Reply(status: int, body: Body) | Raised

  /** What the adapter sends: the token request, or an API GET with its bearer header. */
  datatype Call =
    | Post(url: string, clientId: string, clientSecret: string)
    | Get(url: string, bearer: string, params: Option<Params>)

  /** The access token, the replies still to come and the calls sent so far. */
  datatype World = World(token: Option<string>, replies: seq<Reply>, sent: seq<Call>)

  /** A result together with the world after computing it. */
  datatype Answer<T> = Answer(value: T, world: World)

  // ---------------------------------------------------------------------------
  // The network

  /** One call: it is logged and consumes the next reply; with none left it raises. */
  function Send(w: World, call: Call): (a: Answer<Reply>)
    ensures a.world.token == w.token && a.world.sent == w.sent + [call]
    ensures w.replies == [] ==> a.value == Raised && a.world.replies == []
    ensures w.replies != [] ==> a.value == w.replies[0] && a.world.replies == w.replies[1..]
  {
    if w.replies == [] then Answer(Raised, World(w.token, [], w.sent + [call]))
    else Answer(w.replies[0], World(w.token, w.replies[1..], w.sent + [call]))
  }

  class Http {
    var replies: seq<Reply>
    var sent: seq<Call>

    constructor(script: seq<Reply>)
      ensures replies == script && sent == []
    {
      replies := script;
      sent := [];
    }

    method Call(call: Call) returns (reply: Reply)
      modifies this
      ensures sent == old(sent) + [call]
      ensures old(replies) == [] ==> reply == Raised && replies == []
      ensures old(replies) != [] ==> reply == old(replies)[0] && replies == old(replies)[1..]
    {
      sent := sent + [call];
      if replies == [] {
        reply := Raised;
      } else {
        reply := replies[0];
        replies := replies[1..];
      }
    }
  }

  // ---------------------------------------------------------------------------
  // Authentication and requests

  /** `if not self.access_token`: absent and empty tokens are both missing. */
  predicate HasToken(t: Option<string>) {
    t.Some? && t.value != ""
  }

  /** The `Authorization` header; a token of `None` is formatted as "None". */
  function Bearer(t: Option<string>): string {
    "Bearer " + OrElse(t, "None")
  }

  /** `f"{self.base_url}/{endpoint.lstrip('/')}"` */
  function RequestUrl(endpoint: string): (url: string)
    ensures StartsWith(url, BaseUrl + "/")
    ensures url[|BaseUrl| + 1..] == LStripChar(endpoint, '/')
  {
    BaseUrl + "/" + LStripChar(endpoint, '/')
  }

  function GrantedToken(b: Body): Option<string> {
    if b.TokenGrant? then b.accessToken else None
  }

  /**
   * `_authenticate`: one token request. A 200 stores the reply's `access_token` (which
   * may be absent) and succeeds; anything else leaves the token alone and fails.
   */
  function AuthSpec(id: string, secret: string, w: World): (a: Answer<bool>)
    ensures a.world.sent == w.sent + [Post(TokenUrl, id, secret)]
    ensures |w.replies| > 0 ==> a.world.replies == w.replies[1..]
    ensures a.value <==> |w.replies| > 0 && w.replies[0].Reply? && w.replies[0].status == 200
    ensures a.value ==> a.world.token == GrantedToken(w.replies[0].body)
    ensures !a.value ==> a.world.token == w.token
  {
    var s := Send(w, Post(TokenUrl, id, secret));
    if s.value.Reply? && s.value.status == 200 then
      Answer(true, s.world.(token := GrantedToken(s.value.body)))
    else Answer(false, s.world)
  }

  /** The body of a 200 reply, if the reply is one. */
  function OkBody(r: Reply): Option<Body> {
    if r.Reply? && r.status == 200 then Some(r.body) else None
  }

  /** What a request appended to the log. */
  function NewCalls(before: World, after: World): seq<Call>
    requires |before.sent| <= |after.sent|
  {
    after.sent[|before.sent|..]
  }

  /** The retry after a 401: a new token request and, if it succeeds, the same GET once more. */
  function Retry(id: string, secret: string, url: string, params: Option<Params>, w: World)
    : (a: Answer<Option<Body>>)
    ensures |a.world.replies| <= |w.replies|
    ensures a.value.Some? ==> |a.world.replies| < |w.replies|
    ensures w.sent <= a.world.sent && |a.world.sent| <= |w.sent| + 2
  {
    var again := AuthSpec(id, secret, w);
    if !again.value then Answer(None, again.world)
    else
      var g := Send(again.world, Get(url, Bearer(again.world.token), params));
      Answer(OkBody(g.value), g.world)
  }

  /** The GET with the token held, and the one retry when it is refused with a 401. */
  function Attempt(id: string, secret: string, url: string, params: Option<Params>, w: World)
    : (a: Answer<Option<Body>>)
    ensures |a.world.replies| <= |w.replies|
    ensures a.value.Some? ==> |a.world.replies| < |w.replies|
    ensures w.sent <= a.world.sent && |a.world.sent| <= |w.sent| + 3
  {
    var g := Send(w, Get(url, Bearer(w.token), params));
    if g.value.Reply? && g.value.status == 401 then Retry(id, secret, url, params, g.world)
    else Answer(OkBody(g.value), g.world)
  }

  /**
   * `_make_request(endpoint, params)`, for the URL built from the endpoint: authenticate
   * first when no token is held (giving up if that fails), then the attempt. Only a 200
   * yields a body.
   */
  function RequestSpec(id: string, secret: string, url: string, params: Option<Params>, w: World)
    : (a: Answer<Option<Body>>)
    ensures |a.world.replies| <= |w.replies|
    ensures a.value.Some? ==> |a.world.replies| < |w.replies|
    ensures w.sent <= a.world.sent && |a.world.sent| <= |w.sent| + 4
  {
    var first := if HasToken(w.token) then Answer(true, w) else AuthSpec(id, secret, w);
    if !first.value then Answer(None, first.world)
    else Attempt(id, secret, url, params, first.world)
  }

  /** The GET calls among `calls`. */
  function Gets(calls: seq<Call>): nat {
    if calls == [] then 0 else (if calls[0].Get? then 1 else 0) + Gets(calls[1..])
  }

  lemma {:induction false} GetsAppend(a: seq<Call>, b: seq<Call>)
    ensures Gets(a + b) == Gets(a) + Gets(b)
    decreases |a|
  {
    if a == [] {
      assert a + b == b;
    } else {
      assert (a + b)[0] == a[0];
      assert (a + b)[1..] == a[1..] + b;
      GetsAppend(a[1..], b);
    }
  }

  lemma RetryGets(id: string, secret: string, url: string, params: Option<Params>, w: World)
    ensures Gets(NewCalls(w, Retry(id, secret, url, params, w).world)) <= 1
  {
    var again := AuthSpec(id, secret, w);
    var post := Post(TokenUrl, id, secret);
    assert NewCalls(w, again.world) == [post];
    if again.value {
      var get := Get(url, Bearer(again.world.token), params);
      assert NewCalls(w, Retry(id, secret, url, params, w).world) == [post] + [get];
      GetsAppend([post], [get]);
    }
  }

  lemma AttemptGets(id: string, secret: string, url: string, params: Option<Params>, w: World)
    ensures Gets(NewCalls(w, Attempt(id, secret, url, params, w).world)) <= 2
  {
    var get := Get(url, Bearer(w.token), params);
    var g := Send(w, get);
    if g.value.Reply? && g.value.status == 401 {
      var r := Retry(id, secret, url, params, g.world);
      RetryGets(id, secret, url, params, g.world);
      assert NewCalls(w, r.world) == [get] + NewCalls(g.world, r.world);
      GetsAppend([get], NewCalls(g.world, r.world));
    }
  }

  /** A request sends at most two GETs: the first try and one retry. */
  lemma RequestAtMostTwoGets(id: string, secret: string, url: string, params: Option<Params>, w: World)
    ensures Gets(NewCalls(w, RequestSpec(id, secret, url, params, w).world)) <= 2
  {
    var first := if HasToken(w.token) then Answer(true, w) else AuthSpec(id, secret, w);
    if first.value {
      var a := Attempt(id, secret, url, params, first.world);
      AttemptGets(id, secret, url, params, first.world);
      assert NewCalls(w, a.world) == NewCalls(w, first.world) + NewCalls(first.world, a.world);
      GetsAppend(NewCalls(w, first.world), NewCalls(first.world, a.world));
      assert Gets(NewCalls(w, first.world)) == 0 by {
        if !HasToken(w.token) {
          assert NewCalls(w, first.world) == [Post(TokenUrl, id, secret)];
        } else {
          assert NewCalls(w, first.world) == [];
        }
      }
    } else {
      assert NewCalls(w, first.world) == [Post(TokenUrl, id, secret)];
    }
  }

  /** With a token held, a 200 is returned at once: one GET, with that token. */
  lemma RequestWithToken(id: string, secret: string, url: string, params: Option<Params>,
                         t: string, b: Body, rest: seq<Reply>, sent: seq<Call>)
    requires t != ""
    ensures RequestSpec(id, secret, url, params, World(Some(t), [Reply(200, b)] + rest, sent))
      == Answer(Some(b), World(Some(t), rest, sent + [Get(url, "Bearer " + t, params)]))
  {
    assert ([Reply(200, b)] + rest)[1..] == rest;
  }

  /** Without a token, a failed authentication ends the request: nothing but the token request is sent. */
  lemma RequestAuthFails(id: string, secret: string, url: string, params: Option<Params>, w: World)
    requires !HasToken(w.token)
    requires w.replies == [] || !(w.replies[0].Reply? && w.replies[0].status == 200)
    ensures var a := RequestSpec(id, secret, url, params, w);
      a.value.None? && a.world.token == w.token && a.world.sent == w.sent + [Post(TokenUrl, id, secret)]
  {
  }

  /**
   * An expired token: the 401 is followed by a new token request, and the GET is repeated
   * with the new token; its 200 is the result.
   */
  lemma RequestRetriedAfter401(id: string, secret: string, url: string, params: Option<Params>,
                               t: string, t2: string, stale: Body, b: Body, rest: seq<Reply>,
                               sent: seq<Call>)
    requires t != ""
    ensures var w := World(Some(t), [Reply(401, stale), Reply(200, TokenGrant(Some(t2))), Reply(200, b)] + rest, sent);
      RequestSpec(id, secret, url, params, w) ==
        Answer(Some(b), World(Some(t2), rest,
          sent + [Get(url, "Bearer " + t, params), Post(TokenUrl, id, secret), Get(url, "Bearer " + t2, params)]))
  {
    var replies := [Reply(401, stale), Reply(200, TokenGrant(Some(t2))), Reply(200, b)] + rest;
    var w := World(Some(t), replies, sent);
    var get1 := Get(url, "Bearer " + t, params);
    var w1 := World(Some(t), replies[1..], sent + [get1]);
    assert Send(w, get1) == Answer(Reply(401, stale), w1);
    var w2 := World(Some(t2), replies[1..][1..], sent + [get1] + [Post(TokenUrl, id, secret)]);
    assert AuthSpec(id, secret, w1) == Answer(true, w2);
    assert replies[1..][1..][1..] == rest;
  }

  /** A second 401 is not retried again: the request gives up after the one retry. */
  lemma RequestRetriedOnce(id: string, secret: string, url: string, params: Option<Params>,
                           t: string, t2: string, x: Body, y: Body, rest: seq<Reply>, sent: seq<Call>)
    requires t != ""
    ensures var w := World(Some(t), [Reply(401, x), Reply(200, TokenGrant(Some(t2))), Reply(401, y)] + rest, sent);
      var a := RequestSpec(id, secret, url, params, w);
      a.value.None? && a.world.replies == rest && |a.world.sent| == |sent| + 3
  {
    var w := World(Some(t), [Reply(401, x), Reply(200, TokenGrant(Some(t2))), Reply(401, y)] + rest, sent);
    assert w.replies[1..][1..][1..] == rest;
  }

  // ---------------------------------------------------------------------------
  // Conversions

  /** The artist names of a track whose artists all carry a name. */
  function ArtistNames(artists: seq<Option<string>>): (names: seq<string>)
    ensures |names| == |artists|
    ensures forall i :: 0 <= i < |artists| && artists[i].Some? ==> names[i] == artists[i].value
  {
    seq(|artists|, i requires 0 <= i < |artists| => OrElse(artists[i], ""))
  }

  /** `duration_ms // 1000`: whole seconds, rounded down. */
  function Seconds(ms: int): (s: int)
    ensures 1000 * s <= ms < 1000 * s + 1000
  {
    ms / 1000
  }

  /** A playable track object as a `Track`, with the source's defaults for absent keys. */
  function SpotifyTrack(d: TrackData): (t: Track)
    ensures t.artist == Join(ArtistNames(d.artists), ", ")
    ensures t.title == OrElse(d.name, "Unknown") && t.album == OrElse(d.albumName, "Unknown")
    ensures 1000 * t.duration <= OrElse(d.durationMs, 0) < 1000 * t.duration + 1000
    ensures t.url == OrElse(d.spotifyUrl, "") && t.serviceId == OrElse(d.id, "")
    ensures t.serviceType == Spotify && t.playcount == 0 && t.thumbnailUrl == ""
  {
    Track(OrElse(d.name, "Unknown"), Join(ArtistNames(d.artists), ", "), OrElse(d.albumName, "Unknown"),
          Seconds(OrElse(d.durationMs, 0)), OrElse(d.spotifyUrl, ""), OrElse(d.id, ""), Spotify, 0, "")
  }

  /**
   * One entry of a tracks page: entries without a track object, or whose type is not
   * "track", are skipped; an artist without a name raises.
   */
  function TrackStep(item: TrackItem): (s: Step<Track>)
    ensures item.track.None? || item.track.value.kind != Some("track") ==> s == Skip
    ensures s.Keep? ==> s.value == SpotifyTrack(item.track.value) && item.track.value.kind == Some("track")
    ensures s.Fail? <==> (item.track.Some? && item.track.value.kind == Some("track") &&
                          exists i :: 0 <= i < |item.track.value.artists| && item.track.value.artists[i].None?)
  {
    if item.track.None? || item.track.value.kind != Some("track") then Skip
    else if forall i | 0 <= i < |item.track.value.artists| :: item.track.value.artists[i].Some? then
      Keep(SpotifyTrack(item.track.value))
    else Fail
  }

  /** One playlist object: the name, track total, id and owner name are required. */
  function EntryStep(e: PlaylistEntry): (s: Step<PlaylistInfo>)
    ensures s.Fail? <==> e.name.None? || e.total.None? || e.id.None? || e.owner.None?
    ensures s.Keep? ==>
      s.value.name == e.name.value && s.value.serviceId == e.id.value && s.value.owner == e.owner.value &&
      s.value.description == OrElse(e.description, "") && s.value.tracks == [] &&
      s.value.serviceType == Spotify && s.value.playlistType == SpotifyPlaylist
  {
    if e.name.None? || e.total.None? || e.id.None? || e.owner.None? then Fail
    else Keep(MakePlaylistInfo(e.name.value, [], OrElse(e.description, ""), e.total.value, Spotify,
                               SpotifyPlaylist, e.id.value, "", e.owner.value))
  }

  /** Every playlist a listing or search yields is a track-less Spotify playlist from some entry. */
  lemma EntriesArePlaylists(es: seq<PlaylistEntry>)
    ensures forall p :: p in Collect(es, EntryStep).values ==>
      p.tracks == [] && p.serviceType == Spotify && p.playlistType == SpotifyPlaylist
  {
    CollectKept(es, EntryStep);
  }

  /** Every track a page yields comes, converted, from one of its "track" entries. */
  lemma PageTracksFromTrackItems(items: seq<TrackItem>)
    ensures forall j :: 0 <= j < |Collect(items, TrackStep).values| ==>
      exists i :: 0 <= i < |items| && items[i].track.Some? && items[i].track.value.kind == Some("track") &&
        Collect(items, TrackStep).values[j] == SpotifyTrack(items[i].track.value)
  {
    CollectKept(items, TrackStep);
    var vs := Collect(items, TrackStep).values;
    forall j | 0 <= j < |vs|
      ensures exists i :: (0 <= i < |items| && items[i].track.Some? &&
                           items[i].track.value.kind == Some("track") &&
                           vs[j] == SpotifyTrack(items[i].track.value))
    {
      var i :| 0 <= i < |items| && TrackStep(items[i]) == Keep(vs[j]);
      assert TrackStep(items[i]).Keep?;
    }
  }

  // ---------------------------------------------------------------------------
  // Operations

  const ProbeEndpoint: string := "browse/featured-playlists"

  /** `test_connection`: the probe request yields a body. */
  function TestConnectionSpec(id: string, secret: string, w: World): Answer<bool> {
    var a := RequestSpec(id, secret, RequestUrl(ProbeEndpoint), Some(map["limit" := Num(1)]), w);
    Answer(a.value.Some?, a.world)
  }

  function UserEntries(b: Option<Body>): seq<PlaylistEntry> {
    if b.Some? && b.value.PlaylistPage? && b.value.entries.Some? then b.value.entries.value else []
  }

  /**
   * `get_user_playlists`: nothing, and no request, without a user id; otherwise one
   * listing of at most 50 playlists, converted until an entry lacks a required key.
   */
  function UserPlaylistsSpec(id: string, secret: string, userId: string, w: World): (a: Answer<seq<PlaylistInfo>>)
    ensures userId == "" ==> a == Answer([], w)
  {
    if userId == "" then Answer([], w)
    else
      var o := RequestSpec(id, secret, RequestUrl("users/" + userId + "/playlists"), Some(map["limit" := Num(50)]), w);
      Answer(Collect(UserEntries(o.value), EntryStep).values, o.world)
  }

  /** The search parameters: the limit sent is the requested one capped at 50. */
  function SearchParams(query: string, limit: int): (p: Params)
    ensures p.Keys == {"q", "type", "limit"} && p["q"] == Text(query) && p["type"] == Text("playlist")
    ensures p["limit"].Num? && p["limit"].n <= 50 && p["limit"].n <= limit
    ensures limit <= 50 ==> p["limit"] == Num(limit)
  {
    map["q" := Text(query), "type" := Text("playlist"), "limit" := Num(Min(limit, 50))]
  }

  function SearchEntries(b: Option<Body>): seq<PlaylistEntry> {
    if b.Some? && b.value.SearchPage? && b.value.playlists.Some? then b.value.playlists.value else []
  }

  /** `search_playlists(query, limit)`: one search request, its playlists converted in order. */
  function SearchSpec(id: string, secret: string, query: string, limit: int, w: World): Answer<seq<PlaylistInfo>> {
    var o := RequestSpec(id, secret, RequestUrl("search"), Some(SearchParams(query, limit)), w);
    Answer(Collect(SearchEntries(o.value), EntryStep).values, o.world)
  }

  function PageItems(b: Option<Body>): seq<TrackItem> {
    if b.Some? && b.value.TrackPage? && b.value.items.Some? then b.value.items.value else []
  }

  /** `response.get("next")` when it is a non-empty link. */
  function NextLink(b: Option<Body>): (n: Option<string>)
    ensures n.Some? ==> n.value != ""
  {
    if b.Some? && b.value.TrackPage? && b.value.next.Some? && b.value.next.value != "" then b.value.next
    else None
  }

  /** The endpoint requested for a `next` link: the link with `base_url + "/"` removed. */
  function PageEndpoint(next: string): string {
    ReplaceAll(next, BaseUrl + "/", "")
  }

  /** A `next` link under the API's base URL is requested as it is. */
  lemma PageEndpointRoundTrip(rest: string)
    requires !Contains(rest, BaseUrl + "/") && (rest == [] || rest[0] != '/')
    ensures RequestUrl(PageEndpoint(BaseUrl + "/" + rest)) == BaseUrl + "/" + rest
  {
    var pat := BaseUrl + "/";
    assert StartsWith(pat + rest, pat);
    assert (pat + rest)[|pat|..] == rest;
    ReplaceAllAbsent(rest, pat, "");
  }

  /**
   * The pagination loop: while the last response has a `next` link, request it and append
   * its tracks; an exception while converting a page ends the loop keeping what was appended.
   */
  function FollowPages(id: string, secret: string, response: Option<Body>, w: World, tracks: seq<Track>)
    : Answer<seq<Track>>
    decreases |w.replies| + (if NextLink(response).Some? then 1 else 0)
  {
    if NextLink(response).None? then Answer(tracks, w)
    else
      var o := RequestSpec(id, secret, RequestUrl(PageEndpoint(NextLink(response).value)), None, w);
      var g := Collect(PageItems(o.value), TrackStep);
      if g.failed then Answer(tracks + g.values, o.world)
      else FollowPages(id, secret, o.value, o.world, tracks + g.values)
  }

  /** Following the pages only appends: the tracks collected so far stay, in order, in front. */
  lemma {:induction false} FollowPagesKeepsPrefix(id: string, secret: string, response: Option<Body>, w: World,
                                                  tracks: seq<Track>)
    ensures var a := FollowPages(id, secret, response, w, tracks);
      |tracks| <= |a.value| && a.value[..|tracks|] == tracks
    decreases |w.replies| + (if NextLink(response).Some? then 1 else 0)
  {
    if NextLink(response).Some? {
      var o := RequestSpec(id, secret, RequestUrl(PageEndpoint(NextLink(response).value)), None, w);
      var g := Collect(PageItems(o.value), TrackStep);
      if !g.failed {
        FollowPagesKeepsPrefix(id, secret, o.value, o.world, tracks + g.values);
        var a := FollowPages(id, secret, o.value, o.world, tracks + g.values);
        assert a.value[..|tracks|] == (a.value[..|tracks + g.values|])[..|tracks|];
      }
    }
  }

  function MetaName(b: Option<Body>): string {
    if b.Some? && b.value.PlaylistMeta? && b.value.name.Some? then b.value.name.value else "Spotify Playlist"
  }

  function MetaDescription(b: Option<Body>): string {
    if b.Some? && b.value.PlaylistMeta? && b.value.description.Some? then b.value.description.value else ""
  }

  /**
   * `get_playlist_tracks(playlist_id)`: the playlist's name and description (with defaults
   * when that request fails), then its first tracks page of up to 100 and every following
   * page; whatever was collected when an exception stops the work is returned.
   */
  function PlaylistTracksSpec(id: string, secret: string, playlistId: string, w: World): (a: Answer<PlaylistInfo>)
    ensures a.value.serviceId == playlistId && a.value.serviceType == Spotify
    ensures a.value.playlistType == SpotifyPlaylist && a.value.totalTracks == |a.value.tracks|
  {
    var meta := RequestSpec(id, secret, RequestUrl("playlists/" + playlistId), None, w);
    var first := RequestSpec(id, secret, RequestUrl("playlists/" + playlistId + "/tracks"), Some(map["limit" := Num(100)]), meta.world);
    var g := Collect(PageItems(first.value), TrackStep);
    var all := if g.failed then Answer(g.values, first.world) else FollowPages(id, secret, first.value, first.world, g.values);
    Answer(MakePlaylistInfo(MetaName(meta.value), all.value, MetaDescription(meta.value), 0, Spotify,
                            SpotifyPlaylist, playlistId, "", ""), all.world)
  }

  /** When the playlist's own request yields nothing, the name and description take their defaults. */
  lemma PlaylistTracksDefaults(id: string, secret: string, playlistId: string, w: World)
    requires RequestSpec(id, secret, RequestUrl("playlists/" + playlistId), None, w).value.None?
    ensures PlaylistTracksSpec(id, secret, playlistId, w).value.name == "Spotify Playlist"
    ensures PlaylistTracksSpec(id, secret, playlistId, w).value.description == ""
  {
  }

  /** The first page's tracks lead the result, whatever happens to later pages. */
  lemma PlaylistTracksStartWithFirstPage(id: string, secret: string, playlistId: string, w: World)
    ensures var meta := RequestSpec(id, secret, RequestUrl("playlists/" + playlistId), None, w);
      var first := RequestSpec(id, secret, RequestUrl("playlists/" + playlistId + "/tracks"), Some(map["limit" := Num(100)]), meta.world);
      var g := Collect(PageItems(first.value), TrackStep);
      var ts := PlaylistTracksSpec(id, secret, playlistId, w).value.tracks;
      |g.values| <= |ts| && ts[..|g.values|] == g.values
  {
    var meta := RequestSpec(id, secret, RequestUrl("playlists/" + playlistId), None, w);
    var first := RequestSpec(id, secret, RequestUrl("playlists/" + playlistId + "/tracks"), Some(map["limit" := Num(100)]), meta.world);
    var g := Collect(PageItems(first.value), TrackStep);
    if !g.failed {
      FollowPagesKeepsPrefix(id, secret, first.value, first.world, g.values);
    }
  }

  // ---------------------------------------------------------------------------
  // The adapter

  class SpotifyClient {
    const clientId: string
    const clientSecret: string
    const userId: string
    const http: Http
    var accessToken: Option<string>

    /** The token together with the network's state. */
    function State(): World
      reads this, http
    {
      World(accessToken, http.replies, http.sent)
    }

    /** `SpotifyService(client_id, client_secret, user_id)`: authenticates when both credentials are given. */
    constructor(clientId: string, clientSecret: string, userId: string, http: Http)
      modifies http
      ensures this.clientId == clientId && this.clientSecret == clientSecret && this.userId == userId
      ensures this.http == http
      ensures clientId != "" && clientSecret != "" ==>
        State() == AuthSpec(clientId, clientSecret, World(None, old(http.replies), old(http.sent))).world
      ensures clientId == "" || clientSecret == "" ==>
        State() == World(None, old(http.replies), old(http.sent))
    {
      this.clientId := clientId;
      this.clientSecret := clientSecret;
      this.userId := userId;
      this.http := http;
      accessToken := None;
      new;
      if clientId != "" && clientSecret != "" {
        var _ := Authenticate();
      }
    }

    /** `_authenticate` */
    method Authenticate() returns (ok: bool)
      modifies this, http
      ensures Answer(ok, State()) == AuthSpec(clientId, clientSecret, old(State()))
    {
      var reply := http.Call(Post(TokenUrl, clientId, clientSecret));
      if reply.Reply? && reply.status == 200 {
        accessToken := GrantedToken(reply.body);
        return true;
      }
      return false;
    }

    /** `_make_request(endpoint, params)` */
    method MakeRequest(endpoint: string, params: Option<Params>) returns (result: Option<Body>)
      modifies this, http
      ensures Answer(result, State()) == RequestSpec(clientId, clientSecret, RequestUrl(endpoint), params, old(State()))
    {
      if !HasToken(accessToken) {
        var ok := Authenticate();
        if !ok {
          return None;
        }
      }
      var url := RequestUrl(endpoint);
      var reply := http.Call(Get(url, Bearer(accessToken), params));
      if reply.Reply? && reply.status == 401 {
        var ok := Authenticate();
        if !ok {
          return None;
        }
        reply := http.Call(Get(url, Bearer(accessToken), params));
      }
      result := OkBody(reply);
    }

    /** `test_connection` */
    method TestConnection() returns (ok: bool)
      modifies this, http
      ensures Answer(ok, State()) == TestConnectionSpec(clientId, clientSecret, old(State()))
    {
      var response := MakeRequest(ProbeEndpoint, Some(map["limit" := Num(1)]));
      ok := response.Some?;
    }

    /** `get_user_playlists` together with `_get_user_playlists` */
    method GetUserPlaylists() returns (playlists: seq<PlaylistInfo>)
      modifies this, http
      ensures Answer(playlists, State()) == UserPlaylistsSpec(clientId, clientSecret, userId, old(State()))
    {
      if userId == "" {
        return [];
      }
      var response := MakeRequest("users/" + userId + "/playlists", Some(map["limit" := Num(50)]));
      var failed;
      playlists, failed := CollectLoop(UserEntries(response), EntryStep);
    }

    /** `search_playlists(query, limit)` */
    method SearchPlaylists(query: string, limit: int) returns (playlists: seq<PlaylistInfo>)
      modifies this, http
      ensures Answer(playlists, State()) == SearchSpec(clientId, clientSecret, query, limit, old(State()))
    {
      var response := MakeRequest("search", Some(SearchParams(query, limit)));
      var failed;
      playlists, failed := CollectLoop(SearchEntries(response), EntryStep);
    }

    /** `get_playlist_tracks(playlist_id)` */
    method GetPlaylistTracks(playlistId: string) returns (p: PlaylistInfo)
      modifies this, http
      ensures Answer(p, State()) == PlaylistTracksSpec(clientId, clientSecret, playlistId, old(State()))
    {
      var meta := MakeRequest("playlists/" + playlistId, None);
      var name := MetaName(meta);
      var description := MetaDescription(meta);
      var response := MakeRequest("playlists/" + playlistId + "/tracks", Some(map["limit" := Num(100)]));
      var tracks, failed := CollectLoop(PageItems(response), TrackStep);
      ghost var target := if failed then Answer(tracks, State())
                          else FollowPages(clientId, clientSecret, response, State(), tracks);
      while !failed && NextLink(response).Some?
        invariant !failed ==> FollowPages(clientId, clientSecret, response, State(), tracks) == target
        invariant failed ==> Answer(tracks, State()) == target
        decreases |http.replies| + (if !failed && NextLink(response).Some? then 1 else 0)
      {
        var endpoint := PageEndpoint(NextLink(response).value);
        response := MakeRequest(endpoint, None);
        var values;
        values, failed := CollectLoop(PageItems(response), TrackStep);
        tracks := tracks + values;
      }
      p := MakePlaylistInfo(name, tracks, description, 0, Spotify, SpotifyPlaylist, playlistId, "", "");
    }
  }
}
