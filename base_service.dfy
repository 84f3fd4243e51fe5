/**
 * The service-independent value types every adapter produces: a track, a playlist
 * (or synthetic collection) and the two enumerations that tag them.
 */
module MusicModel {
  import opened Wrappers

  /** Which music service a value came from. */
  datatype ServiceType = LastFm | YouTube | Spotify

  const AllServiceTypes: seq<ServiceType> := [LastFm, YouTube, Spotify]

  /** The enumeration's string value. */
  function ServiceTag(t: ServiceType): string {
    match t
    case LastFm => "lastfm"
    case YouTube => "youtube"
    case Spotify => "spotify"
  }

  /** `ServiceType(tag)`: the member with that value, if any. */
  function ServiceFromTag(tag: string): (r: Option<ServiceType>)
    ensures r.Some? ==> ServiceTag(r.value) == tag
  {
    if tag == "lastfm" then Some(LastFm)
    else if tag == "youtube" then Some(YouTube)
    else if tag == "spotify" then Some(Spotify)
    else None
  }

  /** There are exactly three service types, each listed once, and each tag names its own member. */
  lemma ServiceTypesEnumerated(t: ServiceType)
    ensures t in AllServiceTypes
    ensures ServiceFromTag(ServiceTag(t)) == Some(t)
    ensures forall i, j :: 0 <= i < j < |AllServiceTypes| ==>
      ServiceTag(AllServiceTypes[i]) != ServiceTag(AllServiceTypes[j])
  {
  }

  /** The kinds of playlist or collection a service can offer. */
  datatype PlaylistType =
    | LastFmTopTracks | LastFmLovedTracks | LastFmRecentTracks
    | YouTubePlaylist | YouTubeLikedVideos | YouTubeWatchLater
    | SpotifyPlaylist | SpotifyLikedSongs | SpotifyRecentlyPlayed | SpotifyTopTracks

  /** A track from any service. `duration` is in seconds. */
  datatype Track = Track(
    title: string,
    artist: string,
    album: string,
    duration: int,
    url: string,
    serviceId: string,
    serviceType: ServiceType,
    playcount: int,
    thumbnailUrl: string)

  /** `Track(title, artist)`: every other field takes its declared default. */
  function NewTrack(title: string, artist: string): (t: Track)
    ensures t.title == title && t.artist == artist
    ensures t.album == "" && t.duration == 0 && t.url == "" && t.serviceId == ""
    ensures t.serviceType == LastFm && t.playcount == 0 && t.thumbnailUrl == ""
  {
    Track(title, artist, "", 0, "", "", LastFm, 0, "")
  }

  /** `str(track)`: the artist, a spaced dash, then the title. */
  function TrackDisplay(t: Track): (r: string)
    ensures |r| == |t.artist| + 3 + |t.title|
    ensures r[..|t.artist|] == t.artist
    ensures r[|t.artist|..|t.artist| + 3] == " - "
    ensures r[|t.artist| + 3..] == t.title
  {
    t.artist + " - " + t.title
  }

  lemma TrackDisplayExample()
    ensures TrackDisplay(NewTrack("Test Song", "Test Artist")) == "Test Artist - Test Song"
  {
  }

  /** A playlist or a service's synthetic collection of tracks. */
  datatype PlaylistInfo = PlaylistInfo(
    name: string,
    tracks: seq<Track>,
    description: string,
    totalTracks: int,
    serviceType: ServiceType,
    playlistType: PlaylistType,
    serviceId: string,
    thumbnailUrl: string,
    owner: string)

  /**
   * The dataclass constructor followed by `__post_init__`: a `total_tracks` of zero is
   * replaced by the number of tracks, any other value is kept as given.
   */
  function MakePlaylistInfo(name: string, tracks: seq<Track>, description: string, totalTracks: int,
                            serviceType: ServiceType, playlistType: PlaylistType, serviceId: string,
                            thumbnailUrl: string, owner: string): (p: PlaylistInfo)
    ensures p.name == name && p.tracks == tracks && p.description == description
    ensures p.serviceType == serviceType && p.playlistType == playlistType
    ensures p.serviceId == serviceId && p.thumbnailUrl == thumbnailUrl && p.owner == owner
    ensures totalTracks == 0 ==> p.totalTracks == |tracks|
    ensures totalTracks != 0 ==> p.totalTracks == totalTracks
  {
    PlaylistInfo(name, tracks, description, if totalTracks == 0 then |tracks| else totalTracks,
                 serviceType, playlistType, serviceId, thumbnailUrl, owner)
  }

  /** The defaults of the dataclass for everything after `name` and `tracks`. */
  function NewPlaylistInfo(name: string, tracks: seq<Track>): (p: PlaylistInfo)
    ensures p == MakePlaylistInfo(name, tracks, "", 0, LastFm, LastFmTopTracks, "", "", "")
    ensures p.totalTracks == |tracks|
  {
    MakePlaylistInfo(name, tracks, "", 0, LastFm, LastFmTopTracks, "", "", "")
  }

  /**
   * What construction guarantees: a constructed playlist reports zero tracks only when
   * it holds none, so a count of zero is never left standing beside a non-empty list.
   */
  lemma ConstructedTotalNeverStaleZero(name: string, tracks: seq<Track>, description: string,
                                       totalTracks: int, serviceType: ServiceType,
                                       playlistType: PlaylistType, serviceId: string,
                                       thumbnailUrl: string, owner: string)
    ensures var p := MakePlaylistInfo(name, tracks, description, totalTracks, serviceType,
                                      playlistType, serviceId, thumbnailUrl, owner);
            p.totalTracks == 0 <==> (totalTracks == 0 && tracks == [])
  {
  }

  /** The base adapter advertises no playlist types. */
  function BaseSupportedPlaylistTypes(): (r: seq<PlaylistType>)
    ensures |r| == 0
  {
    []
  }
}
