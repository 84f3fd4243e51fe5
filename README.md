# TTSMixmaster core, modelled in Dafny

TTSMixmaster takes a playlist from a music service, finds and downloads the audio of each
track, uploads the files to Azure Blob Storage, and writes a Tabletop Simulator music
player (a Lua script and a save file) that plays them. This project models that core:

- `base_service.dfy` (`MusicModel`): the service-neutral `Track` and `PlaylistInfo` records
  and the service and playlist types.
- `lastfm_client.dfy` (`LastfmClient`): the original Last.fm client, its `Track` and
  `Playlist`, the parameters of each request, the conversion of reply entries into tracks,
  and the two playlists it builds.
- `lastfm_service.dfy`, `youtube_titles.dfy`, `youtube_service.dfy`, `spotify_service.dfy`:
  the three service adapters. Each models its fixed collections, its request and
  conversion logic, YouTube's title parsing and official-channel ranking, and Spotify's
  token handling, 401 retry and pagination.
- `service_manager.dfy` (`ServiceManager`): the registry of configured adapters and the
  calls it dispatches to them.
- `audio_downloader.dfy` (`AudioDownloader`): filename sanitising, the search-and-download
  decision for one track (existing file, search engines in order), playlists and batches,
  and the download statistics.
- `azure_uploader.dfy` (`AzureUploader`): blob names and public URLs, the account name
  taken from a connection string, blob metadata, and the upload decisions for one file and
  for a playlist.
- `tts_formatter.dfy` (`TtsFormatter`): audio objects and the music player, Lua string
  escaping, the dictionaries, the Lua scripts, the save-file object and the output paths.
- `config.dfy` (`Config`): the settings record and its environment overrides, filename
  sanitising, duration formatting, audio-file detection and the progress tracker.
- `wrappers.dfy`, `seqs.dfy`, `strings.dfy`: `Option`/`Result`, sequence helpers and the
  Python string operations the code relies on (`strip`, `lower`, `split`, `replace`,
  `join`, `int`/`str` of integers), with their own lemmas.

External services are oracles passed as parameters or held by small classes:
- each HTTP API is a function from the request to the reply, or a scripted server that
  answers calls in order;
- `yt-dlp` and the search engines are a class whose replies are given up front;
- the file system and the blob store are a map or a class holding one.

Python exceptions are `Err` values. Three behaviours of the code are worth stating
plainly, because the model follows them exactly:
- a blob is named `audio/<artist> - <title><ext>` with the artist and the title each
  sanitised, or `audio/<stem><ext>` without a track; the suffix is lower-cased
  (src/uploader/azure_uploader.py:247-260);
- a channel whose title ends in `" - Topic"` is never official, even when it also carries
  an official marker (src/api/youtube_service.py:428-429);
- the Last.fm track limit is sent to the server as the `limit` parameter, and the code does
  not cut the returned list to that length (src/api/lastfm_service.py:193-224,
  src/api/lastfm_client.py:97-138).


## Model

| member | source | states |
|---|---|---|
| MusicModel.ServiceFromTag | src/api/base_service.py:13-17 | looking up a tag yields a member whose tag is that string, or nothing |
| MusicModel.ServiceTypesEnumerated | src/api/base_service.py:13-17 | there are exactly the three service types, their tags are pairwise distinct, and looking up a member's tag gives that member back |
| MusicModel.NewTrack | src/api/base_service.py:39-50 | a track built from title and artist has every other field at its declared default (empty album, url, service id and thumbnail, duration and play count 0, Last.fm service) |
| MusicModel.TrackDisplay | src/api/base_service.py:52-53 | the display string is the artist, then `" - "`, then the title, and nothing else |
| MusicModel.TrackDisplayExample | src/api/base_service.py:52-53 | "Test Song" by "Test Artist" displays as "Test Artist - Test Song" |
| MusicModel.MakePlaylistInfo | src/api/base_service.py:56-71 | the constructor keeps every given field; a total of zero becomes the number of tracks, and any other total is kept even when it differs from that number |
| MusicModel.NewPlaylistInfo | src/api/base_service.py:59-71 | with the declared defaults, the total is the number of tracks |
| MusicModel.ConstructedTotalNeverStaleZero | src/api/base_service.py:69-71 | a constructed playlist reports zero tracks exactly when it was given zero and holds none |
| MusicModel.BaseSupportedPlaylistTypes | src/api/base_service.py:100-102 | the base adapter supports no playlist type |
| LastfmClient.NewTrack | src/api/lastfm_client.py:17-25 | the client's track from title and artist has empty album, url and MusicBrainz id, and duration and play count 0 |
| LastfmClient.TrackDisplay | src/api/lastfm_client.py:27-28 | the display string is the artist, `" - "`, the title |
| LastfmClient.TrackDisplayExample | tests/test_basic.py:20-31 | with an album set, "Test Song" by "Test Artist" still displays as "Test Artist - Test Song" |
| LastfmClient.MakePlaylist | src/api/lastfm_client.py:31-41 | a playlist keeps name, tracks and description; a zero total becomes the number of tracks and any other total is kept |
| LastfmClient.PlaylistExample | tests/test_basic.py:37-52 | a playlist of two tracks built without a total reports 2 |
| LastfmClient.RequestParams | src/api/lastfm_client.py:74-78 | the parameters sent are the caller's plus `method`, `api_key` and `format=json`, which override any caller value; every other caller parameter is kept |
| LastfmClient.CheckReply | src/api/lastfm_client.py:80-95 | a reply passes exactly when it is a decoded body without an `error` key; transport and decoding failures and API errors raise |
| LastfmClient.MemberOrText | src/api/lastfm_client.py:131 | for an object value, the named member when present and empty otherwise; for a string value, the string itself; for an absent field, empty |
| LastfmClient.LovedTracksOf | src/api/lastfm_client.py:167-176 | one track per loved entry, in order, each converted the same way |
| LastfmClient.RecentTracksOf | src/api/lastfm_client.py:207-221 | the recent list is never longer than the entries |
| LastfmClient.RecentTracksOfAppend | src/api/lastfm_client.py:208-221 | the filter works entry by entry: the result for a concatenation is the concatenation of the results, so order is kept |
| LastfmClient.RecentTracksOfSingle | src/api/lastfm_client.py:210-212 | one entry is dropped exactly when its `@attr` holds `nowplaying`, whatever that key's value |
| LastfmClient.RecentTracksOfMembers | src/api/lastfm_client.py:207-221 | every kept track comes from an entry that is not now playing; when no entry is now playing, none is dropped |
| LastfmClient.GetUserTopTracks | src/api/lastfm_client.py:97-138 | without a username (argument or default) it raises before any request; otherwise it sends the period, limit and page for the resolved user, and returns the request's failure or every top-track entry converted in order, the first bad play count aborting the call |
| LastfmClient.GetUserLovedTracks | src/api/lastfm_client.py:140-178 | no username raises before any request; otherwise the reply's failure or one track per loved entry |
| LastfmClient.GetUserRecentTracks | src/api/lastfm_client.py:180-223 | no username raises before any request; otherwise the reply's failure or the entries that are not now playing, converted in order |
| LastfmClient.GetTrackInfo | src/api/lastfm_client.py:258-296 | a track exactly when the request succeeds, the reply has a track and its fields convert; its duration is the milliseconds divided by 1000 and rounded down; any error gives nothing |
| LastfmClient.CreatePlaylistFromTopTracks | src/api/lastfm_client.py:298-318 | it fails exactly when the top-tracks call does; its tracks are exactly those converted from the reply to `user.gettoptracks` for the resolved user, the limit, page 1 and the period; the name is "Top Tracks (" + the title-cased period + ")", the description counts the tracks returned, and the total is that count |
| LastfmClient.TopTracksNameExample | src/api/lastfm_client.py:313 | title-casing the period "7day" gives "7Day" |
| LastfmClient.CreatePlaylistFromLovedTracks | src/api/lastfm_client.py:320-338 | it fails exactly when the loved-tracks call does; its tracks are exactly those converted from the `lovedtracks` list of the reply to `user.getlovedtracks` for the resolved user, the limit and page 1; the name is "Loved Tracks" and the description and total count the tracks returned |
| LastfmService.TestConnection | src/api/lastfm_service.py:71-82 | the test fails without a username, and otherwise succeeds exactly when the user-info request for that user returns a body without an error; it never raises |
| LastfmService.ApiErrorFailsConnection | src/api/lastfm_service.py:61-62 | a user-info reply that carries an `error` key fails the connection test |
| LastfmService.SupportedPlaylistTypes | src/api/lastfm_service.py:84-90 | the adapter offers exactly the top, loved and recent collections, in that order |
| LastfmService.GetUserPlaylists | src/api/lastfm_service.py:92-134 | always exactly three collections, in the order top, loved, recent, with their ids, names and types; each is empty, counts zero tracks, and is owned by the configured user |
| LastfmService.SearchPlaylists | src/api/lastfm_service.py:189-191 | searching always returns nothing |
| LastfmService.LovedTracksOf | src/api/lastfm_service.py:243-253 | one track per loved entry, in order |
| LastfmService.RecentTracksOf | src/api/lastfm_service.py:274-289 | the conversion succeeds exactly when every entry's `@attr` can be read (absent or an object); it never yields more tracks than entries |
| LastfmService.RecentTracksOfAppend | src/api/lastfm_service.py:276-289 | the tracks for a concatenation of entries are the tracks of each part in order |
| LastfmService.NowPlayingFalseKeptHereSkippedByClient | src/api/lastfm_service.py:278-279 | the adapter keeps an entry whose `nowplaying` is "false", which the original client (src/api/lastfm_client.py:211) drops: only the value "true" is skipped here |
| LastfmService.RecentTracksOfPrefixErr | src/api/lastfm_service.py:276-279 | once an entry's `@attr` cannot be read, the whole conversion fails with that error |
| LastfmService.GetUserTopTracks | src/api/lastfm_service.py:193-224 | no username (argument or configured) raises before any request; otherwise the top-tracks request for the resolved user with period, limit and page, then the request's failure or the entries converted in order |
| LastfmService.GetUserLovedTracks | src/api/lastfm_service.py:226-255 | no username raises before any request; otherwise the loved-tracks request and one track per entry |
| LastfmService.GetUserRecentTracks | src/api/lastfm_service.py:257-291 | no username raises before any request; otherwise the recent-tracks request and the entries not marked as now playing |
| LastfmService.GetPlaylistTracks | src/api/lastfm_service.py:136-187 | an unknown id raises exactly when the id is not one of the three; with no configured user the known ids raise; with one, each known id fails exactly when converting the reply to its request (the configured user, the limit or 50, page 1, and for top tracks the period or "overall") fails, and its tracks are exactly those converted from that reply; a top-tracks result is named after the period and its description uses the requested limit, while the loved and recent descriptions count the tracks returned; every result carries the id, the owner and a total equal to the number of tracks |
| LastfmService.ListedCollectionsAreFetchable | src/api/lastfm_service.py:99-187 | every collection the adapter lists has an id that fetching accepts |
| YoutubeTitles.DropSuffix | src/api/youtube_service.py:349-350 | removing a suffix never lengthens the name, shortens it when the suffix is present and not empty, and leaves it alone otherwise |
| YoutubeTitles.DropSuffixes | src/api/youtube_service.py:348-350 | removing the generated suffixes in turn never lengthens the name |
| YoutubeTitles.CleanArtistName | src/api/youtube_service.py:332-352 | the loop computes the cleaned channel name: each generated suffix in turn cut off when present, and the rest stripped |
| YoutubeTitles.CleanedArtistUnchangedIff | src/api/youtube_service.py:345-352 | a name is left exactly as it is if and only if it ends in neither `" - Topic"` nor `" - Auto-generated by YouTube"` |
| YoutubeTitles.CleanedArtistStripped | src/api/youtube_service.py:348-352 | cleaning a name without surrounding whitespace leaves none |
| YoutubeTitles.CleanedArtistNoDash | src/api/youtube_service.py:348-352 | a name without a dash is never changed |
| YoutubeTitles.CleanedArtistTopicExample | src/api/youtube_service.py:332-352 | "Artist - Topic" becomes "Artist", and the empty name stays empty |
| YoutubeTitles.AnyIn | src/api/youtube_service.py:441-450 | the search succeeds exactly when some needle occurs in the text |
| YoutubeTitles.LowerAll | src/api/youtube_service.py:440-442 | every indicator is lowered in place, the list keeping its length |
| YoutubeTitles.IsOfficialChannel | src/api/youtube_service.py:424-450 | an empty name or a `" - Topic"` channel is never official; otherwise a channel is official exactly when an indicator occurs in it, ignoring case, or failing that when it carries no generated-channel marker |
| YoutubeTitles.OfficialChannelIndicatorExample | src/api/youtube_service.py:432-443 | "Queen Official" is official through its indicator |
| YoutubeTitles.OfficialChannelTopicExample | src/api/youtube_service.py:428-429 | a `" - Topic"` channel is not official, even one whose name carries "VEVO" |
| YoutubeTitles.OfficialChannelNoMarkerExample | src/api/youtube_service.py:447-450 | "Random Uploads", with no indicator and no marker, counts as official |
| YoutubeTitles.SeparatorEnd | src/api/youtube_service.py:368-377 | a separator found after group 1 ends strictly after group 1 and inside the title |
| YoutubeTitles.NotTrailingGroups | src/api/youtube_service.py:370-376 | text whose first non-space character opens no group cannot be the optional trailing `(...)`/`[...]` groups |
| YoutubeTitles.GroupEnd | src/api/youtube_service.py:370-376 | the lazy group 2 is never empty and ends inside the text |
| YoutubeTitles.GroupEndFirst | src/api/youtube_service.py:370-376 | group 2 ends where only the trailing groups remain, and at the first such place |
| YoutubeTitles.MatchIndex | src/api/youtube_service.py:368-380 | a match found has a non-empty group 1 that leaves text after it, and the pattern matches there |
| YoutubeTitles.MatchIndexFirst | src/api/youtube_service.py:368-380 | the match found has the shortest group 1 (the lazy `(.+?)`), and when none is found no group 1 works |
| YoutubeTitles.TitleMatchAt | src/api/youtube_service.py:380-382 | a match at a group 1 with no shorter possible group 1 is the one `re.match` returns |
| YoutubeTitles.NoSeparatorNoMatch | src/api/youtube_service.py:368-380 | a title in which the separator's first character never occurs does not match that pattern |
| YoutubeTitles.IndexOf | src/api/youtube_service.py:394-398 | the position found is the first holding the character at or after the start, and none is found only when none holds it |
| YoutubeTitles.DecorationEnd | src/api/youtube_service.py:394-398 | a clean-up match starting at a position ends after it and inside the text |
| YoutubeTitles.RemoveFrom | src/api/youtube_service.py:394-398 | substituting from a position never yields more than the text left |
| YoutubeTitles.RemoveDecoration | src/api/youtube_service.py:394-398 | one clean-up never lengthens the title |
| YoutubeTitles.RemoveDecorations | src/api/youtube_service.py:394-410 | the clean-ups in order never lengthen the title |
| YoutubeTitles.RemoveFromAbsent | src/api/youtube_service.py:394-398 | text in which the opening character never occurs is left alone |
| YoutubeTitles.RemoveDecorationsAbsent | src/api/youtube_service.py:394-410 | no clean-up touches a title without `(` or `[` |
| YoutubeTitles.OfficialGroupRemoved | src/api/youtube_service.py:394 | a trailing `(Official…)` group is removed together with the space before it |
| YoutubeTitles.NoDecorationBefore | src/api/youtube_service.py:394-398 | no clean-up match starts before the first occurrence of its opening character |
| YoutubeTitles.FirstPattern | src/api/youtube_service.py:379-382 | trying the patterns in order yields a pattern of the list with its groups, and no match exactly when none of them matches |
| YoutubeTitles.ParseTrackFromTitle | src/api/youtube_service.py:354-412 | the loop returns what trying the patterns in order and cleaning up, or the fallback, gives |
| YoutubeTitles.FirstMatchDecides | src/api/youtube_service.py:379-401 | the first pattern that matches decides the result, and the channel then plays no part |
| YoutubeTitles.ParseNoMatch | src/api/youtube_service.py:403-412 | only when no pattern matches does the channel supply the artist |
| YoutubeTitles.ParseTitleStripped | src/api/youtube_service.py:386-410 | the song of any result is stripped, and after a match so is the artist |
| YoutubeTitles.StrippedFinish | src/api/youtube_service.py:384-399 | both parts of a matched result are stripped |
| YoutubeTitles.NoSplitBefore | src/api/youtube_service.py:368-380 | no separator can end group 1 before the first place one of its characters occurs |
| YoutubeTitles.GroupAfterSpace | src/api/youtube_service.py:370-376 | after one space, group 2 is the song up to where the trailing groups begin |
| YoutubeTitles.DashSplit | src/api/youtube_service.py:370 | "artist - song" followed by optional trailing groups matches with group 1 the artist and group 2 the song without the groups |
| YoutubeTitles.SongEndsAtRest | src/api/youtube_service.py:370 | group 2 stops exactly where the trailing groups begin |
| YoutubeTitles.ByMatch | src/api/youtube_service.py:372 | "song by artist" matches with group 1 the song and group 2 the artist, when the song has no `b` |
| YoutubeTitles.ByTitleNoDash | src/api/youtube_service.py:370 | a "by" title made of dash-free parts does not match the dash pattern |
| YoutubeTitles.FinishPlain | src/api/youtube_service.py:386-399 | outside the "by" pattern, stripped groups with no clean-up to do give the cleaned artist and the song unchanged |
| YoutubeTitles.FinishPlainBy | src/api/youtube_service.py:384-386 | for the "by" pattern the groups come back swapped: the artist is group 2 |
| YoutubeTitles.ParseDashSplit | src/api/youtube_service.py:370-401 | a dash title with optional trailing groups parses to the cleaned artist and the song without the groups, whatever the channel |
| YoutubeTitles.ParseBySplit | src/api/youtube_service.py:372-401 | a dash-free "song by artist" title parses with the parts swapped |
| YoutubeTitles.BySplitFirst | src/api/youtube_service.py:379-382 | for such a title the "by" pattern is the first to match |
| YoutubeTitles.SecondPatternDecides | src/api/youtube_service.py:379-382 | when the dash pattern fails and the "by" pattern matches, the "by" groups decide |
| YoutubeTitles.ParseDashExample | src/api/youtube_service.py:370-401 | "Artist - Song (Official Video)" parses to ("Artist", "Song") |
| YoutubeTitles.ParseByExample | src/api/youtube_service.py:372-401 | "Yesterday by The Beatles" parses to ("The Beatles", "Yesterday") |
| YoutubeTitles.FallbackKeepsPlainTitle | src/api/youtube_service.py:403-412 | without clean-up to do, the fallback gives the dash-free channel and the stripped title unchanged |
| YoutubeTitles.ParseFallbackExample | src/api/youtube_service.py:403-412 | "Live Set" on channel "Some Channel" gives ("Some Channel", "Live Set") |
| YoutubeTitles.FallbackExampleNoMatch | src/api/youtube_service.py:379-403 | no pattern matches "Live Set", so the fallback decides |
| YoutubeService.NewService | src/api/youtube_service.py:20-40 | the adapter keeps its key and channel id, and holds a client exactly when a key was given and building the client succeeded |
| YoutubeService.MediumThumbnail | src/api/youtube_service.py:283 | the medium thumbnail's URL when there is one, else the empty string |
| YoutubeService.TestConnection | src/api/youtube_service.py:42-62 | the test fails without a client; with one it succeeds exactly when the one-result probe search does not raise |
| YoutubeService.SupportedPlaylistTypes | src/api/youtube_service.py:64-70 | exactly the three YouTube kinds: playlists, liked videos and watch later |
| YoutubeService.UserPlaylistsOf | src/api/youtube_service.py:98-135 | one playlist per listed item in the API's order, with the item's id, title, channel, description and medium thumbnail, and the item's count as its total, then the liked-videos ("LL") and watch-later ("WL") collections; none has tracks loaded |
| YoutubeService.GetUserPlaylists | src/api/youtube_service.py:72-139 | without a client it raises and sends nothing; with an empty channel id (argument or default) it raises `ValueError` and sends nothing; otherwise it lists up to 50 of the channel's playlists and returns them with the two collections, or re-raises the API error |
| YoutubeService.PlaylistSearchRequest | src/api/youtube_service.py:263-270 | a playlist search for the query asking for twice the limit, capped at 50 |
| YoutubeService.OfficialFirstPermutation | src/api/youtube_service.py:272-295 | putting official-channel hits first keeps every hit exactly once |
| YoutubeService.OfficialFirstOrdered | src/api/youtube_service.py:272-295 | no non-official hit comes before an official one, and each group keeps the API's order |
| YoutubeService.SearchResultShape | src/api/youtube_service.py:272-298 | at most `limit` playlists (none for a zero limit; for a negative one, all but the last `-limit` hits, as Python's slicing does), each a converted hit, and the result a prefix of the reordered hits |
| YoutubeService.SearchPlaylists | src/api/youtube_service.py:249-300 | without a client it raises and sends nothing; otherwise one playlist search, then official-channel playlists before the others, cut to `limit`; an API error is re-raised |
| YoutubeService.RankOf | src/api/youtube_service.py:484-491 | a channel ranks official exactly when it is official, and topic exactly when it ends in `" - Topic"` |
| YoutubeService.PreferredVideosPermutation | src/api/youtube_service.py:480-494 | the preference order holds every hit exactly once |
| YoutubeService.PreferredVideosRanked | src/api/youtube_service.py:480-494 | ranks never decrease along the preference order: official, then others, then topic channels |
| YoutubeService.BestVideoIsBest | src/api/youtube_service.py:494-497 | a video is chosen exactly when the search found any; it is one of the hits, and no hit has a better rank |
| YoutubeService.FirstPreferredBeats | src/api/youtube_service.py:494-497 | the head of the preference order ranks no worse than any hit |
| YoutubeService.BestVideoOfficialWins | src/api/youtube_service.py:484-497 | when some hit is from an official channel, the chosen video is too |
| YoutubeService.OfficialVersionRequest | src/api/youtube_service.py:468-476 | a video search for "artist title", ten results, by relevance |
| YoutubeService.SearchForOfficialVersion | src/api/youtube_service.py:452-502 | nothing without a client (and no request); otherwise that search, then nothing when it raises, else the best-ranked hit |
| SpotifyService.RequestUrl | src/api/spotify_service.py:106 | the URL is the base URL, a slash, and the endpoint with its leading slashes removed |
| SpotifyService.AuthSpec | src/api/spotify_service.py:45-83 | authenticating sends exactly one token request; it succeeds exactly when that request is answered with a 200, which stores the reply's `access_token` (possibly absent); otherwise the token is left alone |
| SpotifyService.Retry | src/api/spotify_service.py:111-117 | the retry after a 401 sends at most a token request and one GET, and yields a body only by consuming a reply |
| SpotifyService.Attempt | src/api/spotify_service.py:105-124 | the GET with its one retry sends at most three calls and yields a body only by consuming a reply |
| SpotifyService.RequestSpec | src/api/spotify_service.py:85-124 | a request sends at most four calls (authentication, GET, re-authentication, GET) and only appends to the log |
| SpotifyService.RequestAtMostTwoGets | src/api/spotify_service.py:105-120 | a request sends at most two GETs: the first try and one retry; there is no further retry |
| SpotifyService.RequestWithToken | src/api/spotify_service.py:100-110 | with a token held, a 200 is returned at once after one GET carrying that token |
| SpotifyService.RequestAuthFails | src/api/spotify_service.py:96-98 | without a token, a failed authentication ends the request with nothing, after only the token request |
| SpotifyService.RequestRetriedAfter401 | src/api/spotify_service.py:111-117 | a 401 is followed by a new token request, and the GET is repeated with the new token; its 200 is the result |
| SpotifyService.RequestRetriedOnce | src/api/spotify_service.py:111-120 | a second 401 is not retried: the request gives up with nothing |
| SpotifyService.ArtistNames | src/api/spotify_service.py:213 | one name per artist, in order |
| SpotifyService.Seconds | src/api/spotify_service.py:220 | the duration in milliseconds divided by 1000, rounded down |
| SpotifyService.SpotifyTrack | src/api/spotify_service.py:212-223 | the artist is the artist names joined by ", "; title and album default to "Unknown", URL and id to empty; the duration is whole seconds; the service is Spotify |
| SpotifyService.TrackStep | src/api/spotify_service.py:209-224 | an item without a track object, or whose type is not "track", is skipped; a track item is converted, and fails exactly when an artist lacks a name |
| SpotifyService.EntryStep | src/api/spotify_service.py:167-178 | a playlist object fails exactly when its name, track total, id or owner is missing; otherwise it becomes a track-less Spotify playlist with those fields and the description or "" |
| SpotifyService.EntriesArePlaylists | src/api/spotify_service.py:166-178 | every playlist a listing or a search yields is a track-less Spotify playlist converted from one of its entries |
| SpotifyService.PageTracksFromTrackItems | src/api/spotify_service.py:208-224 | every track a page yields comes, converted, from one of its "track" items |
| SpotifyService.UserPlaylistsSpec | src/api/spotify_service.py:140-183 | without a user id the result is empty and nothing is sent: the token and the network are untouched |
| SpotifyService.SearchParams | src/api/spotify_service.py:277-281 | the search sends the query, type "playlist" and the requested limit capped at 50 |
| SpotifyService.NextLink | src/api/spotify_service.py:227-228 | a `next` link is followed only when it is not empty |
| SpotifyService.PageEndpointRoundTrip | src/api/spotify_service.py:228-231 | a `next` link under the API's base URL is requested as it is |
| SpotifyService.FollowPagesKeepsPrefix | src/api/spotify_service.py:226-251 | following the pages only appends: the tracks collected so far stay in front, in order, even when a page fails |
| SpotifyService.PlaylistTracksSpec | src/api/spotify_service.py:184-261 | the result always carries the playlist id, the Spotify service and playlist type, and a total equal to the number of tracks collected |
| SpotifyService.PlaylistTracksDefaults | src/api/spotify_service.py:194-203 | when the playlist's own request yields nothing, the name is "Spotify Playlist" and the description empty |
| SpotifyService.PlaylistTracksStartWithFirstPage | src/api/spotify_service.py:205-251 | the first page's tracks lead the result, whatever happens to later pages |
| SpotifyService.SpotifyClient.constructor | src/api/spotify_service.py:20-43 | the adapter keeps its credentials and authenticates once when both the id and the secret are given, otherwise sends nothing and holds no token |
| SpotifyService.SpotifyClient.Authenticate | src/api/spotify_service.py:45-83 | the token and the network change as the authentication specification says |
| SpotifyService.SpotifyClient.MakeRequest | src/api/spotify_service.py:85-124 | the body, the token and the network change as the request specification says |
| SpotifyService.SpotifyClient.TestConnection | src/api/spotify_service.py:126-138 | the test is the one-result featured-playlists request yielding a body |
| SpotifyService.SpotifyClient.GetUserPlaylists | src/api/spotify_service.py:140-183 | the playlists and the new state are those of the user-playlists specification |
| SpotifyService.SpotifyClient.SearchPlaylists | src/api/spotify_service.py:263-302 | the playlists and the new state are those of the search specification |
| SpotifyService.SpotifyClient.GetPlaylistTracks | src/api/spotify_service.py:184-261 | the playlist and the new state are those of the playlist-tracks specification, pages followed by a loop |
| ServiceManager.AdapterFor | src/api/service_manager.py:51-67 | the adapter built is for the requested service and reads exactly that adapter's credential keys, each defaulting to "" when absent |
| ServiceManager.Recorded | src/api/service_manager.py:141-146 | an aggregate records an adapter's playlists, or `[]` when it raised |
| ServiceManager.MusicServiceManager.constructor | src/api/service_manager.py:31-37 | a new manager has no adapters and the three initial configurations |
| ServiceManager.MusicServiceManager.ConfigureService | src/api/service_manager.py:39-82 | it succeeds exactly when the adapter builds and its connection test passes; then the adapter is stored and the service enabled with these credentials; otherwise nothing changes, including a previously stored adapter |
| ServiceManager.MusicServiceManager.EnabledServices | src/api/service_manager.py:84-86 | exactly the enabled services, each once |
| ServiceManager.MusicServiceManager.GetService | src/api/service_manager.py:88-90 | the stored adapter when there is one, else nothing |
| ServiceManager.MusicServiceManager.EnabledAgrees | src/api/service_manager.py:84-94 | the enabled list, the enabled flag and the stored adapters all agree |
| ServiceManager.MusicServiceManager.GetUserPlaylists | src/api/service_manager.py:96-102 | `ValueError` for a service without an adapter; otherwise the adapter's answer, its exception passed on |
| ServiceManager.MusicServiceManager.GetPlaylistTracks | src/api/service_manager.py:104-110 | `ValueError` for a service without an adapter; otherwise the adapter's answer for the playlist id |
| ServiceManager.MusicServiceManager.SearchPlaylists | src/api/service_manager.py:112-118 | `ValueError` for a service without an adapter; otherwise the adapter's search answer |
| ServiceManager.MusicServiceManager.GetSupportedPlaylistTypes | src/api/service_manager.py:120-126 | nothing for a service without an adapter, else that adapter's kinds |
| ServiceManager.MusicServiceManager.TestServiceConnection | src/api/service_manager.py:128-134 | true exactly when an adapter is stored and its test passes |
| ServiceManager.MusicServiceManager.GetAllPlaylists | src/api/service_manager.py:136-148 | one entry per enabled service and no other, holding its playlists or `[]` when asking it raised; a failure does not stop the others |
| ServiceManager.MusicServiceManager.SearchAllServices | src/api/service_manager.py:150-162 | one entry per enabled service and no other, holding its search results or `[]` when the search raised |
| ServiceManager.MusicServiceManager.AggregateEntries | src/api/service_manager.py:140-160 | for an enabled service, the aggregates record exactly its adapter's answer, or `[]` when that raised |
| ServiceManager.MusicServiceManager.DebugServiceStatus | src/api/service_manager.py:164-180 | an entry for each of the three services with its flag, whether it has credentials, their keys, whether an adapter exists, and a connection test that is false without an adapter |
| ServiceManager.InitiallyNothingEnabled | src/api/service_manager.py:17-37 | each service starts disabled, with empty credentials, under its own type |
| AudioDownloader.Failure | src/downloader/audio_downloader.py:195-199 | a failed result carries the track and the error message, and no file path |
| AudioDownloader.SanitizedNameIsSafe | src/downloader/audio_downloader.py:160-179 | a sanitised file name has none of `<>:"/\|?*`, no run of two whitespace characters, no leading whitespace, and at most 200 characters |
| AudioDownloader.JoinPathInjective | src/downloader/audio_downloader.py:206-207 | two different names in one folder are two different paths |
| AudioDownloader.Query | src/downloader/audio_downloader.py:222-225 | the search text begins with artist and title; it is exactly that without an album, and ends with the album otherwise |
| AudioDownloader.SearchUrl | src/downloader/audio_downloader.py:399-418 | the search URL ends with the query, unencoded |
| AudioDownloader.SearchUrlEngine | src/downloader/audio_downloader.py:412-418 | the URL is a SoundCloud search exactly when the engine is `soundcloud`; any other engine name, unknown ones included, gives a YouTube search |
| AudioDownloader.Urls | src/downloader/audio_downloader.py:228-230 | one search URL per engine, in the engines' order |
| AudioDownloader.SavedName | src/downloader/audio_downloader.py:352-358 | with FFmpeg the file is saved under the sanitised `.mp3` name; without it, under the downloaded file's own extension |
| AudioDownloader.Attempt | src/downloader/audio_downloader.py:287-397 | one engine asks yt-dlp for exactly its own URL; it succeeds exactly when a file was saved, and a failure leaves the disk unchanged |
| AudioDownloader.TryEngines | src/downloader/audio_downloader.py:228-241 | the result of the engine loop is for the requested track |
| AudioDownloader.TryEnginesSearchesPrefix | src/downloader/audio_downloader.py:228-236 | the engines are searched in order; the searches made are a prefix of the engine list, all of it when nothing succeeds, and a success stops the loop |
| AudioDownloader.TryEnginesEarlierFailed | src/downloader/audio_downloader.py:231-236 | every search before the last one saved nothing |
| AudioDownloader.TryEnginesSuccess | src/downloader/audio_downloader.py:231-233 | a success comes from the last search made; its file is on disk under the saved name in the target folder, and nothing else on disk changed |
| AudioDownloader.TryEnginesFailure | src/downloader/audio_downloader.py:237-241 | when every engine fails, the disk is unchanged and the error is "Could not find track on any supported platform" |
| AudioDownloader.ExistingFile | src/downloader/audio_downloader.py:206-209 | a file is reported only when it is on disk, and none is reported exactly when none of the candidate names is on disk |
| AudioDownloader.SearchAndDownloadChecking | src/downloader/audio_downloader.py:181-241 | the result of a search-and-download is for the requested track |
| AudioDownloader.NoYtDlpFailsFirst | src/downloader/audio_downloader.py:194-199 | without yt-dlp the result is the "not available" failure; neither the disk nor any engine is touched |
| AudioDownloader.ExistingFileSkipsEngines | src/downloader/audio_downloader.py:206-217 | a file already on disk is returned as a success with its size; no engine is asked and the disk is unchanged |
| AudioDownloader.SearchAndDownloadAsWritten | src/downloader/audio_downloader.py:181-241 | the code as written, where the existence check looks only for the `.mp3` name; the result is for the requested track |
| AudioDownloader.SearchAndDownload | src/downloader/audio_downloader.py:181-241 | the corrected operation, whose existence check also covers the extensions saved without FFmpeg; the result is for the requested track |
| AudioDownloader.ExampleCleanName | src/downloader/audio_downloader.py:160-179 | sanitising leaves the clean names `a - b.mp3` and `a - b.webm` unchanged |
| AudioDownloader.AsWrittenDownloadsAgain | src/downloader/audio_downloader.py:206-209 | as written, without FFmpeg, a track saved under a non-`.mp3` name is searched and downloaded again on the next request |
| AudioDownloader.DownloadsAgainExample | src/downloader/audio_downloader.py:352-358 | the concrete case: artist `a`, title `b`, yt-dlp saving `.webm`; the second request searches again |
| AudioDownloader.SecondCallSkips | src/downloader/audio_downloader.py:206-217 | with the corrected check, a second request for a track just fetched succeeds from disk, with no search and no change on disk |
| AudioDownloader.BatchOnePerTrack | src/downloader/audio_downloader.py:432-444 | a batch, run with the corrected existence check (see Findings), gives one result per input track, in input order |
| AudioDownloader.Disk.constructor | src/downloader/audio_downloader.py:56-71 | the disk starts with the given files |
| AudioDownloader.Ytdlp.constructor | src/downloader/audio_downloader.py:17-21 | yt-dlp starts with the given answers and has been asked nothing |
| AudioDownloader.Ytdlp.Fetch | src/downloader/audio_downloader.py:340-345 | the reply is yt-dlp's answer for the URL, and the URL is appended to its log |
| AudioDownloader.Downloader.constructor | src/downloader/audio_downloader.py:56-71 | the downloader keeps the download path, the FFmpeg and yt-dlp availability and the 200-character sanitiser |
| AudioDownloader.Downloader.DownloadFromEngine | src/downloader/audio_downloader.py:287-397 | the result, the new disk and the logged searches are those of `Attempt` on the engine's search URL |
| AudioDownloader.Downloader.DownloadUrl | src/downloader/audio_downloader.py:340-386 | the result, the new disk and the logged search are those of `Attempt` on the URL |
| AudioDownloader.Downloader.SearchAndDownloadTrack | src/downloader/audio_downloader.py:181-241 | the result, the new disk and the logged searches are those of the corrected `SearchAndDownload` |
| AudioDownloader.Downloader.TryEachEngine | src/downloader/audio_downloader.py:228-241 | the loop over engines gives exactly the result, disk and searches of `TryEngines` |
| AudioDownloader.Downloader.DownloadTracksBatch | src/downloader/audio_downloader.py:420-444 | the results, disk and searches are those of the batch run with the default engines and folder, with the corrected existence check (see Findings) |
| AudioDownloader.Downloader.DownloadPlaylist | src/downloader/audio_downloader.py:243-285 | the results, disk and searches are those of the batch run over the playlist's tracks into its folder, with the corrected existence check (see Findings) |
| AudioDownloader.Downloader.DownloadAll | src/downloader/audio_downloader.py:262-277 | the loop appends one result per track, ending at the batch run's results, disk and searches, with the corrected existence check (see Findings) |
| AudioDownloader.DownloadStatistics | src/downloader/audio_downloader.py:446-470 | every result is counted as either a success or a failure, and the total is the number of results |
| AudioDownloader.StatisticsCountSuccesses | src/downloader/audio_downloader.py:456-470 | the size and duration totals are summed over exactly the successful results, and the success count is their number |
| AzureUploader.CleanedChars | src/uploader/azure_uploader.py:264-270 | dropping characters, stripping and replacing whitespace runs leaves only the input's kept non-whitespace characters and those of the replacement |
| AzureUploader.BlobSanitizeSafe | src/uploader/azure_uploader.py:264-270 | a sanitised blob-name part has none of `<>:"/\|?*[]`, no whitespace, no character that was not in the input other than `_`, and at most 50 characters |
| AzureUploader.BlobSanitizeIdempotent | src/uploader/azure_uploader.py:264-270 | sanitising a sanitised part changes nothing |
| AzureUploader.StemSuffix | src/uploader/azure_uploader.py:250-257 | the stem and the suffix of a path together make up its file name, and neither holds a `/` |
| AzureUploader.BlobBaseNoSlash | src/uploader/azure_uploader.py:247-254 | the base of a blob name has no `/`, whether it comes from the track or from the file's stem |
| AzureUploader.BlobNameInAudioFolder | src/uploader/azure_uploader.py:237-262 | every generated blob name starts with `audio/` and has no further `/` |
| AzureUploader.BlobNameFromTrack | src/uploader/azure_uploader.py:248-260 | with a track, the blob name depends only on its artist and title and on the file's suffix, compared case-insensitively |
| AzureUploader.BlobNameWithoutTrack | src/uploader/azure_uploader.py:251-260 | without a track, the blob name is `audio/` followed by the file name with its suffix lower-cased |
| AzureUploader.PublicUrl | src/uploader/azure_uploader.py:158 | the public URL starts with the account's blob host and the container, and ends with the blob name |
| AzureUploader.PublicUrlRoundTrip | src/uploader/azure_uploader.py:204 | the blob name can be read back out of its public URL |
| AzureUploader.PublicUrlInjective | src/uploader/azure_uploader.py:204 | two blobs of one container never share a public URL |
| AzureUploader.Find | src/uploader/azure_uploader.py:71 | the position found is the first occurrence at or after the start, and none is found exactly when there is none |
| AzureUploader.SplitStrJoin | src/uploader/azure_uploader.py:71 | splitting on a separator and joining again gives the text back, and no field holds the separator |
| AzureUploader.SplitStrCons | src/uploader/azure_uploader.py:71 | when the separator occurs, the fields are the text before its first occurrence, then the fields of the rest |
| AzureUploader.SplitCharFirst | src/uploader/azure_uploader.py:71 | the first field of a split on `;` is the prefix up to the first `;` |
| AzureUploader.FirstField | src/uploader/azure_uploader.py:71 | the first field of a split is a prefix without the separator, followed by the end of the text or by the separator |
| AzureUploader.FieldAfterSpec | src/uploader/azure_uploader.py:69-71 | an account name is found exactly when `AccountName=` occurs; it starts right after the first occurrence and runs to the next `;`, the next `AccountName=` or the end |
| AzureUploader.FieldAfterFound | src/uploader/azure_uploader.py:69-71 | the field after the first occurrence of the key is a prefix of the rest of the text with no `;` and no key, ended by the text's end, a `;` or the key |
| AzureUploader.KeepValidMembers | src/uploader/azure_uploader.py:298 | the metadata filter keeps, in order, exactly the entries with a non-empty value and a key that is alphanumeric without its underscores |
| AzureUploader.ValidKeyOf | src/uploader/azure_uploader.py:298 | a key of letters, digits and underscores starting with a letter or digit passes the key filter |
| AzureUploader.MetadataKeyValid | src/uploader/azure_uploader.py:282-295 | each key the uploader writes passes the key filter |
| AzureUploader.RawMetadataKeys | src/uploader/azure_uploader.py:282-295 | every entry of the metadata before filtering uses one of those keys |
| AzureUploader.MetadataEntries | src/uploader/azure_uploader.py:280-298 | the metadata is the raw dictionary without its empty values; the source tag is always present, and without a track there are at most four entries |
| AzureUploader.UploadChecksFirst | src/uploader/azure_uploader.py:129-141 | without a client, or for a missing file, the upload fails with its fixed message, and the result does not depend on the container |
| AzureUploader.UploadExistingSkips | src/uploader/azure_uploader.py:150-168 | a blob already in the container is reported as a success with its public URL and is not uploaded again |
| AzureUploader.UploadOutcome | src/uploader/azure_uploader.py:116-235 | a success names a blob that is then in the container under its public URL; a new blob holds the file's size. A failure carries a message and changes nothing. No blob already present is changed |
| AzureUploader.UploadTwice | src/uploader/azure_uploader.py:150-168 | uploading the same file again gives the same result and uploads nothing |
| AzureUploader.TrackAt | src/uploader/azure_uploader.py:312-314 | the `i`-th file gets the `i`-th track, and no track without a track list or past its end |
| AzureUploader.UploadEachPerFile | src/uploader/azure_uploader.py:300-324 | one result per file, in order and for that file; a successful `k`-th result names its blob after the `k`-th file and the `k`-th track (if any) and carries that file's name, size and track as metadata; no blob already present is changed |
| AzureUploader.UploadNames | src/uploader/azure_uploader.py:116-235 | an upload's result is for its file; a successful one is for an existing file, its blob has the custom name or the generated one, and its metadata describe the file and the track |
| AzureUploader.UploadEachShift | src/uploader/azure_uploader.py:300-324 | a batch's results are the first file's upload followed by the batch of the rest, run on the container the first upload left |
| AzureUploader.UploadEachDescribes | src/uploader/azure_uploader.py:300-324 | every result of a batch describes its file with the track at the same position |
| AzureUploader.DescribesEachAt | src/uploader/azure_uploader.py:300-324 | in a described batch the `k`-th result is described with the `k`-th file and the `k`-th track |
| AzureUploader.UploadEachKeeps | src/uploader/azure_uploader.py:300-324 | a batch never changes a blob already in the container |
| AzureUploader.UploadEachFirst | src/uploader/azure_uploader.py:312-315 | the first result is the upload of the first file with the first track |
| AzureUploader.BlobStore.constructor | src/uploader/azure_uploader.py:94-114 | the container starts with the given blobs and upload behaviour |
| AzureUploader.BlobStore.Exists | src/uploader/azure_uploader.py:153-172 | the blob check answers yes exactly for a blob that is in the container |
| AzureUploader.BlobStore.Put | src/uploader/azure_uploader.py:196-202 | an upload stores the blob under its name with the file's size, unless it raises; a raising upload changes nothing |
| AzureUploader.InitialConnected | src/uploader/azure_uploader.py:46-92 | the uploader has a client exactly when the SDK is installed, some credentials are given, and both the client creation and the container check succeed |
| AzureUploader.InitialAccount | src/uploader/azure_uploader.py:60-82 | the account name is the one inside the connection string when it names one, and otherwise the given name or `unknown` |
| AzureUploader.AzureBlobUploader.constructor | src/uploader/azure_uploader.py:46-92 | the new uploader's account name and client state are those of the initialisation function |
| AzureUploader.AzureBlobUploader.UploadAudioFile | src/uploader/azure_uploader.py:116-235 | the upload done step by step through the container gives exactly the result and the container of the upload function |
| AzureUploader.AzureBlobUploader.UploadPlaylistFiles | src/uploader/azure_uploader.py:300-324 | the loop gives exactly the results and the container of the per-file upload run |
| TtsFormatter.AudioObjectSpec | src/tts_formatter/tts_formatter.py:67-98 | an audio object's name is the track's `artist - title`, followed by ` (album)` exactly when the album is not empty; its URL is the workshop URL when there is one, else the local URL; volume, pitch and loop are the ones given |
| TtsFormatter.RelativeLocalFileFails | src/tts_formatter/tts_formatter.py:132-137 | as written, one existing local file given by a relative path makes the whole player fail, even when that entry has a workshop URL |
| TtsFormatter.EntriesFailAt | src/tts_formatter/tts_formatter.py:122-143 | as written, a failing entry anywhere in the playlist makes the whole loop fail |
| TtsFormatter.DownloadedFileFails | src/tts_formatter/tts_formatter.py:132-137 | the downloader's own kind of path, `downloads/a - b.mp3`, makes the as-written player fail with the relative-path error |
| TtsFormatter.EntryUrlSpec | src/tts_formatter/tts_formatter.py:122-143 | with the local path made absolute, an entry's URL is the successful upload's URL, else the existing local file's `file://` URI, else empty; where the as-written loop does not fail, the two agree |
| TtsFormatter.PlayerEntriesPerTrack | src/tts_formatter/tts_formatter.py:122-145 | one audio object per track, in playlist order: the `k`-th is built from the `k`-th track and the `k`-th entry URL, with the default volume and pitch and no loop |
| TtsFormatter.CreateMusicPlayer | src/tts_formatter/tts_formatter.py:100-148 | the player is named by the given name, else by the playlist's; its entries are those of the per-track specification; it starts on the first track without shuffle or repeat |
| TtsFormatter.EscapeLuaAppend | src/tts_formatter/tts_formatter.py:329-345 | escaping distributes over concatenation |
| TtsFormatter.ReplaceOne | src/tts_formatter/tts_formatter.py:340-344 | one replacement step on one character replaces it exactly when it is the character searched for |
| TtsFormatter.ReplaceNone | src/tts_formatter/tts_formatter.py:340-344 | a replacement step leaves text without that character unchanged |
| TtsFormatter.EscapeLuaChar | src/tts_formatter/tts_formatter.py:340-344 | the five chained replacements escape a single character as its own escape |
| TtsFormatter.EscapeLuaEach | src/tts_formatter/tts_formatter.py:340-344 | because backslashes are replaced first, the chain escapes every character on its own and never escapes an escape again |
| TtsFormatter.UnescapeEach | src/tts_formatter/tts_formatter.py:329-345 | reading the character-by-character escape back gives the original text |
| TtsFormatter.EscapeLuaRoundTrip | src/tts_formatter/tts_formatter.py:329-345 | a Lua string reader gets the original text back from the escaped text |
| TtsFormatter.EscapeEachSafe | src/tts_formatter/tts_formatter.py:329-345 | the character-by-character escape has no raw newline, carriage return or tab, and every double quote follows a backslash |
| TtsFormatter.EscapeLuaSafe | src/tts_formatter/tts_formatter.py:329-345 | the escaped text has no raw newline, carriage return or tab, and every double quote follows a backslash, so it cannot end the literal it is placed in |
| TtsFormatter.AudiosRoundTrip | src/tts_formatter/tts_formatter.py:29-31 | a list of audio objects is read back unchanged from their dictionaries |
| TtsFormatter.PlayerDictRoundTrip | src/tts_formatter/tts_formatter.py:43-51 | a player's dictionary keeps the whole player: its name, every audio object in playlist order with all six fields, the current track, shuffle and repeat |
| TtsFormatter.SimplePlaylistEntries | src/tts_formatter/tts_formatter.py:306-317 | one entry per audio object, in playlist order, each holding the escaped name as title and the escaped URL |
| TtsFormatter.LuaEntries | src/tts_formatter/tts_formatter.py:164-175 | one playlist-table entry per audio object, in playlist order |
| TtsFormatter.LuaScriptCurrentTrack | src/tts_formatter/tts_formatter.py:177-191 | the script holds the line that sets the object's current track, and the number in it reads back as the player's current track plus one |
| TtsFormatter.Upper | src/tts_formatter/tts_formatter.py:379 | upper-casing keeps the length and upper-cases each character in place |
| TtsFormatter.GuidOfUuid | src/tts_formatter/tts_formatter.py:378-379 | a GUID made from a `uuid4` is six upper-case hex digits, the first six of the uuid upper-cased |
| TtsFormatter.GenerateSaveFile | src/tts_formatter/tts_formatter.py:360-393 | the save file is the one built with the simple playlist of the player's entries or the full script over them, as the format flag says; it has one object, and the full script sets the player's current track |
| TtsFormatter.SaveFileSpec | src/tts_formatter/tts_formatter.py:360-471 | the save file has exactly one object; its nickname, description and GUID are the given ones or fall back to the player's name, the default description and a fresh six-digit GUID; its script follows the format flag; it carries the cartridge's two image URLs |
| TtsFormatter.DefaultDescriptionCount | src/tts_formatter/tts_formatter.py:386-387 | the number in the default description reads back as the track count |
| TtsFormatter.KeepNameCharsSpec | src/tts_formatter/tts_formatter.py:492 | the filter keeps only characters of the name that are alphanumeric, space, `-` or `_`, and keeps a name made only of those unchanged |
| TtsFormatter.SafeBaseNameSpec | src/tts_formatter/tts_formatter.py:490-493 | the default base filename holds only letters, digits, `-` and `_`, all from the name except the `_` that replace spaces; making it again changes nothing |
| TtsFormatter.SavedPathsDistinct | src/tts_formatter/tts_formatter.py:496-534 | the result has exactly the keys `lua`, `simple_lua`, `json`, `save_file` and `summary`, and no two of the five files share a path |
| TtsFormatter.SaveFormattedFiles | src/tts_formatter/tts_formatter.py:473-534 | the map returned gives each file's path under the output folder and the base filename, the given one or the default |
| Config.Defaults | src/utils/config.py:19-43 | a fresh settings record has audio quality `192`, format `mp3`, and no Last.fm key or user |
| Config.FieldOf | src/utils/config.py:123-128 | an attribute name leads to the setting of that name, and to none exactly when no setting has it |
| Config.FieldOfName | src/utils/config.py:125-127 | every setting's attribute name leads back to that setting |
| Config.Set | src/utils/config.py:106-109 | setting an attribute changes that setting to the value and keeps every other |
| Config.SameFields | src/utils/config.py:19-43 | two settings records that agree on every setting are the same |
| Config.EnvValue | src/utils/config.py:106-108 | a variable counts exactly when it is set and not empty, and then gives its value |
| Config.EnvOverrides | src/utils/config.py:87-109 | after loading from the environment, a setting holds its variable's value when that is set and not empty, and keeps its value otherwise |
| Config.EnvIndex | src/utils/config.py:89-104 | every setting is in the environment mapping |
| Config.EnvFieldsDistinct | src/utils/config.py:89-104 | the environment mapping names each setting once |
| Config.IsConfigured | src/utils/config.py:130-133 | a configured application has both a Last.fm key and a Last.fm user |
| Config.ConfiguredFromEnv | src/utils/config.py:87-133 | after loading from the environment, the application is configured exactly when the key and the user each come from the environment or were already set |
| Config.DefaultsUnconfigured | src/utils/config.py:19-43 | a fresh settings record is not configured, and its audio quality passes the quality check |
| Config.LoadStep | src/utils/config.py:105-109 | one step of the environment loop overrides its own setting and leaves the rest as they were |
| Config.LoadedAll | src/utils/config.py:105-109 | once every variable is visited, the settings are exactly the environment-overridden record |
| Config.ConfigManager.constructor | src/utils/config.py:58-72 | a new manager holds the defaults overridden by the environment |
| Config.ConfigManager.LoadFromEnv | src/utils/config.py:87-109 | every mapped variable that is set and not empty overrides its setting, and nothing else changes |
| Config.ConfigManager.UpdateConfig | src/utils/config.py:123-128 | every keyword naming a setting replaces it, and every setting no keyword names keeps its value (keywords naming attributes that are not settings: see Left out) |
| Config.ValidateAudioQuality | src/utils/config.py:170-182 | an accepted quality is three digits |
| Config.StripKeeps | src/utils/config.py:205 | stripping adds no character and no adjacent whitespace |
| Config.CleanedNameSafe | src/utils/config.py:200-205 | the cleaned name has no forbidden character and nothing new except the single space; its only whitespace is single spaces, and there is none at either end |
| Config.SanitizedIsSafe | src/utils/config.py:184-208 | a sanitised name has none of `<>:"/\|?*`, nothing new except the space, whitespace only as single spaces, no leading whitespace, and at most the maximum length |
| Config.CollapseSingleSpaces | src/utils/config.py:203 | collapsing whitespace leaves text whose only whitespace is single spaces unchanged |
| Config.SanitizeClean | src/utils/config.py:184-208 | a name that is already clean and short enough comes out unchanged |
| Config.SanitizeIdempotentUncut | src/utils/config.py:184-208 | sanitising again changes nothing when the first pass needed no cut |
| Config.TwoDigits | src/utils/config.py:228-231 | a two-digit field is two digits |
| Config.TwoDigitsRoundTrip | src/utils/config.py:228-231 | a two-digit field reads back as its number |
| Config.FormatDuration | src/utils/config.py:210-231 | no positive duration gives `0:00`; otherwise the text has two fields under an hour and three from an hour on |
| Config.FormatDurationRoundTrip | src/utils/config.py:210-231 | the text of a positive whole number of seconds reads back as that number |
| Config.RoundTripMinutes | src/utils/config.py:224-231 | the `M:SS` text of a duration under an hour reads back as its seconds |
| Config.RoundTripHours | src/utils/config.py:224-229 | the `H:MM:SS` text of a duration of an hour or more reads back as its seconds |
| Config.LastIndex | src/utils/config.py:299 | the position found is the last occurrence of the character, and none is found exactly when it does not occur |
| Config.BaseName | src/utils/config.py:299 | a path's file name ends the path and has no `/` |
| Config.NameSuffix | src/utils/config.py:299 | a file name's suffix is empty, or a dot and at least one more character ending the name |
| Config.Suffix | src/utils/config.py:299 | a path's suffix is empty, or a dot and at least one more character ending the path |
| Config.LowerSuffixEnds | src/utils/config.py:299 | the lower-cased suffix ends the lower-cased path |
| Config.AudioFileHasExtension | src/utils/config.py:283-299 | an accepted audio file's lower-cased path ends with one of the audio extensions |
| Config.LastIndexLower | src/utils/config.py:299 | lower-casing does not move the last `/` or `.` |
| Config.BaseNameLower | src/utils/config.py:299 | the file name of a lower-cased path is the lower-cased file name |
| Config.NameSuffixLower | src/utils/config.py:299 | the suffix of a lower-cased name is the lower-cased suffix |
| Config.SuffixLower | src/utils/config.py:299 | the suffix of a lower-cased path is the lower-cased suffix |
| Config.IsAudioFileIgnoresCase | src/utils/config.py:283-299 | a path and its lower-cased form are both audio files or neither |
| Config.ProgressTracker.constructor | src/utils/config.py:304-314 | a new tracker has its total and description, and is at zero |
| Config.ProgressTracker.IsComplete | src/utils/config.py:328-330 | the tracker is complete exactly when it has reached its total |
| Config.ProgressTracker.Update | src/utils/config.py:316-320 | an update adds the increment but never goes past the total; afterwards the tracker is complete exactly when the sum reached the total |
| Config.ProgressTracker.Reset | src/utils/config.py:332-334 | a reset goes back to zero, so the tracker is then complete only when its total is not positive |

## Left out

- Logging, printing and progress messages: they do not change any result.
- Network transport (`requests`, the Google API client, the Spotify HTTP calls, the Azure SDK): each is an oracle function or a scripted reply queue. Timeouts, retries inside the libraries and HTTP details below the reply are not modelled.
- `yt-dlp` internals, the temporary directory, `_check_ffmpeg_availability`, `_configure_ydl_options`, `convert_to_mono`, `enhance_metadata` and their batch forms: external tools. Their availability is a flag, and a download is the oracle's reply.
- The save-manifest write in `download_playlist` (`save_playlist_manifest`): a file write. It does not affect the results returned.
- `success_rate`, `average_file_size` and `average_duration` of the download statistics: floating-point quotients. The counts and sums they are made from are modelled.
- Durations are whole seconds throughout. Python floats are not modelled, and `format_duration` is modelled on integers.
- The volume, pitch and loop start of an audio object are kept as the text Python prints for them (`0.8`, `1.0`, `0.0`), not as floats.
- Directory creation (`mkdir`), `Path.exists` and file sizes: the disk is a map from path to size. Path normalisation, `..`, symbolic links and Windows paths are not modelled. A path's file name and suffix follow POSIX rules.
- `Path.as_uri` percent-encoding: an oracle from path to quoted text. Only its refusal of relative paths is modelled.
- Writing the five output files of `save_formatted_files`, `generate_json_data` (JSON text) and `generate_text_summary`: I/O and text layout. The paths returned are modelled.
- The save file's fixed transform, colour, tags and flags, and its empty top-level fields: constants with no logic.
- The long Lua template after the state lines of the full script, and the object base code after the simple playlist: fixed text, passed in as parameters.
- `batch_format_playlists`: a loop of the modelled operations with file writes.
- `uuid4` randomness: the uuid text is a parameter. Its shape (36 characters, lower-case hex in groups) is a precondition of the GUID lemma only.
- `datetime.utcnow()` for the upload time: the time text is a parameter.
- `get_upload_stats`, `list_uploaded_files`, `delete_file`, `_get_file_hash` and the content-type guess of the uploader: not part of the upload decision. The content settings are SDK arguments.
- `src/uploader/azure_blob_uploader.py` is not part of this model. It is an older uploader that nothing imports.
- `ConfigManager.load_config`, `save_config`, `AppConfig.to_dict` and `from_dict`: the JSON settings file. The constructor starts from the defaults and applies the environment.
- `load_dotenv`, `setup_logging`, `create_directories`, `format_file_size`, `get_file_hash` and `create_backup`: file-system and logging utilities, or floating-point text.
- `ProgressTracker.get_percentage` and `__str__`: floating-point text.
- The GUI (`src/gui/`): widgets and worker threads that only orchestrate the modelled operations.
- Concurrency: the GUI's worker threads and `max_concurrent` of `download_tracks_batch`, which the code never uses.
- `LastFMAPI.search_tracks` and YouTube's `get_playlist_tracks` and `_get_video_details`: ISO-8601 durations via `isodate`, the videos endpoint and its pagination. The shared conversions and adapter operations they build on are modelled.
- Unicode: `str.lower`, `str.upper` and `str.isalnum` are modelled on ASCII letters and digits. Whitespace is Python's `str.isspace` set for the characters the code meets.
- Regular expressions on titles holding line breaks (where `.` and `$` behave differently): titles are taken to be single lines.
- Config.ConfigManager.UpdateConfig: in the code `hasattr` also accepts the names of the settings object's methods and special attributes (`to_dict`, `from_dict`, `__class__`), and `setattr` then overwrites them. The model holds only the settings fields, so such a keyword changes nothing here.
- Strings.ParseInt: Python's `int()` also accepts `_` between digits (`"1_000"`) and non-ASCII digits. The model rejects both and accepts only surrounding whitespace, an optional sign and ASCII decimal digits.
- Config.ValidateAudioQuality: its contract states only that an accepted quality is three digits. That it accepts exactly `128`, `192`, `256` and `320` is the function's body.

## Findings

| source | as written | input that shows it | evidently intended | confidence | as-written member | corrected member |
|---|---|---|---|---|---|---|
| src/downloader/audio_downloader.py:206-209 | The skip-if-present check looks only for the sanitised `.mp3` name. Without FFmpeg, `_download_from_engine` saves the file under its downloaded extension (lines 352-358). | No FFmpeg; yt-dlp saves `.webm`; artist `a`, title `b`. The first call saves `downloads/a - b.webm`. The second call does not see it and searches and downloads again. | A track already on disk is never fetched again (the "one file per song" comment at line 208), whatever extension it was saved with. | not executed | AudioDownloader.SearchAndDownloadAsWritten, AudioDownloader.AsWrittenDownloadsAgain, AudioDownloader.DownloadsAgainExample | AudioDownloader.SearchAndDownload, AudioDownloader.SecondCallSkips |
| src/tts_formatter/tts_formatter.py:132-137 | `Path(local_files[i]).as_uri()` is called on the path as given. `as_uri` raises `ValueError` for a relative path, and the exception ends `create_music_player`. | The GUI passes the downloader's result paths (src/gui/main_window.py:802-807). With the default download folder these are relative, e.g. `downloads/a - b.mp3`. The player is never built. | Each entry gets the uploaded URL, else the local file's `file://` URI, else `""`, and every track keeps its entry. | not executed | TtsFormatter.PlayerEntriesAsWritten, TtsFormatter.RelativeLocalFileFails, TtsFormatter.DownloadedFileFails | TtsFormatter.EntryUrl, TtsFormatter.EntryUrlSpec, TtsFormatter.CreateMusicPlayer |
