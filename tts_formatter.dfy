/**
 * Turning a playlist into Tabletop Simulator objects: the audio objects and music player
 * built from the tracks, the Lua string escaping, the dictionaries the player is saved
 * as, the two Lua scripts, the save-file object and the names of the files written.
 *
 * Floating-point settings (volume, pitch, loop start) are kept as the text Python prints
 * for them. The file system is two oracles: whether a path exists, and the percent-quoting
 * `Path.as_uri` applies. Random GUIDs are the text of the `uuid4` they come from. The long
 * template text after the state lines of the full script, and the object base code after
 * the simple playlist, are passed in as given text.
 */
module TtsFormatter {
  import opened Wrappers
  import opened Strings
  import opened LastfmClient
  import AzureUploader

  // ---------------------------------------------------------------------------
  // Audio objects and the music player
  // ---------------------------------------------------------------------------

  /** `TTSAudioObject`; the three numbers are the text Python prints for them. */
  datatype AudioObject = AudioObject(name: string, url: string, volume: string, pitch: string,
                                     loop: bool, loopstart: string)

  const DefaultVolume := "0.8"
  const DefaultPitch := "1.0"
  const DefaultLoopStart := "0.0"

  /** `TTSMusicPlayer` */
  datatype MusicPlayer = MusicPlayer(name: string, playlist: seq<AudioObject>, currentTrack: int,
                                     shuffle: bool, repeat: bool)

  /** The name an audio object gets: `"artist - title"`, then `" (album)"` when there is one. */
  function AudioName(track: Track): string {
    var name := track.artist + " - " + track.title;
    if track.album != "" then name + " (" + track.album + ")" else name
  }

  /**
   * `create_audio_object`: the workshop URL when there is one, else the local URL.
   */
  function CreateAudioObject(track: Track, workshopUrl: string, localUrl: string, volume: string,
                             pitch: string, loop: bool): AudioObject
  {
    AudioObject(AudioName(track), if workshopUrl != "" then workshopUrl else localUrl, volume, pitch, loop,
                DefaultLoopStart)
  }

  /**
   * The name is the track's display text, followed by the album in parentheses exactly
   * when the album is not empty; the URL prefers the workshop URL.
   */
  lemma AudioObjectSpec(track: Track, workshopUrl: string, localUrl: string, volume: string, pitch: string,
                        loop: bool)
    ensures var a := CreateAudioObject(track, workshopUrl, localUrl, volume, pitch, loop);
      var d := TrackDisplay(track);
      && |d| <= |a.name| && a.name[..|d|] == d
      && (track.album == "" <==> a.name == d)
      && (track.album != "" ==> a.name[|d|..] == " (" + track.album + ")")
      && (workshopUrl != "" ==> a.url == workshopUrl)
      && (workshopUrl == "" ==> a.url == localUrl)
      && a.volume == volume && a.pitch == pitch && a.loop == loop
  {
    var d := TrackDisplay(track);
    if track.album != "" {
      var tail := " (" + track.album + ")";
      assert (d + tail)[..|d|] == d;
      assert (d + tail)[|d|..] == tail;
      assert |d + tail| > |d|;
    }
  }

  /** The message of the `ValueError` `Path.as_uri` raises for a relative path. */
  const RelativeUriMessage := "relative path can't be expressed as a file URI"

  /** `Path(p).as_uri()` for a POSIX path: only absolute paths have one. */
  function AsUri(p: string, quote: string -> string): Result<string, string> {
    if p != [] && p[0] == '/' then Ok("file://" + quote(p)) else Err(RelativeUriMessage)
  }

  /** The public URL of the `i`-th upload when it succeeded with a non-empty URL, else `""`. */
  function WorkshopUrl(uploads: Option<seq<AzureUploader.UploadResult>>, i: nat): string {
    if uploads.Some? && i < |uploads.value| && uploads.value[i].success
       && uploads.value[i].publicUrl.Some? && uploads.value[i].publicUrl.value != ""
    then uploads.value[i].publicUrl.value
    else ""
  }

  /** The `i`-th local file, when there is one and it exists. */
  function ExistingLocal(localFiles: Option<seq<string>>, present: string -> bool, i: nat): Option<string> {
    if localFiles.Some? && i < |localFiles.value| && present(localFiles.value[i]) then Some(localFiles.value[i])
    else None
  }

  /** The URL of the `i`-th entry as the loop body computes it; `as_uri` can raise. */
  function EntryUrlAsWritten(uploads: Option<seq<AzureUploader.UploadResult>>, localFiles: Option<seq<string>>,
                             present: string -> bool, quote: string -> string, i: nat): Result<string, string>
  {
    var workshop := WorkshopUrl(uploads, i);
    match ExistingLocal(localFiles, present, i)
    case None => Ok(workshop)
    case Some(p) =>
      match AsUri(p, quote)
      case Err(e) => Err(e)
      case Ok(local) => Ok(if workshop != "" then workshop else local)
  }

  /** `create_music_player` as written: the first relative local file aborts it. */
  function PlayerEntriesAsWritten(tracks: seq<Track>, i: nat, uploads: Option<seq<AzureUploader.UploadResult>>,
                                  localFiles: Option<seq<string>>, present: string -> bool,
                                  quote: string -> string): Result<seq<AudioObject>, string>
    decreases |tracks|
  {
    if tracks == [] then Ok([])
    else
      match EntryUrlAsWritten(uploads, localFiles, present, quote, i)
      case Err(e) => Err(e)
      case Ok(url) =>
        match PlayerEntriesAsWritten(tracks[1..], i + 1, uploads, localFiles, present, quote)
        case Err(e) => Err(e)
        case Ok(rest) => Ok([CreateAudioObject(tracks[0], url, "", DefaultVolume, DefaultPitch, false)] + rest)
  }

  /**
   * As written, one existing local file given by a relative path makes the whole player
   * fail, even when that entry has a workshop URL.
   */
  lemma RelativeLocalFileFails(tracks: seq<Track>, uploads: Option<seq<AzureUploader.UploadResult>>,
                               localFiles: seq<string>, present: string -> bool, quote: string -> string, k: nat)
    requires k < |tracks| && k < |localFiles| && present(localFiles[k])
    requires localFiles[k] == [] || localFiles[k][0] != '/'
    ensures PlayerEntriesAsWritten(tracks, 0, uploads, Some(localFiles), present, quote).Err?
  {
    EntriesFailAt(tracks, 0, uploads, Some(localFiles), present, quote, k);
  }

  lemma {:induction false} EntriesFailAt(tracks: seq<Track>, i: nat, uploads: Option<seq<AzureUploader.UploadResult>>,
                                         localFiles: Option<seq<string>>, present: string -> bool,
                                         quote: string -> string, k: nat)
    requires i <= k < i + |tracks|
    requires EntryUrlAsWritten(uploads, localFiles, present, quote, k).Err?
    ensures PlayerEntriesAsWritten(tracks, i, uploads, localFiles, present, quote).Err?
    decreases |tracks|
  {
    if k > i {
      EntriesFailAt(tracks[1..], i + 1, uploads, localFiles, present, quote, k);
    }
  }

  /**
   * The downloader's own paths are relative to its `./downloads` folder, so a playlist
   * built from them fails.
   */
  lemma DownloadedFileFails(track: Track, path: string, present: string -> bool, quote: string -> string)
    requires path == "downloads/a - b.mp3" && present(path)
    ensures PlayerEntriesAsWritten([track], 0, None, Some([path]), present, quote)
         == Err(RelativeUriMessage)
  {
    assert path[0] == 'd';
  }

  /** The absolute form of a path: relative paths are taken from the working directory. */
  function Absolute(p: string, cwd: string): string {
    if p != [] && p[0] == '/' then p else cwd + "/" + p
  }

  /** The URL of the `i`-th entry with the local path made absolute first: it cannot fail. */
  function EntryUrl(uploads: Option<seq<AzureUploader.UploadResult>>, localFiles: Option<seq<string>>,
                    present: string -> bool, quote: string -> string, cwd: string, i: nat): string
  {
    var workshop := WorkshopUrl(uploads, i);
    match ExistingLocal(localFiles, present, i)
    case None => workshop
    case Some(p) => if workshop != "" then workshop else "file://" + quote(Absolute(p, cwd))
  }

  /**
   * With an absolute working directory every existing local file has a URI, and the
   * entry URL is what the loop meant to compute: the upload's URL, else the file's URI,
   * else nothing. Where the original does not fail, the two agree.
   */
  lemma EntryUrlSpec(uploads: Option<seq<AzureUploader.UploadResult>>, localFiles: Option<seq<string>>,
                     present: string -> bool, quote: string -> string, cwd: string, i: nat)
    requires cwd != [] && cwd[0] == '/'
    ensures var url := EntryUrl(uploads, localFiles, present, quote, cwd, i);
      var local := ExistingLocal(localFiles, present, i);
      && (WorkshopUrl(uploads, i) != "" ==> url == WorkshopUrl(uploads, i))
      && (WorkshopUrl(uploads, i) == "" && local.Some? ==> AsUri(Absolute(local.value, cwd), quote) == Ok(url))
      && (WorkshopUrl(uploads, i) == "" && local.None? ==> url == "")
      && (EntryUrlAsWritten(uploads, localFiles, present, quote, i).Ok? ==>
            EntryUrlAsWritten(uploads, localFiles, present, quote, i).value == url)
  {
  }

  /** The entries of the player from the `i`-th track on, `pending` being the tracks left. */
  function PlayerEntries(pending: seq<Track>, i: nat, uploads: Option<seq<AzureUploader.UploadResult>>,
                         localFiles: Option<seq<string>>, present: string -> bool, quote: string -> string,
                         cwd: string): seq<AudioObject>
    decreases |pending|
  {
    if pending == [] then []
    else
      [CreateAudioObject(pending[0], EntryUrl(uploads, localFiles, present, quote, cwd, i), "",
                         DefaultVolume, DefaultPitch, false)]
      + PlayerEntries(pending[1..], i + 1, uploads, localFiles, present, quote, cwd)
  }

  /**
   * One entry per track, in playlist order: the `k`-th is the `k`-th track's audio object
   * with the default volume, pitch and no loop, and the `k`-th entry URL.
   */
  lemma {:induction false} PlayerEntriesPerTrack(pending: seq<Track>, i: nat,
                                                 uploads: Option<seq<AzureUploader.UploadResult>>,
                                                 localFiles: Option<seq<string>>, present: string -> bool,
                                                 quote: string -> string, cwd: string)
    ensures var es := PlayerEntries(pending, i, uploads, localFiles, present, quote, cwd);
      && |es| == |pending|
      && forall k :: 0 <= k < |pending| ==>
           es[k] == AudioObject(AudioName(pending[k]), EntryUrl(uploads, localFiles, present, quote, cwd, i + k),
                                DefaultVolume, DefaultPitch, false, DefaultLoopStart)
    decreases |pending|
  {
    if pending != [] {
      PlayerEntriesPerTrack(pending[1..], i + 1, uploads, localFiles, present, quote, cwd);
      var es := PlayerEntries(pending, i, uploads, localFiles, present, quote, cwd);
      var rest := PlayerEntries(pending[1..], i + 1, uploads, localFiles, present, quote, cwd);
      forall k | 1 <= k < |pending|
        ensures es[k] == AudioObject(AudioName(pending[k]), EntryUrl(uploads, localFiles, present, quote, cwd, i + k),
                                     DefaultVolume, DefaultPitch, false, DefaultLoopStart)
      {
        assert es[k] == rest[k - 1];
        assert pending[1..][k - 1] == pending[k];
        assert i + 1 + (k - 1) == i + k;
      }
    }
  }

  /** Entries gathered so far in front of the rest's. */
  function Prepend(done: seq<AudioObject>, rest: seq<AudioObject>): seq<AudioObject> {
    done + rest
  }

  /**
   * `create_music_player`, with local paths made absolute before `as_uri`. The player's
   * name is the given one, else the playlist's; it starts on the first track.
   */
  method CreateMusicPlayer(playlist: Playlist, uploads: Option<seq<AzureUploader.UploadResult>>,
                           localFiles: Option<seq<string>>, playerName: string, present: string -> bool,
                           quote: string -> string, cwd: string) returns (p: MusicPlayer)
    ensures p.name == if playerName != "" then playerName else playlist.name
    ensures p.playlist == PlayerEntries(playlist.tracks, 0, uploads, localFiles, present, quote, cwd)
    ensures p.currentTrack == 0 && !p.shuffle && !p.repeat
  {
    var name := if playerName != "" then playerName else playlist.name;
    var objects: seq<AudioObject> := [];
    var pending := playlist.tracks;
    var i := 0;
    while pending != []
      invariant Prepend(objects, PlayerEntries(pending, i, uploads, localFiles, present, quote, cwd))
             == PlayerEntries(playlist.tracks, 0, uploads, localFiles, present, quote, cwd)
      decreases |pending|
    {
      var url := EntryUrl(uploads, localFiles, present, quote, cwd, i);
      var audio := CreateAudioObject(pending[0], url, "", DefaultVolume, DefaultPitch, false);
      Seqs.AppendAssoc(objects, [audio], PlayerEntries(pending[1..], i + 1, uploads, localFiles, present, quote, cwd));
      objects := objects + [audio];
      pending := pending[1..];
      i := i + 1;
    }
    p := MusicPlayer(name, objects, 0, false, false);
  }

  // ---------------------------------------------------------------------------
  // Lua string escaping
  // ---------------------------------------------------------------------------

  /**
   * `_escape_lua_string`: backslashes first, then double quotes, newlines, carriage
   * returns and tabs.
   */
  function EscapeLua(s: string): string {
    var a := ReplaceChar(s, '\\', "\\\\");
    var b := ReplaceChar(a, '"', "\\\"");
    var c := ReplaceChar(b, '\n', "\\n");
    var d := ReplaceChar(c, '\r', "\\r");
    ReplaceChar(d, '\t', "\\t")
  }

  /** The escape of one character. */
  function EscapeChar(c: char): string {
    if c == '\\' then "\\\\"
    else if c == '"' then "\\\""
    else if c == '\n' then "\\n"
    else if c == '\r' then "\\r"
    else if c == '\t' then "\\t"
    else [c]
  }

  /** Escaping character by character. */
  function EscapeEach(s: string): string {
    if s == [] then [] else EscapeChar(s[0]) + EscapeEach(s[1..])
  }

  lemma EscapeLuaAppend(a: string, b: string)
    ensures EscapeLua(a + b) == EscapeLua(a) + EscapeLua(b)
  {
    ReplaceCharAppend(a, b, '\\', "\\\\");
    var a1, b1 := ReplaceChar(a, '\\', "\\\\"), ReplaceChar(b, '\\', "\\\\");
    ReplaceCharAppend(a1, b1, '"', "\\\"");
    var a2, b2 := ReplaceChar(a1, '"', "\\\""), ReplaceChar(b1, '"', "\\\"");
    ReplaceCharAppend(a2, b2, '\n', "\\n");
    var a3, b3 := ReplaceChar(a2, '\n', "\\n"), ReplaceChar(b2, '\n', "\\n");
    ReplaceCharAppend(a3, b3, '\r', "\\r");
    var a4, b4 := ReplaceChar(a3, '\r', "\\r"), ReplaceChar(b3, '\r', "\\r");
    ReplaceCharAppend(a4, b4, '\t', "\\t");
  }

  /** One replacement step on a single character. */
  lemma ReplaceOne(c: char, d: char, t: string)
    ensures ReplaceChar([c], d, t) == if c == d then t else [c]
  {
    assert [c][1..] == [];
  }

  /** A step that does not touch the text. */
  lemma ReplaceNone(s: string, d: char, t: string)
    requires d !in s
    ensures ReplaceChar(s, d, t) == s
  {
    ReplaceCharAbsent(s, d, t);
  }

  /** Chaining the five replacements on one character escapes that character. */
  lemma EscapeLuaChar(c: char)
    ensures EscapeLua([c]) == EscapeChar(c)
  {
    ReplaceOne(c, '\\', "\\\\");
    if c == '\\' {
      ReplaceNone("\\\\", '"', "\\\"");
      ReplaceNone("\\\\", '\n', "\\n");
      ReplaceNone("\\\\", '\r', "\\r");
      ReplaceNone("\\\\", '\t', "\\t");
    } else {
      ReplaceOne(c, '"', "\\\"");
      if c == '"' {
        ReplaceNone("\\\"", '\n', "\\n");
        ReplaceNone("\\\"", '\r', "\\r");
        ReplaceNone("\\\"", '\t', "\\t");
      } else {
        ReplaceOne(c, '\n', "\\n");
        if c == '\n' {
          ReplaceNone("\\n", '\r', "\\r");
          ReplaceNone("\\n", '\t', "\\t");
        } else {
          ReplaceOne(c, '\r', "\\r");
          if c == '\r' {
            ReplaceNone("\\r", '\t', "\\t");
          } else {
            ReplaceOne(c, '\t', "\\t");
          }
        }
      }
    }
  }

  /** The chained replacements escape each character on its own: no escape is escaped again. */
  lemma {:induction false} EscapeLuaEach(s: string)
    ensures EscapeLua(s) == EscapeEach(s)
  {
    if s != [] {
      assert s == [s[0]] + s[1..];
      EscapeLuaAppend([s[0]], s[1..]);
      EscapeLuaChar(s[0]);
      EscapeLuaEach(s[1..]);
    }
  }

  /** What a Lua reader makes of the character after a backslash. */
  function Unescaped(c: char): char {
    if c == 'n' then '\n' else if c == 'r' then '\r' else if c == 't' then '\t' else c
  }

  /** Reading the body of a Lua string literal back. */
  function UnescapeLua(s: string): string
    decreases |s|
  {
    if s == [] then []
    else if s[0] == '\\' && |s| >= 2 then [Unescaped(s[1])] + UnescapeLua(s[2..])
    else [s[0]] + UnescapeLua(s[1..])
  }

  lemma {:induction false} UnescapeEach(s: string)
    ensures UnescapeLua(EscapeEach(s)) == s
  {
    if s != [] {
      var c := s[0];
      var rest := EscapeEach(s[1..]);
      var e := EscapeChar(c);
      UnescapeEach(s[1..]);
      if e == [c] {
        assert c != '\\';
        assert (e + rest)[1..] == rest;
      } else {
        assert |e| == 2 && e[0] == '\\' && Unescaped(e[1]) == c;
        assert (e + rest)[2..] == rest;
      }
      assert [c] + s[1..] == s;
    }
  }

  /** A Lua reader gets the original text back from the escaped one. */
  lemma EscapeLuaRoundTrip(s: string)
    ensures UnescapeLua(EscapeLua(s)) == s
  {
    EscapeLuaEach(s);
    UnescapeEach(s);
  }

  /**
   * The escaped text has no raw newline, carriage return or tab, and every double quote
   * in it follows a backslash, so it cannot end the literal it is placed in.
   */
  lemma {:induction false} EscapeEachSafe(s: string)
    ensures var r := EscapeEach(s);
      && (forall c :: c in r ==> c != '\n' && c != '\r' && c != '\t')
      && (forall i :: 0 <= i < |r| && r[i] == '"' ==> i > 0 && r[i - 1] == '\\')
      && (r != [] ==> r[0] != '"')
  {
    if s != [] {
      var e := EscapeChar(s[0]);
      var rest := EscapeEach(s[1..]);
      EscapeEachSafe(s[1..]);
      var r := e + rest;
      forall i | 0 <= i < |r| && r[i] == '"'
        ensures i > 0 && r[i - 1] == '\\'
      {
        if i < |e| {
          assert i == 1 && e == "\\\"";
        } else {
          assert rest[i - |e|] == '"';
        }
      }
      assert forall c :: c in r ==> c in e || c in rest;
    }
  }

  lemma EscapeLuaSafe(s: string)
    ensures var r := EscapeLua(s);
      && (forall c :: c in r ==> c != '\n' && c != '\r' && c != '\t')
      && (forall i :: 0 <= i < |r| && r[i] == '"' ==> i > 0 && r[i - 1] == '\\')
  {
    EscapeLuaEach(s);
    EscapeEachSafe(s);
  }

  // ---------------------------------------------------------------------------
  // Dictionaries
  // ---------------------------------------------------------------------------

  /** The JSON values the dictionaries hold. */
  datatype Json = JStr(s: string) | JNum(text: string) | JInt(i: int) | JBool(b: bool)
                | JArr(items: seq<Json>) | JObj(fields: seq<(string, Json)>)

  /** `TTSAudioObject.to_dict` (`asdict`): the fields in declaration order. */
  function AudioDict(a: AudioObject): Json {
    JObj([("name", JStr(a.name)), ("url", JStr(a.url)), ("volume", JNum(a.volume)), ("pitch", JNum(a.pitch)),
          ("loop", JBool(a.loop)), ("loopstart", JNum(a.loopstart))])
  }

  /** `TTSMusicPlayer.to_dict` */
  function PlayerDict(p: MusicPlayer): Json {
    JObj([("name", JStr(p.name)), ("playlist", JArr(Seqs.MapSeq(p.playlist, AudioDict))),
          ("currentTrack", JInt(p.currentTrack)), ("shuffle", JBool(p.shuffle)), ("repeat", JBool(p.repeat))])
  }

  /** Reading an audio object back from its dictionary. */
  function AudioOfDict(j: Json): Option<AudioObject> {
    if j.JObj? && |j.fields| == 6 && j.fields[0].1.JStr? && j.fields[1].1.JStr? && j.fields[2].1.JNum?
       && j.fields[3].1.JNum? && j.fields[4].1.JBool? && j.fields[5].1.JNum?
    then Some(AudioObject(j.fields[0].1.s, j.fields[1].1.s, j.fields[2].1.text, j.fields[3].1.text,
                          j.fields[4].1.b, j.fields[5].1.text))
    else None
  }

  /** Reading a list of audio objects back, in order. */
  function AudiosOfDicts(items: seq<Json>): Option<seq<AudioObject>> {
    if items == [] then Some([])
    else
      match (AudioOfDict(items[0]), AudiosOfDicts(items[1..]))
      case (Some(a), Some(rest)) => Some([a] + rest)
      case _ => None
  }

  /** Reading a player back from its dictionary. */
  function PlayerOfDict(j: Json): Option<MusicPlayer> {
    if j.JObj? && |j.fields| == 5 && j.fields[0].1.JStr? && j.fields[1].1.JArr? && j.fields[2].1.JInt?
       && j.fields[3].1.JBool? && j.fields[4].1.JBool?
    then
      match AudiosOfDicts(j.fields[1].1.items)
      case Some(list) => Some(MusicPlayer(j.fields[0].1.s, list, j.fields[2].1.i, j.fields[3].1.b, j.fields[4].1.b))
      case None => None
    else None
  }

  lemma {:induction false} AudiosRoundTrip(list: seq<AudioObject>)
    ensures AudiosOfDicts(Seqs.MapSeq(list, AudioDict)) == Some(list)
  {
    if list != [] {
      var items := Seqs.MapSeq(list, AudioDict);
      assert items[1..] == Seqs.MapSeq(list[1..], AudioDict);
      AudiosRoundTrip(list[1..]);
      assert [list[0]] + list[1..] == list;
    }
  }

  /**
   * The dictionary keeps the whole player: every audio object, in playlist order, with
   * all six of its fields, and the player's own fields.
   */
  lemma PlayerDictRoundTrip(p: MusicPlayer)
    ensures PlayerOfDict(PlayerDict(p)) == Some(p)
  {
    AudiosRoundTrip(p.playlist);
  }

  // ---------------------------------------------------------------------------
  // Lua scripts
  // ---------------------------------------------------------------------------

  const SimpleEntryOpen := "    {\n        title = \""
  const SimpleEntryMid := "\",\n        url = \""
  const SimpleEntryClose := "\",\n    }"

  /** One entry of the simple playlist: the escaped name as title, and the escaped URL. */
  function SimpleEntry(a: AudioObject): string {
    SimpleEntryOpen + EscapeLua(a.name) + SimpleEntryMid + EscapeLua(a.url) + SimpleEntryClose
  }

  /** `generate_simple_playlist_lua`: the entries, then the object base code. */
  function SimplePlaylistLua(entries: seq<string>, baseCode: string): string {
    "playlist = {\n" + Join(entries, ",\n") + "\n}" + baseCode + "\n\n"
  }

  /** The loop of `generate_simple_playlist_lua`. */
  method SimplePlaylistEntries(player: MusicPlayer) returns (entries: seq<string>)
    ensures |entries| == |player.playlist|
    ensures forall k :: 0 <= k < |entries| ==> entries[k] == SimpleEntry(player.playlist[k])
  {
    entries := [];
    var pending := player.playlist;
    while pending != []
      invariant |entries| + |pending| == |player.playlist|
      invariant pending == player.playlist[|entries|..]
      invariant forall k :: 0 <= k < |entries| ==> entries[k] == SimpleEntry(player.playlist[k])
      decreases |pending|
    {
      entries := entries + [SimpleEntry(pending[0])];
      pending := pending[1..];
    }
  }

  /** `str(b).lower()` */
  function LuaBool(b: bool): string {
    if b then "true" else "false"
  }

  /** One entry of the full script's playlist table. */
  function LuaEntry(a: AudioObject): string {
    "{\n        name = \"" + EscapeLua(a.name) + "\",\n        url = \"" + EscapeLua(a.url)
    + "\",\n        volume = " + a.volume + ",\n        pitch = " + a.pitch + ",\n        loop = "
    + LuaBool(a.loop) + ",\n        loopstart = " + a.loopstart + "\n    }"
  }

  /** The line that sets the current track: Lua counts from one. */
  function CurrentTrackLine(objectName: string, currentTrack: int): string {
    objectName + ".currentTrack = " + IntToString(currentTrack + 1) + "  -- Lua is 1-indexed\n"
  }

  /** The script up to the player state: the header and the playlist table. */
  function LuaHead(playerName: string, objectName: string, entries: seq<string>): string {
    "-- " + playerName + " - Generated by TTSMixmaster\n-- Music Player for Tabletop Simulator\n\nlocal "
    + objectName + " = {}\n\n-- Playlist configuration\n" + objectName + ".playlist = {\n    "
    + Join(entries, ",\n    ") + "\n}\n\n-- Player state\n"
  }

  /** The rest of the player state, then the template's functions. */
  function LuaTail(player: MusicPlayer, objectName: string, functions: string): string {
    objectName + ".shuffle = " + LuaBool(player.shuffle) + "\n"
    + objectName + ".repeat = " + LuaBool(player.repeat) + "\n"
    + objectName + ".isPlaying = false\n" + functions
  }

  /**
   * `generate_lua_script`; `functions` is the rest of the template (the play, stop, next,
   * previous and listing functions).
   */
  function LuaScript(player: MusicPlayer, objectName: string, entries: seq<string>, functions: string): string {
    LuaHead(player.name, objectName, entries) + CurrentTrackLine(objectName, player.currentTrack)
    + LuaTail(player, objectName, functions)
  }

  /** The loop of `generate_lua_script`. */
  method LuaEntries(player: MusicPlayer) returns (entries: seq<string>)
    ensures |entries| == |player.playlist|
    ensures forall k :: 0 <= k < |entries| ==> entries[k] == LuaEntry(player.playlist[k])
  {
    entries := [];
    var pending := player.playlist;
    while pending != []
      invariant |entries| + |pending| == |player.playlist|
      invariant pending == player.playlist[|entries|..]
      invariant forall k :: 0 <= k < |entries| ==> entries[k] == LuaEntry(player.playlist[k])
      decreases |pending|
    {
      entries := entries + [LuaEntry(pending[0])];
      pending := pending[1..];
    }
  }

  /**
   * The script sets the current track to the player's, counted from one: the number in
   * that line reads back as `current_track + 1`.
   */
  lemma LuaScriptCurrentTrack(player: MusicPlayer, objectName: string, entries: seq<string>, functions: string)
    requires player.currentTrack >= 0
    ensures var line := CurrentTrackLine(objectName, player.currentTrack);
      var n := IntToString(player.currentTrack + 1);
      && Contains(LuaScript(player, objectName, entries, functions), line)
      && line[..|objectName|] == objectName
      && ParseInt(n) == Some(player.currentTrack + 1)
  {
    var line := CurrentTrackLine(objectName, player.currentTrack);
    ContainsMiddle(LuaHead(player.name, objectName, entries), line, LuaTail(player, objectName, functions));
    assert line[..|objectName|] == objectName;
    ParseIntRoundTrip(player.currentTrack + 1);
  }

  // ---------------------------------------------------------------------------
  // The save file
  // ---------------------------------------------------------------------------

  /** The cover images of the music cartridge tile. */
  const ImageUrl := "https://steamusercontent-a.akamaihd.net/ugc/9672878331288570/AE7A2999E8CD0EFF71210D7961A41E1F87F9DE78/"
  const ImageSecondaryUrl := "https://steamusercontent-a.akamaihd.net/ugc/1778335968028979741/9DA6ABA2450EBDA4E967816C4FA92289A638DB53/"

  /** The object of the save file; its fixed transform, colour and flags are left out. */
  datatype ObjectState = ObjectState(guid: string, name: string, nickname: string, description: string,
                                     tags: seq<string>, imageUrl: string, imageSecondaryUrl: string,
                                     luaScript: string)

  /** The save file; its empty top-level fields are left out. */
  datatype SaveFile = SaveFile(objectStates: seq<ObjectState>)

  /** `s.upper()` (ASCII letters). */
  function Upper(s: string): (r: string)
    ensures |r| == |s|
    ensures forall i :: 0 <= i < |s| ==> r[i] == UpperChar(s[i])
  {
    seq(|s|, i requires 0 <= i < |s| => UpperChar(s[i]))
  }

  predicate IsLowerHex(c: char) { IsDigit(c) || ('a' <= c <= 'f') }
  predicate IsUpperHex(c: char) { IsDigit(c) || ('A' <= c <= 'F') }

  /** The text of a `uuid4`: 32 lower-case hex digits in groups of 8, 4, 4, 4 and 12. */
  predicate UuidText(u: string) {
    |u| == 36 && forall i :: 0 <= i < 36 ==>
      (if i == 8 || i == 13 || i == 18 || i == 23 then u[i] == '-' else IsLowerHex(u[i]))
  }

  /** `str(uuid).replace('-', '').upper()[:6]` */
  function GuidOf(uuid: string): string {
    PyPrefix(Upper(ReplaceChar(uuid, '-', "")), 6)
  }

  /** A generated GUID is six upper-case hex digits: the first six of the uuid. */
  lemma GuidOfUuid(uuid: string)
    requires UuidText(uuid)
    ensures var g := GuidOf(uuid);
      |g| == 6 && (forall c :: c in g ==> IsUpperHex(c)) && g == Upper(uuid[..6])
  {
    var head, rest := uuid[..8], uuid[8..];
    assert uuid == head + rest;
    forall c | c in head
      ensures c != '-'
    {
      var i :| 0 <= i < 8 && head[i] == c;
      assert IsLowerHex(uuid[i]);
    }
    ReplaceCharAppend(head, rest, '-', "");
    ReplaceCharAbsent(head, '-', "");
    var clean := ReplaceChar(uuid, '-', "");
    assert clean[..8] == head;
    assert Upper(clean)[..6] == Upper(uuid[..6]);
    forall c | c in Upper(uuid[..6])
      ensures IsUpperHex(c)
    {
      var i :| 0 <= i < 6 && Upper(uuid[..6])[i] == c;
      assert IsLowerHex(uuid[i]);
    }
  }

  /** The description a player gets when none is given. */
  function DefaultDescription(n: nat): string {
    "Music Player with " + NatToString(n) + " tracks"
  }

  /**
   * `generate_save_file`: the given GUID or one from `uuid`, the nickname or the player's
   * name, the description or the default one, and the simple or the full script.
   */
  function SaveFileOf(player: MusicPlayer, guid: string, uuid: string, nickname: string, description: string,
                      useSimpleFormat: bool, simpleScript: string, fullScript: string): SaveFile
  {
    var objectGuid := if guid != "" then guid else GuidOf(uuid);
    var nick := if nickname != "" then nickname else player.name;
    var desc := if description != "" then description else DefaultDescription(|player.playlist|);
    var script := if useSimpleFormat then simpleScript else fullScript;
    SaveFile([ObjectState(objectGuid, "Custom_Tile", nick, desc, ["Music Cartridge"], ImageUrl,
                          ImageSecondaryUrl, script)])
  }

  /**
   * There is exactly one object. Its nickname, description and GUID fall back to the
   * player's name, the track count and a fresh six-digit GUID; the number in the default
   * description reads back as the track count; its script follows the format flag.
   */
  lemma SaveFileSpec(player: MusicPlayer, guid: string, uuid: string, nickname: string, description: string,
                     useSimpleFormat: bool, simpleScript: string, fullScript: string)
    requires guid == "" ==> UuidText(uuid)
    ensures var f := SaveFileOf(player, guid, uuid, nickname, description, useSimpleFormat, simpleScript, fullScript);
      && |f.objectStates| == 1
      && var o := f.objectStates[0];
      && o.nickname == (if nickname != "" then nickname else player.name)
      && o.description == (if description != "" then description else DefaultDescription(|player.playlist|))
      && (guid != "" ==> o.guid == guid)
      && (guid == "" ==> |o.guid| == 6 && forall c :: c in o.guid ==> IsUpperHex(c))
      && o.luaScript == (if useSimpleFormat then simpleScript else fullScript)
      && o.imageUrl == ImageUrl && o.imageSecondaryUrl == ImageSecondaryUrl
  {
    if guid == "" {
      GuidOfUuid(uuid);
    }
  }

  /**
   * `generate_save_file` with the script it generates for the player: the simple playlist
   * over the object's base code, or the full script over the template's functions. The full
   * script of a player with a current track sets that track.
   */
  method GenerateSaveFile(player: MusicPlayer, guid: string, uuid: string, nickname: string, description: string,
                          useSimpleFormat: bool, baseCode: string, objectName: string, functions: string)
    returns (f: SaveFile)
    ensures f == SaveFileOf(player, guid, uuid, nickname, description, useSimpleFormat,
                            SimplePlaylistLua(Seqs.MapSeq(player.playlist, SimpleEntry), baseCode),
                            LuaScript(player, objectName, Seqs.MapSeq(player.playlist, LuaEntry), functions))
    ensures |f.objectStates| == 1
    ensures !useSimpleFormat && player.currentTrack >= 0 ==>
      Contains(f.objectStates[0].luaScript, CurrentTrackLine(objectName, player.currentTrack))
  {
    var script: string;
    if useSimpleFormat {
      var entries := SimplePlaylistEntries(player);
      assert entries == Seqs.MapSeq(player.playlist, SimpleEntry);
      script := SimplePlaylistLua(entries, baseCode);
    } else {
      var entries := LuaEntries(player);
      assert entries == Seqs.MapSeq(player.playlist, LuaEntry);
      script := LuaScript(player, objectName, entries, functions);
      if player.currentTrack >= 0 {
        LuaScriptCurrentTrack(player, objectName, entries, functions);
      }
    }
    f := SaveFileOf(player, guid, uuid, nickname, description, useSimpleFormat, script, script);
    assert f.objectStates[0].luaScript == script;
  }

  /** The count in the default description reads back as the number of tracks. */
  lemma DefaultDescriptionCount(n: nat)
    ensures var d := DefaultDescription(n);
      var prefix := "Music Player with ";
      && d[..|prefix|] == prefix
      && ParseDigits(d[|prefix|..|d| - |" tracks"|]) == n
  {
    var prefix := "Music Player with ";
    var digits := NatToString(n);
    var d := DefaultDescription(n);
    assert d == prefix + digits + " tracks";
    assert d[|prefix|..|d| - |" tracks"|] == digits;
    NatToStringRoundTrip(n);
  }

  // ---------------------------------------------------------------------------
  // The files written
  // ---------------------------------------------------------------------------

  /** The characters the default base filename keeps. */
  predicate KeptInName(c: char) {
    IsAlnum(c) || c == ' ' || c == '-' || c == '_'
  }

  function KeepNameChars(s: string): string {
    if s == [] then []
    else if KeptInName(s[0]) then [s[0]] + KeepNameChars(s[1..])
    else KeepNameChars(s[1..])
  }

  /** The default base filename: the kept characters, with spaces turned into `_`. */
  function SafeBaseName(name: string): string {
    ReplaceChar(KeepNameChars(name), ' ', "_")
  }

  lemma {:induction false} KeepNameCharsSpec(s: string)
    ensures forall c :: c in KeepNameChars(s) ==> c in s && KeptInName(c)
    ensures (forall c :: c in s ==> KeptInName(c)) ==> KeepNameChars(s) == s
  {
    if s != [] {
      KeepNameCharsSpec(s[1..]);
      assert forall c :: c in s[1..] ==> c in s;
      assert s[0] in s;
      assert [s[0]] + s[1..] == s;
    }
  }

  /**
   * The default base filename holds only letters, digits, `-` and `_`, all from the name
   * but the `_` of spaces, and making it again changes nothing.
   */
  lemma SafeBaseNameSpec(name: string)
    ensures var b := SafeBaseName(name);
      && (forall c :: c in b ==> (IsAlnum(c) || c == '-' || c == '_') && (c in name || c == '_'))
      && SafeBaseName(b) == b
  {
    var kept := KeepNameChars(name);
    var b := SafeBaseName(name);
    KeepNameCharsSpec(name);
    assert forall c :: c in "_" ==> c == '_';
    KeepNameCharsSpec(b);
    ReplaceCharAbsent(b, ' ', "_");
  }

  /** The base filename: the given one, else the one made from the player's name. */
  function BaseFilename(playerName: string, given: string): string {
    if given != "" then given else SafeBaseName(playerName)
  }

  function JoinPath(dir: string, name: string): string {
    dir + "/" + name
  }

  const SavedKeys: set<string> := {"lua", "simple_lua", "json", "save_file", "summary"}

  /** The paths `save_formatted_files` writes and returns, by key. */
  function SavedPaths(outputPath: string, base: string): map<string, string> {
    map["lua" := JoinPath(outputPath, base + ".lua"),
        "simple_lua" := JoinPath(outputPath, base + "_simple.lua"),
        "json" := JoinPath(outputPath, base + "_data.json"),
        "save_file" := JoinPath(outputPath, base + ".json"),
        "summary" := JoinPath(outputPath, base + "_summary.txt")]
  }

  /**
   * The result has exactly the five keys, and no two of the five files share a path, so
   * no output overwrites another.
   */
  lemma SavedPathsDistinct(outputPath: string, base: string)
    ensures SavedPaths(outputPath, base).Keys == SavedKeys
    ensures forall k1, k2 :: k1 in SavedKeys && k2 in SavedKeys && k1 != k2 ==>
      SavedPaths(outputPath, base)[k1] != SavedPaths(outputPath, base)[k2]
  {
    var m := SavedPaths(outputPath, base);
    var n := |outputPath| + 1 + |base|;
    assert |m["lua"]| == n + 4;
    assert |m["simple_lua"]| == n + 11;
    assert |m["json"]| == n + 10;
    assert |m["save_file"]| == n + 5;
    assert |m["summary"]| == n + 12;
  }

  /**
   * `save_formatted_files`: the path of each file as it is written (the writes themselves
   * are left out).
   */
  method SaveFormattedFiles(outputPath: string, player: MusicPlayer, baseFilename: string)
    returns (saved: map<string, string>)
    ensures saved == SavedPaths(outputPath, BaseFilename(player.name, baseFilename))
  {
    var base := if baseFilename != "" then baseFilename else SafeBaseName(player.name);
    saved := map[];
    saved := saved["lua" := JoinPath(outputPath, base + ".lua")];
    saved := saved["simple_lua" := JoinPath(outputPath, base + "_simple.lua")];
    saved := saved["json" := JoinPath(outputPath, base + "_data.json")];
    saved := saved["save_file" := JoinPath(outputPath, base + ".json")];
    saved := saved["summary" := JoinPath(outputPath, base + "_summary.txt")];
  }
}
