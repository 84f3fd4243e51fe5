/**
 * The audio downloader: the target file name, the skip when the file is already on disk,
 * the search engines tried in order, the batch runs and the download statistics.
 *
 * The disk is a map from path to file size; yt-dlp is an oracle from search URL to what
 * downloading the first hit gives (the extension of the saved file, its size and its
 * duration), with a log of the URLs it was asked for.
 */
module AudioDownloader {
  import opened Wrappers
  import opened Strings
  import opened Seqs
  import opened MusicModel
  import Config

  /** `DownloadResult`. The duration is in whole seconds. */
  datatype DownloadResult = DownloadResult(
    success: bool,
    track: Track,
    filePath: Option<string>,
    errorMessage: Option<string>,
    duration: int,
    fileSize: nat)

  function Failure(track: Track, message: string): (r: DownloadResult)
    ensures !r.success && r.track == track && r.errorMessage == Some(message) && r.filePath == None
  {
    DownloadResult(false, track, None, Some(message), 0, 0)
  }

  const NotAvailableMessage := "yt-dlp is not available. Please install it to enable downloads."
  const NotFoundMessage := "Could not find track on any supported platform"
  const DefaultEngines: seq<string> := ["youtube", "soundcloud"]

  /** `AudioDownloader.sanitize_filename`: the shared sanitiser with a limit of 200 characters. */
  function SanitizeFilename(name: string): string {
    Config.SanitizeFilename(name, 200)
  }

  /** A sanitised name has no forbidden character, no run of whitespace, no leading whitespace, and at most 200 characters. */
  lemma SanitizedNameIsSafe(name: string)
    ensures forall c :: c in SanitizeFilename(name) ==> c !in Config.InvalidChars
    ensures NoDoubleSpace(SanitizeFilename(name))
    ensures SanitizeFilename(name) == [] || !IsSpace(SanitizeFilename(name)[0])
    ensures |SanitizeFilename(name)| <= 200
  {
    Config.SanitizedIsSafe(name, 200);
  }

  /** `str(directory / name)` */
  function JoinPath(dir: string, name: string): string {
    dir + "/" + name
  }

  /** Different names in one folder are different paths. */
  lemma JoinPathInjective(dir: string, a: string, b: string)
    ensures JoinPath(dir, a) == JoinPath(dir, b) ==> a == b
  {
    assert JoinPath(dir, a)[|dir| + 1..] == a;
    assert JoinPath(dir, b)[|dir| + 1..] == b;
  }

  /** `f"{track.artist} - {track.title}"`, the stem of every name a track is saved under. */
  function FileStem(track: Track): string {
    track.artist + " - " + track.title
  }

  /** The search text: artist and title, then the album when there is one. */
  function Query(track: Track): (q: string)
    ensures StartsWith(q, track.artist + " " + track.title)
    ensures track.album == "" ==> q == track.artist + " " + track.title
    ensures track.album != "" ==> EndsWith(q, " " + track.album)
  {
    var q := track.artist + " " + track.title;
    if track.album != "" then
      assert (q + " " + track.album)[..|q|] == q;
      q + " " + track.album
    else q
  }

  /** `_get_search_url`: SoundCloud's one-hit search for `soundcloud`, YouTube's for anything else. */
  function SearchUrl(query: string, engine: string): (url: string)
    ensures EndsWith(url, query)
  {
    if engine == "youtube" then "ytsearch1:" + query
    else if engine == "soundcloud" then "scsearch1:" + query
    else "ytsearch1:" + query
  }

  /** Only `soundcloud` leads to a SoundCloud search; every other engine name searches YouTube. */
  lemma SearchUrlEngine(query: string, engine: string)
    ensures StartsWith(SearchUrl(query, engine), "scsearch1:") <==> engine == "soundcloud"
    ensures engine != "soundcloud" ==> StartsWith(SearchUrl(query, engine), "ytsearch1:")
  {
    var url := SearchUrl(query, engine);
    if engine != "soundcloud" {
      assert url[..10] == "ytsearch1:";
      assert url[0] != "scsearch1:"[0];
    }
  }

  /** The search URLs for the engines, in their order. */
  function Urls(query: string, engines: seq<string>): (urls: seq<string>)
    ensures |urls| == |engines|
    ensures forall i :: 0 <= i < |engines| ==> urls[i] == SearchUrl(query, engines[i])
  {
    seq(|engines|, i requires 0 <= i < |engines| => SearchUrl(query, engines[i]))
  }

  /** What yt-dlp gives for a search URL. */
  datatype Reply =
    | Saved(ext: string, size: nat, duration: int)  // the first hit was downloaded
    | Failed(message: string)                       // an error inside the download step
    | Raised(message: string)                       // an exception escaping the download step

  /**
   * The module flag and the instance settings that steer a download, with the instance's
   * file-name sanitiser (`SanitizeFilename` for every downloader this model builds).
   */
  datatype Settings = Settings(downloadPath: string, ffmpegAvailable: bool, ytDlpAvailable: bool,
                               sanitize: string -> string)

  /**
   * The name a download is saved under: the `.mp3` name when FFmpeg converts the audio,
   * otherwise the downloaded file's own extension.
   */
  function SavedName(s: Settings, stem: string, ext: string): (r: string)
    ensures s.ffmpegAvailable || ext == ".mp3" ==> r == s.sanitize(stem + ".mp3")
    ensures !s.ffmpegAvailable ==> r == s.sanitize(stem + ext)
  {
    if s.ffmpegAvailable then s.sanitize(stem + ".mp3")
    else s.sanitize(stem + ext)
  }

  /** A result with the new disk and the search URLs yt-dlp was asked for, in order. */
  datatype Outcome = Outcome(result: DownloadResult, files: map<string, nat>, queries: seq<string>)

  /** `_download_from_engine` for the search URL `url`: on success the file is moved into `dir`. */
  function Attempt(s: Settings, track: Track, stem: string, url: string, dir: string,
                   files: map<string, nat>, answer: string -> Reply): (o: Outcome)
    ensures o.result.track == track
    ensures o.queries == [url]
    ensures o.result.success <==> answer(url).Saved?
    ensures !o.result.success ==> o.files == files
  {
    match answer(url)
    case Saved(ext, size, duration) =>
      var path := JoinPath(dir, SavedName(s, stem, ext));
      Outcome(DownloadResult(true, track, Some(path), None, duration, size), files[path := size], [url])
    case Failed(message) => Outcome(Failure(track, "Download failed: " + message), files, [url])
    case Raised(message) => Outcome(Failure(track, message), files, [url])
  }

  /**
   * The engine loop over the engines' search URLs: tried in order, the first success is
   * returned; a failure or an exception moves on to the next one.
   */
  function TryEngines(s: Settings, track: Track, stem: string, urls: seq<string>, dir: string,
                      files: map<string, nat>, answer: string -> Reply): (o: Outcome)
    ensures o.result.track == track
    decreases |urls|
  {
    if urls == [] then Outcome(Failure(track, NotFoundMessage), files, [])
    else
      var first := Attempt(s, track, stem, urls[0], dir, files, answer);
      if first.result.success then first
      else
        var rest := TryEngines(s, track, stem, urls[1..], dir, files, answer);
        Outcome(rest.result, rest.files, first.queries + rest.queries)
  }

  /** A run that follows the failed searches `done`. */
  function Joined(done: seq<string>, rest: Outcome): Outcome {
    Outcome(rest.result, rest.files, done + rest.queries)
  }

  /**
   * The engine loop searches a prefix of the URLs in order, and all of them when no
   * search succeeds.
   */
  lemma {:induction false} TryEnginesSearchesPrefix(s: Settings, track: Track, stem: string, urls: seq<string>, dir: string,
                                                    files: map<string, nat>, answer: string -> Reply)
    ensures var o := TryEngines(s, track, stem, urls, dir, files, answer);
      && |o.queries| <= |urls| && o.queries == urls[..|o.queries|]
      && (!o.result.success ==> o.queries == urls)
      && (o.result.success ==> o.queries != [])
    decreases |urls|
  {
    if urls != [] && !Attempt(s, track, stem, urls[0], dir, files, answer).result.success {
      TryEnginesSearchesPrefix(s, track, stem, urls[1..], dir, files, answer);
      var rest := TryEngines(s, track, stem, urls[1..], dir, files, answer);
      assert urls == [urls[0]] + urls[1..];
      assert urls[..|rest.queries| + 1] == [urls[0]] + urls[1..][..|rest.queries|];
    }
  }

  /** Every search before the last one found nothing to save. */
  lemma {:induction false} TryEnginesEarlierFailed(s: Settings, track: Track, stem: string, urls: seq<string>, dir: string,
                                                   files: map<string, nat>, answer: string -> Reply)
    ensures forall i :: 0 <= i < |TryEngines(s, track, stem, urls, dir, files, answer).queries| - 1
                        ==> !answer(TryEngines(s, track, stem, urls, dir, files, answer).queries[i]).Saved?
    decreases |urls|
  {
    if urls != [] && !Attempt(s, track, stem, urls[0], dir, files, answer).result.success {
      TryEnginesEarlierFailed(s, track, stem, urls[1..], dir, files, answer);
      var rest := TryEngines(s, track, stem, urls[1..], dir, files, answer);
      var q := [urls[0]] + rest.queries;
      assert TryEngines(s, track, stem, urls, dir, files, answer).queries == q;
      forall i | 0 <= i < |q| - 1
        ensures !answer(q[i]).Saved?
      {
        if i > 0 {
          assert q[i] == rest.queries[i - 1];
          assert 0 <= i - 1 < |rest.queries| - 1;
          assert !answer(rest.queries[i - 1]).Saved?;
        } else {
          assert q[0] == urls[0];
          assert !answer(urls[0]).Saved?;
        }
      }
    } else if urls != [] {
      assert TryEngines(s, track, stem, urls, dir, files, answer).queries == [urls[0]];
    }
  }

  /**
   * A success comes from the last search, which saved a file; the file is then on disk
   * under the saved name in `dir`, and nothing else changed on disk.
   */
  lemma {:induction false} TryEnginesSuccess(s: Settings, track: Track, stem: string, urls: seq<string>, dir: string,
                                             files: map<string, nat>, answer: string -> Reply)
    requires TryEngines(s, track, stem, urls, dir, files, answer).result.success
    ensures var o := TryEngines(s, track, stem, urls, dir, files, answer);
      && o.queries != []
      && answer(o.queries[|o.queries| - 1]).Saved?
      && o.result.filePath == Some(JoinPath(dir, SavedName(s, stem, answer(o.queries[|o.queries| - 1]).ext)))
      && o.files == files[o.result.filePath.value := o.result.fileSize]
    decreases |urls|
  {
    var first := Attempt(s, track, stem, urls[0], dir, files, answer);
    if first.result.success {
      assert TryEngines(s, track, stem, urls, dir, files, answer) == first;
      var reply := answer(urls[0]);
      var path := JoinPath(dir, SavedName(s, stem, reply.ext));
      assert first == Outcome(DownloadResult(true, track, Some(path), None, reply.duration, reply.size),
                              files[path := reply.size], [urls[0]]);
    } else {
      TryEnginesSuccess(s, track, stem, urls[1..], dir, files, answer);
      var rest := TryEngines(s, track, stem, urls[1..], dir, files, answer);
      var q := [urls[0]] + rest.queries;
      assert TryEngines(s, track, stem, urls, dir, files, answer) == Outcome(rest.result, rest.files, q);
      assert q[|q| - 1] == rest.queries[|rest.queries| - 1];
    }
  }

  /** When no search succeeds, the disk is unchanged and the result is the not-found failure. */
  lemma {:induction false} TryEnginesFailure(s: Settings, track: Track, stem: string, urls: seq<string>, dir: string,
                                             files: map<string, nat>, answer: string -> Reply)
    requires !TryEngines(s, track, stem, urls, dir, files, answer).result.success
    ensures var o := TryEngines(s, track, stem, urls, dir, files, answer);
      o.files == files && o.result.errorMessage == Some(NotFoundMessage)
    decreases |urls|
  {
    if urls != [] {
      TryEnginesFailure(s, track, stem, urls[1..], dir, files, answer);
    }
  }

  /** The first name, over the extensions `exts` in order, that is already on disk. */
  function ExistingFile(s: Settings, stem: string, dir: string, exts: seq<string>,
                        files: map<string, nat>): (r: Option<string>)
    ensures r.Some? ==> r.value in files
    ensures r.None? <==> forall i :: 0 <= i < |exts| ==> JoinPath(dir, SavedName(s, stem, exts[i])) !in files
  {
    if exts == [] then None
    else
      var path := JoinPath(dir, SavedName(s, stem, exts[0]));
      if path in files then Some(path)
      else
        var r := ExistingFile(s, stem, dir, exts[1..], files);
        assert forall i :: 1 <= i < |exts| ==> exts[i] == exts[1..][i - 1];
        r
  }

  /**
   * `search_and_download_track`, with the existence check looking for each of the
   * extensions `checked`: a missing yt-dlp fails before anything else, a file already on
   * disk is returned without asking any engine, otherwise the engines are tried.
   */
  function SearchAndDownloadChecking(s: Settings, track: Track, engines: Option<seq<string>>,
                                     folder: Option<string>, files: map<string, nat>,
                                     answer: string -> Reply, checked: seq<string>): (o: Outcome)
    ensures o.result.track == track
  {
    if !s.ytDlpAvailable then Outcome(Failure(track, NotAvailableMessage), files, [])
    else
      var dir := OrElse(folder, s.downloadPath);
      var stem := FileStem(track);
      match ExistingFile(s, stem, dir, checked, files)
      case Some(path) => Outcome(DownloadResult(true, track, Some(path), None, 0, files[path]), files, [])
      case None => TryEngines(s, track, stem, Urls(Query(track), OrElse(engines, DefaultEngines)), dir, files, answer)
  }

  /** Without yt-dlp the result is a failure, before the disk or any engine is looked at. */
  lemma NoYtDlpFailsFirst(s: Settings, track: Track, engines: Option<seq<string>>, folder: Option<string>,
                          files: map<string, nat>, answer: string -> Reply, checked: seq<string>)
    requires !s.ytDlpAvailable
    ensures SearchAndDownloadChecking(s, track, engines, folder, files, answer, checked)
         == Outcome(Failure(track, NotAvailableMessage), files, [])
  {
  }

  /** A file already on disk is returned as a success with its size, and no engine is asked. */
  lemma ExistingFileSkipsEngines(s: Settings, track: Track, engines: Option<seq<string>>, folder: Option<string>,
                                 files: map<string, nat>, answer: string -> Reply, checked: seq<string>)
    requires s.ytDlpAvailable
    requires ExistingFile(s, FileStem(track), OrElse(folder, s.downloadPath), checked, files).Some?
    ensures var o := SearchAndDownloadChecking(s, track, engines, folder, files, answer, checked);
      && o.result.success
      && o.result.filePath == ExistingFile(s, FileStem(track), OrElse(folder, s.downloadPath), checked, files)
      && o.result.fileSize == files[o.result.filePath.value]
      && o.files == files && o.queries == []
  {
  }

  /** The existence check as written: the `.mp3` name only. */
  function SearchAndDownloadAsWritten(s: Settings, track: Track, engines: Option<seq<string>>,
                                      folder: Option<string>, files: map<string, nat>,
                                      answer: string -> Reply): (o: Outcome)
    ensures o.result.track == track
  {
    SearchAndDownloadChecking(s, track, engines, folder, files, answer, [".mp3"])
  }

  /** The extensions yt-dlp's fallback formats save when FFmpeg does not convert them. */
  const CheckedExtensions: seq<string> := [".mp3", ".m4a", ".mp4", ".webm", ".opus", ".ogg"]

  /** `search_and_download_track` with the existence check covering unconverted downloads too. */
  function SearchAndDownload(s: Settings, track: Track, engines: Option<seq<string>>,
                             folder: Option<string>, files: map<string, nat>,
                             answer: string -> Reply): (o: Outcome)
    ensures o.result.track == track
  {
    SearchAndDownloadChecking(s, track, engines, folder, files, answer, CheckedExtensions)
  }

  /** `"a - b"` with an `.mp3` or `.webm` suffix is a clean name, so the sanitiser keeps it. */
  lemma ExampleCleanName(name: string, ext: string)
    requires ext in {".mp3", ".webm"}
    requires name == "a - b" + ext
    ensures SanitizeFilename(name) == name
  {
    var letters := {'a', '-', 'b', '.', 'm', 'p', '3', 'w', 'e'};
    assert forall c :: c in letters ==> !IsSpace(c) && c !in Config.InvalidChars;
    assert forall i :: 0 <= i < |ext| ==> ext[i] in letters;
    forall i | 0 <= i < |name|
      ensures name[i] == ' ' || name[i] in letters
      ensures name[i] == ' ' <==> i == 1 || i == 3
    {
      if i >= 5 {
        assert name[i] == ext[i - 5];
      }
    }
    assert IsStripped(name);
    Config.SanitizeClean(name, 200);
  }

  /**
   * Without FFmpeg the downloaded file keeps its own extension, and the `.mp3`-only check
   * then misses it: whenever the sanitised `.mp3` name differs from the saved one, asking
   * for the same track again searches and downloads it again.
   */
  lemma AsWrittenDownloadsAgain(s: Settings, track: Track, answer: string -> Reply, ext: string)
    requires !s.ffmpegAvailable && s.ytDlpAvailable
    requires forall url :: answer(url).Saved? && answer(url).ext == ext
    requires s.sanitize(FileStem(track) + ".mp3") != s.sanitize(FileStem(track) + ext)
    ensures
      var first := SearchAndDownloadAsWritten(s, track, None, None, map[], answer);
      var second := SearchAndDownloadAsWritten(s, track, None, None, first.files, answer);
      first.result.success && second.queries != []
  {
    var dir, stem := s.downloadPath, FileStem(track);
    var urls := Urls(Query(track), DefaultEngines);
    var first := SearchAndDownloadAsWritten(s, track, None, None, map[], answer);
    assert first == Attempt(s, track, stem, urls[0], dir, map[], answer);
    var saved := JoinPath(dir, s.sanitize(stem + ext));
    assert first.files.Keys == {saved};
    JoinPathInjective(dir, SavedName(s, stem, ".mp3"), s.sanitize(stem + ext));
    var second := SearchAndDownloadAsWritten(s, track, None, None, first.files, answer);
    assert second == Attempt(s, track, stem, urls[0], dir, first.files, answer);
  }

  /** The smallest case: artist `a`, title `b`, and yt-dlp saving `.webm` files. */
  lemma DownloadsAgainExample(s: Settings, track: Track, answer: string -> Reply)
    requires !s.ffmpegAvailable && s.ytDlpAvailable && s.sanitize == SanitizeFilename
    requires track.artist == "a" && track.title == "b"
    requires forall url :: answer(url) == Saved(".webm", 5, 0)
    ensures
      var first := SearchAndDownloadAsWritten(s, track, None, None, map[], answer);
      var second := SearchAndDownloadAsWritten(s, track, None, None, first.files, answer);
      first.result.success && second.queries != []
  {
    var mp3, webm := FileStem(track) + ".mp3", FileStem(track) + ".webm";
    assert mp3 == "a - b.mp3" && webm == "a - b.webm";
    ExampleCleanName(mp3, ".mp3");
    ExampleCleanName(webm, ".webm");
    assert s.sanitize(mp3) != s.sanitize(webm) by {
      assert |mp3| != |webm|;
    }
    assert forall url :: answer(url).Saved? && answer(url).ext == ".webm";
    AsWrittenDownloadsAgain(s, track, answer, ".webm");
  }

  /**
   * With the wider check, once a track has been fetched (and yt-dlp only saves the
   * extensions checked), asking for it again succeeds from disk without any search.
   */
  lemma SecondCallSkips(s: Settings, track: Track, engines: Option<seq<string>>, folder: Option<string>,
                        files: map<string, nat>, answer: string -> Reply)
    requires forall url :: answer(url).Saved? ==> answer(url).ext in CheckedExtensions
    requires SearchAndDownload(s, track, engines, folder, files, answer).result.success
    ensures
      var first := SearchAndDownload(s, track, engines, folder, files, answer);
      var second := SearchAndDownload(s, track, engines, folder, first.files, answer);
      second.result.success && second.queries == [] && second.files == first.files
  {
    var dir := OrElse(folder, s.downloadPath);
    var stem := FileStem(track);
    var first := SearchAndDownload(s, track, engines, folder, files, answer);
    if ExistingFile(s, stem, dir, CheckedExtensions, files).Some? {
      ExistingFileSkipsEngines(s, track, engines, folder, files, answer, CheckedExtensions);
    } else {
      var urls := Urls(Query(track), OrElse(engines, DefaultEngines));
      TryEnginesSuccess(s, track, stem, urls, dir, files, answer);
      var last := first.queries[|first.queries| - 1];
      var ext := answer(last).ext;
      var i :| 0 <= i < |CheckedExtensions| && CheckedExtensions[i] == ext;
      assert JoinPath(dir, SavedName(s, stem, CheckedExtensions[i])) in first.files;
    }
    ExistingFileSkipsEngines(s, track, engines, folder, first.files, answer, CheckedExtensions);
  }

  /** The batch runs: one search per track, in order, each seeing the files the earlier ones saved. */
  datatype BatchOutcome = BatchOutcome(results: seq<DownloadResult>, files: map<string, nat>, queries: seq<string>)

  function Batch(s: Settings, tracks: seq<Track>, engines: Option<seq<string>>, folder: Option<string>,
                 files: map<string, nat>, answer: string -> Reply): (b: BatchOutcome)
    decreases |tracks|
  {
    if tracks == [] then BatchOutcome([], files, [])
    else
      var o := SearchAndDownload(s, tracks[0], engines, folder, files, answer);
      var rest := Batch(s, tracks[1..], engines, folder, o.files, answer);
      BatchOutcome([o.result] + rest.results, rest.files, o.queries + rest.queries)
  }

  /** One result per input track, in input order. */
  lemma {:induction false} BatchOnePerTrack(s: Settings, tracks: seq<Track>, engines: Option<seq<string>>,
                                            folder: Option<string>, files: map<string, nat>,
                                            answer: string -> Reply)
    ensures |Batch(s, tracks, engines, folder, files, answer).results| == |tracks|
    ensures forall i :: 0 <= i < |tracks| ==> Batch(s, tracks, engines, folder, files, answer).results[i].track == tracks[i]
    decreases |tracks|
  {
    if tracks != [] {
      var o := SearchAndDownload(s, tracks[0], engines, folder, files, answer);
      BatchOnePerTrack(s, tracks[1..], engines, folder, o.files, answer);
    }
  }

  /** The downloader's disk: file path to size. */
  class Disk {
    var files: map<string, nat>

    constructor(files: map<string, nat>)
      ensures this.files == files
    {
      this.files := files;
    }
  }

  /** yt-dlp: answers each search URL and logs it. */
  class Ytdlp {
    const answer: string -> Reply
    var queries: seq<string>

    constructor(answer: string -> Reply)
      ensures this.answer == answer && queries == []
    {
      this.answer := answer;
      queries := [];
    }

    /** Searching and downloading the first hit for one URL. */
    method Fetch(url: string) returns (r: Reply)
      modifies this
      ensures r == answer(url) && queries == old(queries) + [url]
    {
      r := answer(url);
      queries := queries + [url];
    }
  }

  /** `AudioDownloader` */
  class Downloader {
    const settings: Settings
    const disk: Disk
    const ytdlp: Ytdlp

    constructor(downloadPath: string, ffmpegAvailable: bool, ytDlpAvailable: bool, disk: Disk, ytdlp: Ytdlp)
      ensures settings == Settings(downloadPath, ffmpegAvailable, ytDlpAvailable, SanitizeFilename)
      ensures this.disk == disk && this.ytdlp == ytdlp
    {
      settings := Settings(downloadPath, ffmpegAvailable, ytDlpAvailable, SanitizeFilename);
      this.disk := disk;
      this.ytdlp := ytdlp;
    }

    /** `_download_from_engine`: search the engine for the query and download the first hit. */
    method DownloadFromEngine(track: Track, stem: string, query: string, engine: string, dir: string)
      returns (r: DownloadResult)
      modifies disk, ytdlp
      ensures var o := Attempt(settings, track, stem, SearchUrl(query, engine), dir, old(disk.files), ytdlp.answer);
        r == o.result && disk.files == o.files && ytdlp.queries == old(ytdlp.queries) + o.queries
    {
      r := DownloadUrl(track, stem, SearchUrl(query, engine), dir);
    }

    /** The download step of `_download_from_engine` for a search URL already built. */
    method DownloadUrl(track: Track, stem: string, url: string, dir: string) returns (r: DownloadResult)
      modifies disk, ytdlp
      ensures var o := Attempt(settings, track, stem, url, dir, old(disk.files), ytdlp.answer);
        r == o.result && disk.files == o.files && ytdlp.queries == old(ytdlp.queries) + o.queries
    {
      var reply := ytdlp.Fetch(url);
      match reply {
        case Saved(ext, size, duration) =>
          var path := JoinPath(dir, SavedName(settings, stem, ext));
          disk.files := disk.files[path := size];
          r := DownloadResult(true, track, Some(path), None, duration, size);
        case Failed(message) =>
          r := Failure(track, "Download failed: " + message);
        case Raised(message) =>
          r := Failure(track, message);
      }
    }

    /** `search_and_download_track` */
    method SearchAndDownloadTrack(track: Track, engines: Option<seq<string>>, folder: Option<string>)
      returns (r: DownloadResult)
      modifies disk, ytdlp
      ensures var o := SearchAndDownload(settings, track, engines, folder, old(disk.files), ytdlp.answer);
        r == o.result && disk.files == o.files && ytdlp.queries == old(ytdlp.queries) + o.queries
    {
      if !settings.ytDlpAvailable {
        return Failure(track, NotAvailableMessage);
      }
      var dir := OrElse(folder, settings.downloadPath);
      var stem := FileStem(track);
      var existing := ExistingFile(settings, stem, dir, CheckedExtensions, disk.files);
      if existing.Some? {
        return DownloadResult(true, track, existing, None, 0, disk.files[existing.value]);
      }
      r := TryEachEngine(track, stem, Urls(Query(track), OrElse(engines, DefaultEngines)), dir);
    }

    /**
     * The engine loop of `search_and_download_track`, over the engines' search URLs: the
     * first download that succeeds wins.
     */
    method TryEachEngine(track: Track, stem: string, urls: seq<string>, dir: string) returns (r: DownloadResult)
      modifies disk, ytdlp
      ensures var o := TryEngines(settings, track, stem, urls, dir, old(disk.files), ytdlp.answer);
        r == o.result && disk.files == o.files && ytdlp.queries == old(ytdlp.queries) + o.queries
    {
      ghost var files0 := disk.files;
      ghost var whole := TryEngines(settings, track, stem, urls, dir, files0, ytdlp.answer);
      ghost var done: seq<string> := [];
      var pending := urls;
      while pending != []
        invariant disk.files == files0
        invariant ytdlp.queries == old(ytdlp.queries) + done
        invariant whole == Joined(done, TryEngines(settings, track, stem, pending, dir, files0, ytdlp.answer))
      {
        r := DownloadUrl(track, stem, pending[0], dir);
        if r.success {
          return;
        }
        done := done + [pending[0]];
        pending := pending[1..];
      }
      r := Failure(track, NotFoundMessage);
    }

    /** `download_tracks_batch`: the default engines and folder for every track. */
    method DownloadTracksBatch(tracks: seq<Track>) returns (results: seq<DownloadResult>)
      modifies disk, ytdlp
      ensures var b := Batch(settings, tracks, None, None, old(disk.files), ytdlp.answer);
        results == b.results && disk.files == b.files && ytdlp.queries == old(ytdlp.queries) + b.queries
    {
      results := DownloadAll(tracks, None, None);
    }

    /**
     * `download_playlist`: every track of the playlist into its folder. The manifest it
     * writes afterwards is not part of this model.
     */
    method DownloadPlaylist(playlist: PlaylistInfo, folder: string, engines: Option<seq<string>>)
      returns (results: seq<DownloadResult>)
      modifies disk, ytdlp
      ensures var b := Batch(settings, playlist.tracks, engines, Some(folder), old(disk.files), ytdlp.answer);
        results == b.results && disk.files == b.files && ytdlp.queries == old(ytdlp.queries) + b.queries
    {
      results := DownloadAll(playlist.tracks, engines, Some(folder));
    }

    /** The loop both batch operations run: append one result per track. */
    method DownloadAll(tracks: seq<Track>, engines: Option<seq<string>>, folder: Option<string>)
      returns (results: seq<DownloadResult>)
      modifies disk, ytdlp
      ensures var b := Batch(settings, tracks, engines, folder, old(disk.files), ytdlp.answer);
        results == b.results && disk.files == b.files && ytdlp.queries == old(ytdlp.queries) + b.queries
    {
      ghost var whole := Batch(settings, tracks, engines, folder, disk.files, ytdlp.answer);
      ghost var queries0 := ytdlp.queries;
      ghost var log: seq<string> := [];
      results := [];
      var pending := tracks;
      while pending != []
        invariant ytdlp.queries == queries0 + log
        invariant var rest := Batch(settings, pending, engines, folder, disk.files, ytdlp.answer);
          whole == BatchOutcome(results + rest.results, rest.files, log + rest.queries)
      {
        ghost var o := SearchAndDownload(settings, pending[0], engines, folder, disk.files, ytdlp.answer);
        ghost var next := Batch(settings, pending[1..], engines, folder, o.files, ytdlp.answer);
        var r := SearchAndDownloadTrack(pending[0], engines, folder);
        AppendAssoc(results, [r], next.results);
        AppendAssoc(log, o.queries, next.queries);
        AppendAssoc(queries0, log, o.queries);
        results := results + [r];
        log := log + o.queries;
        pending := pending[1..];
      }
    }
  }

  // ---------------------------------------------------------------------------
  // Statistics
  // ---------------------------------------------------------------------------

  /** The whole-number entries of `get_download_statistics`. */
  datatype Stats = Stats(
    totalTracks: nat,
    successfulDownloads: nat,
    failedDownloads: nat,
    totalFileSize: nat,
    totalDuration: int)

  function Succeeded(r: DownloadResult): bool { r.success }

  function SumSizes(rs: seq<DownloadResult>): nat {
    if rs == [] then 0 else SumSizes(rs[..|rs| - 1]) + rs[|rs| - 1].fileSize
  }

  function SumDurations(rs: seq<DownloadResult>): int {
    if rs == [] then 0 else SumDurations(rs[..|rs| - 1]) + rs[|rs| - 1].duration
  }

  /** `get_download_statistics`: counts, and sizes and durations summed over the successes. */
  function DownloadStatistics(results: seq<DownloadResult>): (st: Stats)
    ensures st.totalTracks == |results|
    ensures st.successfulDownloads + st.failedDownloads == st.totalTracks
  {
    var successful := Pick(results, Succeeded, true);
    var failed := Pick(results, Succeeded, false);
    PickSplit(results, Succeeded);
    Stats(|results|, |successful|, |failed|, SumSizes(successful), SumDurations(successful))
  }

  /** Size, duration and count of the successful results, summed result by result. */
  function SuccessTotals(rs: seq<DownloadResult>): (nat, int, nat) {
    if rs == [] then (0, 0, 0)
    else
      var (size, duration, count) := SuccessTotals(rs[..|rs| - 1]);
      var r := rs[|rs| - 1];
      if r.success then (size + r.fileSize, duration + r.duration, count + 1) else (size, duration, count)
  }

  /** The statistics count exactly the successful results: failures add neither size nor duration. */
  lemma {:induction false} StatisticsCountSuccesses(results: seq<DownloadResult>)
    ensures var st := DownloadStatistics(results);
      (st.totalFileSize, st.totalDuration, st.successfulDownloads) == SuccessTotals(results)
    decreases |results|
  {
    if results != [] {
      var init := results[..|results| - 1];
      var r := results[|results| - 1];
      StatisticsCountSuccesses(init);
      var ok := Pick(init, Succeeded, true);
      assert Pick(results, Succeeded, true) == ok + (if r.success then [r] else []);
      if r.success {
        assert (ok + [r])[..|ok|] == ok;
      }
    }
  }
}
