/**
 * Publishing audio files to Azure Blob Storage: the blob name a file gets, the public URL
 * of a blob, the account name read from a connection string, the metadata sent with a
 * blob, and the order of checks in an upload.
 *
 * The Azure SDK is the `BlobStore` oracle: the blobs of the container (name to size) and,
 * for each blob name, the exception an upload of it raises, if any. The local file system
 * is a map from path to size, and the clock is the text `now` of the upload time.
 */
module AzureUploader {
  import opened Wrappers
  import opened Strings
  import opened Config
  import opened LastfmClient
  import Seqs

  // ---------------------------------------------------------------------------
  // Blob names
  // ---------------------------------------------------------------------------

  /** The characters `_sanitize_filename` removes from a blob name part. */
  const BlobInvalidChars: set<char> := {'<', '>', ':', '"', '/', '\\', '|', '?', '*', '[', ']'}

  const BlobPartLength := 50

  /**
   * `_sanitize_filename`: drop the invalid characters, strip, turn every whitespace run
   * into `_`, and keep the first 50 characters.
   */
  function BlobSanitize(s: string): string {
    var t := CollapseSpaces(Strip(DropChars(s, BlobInvalidChars)), "_");
    if |t| > BlobPartLength then t[..BlobPartLength] else t
  }

  /**
   * Dropping, stripping and replacing whitespace runs by `rep` leaves only characters of
   * the input that are neither dropped nor whitespace, and those of `rep`.
   */
  lemma CleanedChars(s: string, bad: set<char>, rep: string)
    ensures forall c :: c in CollapseSpaces(Strip(DropChars(s, bad)), rep) ==>
      (c in s && c !in bad && !IsSpace(c)) || c in rep
  {
    DropCharsSafe(s, bad);
    StripSubset(DropChars(s, bad));
    CollapseSpacesChars(Strip(DropChars(s, bad)), rep);
  }

  /**
   * A sanitised part has no invalid character (so no `/`), no whitespace at all, no
   * character that was not in the input except `_`, and at most 50 characters.
   */
  lemma BlobSanitizeSafe(s: string)
    ensures var r := BlobSanitize(s);
      && (forall c :: c in r ==> c !in BlobInvalidChars && !IsSpace(c) && (c in s || c == '_'))
      && |r| <= BlobPartLength
  {
    var t := CollapseSpaces(Strip(DropChars(s, BlobInvalidChars)), "_");
    CleanedChars(s, BlobInvalidChars, "_");
    assert forall c :: c in "_" ==> c == '_';
    assert '_' !in BlobInvalidChars && !IsSpace('_');
    assert forall c :: c in BlobSanitize(s) ==> c in t;
  }

  /** Sanitising a sanitised part changes nothing. */
  lemma BlobSanitizeIdempotent(s: string)
    ensures BlobSanitize(BlobSanitize(s)) == BlobSanitize(s)
  {
    var r := BlobSanitize(s);
    BlobSanitizeSafe(s);
    DropCharsNone(r, BlobInvalidChars);
    assert IsStripped(r);
    StripOfStripped(r);
    CollapseSpacesNone(r, "_");
  }

  /** `Path(p).stem`: the last path component without its suffix. */
  function Stem(p: string): string {
    var name := BaseName(p);
    name[..|name| - |NameSuffix(name)|]
  }

  /** The stem and the suffix together make up the file name. */
  lemma StemSuffix(p: string)
    ensures Stem(p) + Suffix(p) == BaseName(p)
    ensures '/' !in Stem(p) && '/' !in Suffix(p)
  {
    var name := BaseName(p);
    var x := NameSuffix(name);
    assert name[..|name| - |x|] + name[|name| - |x|..] == name;
    assert forall c :: c in Stem(p) ==> c in name;
    assert forall c :: c in x ==> c in name;
  }

  /**
   * `_generate_blob_name`: with a track, the sanitised artist and title joined by `" - "`;
   * without one, the file's stem; then the lower-cased suffix, all inside `audio/`.
   */
  function BlobName(path: string, track: Option<Track>): string {
    "audio/" + BlobBase(path, track) + Lower(Suffix(path))
  }

  /** What comes between `audio/` and the suffix. */
  function BlobBase(path: string, track: Option<Track>): string {
    match track
    case Some(t) => BlobSanitize(t.artist) + " - " + BlobSanitize(t.title)
    case None => Stem(path)
  }

  /** Lower-casing never produces a `/` that was not there. */
  lemma LowerNoSlash(s: string)
    requires '/' !in s
    ensures '/' !in Lower(s)
  {
    forall i | 0 <= i < |s|
      ensures Lower(s)[i] != '/'
    {
      assert s[i] in s;
    }
  }

  /** The text after a prefix is what was appended to it. */
  lemma PrefixedSlice(p: string, b: string, x: string)
    ensures |p + b + x| >= |p| && (p + b + x)[..|p|] == p && (p + b + x)[|p|..] == b + x
  {
  }

  /** A name built from three slash-free pieces has no slash. */
  lemma ConcatNoSlash(a: string, b: string, c: string)
    requires '/' !in a && '/' !in b && '/' !in c
    ensures '/' !in a + b + c
  {
  }

  /** The base of a blob name has no `/`, whether it comes from the track or from the file's stem. */
  lemma BlobBaseNoSlash(path: string, track: Option<Track>)
    ensures '/' !in BlobBase(path, track)
  {
    StemSuffix(path);
    if track.Some? {
      BlobSanitizeSafe(track.value.artist);
      BlobSanitizeSafe(track.value.title);
      assert '/' !in " - ";
      ConcatNoSlash(BlobSanitize(track.value.artist), " - ", BlobSanitize(track.value.title));
    }
  }

  /**
   * Every generated blob sits directly in the `audio/` folder: after that prefix the name
   * has no further `/`.
   */
  lemma BlobNameInAudioFolder(path: string, track: Option<Track>)
    ensures var r := BlobName(path, track);
      |r| >= 6 && r[..6] == "audio/" && '/' !in r[6..]
  {
    StemSuffix(path);
    LowerNoSlash(Suffix(path));
    BlobBaseNoSlash(path, track);
    var base := BlobBase(path, track);
    var x := Lower(Suffix(path));
    assert '/' !in base + x;
    PrefixedSlice("audio/", base, x);
  }

  /**
   * With a track, the name depends only on its artist and title and on the file's suffix:
   * the album, the duration, the directory and the rest of the file name play no part.
   */
  lemma BlobNameFromTrack(p1: string, p2: string, t1: Track, t2: Track)
    requires t1.artist == t2.artist && t1.title == t2.title
    requires Lower(Suffix(p1)) == Lower(Suffix(p2))
    ensures BlobName(p1, Some(t1)) == BlobName(p2, Some(t2))
  {
  }

  /** Without a track the name is the file name with its suffix lower-cased. */
  lemma BlobNameWithoutTrack(path: string)
    ensures BlobName(path, None) == "audio/" + Stem(path) + Lower(Suffix(path))
    ensures Stem(path) + Suffix(path) == BaseName(path)
  {
    StemSuffix(path);
  }

  // ---------------------------------------------------------------------------
  // Public URLs
  // ---------------------------------------------------------------------------

  const BlobHost := ".blob.core.windows.net/"

  /** Everything before the blob name in the public URL. */
  function UrlPrefix(account: string, container: string): string {
    "https://" + account + BlobHost + container + "/"
  }

  /** The public URL of a blob. */
  function PublicUrl(account: string, container: string, blob: string): (r: string)
    ensures StartsWith(r, UrlPrefix(account, container))
    ensures EndsWith(r, blob)
  {
    var p := UrlPrefix(account, container);
    assert (p + blob)[..|p|] == p;
    assert (p + blob)[|p|..] == blob;
    p + blob
  }

  /** The blob a public URL of this account and container points to. */
  function BlobOfUrl(account: string, container: string, url: string): Option<string> {
    var p := UrlPrefix(account, container);
    if StartsWith(url, p) then Some(url[|p|..]) else None
  }

  /** The URL names its blob: reading the blob back out of the URL gives it again. */
  lemma PublicUrlRoundTrip(account: string, container: string, blob: string)
    ensures BlobOfUrl(account, container, PublicUrl(account, container, blob)) == Some(blob)
  {
    var p := UrlPrefix(account, container);
    assert (p + blob)[|p|..] == blob;
  }

  /** So two blobs of one container never share a URL. */
  lemma PublicUrlInjective(account: string, container: string, b1: string, b2: string)
    requires PublicUrl(account, container, b1) == PublicUrl(account, container, b2)
    ensures b1 == b2
  {
    PublicUrlRoundTrip(account, container, b1);
    PublicUrlRoundTrip(account, container, b2);
  }

  // ---------------------------------------------------------------------------
  // The account name of a connection string
  // ---------------------------------------------------------------------------

  const AccountKey := "AccountName="

  /** The first position at or after `from` where `pat` occurs in `s`. */
  function Find(s: string, pat: string, from: nat): (r: Option<nat>)
    ensures r.Some? ==> from <= r.value && OccursAt(s, pat, r.value)
    ensures r.Some? ==> forall j: nat :: from <= j < r.value ==> !OccursAt(s, pat, j)
    ensures r.None? ==> forall j: nat :: from <= j ==> !OccursAt(s, pat, j)
    decreases |s| - from
  {
    if from + |pat| > |s| then None
    else if OccursAt(s, pat, from) then Some(from)
    else Find(s, pat, from + 1)
  }

  /** `s.split(pat)` for a non-empty separator. */
  function SplitStr(s: string, pat: string): (r: seq<string>)
    requires pat != []
    decreases |s|
  {
    match Find(s, pat, 0)
    case None => [s]
    case Some(i) => [s[..i]] + SplitStr(s[i + |pat|..], pat)
  }

  /** Joining the fields with the separator gives the text back, and no field holds it. */
  lemma {:induction false} SplitStrJoin(s: string, pat: string)
    requires pat != []
    ensures Join(SplitStr(s, pat), pat) == s
    ensures forall k :: 0 <= k < |SplitStr(s, pat)| ==> !Contains(SplitStr(s, pat)[k], pat)
    decreases |s|
  {
    match Find(s, pat, 0)
    case None =>
      NoOccurrence(s, pat, |s|);
    case Some(i) =>
      var rest := s[i + |pat|..];
      SplitStrJoin(rest, pat);
      SplitStrCons(s, pat, i);
      assert s[..i] + pat + rest == s by {
        assert s[i..i + |pat|] == pat;
      }
      NoOccurrence(s, pat, i);
  }

  /** With a first occurrence at `i`, the fields are the text before it, then the rest's. */
  lemma SplitStrCons(s: string, pat: string, i: nat)
    requires pat != [] && Find(s, pat, 0) == Some(i)
    ensures SplitStr(s, pat) == [s[..i]] + SplitStr(s[i + |pat|..], pat)
    ensures |SplitStr(s, pat)| >= 2
    ensures Join(SplitStr(s, pat), pat) == s[..i] + pat + Join(SplitStr(s[i + |pat|..], pat), pat)
  {
    var r := SplitStr(s[i + |pat|..], pat);
    assert |r| >= 1 by {
      match Find(s[i + |pat|..], pat, 0)
      case None =>
      case Some(_) =>
    }
  }

  /** No occurrence starts before `n` in `s`, so `s[..n]` holds none. */
  lemma NoOccurrence(s: string, pat: string, n: nat)
    requires pat != [] && n <= |s|
    requires forall j: nat :: j < n ==> !OccursAt(s, pat, j)
    ensures !Contains(s[..n], pat)
  {
    forall j: nat | j <= n
      ensures !OccursAt(s[..n], pat, j)
    {
      if OccursAt(s[..n], pat, j) {
        assert s[..n][j..j + |pat|] == s[j..j + |pat|];
        assert OccursAt(s, pat, j);
      }
    }
  }

  /** An occurrence in a prefix is an occurrence in the whole text. */
  lemma OccursInPrefix(s: string, n: nat, pat: string, j: nat)
    requires n <= |s| && OccursAt(s[..n], pat, j)
    ensures OccursAt(s, pat, j)
  {
    assert s[..n][j..j + |pat|] == s[j..j + |pat|];
  }

  /**
   * `cs.split(key)[1].split(";")[0]` when the key occurs: the text after its first
   * occurrence, up to the next `;` (or the next key, or the end).
   */
  function FieldAfter(cs: string, key: string): Option<string>
    requires key != []
  {
    match Find(cs, key, 0)
    case None => None
    case Some(i) =>
      SplitStrCons(cs, key, i);
      Some(SplitChar(SplitStr(cs, key)[1], ';')[0])
  }

  /** The account name a connection string gives. */
  function AccountFrom(cs: string): Option<string> {
    FieldAfter(cs, AccountKey)
  }

  /** The first field of `s.split(c)` is the text before the first `c`. */
  lemma {:induction false} SplitCharFirst(s: string, c: char)
    ensures var f := SplitChar(s, c)[0];
      StartsWith(s, f) && c !in f && (|f| < |s| ==> s[|f|] == c)
    decreases |s|
  {
    if s != [] {
      SplitCharFirst(s[1..], c);
    }
  }

  /**
   * The field is found exactly when the key occurs. It then starts right after the first
   * occurrence of the key, holds neither `;` nor the key, and is followed by the end of
   * the text or by a `;` or the key.
   */
  lemma FieldAfterSpec(cs: string, key: string)
    requires key != []
    ensures FieldAfter(cs, key).Some? <==> Contains(cs, key)
    ensures FieldAfter(cs, key).Some? ==>
      var a := FieldAfter(cs, key).value;
      var i := Find(cs, key, 0).value;
      var rest := cs[i + |key|..];
      && (forall j: nat :: j < i ==> !OccursAt(cs, key, j))
      && OccursAt(cs, key, i)
      && StartsWith(rest, a) && ';' !in a && !Contains(a, key)
      && (|a| == |rest| || rest[|a|] == ';' || OccursAt(rest, key, |a|))
  {
    match Find(cs, key, 0)
    case None =>
    case Some(i) =>
      SplitStrCons(cs, key, i);
      FieldAfterFound(cs, key, i);
  }

  /** The field after the first occurrence of the key, at `i`, as the rest of the text begins. */
  lemma FieldAfterFound(cs: string, key: string, i: nat)
    requires key != [] && Find(cs, key, 0) == Some(i)
    ensures i + |key| <= |cs| && |SplitStr(cs, key)| >= 2
    ensures var a := SplitChar(SplitStr(cs, key)[1], ';')[0];
      var rest := cs[i + |key|..];
      && StartsWith(rest, a) && ';' !in a && !Contains(a, key)
      && (|a| == |rest| || rest[|a|] == ';' || OccursAt(rest, key, |a|))
  {
    SplitStrCons(cs, key, i);
    var rest := cs[i + |key|..];
    var field := SplitStr(cs, key)[1];
    assert field == SplitStr(rest, key)[0];
    var a := SplitChar(field, ';')[0];
    SplitCharFirst(field, ';');
    FirstField(rest, key);
    assert StartsWith(rest, a) by {
      assert rest[..|field|][..|a|] == rest[..|a|];
    }
    if Contains(a, key) {
      var j: nat :| j <= |a| && OccursAt(a, key, j);
      OccursInPrefix(field, |a|, key, j);
    }
    if |a| < |rest| && rest[|a|] != ';' {
      assert |a| == |field|;
      assert OccursAt(rest, key, |a|);
    }
  }

  /**
   * The first field of `s.split(pat)` is a prefix of `s` without `pat`, followed by the end
   * of the text or by `pat`.
   */
  lemma FirstField(s: string, pat: string)
    requires pat != []
    ensures var f := SplitStr(s, pat)[0];
      StartsWith(s, f) && !Contains(f, pat) && (|f| == |s| || OccursAt(s, pat, |f|))
  {
    SplitStrJoin(s, pat);
    match Find(s, pat, 0)
    case None =>
    case Some(i) =>
      SplitStrCons(s, pat, i);
  }

  // ---------------------------------------------------------------------------
  // Metadata
  // ---------------------------------------------------------------------------

  /** An Azure metadata key: alphanumeric once the underscores are removed. */
  predicate ValidKey(k: string) {
    var core := DropChars(k, {'_'});
    core != [] && forall c :: c in core ==> IsAlnum(c)
  }

  /** The entries that survive: a non-empty value under a valid key. */
  function KeepValid(entries: seq<(string, string)>): (r: seq<(string, string)>) {
    if entries == [] then []
    else if entries[0].1 != "" && ValidKey(entries[0].0) then [entries[0]] + KeepValid(entries[1..])
    else KeepValid(entries[1..])
  }

  /** Exactly the entries with a non-empty value and a valid key survive, in their order. */
  lemma {:induction false} KeepValidMembers(entries: seq<(string, string)>)
    ensures forall e :: e in KeepValid(entries) <==> e in entries && e.1 != "" && ValidKey(e.0)
    ensures |KeepValid(entries)| <= |entries|
  {
    if entries != [] {
      KeepValidMembers(entries[1..]);
      assert forall e :: e in entries <==> e == entries[0] || e in entries[1..];
    }
  }

  /** The metadata dictionary before filtering, in insertion order. */
  function RawMetadata(fileName: string, size: nat, track: Option<Track>, now: string): seq<(string, string)> {
    [("source", "TTSMixmaster"), ("upload_time", now), ("original_filename", fileName),
     ("file_size", NatToString(size))]
    + match track
      case None => []
      case Some(t) =>
        [("artist", t.artist), ("title", t.title), ("album", t.album),
         ("duration", if t.duration != 0 then IntToString(t.duration) else "0")]
  }

  /** `_prepare_metadata`. */
  function Metadata(fileName: string, size: nat, track: Option<Track>, now: string): seq<(string, string)> {
    KeepValid(RawMetadata(fileName, size, track, now))
  }

  /** A key of letters, digits and underscores that starts with a letter or digit is valid. */
  lemma ValidKeyOf(k: string)
    requires k != [] && IsAlnum(k[0])
    requires forall i :: 0 <= i < |k| ==> IsAlnum(k[i]) || k[i] == '_'
    ensures ValidKey(k)
  {
    DropCharsSafe(k, {'_'});
    assert DropChars(k, {'_'}) == [k[0]] + DropChars(k[1..], {'_'});
    assert forall c :: c in k ==> IsAlnum(c) || c == '_';
  }

  /** The keys `_prepare_metadata` writes. */
  const MetadataKeys: seq<string> :=
    ["source", "upload_time", "original_filename", "file_size", "artist", "title", "album", "duration"]

  /** Each key the uploader writes is a valid Azure metadata key. */
  lemma MetadataKeyValid(k: string)
    requires k in MetadataKeys
    ensures ValidKey(k)
  {
    if k == "source" {
      ValidKeyOf(k);
    } else if k == "upload_time" {
      ValidKeyOf(k);
    } else if k == "original_filename" {
      ValidKeyOf(k);
    } else if k == "file_size" {
      ValidKeyOf(k);
    } else if k == "artist" {
      ValidKeyOf(k);
    } else if k == "title" {
      ValidKeyOf(k);
    } else if k == "album" {
      ValidKeyOf(k);
    } else {
      assert k == "duration";
      ValidKeyOf(k);
    }
  }

  /** Every entry of the raw dictionary is under one of those keys. */
  lemma RawMetadataKeys(fileName: string, size: nat, track: Option<Track>, now: string)
    ensures forall e :: e in RawMetadata(fileName, size, track, now) ==> e.0 in MetadataKeys
  {
  }

  /**
   * So the key filter removes nothing: the metadata is the raw dictionary without its
   * empty values. The source tag is always there, and without a track only the four
   * file entries can be.
   */
  lemma MetadataEntries(fileName: string, size: nat, track: Option<Track>, now: string)
    ensures var m := Metadata(fileName, size, track, now);
      && (forall e :: e in m <==> e in RawMetadata(fileName, size, track, now) && e.1 != "")
      && ("source", "TTSMixmaster") in m
      && (track.None? ==> |m| <= 4)
  {
    var raw := RawMetadata(fileName, size, track, now);
    KeepValidMembers(raw);
    RawMetadataKeys(fileName, size, track, now);
    forall e | e in raw
      ensures ValidKey(e.0)
    {
      MetadataKeyValid(e.0);
    }
    assert raw[0] == ("source", "TTSMixmaster");
  }

  // ---------------------------------------------------------------------------
  // Uploads
  // ---------------------------------------------------------------------------

  /** The exception an upload raises: an `AzureError` or any other, with its text. */
  datatype UploadError = UploadError(azure: bool, text: string)

  /** `UploadResult` (its time stamp aside). */
  datatype UploadResult = UploadResult(
    success: bool,
    filePath: string,
    publicUrl: Option<string>,
    blobName: Option<string>,
    fileSize: nat,
    errorMessage: Option<string>,
    metadata: Option<seq<(string, string)>>)

  function Failed(path: string, message: string): UploadResult {
    UploadResult(false, path, None, None, 0, Some(message), None)
  }

  const NotInitializedMessage := "Azure Blob client not initialized"
  const MissingFileMessage := "File does not exist"

  function ErrorMessage(e: UploadError): string {
    (if e.azure then "Azure upload failed: " else "Upload failed: ") + e.text
  }

  /** What an upload sees of the uploader: whether it has a client, its account and container. */
  datatype Uploader = Uploader(connected: bool, account: string, container: string)

  /** An upload's result and the container's blobs afterwards. */
  datatype Uploaded = Uploaded(result: UploadResult, blobs: map<string, nat>)

  /**
   * `upload_audio_file`: no client, then a missing file, are failures; an existing blob is
   * a success without upload; otherwise the file is uploaded, or the exception becomes a
   * failure.
   */
  function Upload(u: Uploader, blobs: map<string, nat>, uploadError: string -> Option<UploadError>,
                  files: map<string, nat>, path: string, track: Option<Track>, custom: string,
                  now: string): Uploaded
  {
    if !u.connected then Uploaded(Failed(path, NotInitializedMessage), blobs)
    else if path !in files then Uploaded(Failed(path, MissingFileMessage), blobs)
    else
      var name := if custom != "" then custom else BlobName(path, track);
      var size := files[path];
      var done := UploadResult(true, path, Some(PublicUrl(u.account, u.container, name)), Some(name),
                               size, None, Some(Metadata(BaseName(path), size, track, now)));
      if name in blobs then Uploaded(done, blobs)
      else match uploadError(name)
        case Some(e) => Uploaded(Failed(path, ErrorMessage(e)), blobs)
        case None => Uploaded(done, blobs[name := size])
  }

  /**
   * Without a client, or for a missing file, the upload fails with its fixed message before
   * any call on the container: the result does not depend on the container at all.
   */
  lemma UploadChecksFirst(u: Uploader, b1: map<string, nat>, e1: string -> Option<UploadError>,
                          b2: map<string, nat>, e2: string -> Option<UploadError>,
                          files: map<string, nat>, path: string, track: Option<Track>, custom: string,
                          now: string)
    requires !u.connected || path !in files
    ensures var o := Upload(u, b1, e1, files, path, track, custom, now);
      && o.result == Upload(u, b2, e2, files, path, track, custom, now).result
      && !o.result.success && o.blobs == b1
      && o.result.errorMessage == Some(if !u.connected then NotInitializedMessage else MissingFileMessage)
  {
  }

  /** A blob that already exists is reported as a success with its URL and is not uploaded. */
  lemma UploadExistingSkips(u: Uploader, blobs: map<string, nat>, uploadError: string -> Option<UploadError>,
                            files: map<string, nat>, path: string, track: Option<Track>, now: string)
    requires u.connected && path in files && BlobName(path, track) in blobs
    ensures var o := Upload(u, blobs, uploadError, files, path, track, "", now);
      && o.result.success && o.blobs == blobs
      && o.result.publicUrl == Some(PublicUrl(u.account, u.container, BlobName(path, track)))
  {
  }

  /**
   * A success names its blob, which is then in the container under its public URL with the
   * file's size unless it was there before; a failure carries a message and changes
   * nothing. No other blob ever changes, and no existing blob is overwritten.
   */
  lemma UploadOutcome(u: Uploader, blobs: map<string, nat>, uploadError: string -> Option<UploadError>,
                      files: map<string, nat>, path: string, track: Option<Track>, custom: string,
                      now: string)
    ensures var o := Upload(u, blobs, uploadError, files, path, track, custom, now);
      && o.result.filePath == path
      && (o.result.success ==>
            && path in files && o.result.blobName.Some?
            && var name := o.result.blobName.value;
            && name in o.blobs && o.result.fileSize == files[path]
            && o.result.publicUrl == Some(PublicUrl(u.account, u.container, name))
            && (name !in blobs ==> o.blobs == blobs[name := files[path]] && uploadError(name).None?)
            && (name in blobs ==> o.blobs == blobs))
      && (!o.result.success ==> o.result.errorMessage.Some? && o.blobs == blobs)
      && (forall n :: n in blobs ==> n in o.blobs && o.blobs[n] == blobs[n])
  {
  }

  /** A successful upload names its blob and describes the file and its track. */
  lemma UploadNames(u: Uploader, blobs: map<string, nat>, uploadError: string -> Option<UploadError>,
                    files: map<string, nat>, path: string, track: Option<Track>, custom: string,
                    now: string)
    ensures var o := Upload(u, blobs, uploadError, files, path, track, custom, now);
      && o.result.filePath == path
      && (o.result.success ==>
            && path in files
            && o.result.blobName == Some(if custom != "" then custom else BlobName(path, track))
            && o.result.metadata == Some(Metadata(BaseName(path), files[path], track, now)))
  {
  }

  /** Uploading the same file again succeeds with the same URL and uploads nothing. */
  lemma UploadTwice(u: Uploader, blobs: map<string, nat>, uploadError: string -> Option<UploadError>,
                    files: map<string, nat>, path: string, track: Option<Track>, custom: string,
                    now: string)
    requires Upload(u, blobs, uploadError, files, path, track, custom, now).result.success
    ensures var first := Upload(u, blobs, uploadError, files, path, track, custom, now);
      var second := Upload(u, first.blobs, uploadError, files, path, track, custom, now);
      second.result == first.result && second.blobs == first.blobs
  {
    UploadOutcome(u, blobs, uploadError, files, path, track, custom, now);
  }

  // ---------------------------------------------------------------------------
  // Uploading a playlist
  // ---------------------------------------------------------------------------

  /** The track paired with the `i`-th file: none without a track list or beyond its end. */
  function TrackAt(tracks: Option<seq<Track>>, i: nat): (r: Option<Track>)
    ensures r.Some? <==> tracks.Some? && i < |tracks.value|
    ensures r.Some? ==> r.value == tracks.value[i]
  {
    if tracks.Some? && i < |tracks.value| then Some(tracks.value[i]) else None
  }

  /** The results of uploading the files one after the other, and the container after them. */
  datatype Batch = Batch(results: seq<UploadResult>, blobs: map<string, nat>)

  /** `upload_playlist_files` from the `i`-th file on, with `pending` the files left. */
  function UploadEach(u: Uploader, blobs: map<string, nat>, uploadError: string -> Option<UploadError>,
                      files: map<string, nat>, pending: seq<string>, tracks: Option<seq<Track>>, i: nat,
                      now: string): Batch
    decreases |pending|
  {
    if pending == [] then Batch([], blobs)
    else
      var o := Upload(u, blobs, uploadError, files, pending[0], TrackAt(tracks, i), "", now);
      var rest := UploadEach(u, o.blobs, uploadError, files, pending[1..], tracks, i + 1, now);
      Batch([o.result] + rest.results, rest.blobs)
  }

  /**
   * One result per file, in order: the `k`-th is for the `k`-th file, and a successful one
   * names its blob and fills its metadata from the `k`-th track (if any); blobs already in
   * the container are never changed.
   */
  lemma {:induction false} UploadEachPerFile(u: Uploader, blobs: map<string, nat>,
                                             uploadError: string -> Option<UploadError>,
                                             files: map<string, nat>, pending: seq<string>,
                                             tracks: Option<seq<Track>>, i: nat, now: string)
    ensures var b := UploadEach(u, blobs, uploadError, files, pending, tracks, i, now);
      && |b.results| == |pending|
      && (forall k :: 0 <= k < |pending| ==> b.results[k].filePath == pending[k])
      && (forall k :: 0 <= k < |pending| && b.results[k].success ==>
            && pending[k] in files
            && b.results[k].blobName == Some(BlobName(pending[k], TrackAt(tracks, i + k)))
            && b.results[k].metadata == Some(Metadata(BaseName(pending[k]), files[pending[k]], TrackAt(tracks, i + k), now)))
      && (forall n :: n in blobs ==> n in b.blobs && b.blobs[n] == blobs[n])
    decreases |pending|
  {
    UploadEachDescribes(u, blobs, uploadError, files, pending, tracks, i, now);
    UploadEachKeeps(u, blobs, uploadError, files, pending, tracks, i, now);
    var b := UploadEach(u, blobs, uploadError, files, pending, tracks, i, now);
    forall k | 0 <= k < |pending|
      ensures b.results[k].filePath == pending[k]
      ensures b.results[k].success ==>
        && pending[k] in files
        && b.results[k].blobName == Some(BlobName(pending[k], TrackAt(tracks, i + k)))
        && b.results[k].metadata == Some(Metadata(BaseName(pending[k]), files[pending[k]], TrackAt(tracks, i + k), now))
    {
      DescribesEachAt(DescribesIn(files, now), b.results, pending, tracks, i, k);
    }
  }

  /**
   * A result is the upload of `path`, and if it succeeded the file exists and the blob is
   * named and described after the file and `track`.
   */
  predicate Describes(res: UploadResult, path: string, track: Option<Track>, files: map<string, nat>, now: string) {
    && res.filePath == path
    && (res.success ==>
          && path in files
          && res.blobName == Some(BlobName(path, track))
          && res.metadata == Some(Metadata(BaseName(path), files[path], track, now)))
  }

  /** `Describes` for the files on disk and the upload time. */
  function DescribesIn(files: map<string, nat>, now: string): (UploadResult, string, Option<Track>) -> bool {
    (res, path, track) => Describes(res, path, track, files, now)
  }

  /** `describes(r, p, t)` holds of each result, file and the track at the same position. */
  predicate DescribesEach(describes: (UploadResult, string, Option<Track>) -> bool, rs: seq<UploadResult>,
                          pending: seq<string>, tracks: Option<seq<Track>>, i: nat)
    decreases |pending|
  {
    && |rs| == |pending|
    && (pending != [] ==>
          && describes(rs[0], pending[0], TrackAt(tracks, i))
          && DescribesEach(describes, rs[1..], pending[1..], tracks, i + 1))
  }

  /** The first result is the first file's upload, the others are those of the rest's batch. */
  lemma UploadEachShift(u: Uploader, blobs: map<string, nat>,
                        uploadError: string -> Option<UploadError>,
                        files: map<string, nat>, pending: seq<string>,
                        tracks: Option<seq<Track>>, i: nat, now: string)
    requires pending != []
    ensures var o := Upload(u, blobs, uploadError, files, pending[0], TrackAt(tracks, i), "", now);
      var r := UploadEach(u, blobs, uploadError, files, pending, tracks, i, now).results;
      r == [o.result] + UploadEach(u, o.blobs, uploadError, files, pending[1..], tracks, i + 1, now).results
  {
  }

  /** Every result of a batch describes its file with the track at the same position. */
  lemma {:induction false} UploadEachDescribes(u: Uploader, blobs: map<string, nat>,
                                               uploadError: string -> Option<UploadError>,
                                               files: map<string, nat>, pending: seq<string>,
                                               tracks: Option<seq<Track>>, i: nat, now: string)
    ensures DescribesEach(DescribesIn(files, now), UploadEach(u, blobs, uploadError, files, pending, tracks, i, now).results,
                          pending, tracks, i)
    decreases |pending|
  {
    if pending != [] {
      UploadEachShift(u, blobs, uploadError, files, pending, tracks, i, now);
      var o := Upload(u, blobs, uploadError, files, pending[0], TrackAt(tracks, i), "", now);
      UploadNames(u, blobs, uploadError, files, pending[0], TrackAt(tracks, i), "", now);
      UploadEachDescribes(u, o.blobs, uploadError, files, pending[1..], tracks, i + 1, now);
      var r := UploadEach(u, blobs, uploadError, files, pending, tracks, i, now).results;
      assert r[1..] == UploadEach(u, o.blobs, uploadError, files, pending[1..], tracks, i + 1, now).results;
    }
  }

  /** The `k`-th result of a described batch is described with the `k`-th file and track. */
  lemma {:induction false} DescribesEachAt(describes: (UploadResult, string, Option<Track>) -> bool,
                                           rs: seq<UploadResult>, pending: seq<string>,
                                           tracks: Option<seq<Track>>, i: nat, k: nat)
    requires DescribesEach(describes, rs, pending, tracks, i)
    requires k < |pending|
    ensures k < |rs| && describes(rs[k], pending[k], TrackAt(tracks, i + k))
    decreases k
  {
    if k > 0 {
      DescribesEachAt(describes, rs[1..], pending[1..], tracks, i + 1, k - 1);
      assert rs[1..][k - 1] == rs[k];
      assert pending[1..][k - 1] == pending[k];
      assert i + 1 + (k - 1) == i + k;
    }
  }

  /** Blobs already in the container are never changed by a batch. */
  lemma {:induction false} UploadEachKeeps(u: Uploader, blobs: map<string, nat>,
                                           uploadError: string -> Option<UploadError>,
                                           files: map<string, nat>, pending: seq<string>,
                                           tracks: Option<seq<Track>>, i: nat, now: string)
    ensures var b := UploadEach(u, blobs, uploadError, files, pending, tracks, i, now);
      forall n :: n in blobs ==> n in b.blobs && b.blobs[n] == blobs[n]
    decreases |pending|
  {
    if pending != [] {
      var o := Upload(u, blobs, uploadError, files, pending[0], TrackAt(tracks, i), "", now);
      UploadOutcome(u, blobs, uploadError, files, pending[0], TrackAt(tracks, i), "", now);
      UploadEachKeeps(u, o.blobs, uploadError, files, pending[1..], tracks, i + 1, now);
    }
  }

  /** The first result is the upload of the first file with the first track. */
  lemma UploadEachFirst(u: Uploader, blobs: map<string, nat>, uploadError: string -> Option<UploadError>,
                        files: map<string, nat>, path: string, rest: seq<string>, tracks: Option<seq<Track>>,
                        now: string)
    ensures UploadEach(u, blobs, uploadError, files, [path] + rest, tracks, 0, now).results[0]
         == Upload(u, blobs, uploadError, files, path, if tracks.Some? && tracks.value != [] then Some(tracks.value[0]) else None, "", now).result
  {
    assert ([path] + rest)[1..] == rest;
  }

  /** Results gathered so far in front of the rest's. */
  function Prepend(done: seq<UploadResult>, b: Batch): Batch {
    Batch(done + b.results, b.blobs)
  }

  // ---------------------------------------------------------------------------
  // The SDK and the uploader
  // ---------------------------------------------------------------------------

  /** The blob container: its blobs, and the exception uploading each name raises, if any. */
  class BlobStore {
    var blobs: map<string, nat>
    const uploadError: string -> Option<UploadError>

    constructor(blobs: map<string, nat>, uploadError: string -> Option<UploadError>)
      ensures this.blobs == blobs && this.uploadError == uploadError
    {
      this.blobs := blobs;
      this.uploadError := uploadError;
    }

    /** `get_blob_properties` succeeds exactly for an existing blob. */
    method Exists(name: string) returns (b: bool)
      ensures b <==> name in blobs
    {
      b := name in blobs;
    }

    /** `upload_blob(..., overwrite=True)`: stores the blob unless the upload raises. */
    method Put(name: string, size: nat) returns (err: Option<UploadError>)
      modifies this
      ensures err == uploadError(name)
      ensures blobs == if err.None? then old(blobs)[name := size] else old(blobs)
    {
      err := uploadError(name);
      if err.None? {
        blobs := blobs[name := size];
      }
    }
  }

  /** How the constructor ends: the account name it settles on and whether it has a client. */
  datatype Setup = Setup(account: string, connected: bool)

  /**
   * `AzureBlobUploader.__init__`: a connection string wins over an account name and key,
   * which win over the environment's connection string. `clientOk` says whether creating
   * the client succeeds and `containerOk` whether the container check does.
   */
  function Initial(connectionString: string, accountName: string, accountKey: string, sdkAvailable: bool,
                   envConnection: string, clientOk: bool, containerOk: bool): Setup
  {
    var fallback := if accountName != "" then accountName else "unknown";
    if !sdkAvailable then Setup(fallback, false)
    else
      var cs := if connectionString != "" then connectionString
                else if accountName != "" && accountKey != "" then ""
                else envConnection;
      if connectionString == "" && (accountName == "" || accountKey == "") && envConnection == "" then
        Setup(fallback, false)
      else if !clientOk then Setup(fallback, false)
      else
        var account := if cs != "" && AccountFrom(cs).Some? then AccountFrom(cs).value else fallback;
        Setup(account, containerOk)
  }

  /**
   * The uploader has a client exactly when the SDK is there, some credentials were given,
   * and both the client and the container check succeeded.
   */
  lemma InitialConnected(connectionString: string, accountName: string, accountKey: string,
                         sdkAvailable: bool, envConnection: string, clientOk: bool, containerOk: bool)
    ensures Initial(connectionString, accountName, accountKey, sdkAvailable, envConnection, clientOk, containerOk).connected
        <==> sdkAvailable && clientOk && containerOk
             && (connectionString != "" || (accountName != "" && accountKey != "") || envConnection != "")
  {
  }

  /**
   * The account name is the one in the connection string when it names one (even if the
   * container check then fails), and otherwise the given name or `"unknown"`.
   */
  lemma InitialAccount(connectionString: string, accountName: string, accountKey: string,
                       sdkAvailable: bool, envConnection: string, clientOk: bool, containerOk: bool)
    ensures var s := Initial(connectionString, accountName, accountKey, sdkAvailable, envConnection, clientOk, containerOk);
      && ((sdkAvailable && clientOk && connectionString != "" && Contains(connectionString, AccountKey))
          ==> s.account == AccountFrom(connectionString).value)
      && ((!Contains(connectionString, AccountKey) && !Contains(envConnection, AccountKey))
          ==> s.account == if accountName != "" then accountName else "unknown")
  {
    FieldAfterSpec(connectionString, AccountKey);
    FieldAfterSpec(envConnection, AccountKey);
  }

  /** `AzureBlobUploader`: a client for one container of one account. */
  class AzureBlobUploader {
    const containerName: string
    var accountName: string
    var connected: bool
    const store: BlobStore

    function State(): Uploader
      reads this
    {
      Uploader(connected, accountName, containerName)
    }

    constructor(connectionString: string, accountName: string, accountKey: string, containerName: string,
                sdkAvailable: bool, envConnection: string, clientOk: bool, containerOk: bool, store: BlobStore)
      ensures this.containerName == containerName && this.store == store
      ensures Setup(this.accountName, connected)
           == Initial(connectionString, accountName, accountKey, sdkAvailable, envConnection, clientOk, containerOk)
    {
      this.containerName := containerName;
      this.store := store;
      connected := false;
      this.accountName := if accountName != "" then accountName else "unknown";
      new;
      if sdkAvailable {
        var cs := "";
        var credentials := true;
        if connectionString != "" {
          cs := connectionString;
        } else if accountName != "" && accountKey != "" {
        } else if envConnection != "" {
          cs := envConnection;
        } else {
          credentials := false;
        }
        if credentials && clientOk {
          connected := true;
          if cs != "" {
            var account := AccountFrom(cs);
            if account.Some? {
              this.accountName := account.value;
            }
          }
          if !containerOk {
            connected := false;
          }
        }
      }
    }

    /** `upload_audio_file`, step by step. */
    method UploadAudioFile(filePath: string, track: Option<Track>, customBlobName: string,
                           files: map<string, nat>, now: string) returns (r: UploadResult)
      modifies store
      ensures Uploaded(r, store.blobs)
           == Upload(State(), old(store.blobs), store.uploadError, files, filePath, track, customBlobName, now)
    {
      if !connected {
        return Failed(filePath, NotInitializedMessage);
      }
      if filePath !in files {
        return Failed(filePath, MissingFileMessage);
      }
      var name := if customBlobName != "" then customBlobName else BlobName(filePath, track);
      var size := files[filePath];
      var done := UploadResult(true, filePath, Some(PublicUrl(accountName, containerName, name)), Some(name),
                               size, None, Some(Metadata(BaseName(filePath), size, track, now)));
      var present := store.Exists(name);
      if present {
        return done;
      }
      var err := store.Put(name, size);
      if err.Some? {
        return Failed(filePath, ErrorMessage(err.value));
      }
      r := done;
    }

    /** `upload_playlist_files`: one upload per file, the track paired by position. */
    method UploadPlaylistFiles(filePaths: seq<string>, tracks: Option<seq<Track>>, files: map<string, nat>,
                               now: string) returns (results: seq<UploadResult>)
      modifies store
      ensures Batch(results, store.blobs)
           == UploadEach(State(), old(store.blobs), store.uploadError, files, filePaths, tracks, 0, now)
    {
      ghost var whole := UploadEach(State(), store.blobs, store.uploadError, files, filePaths, tracks, 0, now);
      results := [];
      var pending := filePaths;
      var i := 0;
      while pending != []
        invariant whole == Prepend(results, UploadEach(State(), store.blobs, store.uploadError, files, pending, tracks, i, now))
        decreases |pending|
      {
        var track := if tracks.Some? && i < |tracks.value| then Some(tracks.value[i]) else None;
        var r := UploadAudioFile(pending[0], track, "", files, now);
        Seqs.AppendAssoc(results, [r], UploadEach(State(), store.blobs, store.uploadError, files, pending[1..], tracks, i + 1, now).results);
        results := results + [r];
        pending := pending[1..];
        i := i + 1;
      }
    }
  }
}
