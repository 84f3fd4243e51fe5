/**
 * The application's settings and small utilities: the settings record and how the
 * environment and keyword updates change it, file-name sanitising, the duration text,
 * the quality and extension validators, and the progress counter.
 */
module Config {
  import opened Wrappers
  import opened Strings

  // ---------------------------------------------------------------------------
  // Settings
  // ---------------------------------------------------------------------------

  /** `AppConfig`: every setting is text. */
  datatype AppConfig = AppConfig(
    lastfmApiKey: string,
    lastfmApiSecret: string,
    lastfmUsername: string,
    steamApiKey: string,
    steamUsername: string,
    azureStorageConnectionString: string,
    azureContainerName: string,
    downloadPath: string,
    uploadPath: string,
    ttsOutputPath: string,
    audioQuality: string,
    audioFormat: string,
    theme: string,
    windowSize: string)

  /** The settings' attribute names, as a value. */
  datatype Field =
    | LastfmApiKey | LastfmApiSecret | LastfmUsername | SteamApiKey | SteamUsername
    | AzureStorageConnectionString | AzureContainerName
    | DownloadPath | UploadPath | TtsOutputPath
    | AudioQuality | AudioFormat | Theme | WindowSize

  /** The declared defaults of `AppConfig()`. */
  function Defaults(): (c: AppConfig)
    ensures c.audioQuality == "192" && c.audioFormat == "mp3"
    ensures c.lastfmApiKey == "" && c.lastfmUsername == ""
  {
    AppConfig("", "", "", "", "", "", "tts-audio", "./downloads", "./uploads", "./tts_formatted",
              "192", "mp3", "dark", "1200x800")
  }

  /** The attribute name `setattr` and `hasattr` use for a field. */
  function FieldName(f: Field): string {
    match f
    case LastfmApiKey => "lastfm_api_key"
    case LastfmApiSecret => "lastfm_api_secret"
    case LastfmUsername => "lastfm_username"
    case SteamApiKey => "steam_api_key"
    case SteamUsername => "steam_username"
    case AzureStorageConnectionString => "azure_storage_connection_string"
    case AzureContainerName => "azure_container_name"
    case DownloadPath => "download_path"
    case UploadPath => "upload_path"
    case TtsOutputPath => "tts_output_path"
    case AudioQuality => "audio_quality"
    case AudioFormat => "audio_format"
    case Theme => "theme"
    case WindowSize => "window_size"
  }

  /** `hasattr(config, name)`, restricted to the settings: the field with that attribute name. */
  function FieldOf(name: string): (r: Option<Field>)
    ensures r.Some? ==> FieldName(r.value) == name
    ensures r.None? ==> forall f :: FieldName(f) != name
  {
    if name == "lastfm_api_key" then Some(LastfmApiKey)
    else if name == "lastfm_api_secret" then Some(LastfmApiSecret)
    else if name == "lastfm_username" then Some(LastfmUsername)
    else if name == "steam_api_key" then Some(SteamApiKey)
    else if name == "steam_username" then Some(SteamUsername)
    else if name == "azure_storage_connection_string" then Some(AzureStorageConnectionString)
    else if name == "azure_container_name" then Some(AzureContainerName)
    else if name == "download_path" then Some(DownloadPath)
    else if name == "upload_path" then Some(UploadPath)
    else if name == "tts_output_path" then Some(TtsOutputPath)
    else if name == "audio_quality" then Some(AudioQuality)
    else if name == "audio_format" then Some(AudioFormat)
    else if name == "theme" then Some(Theme)
    else if name == "window_size" then Some(WindowSize)
    else None
  }

  /** Every attribute name leads back to its own field. */
  lemma FieldOfName(f: Field)
    ensures FieldOf(FieldName(f)) == Some(f)
  {
    var r := FieldOf(FieldName(f));
    assert r.Some?;
    if r.value != f {
      match f {
        case LastfmApiKey =>
        case LastfmApiSecret =>
        case LastfmUsername =>
        case SteamApiKey =>
        case SteamUsername =>
        case AzureStorageConnectionString =>
        case AzureContainerName =>
        case DownloadPath =>
        case UploadPath =>
        case TtsOutputPath =>
        case AudioQuality =>
        case AudioFormat =>
        case Theme =>
        case WindowSize =>
      }
    }
  }

  /** `getattr(config, name)` */
  function Get(c: AppConfig, f: Field): string {
    match f
    case LastfmApiKey => c.lastfmApiKey
    case LastfmApiSecret => c.lastfmApiSecret
    case LastfmUsername => c.lastfmUsername
    case SteamApiKey => c.steamApiKey
    case SteamUsername => c.steamUsername
    case AzureStorageConnectionString => c.azureStorageConnectionString
    case AzureContainerName => c.azureContainerName
    case DownloadPath => c.downloadPath
    case UploadPath => c.uploadPath
    case TtsOutputPath => c.ttsOutputPath
    case AudioQuality => c.audioQuality
    case AudioFormat => c.audioFormat
    case Theme => c.theme
    case WindowSize => c.windowSize
  }

  /** `setattr(config, name, v)`: that one field becomes `v`, every other keeps its value. */
  function Set(c: AppConfig, f: Field, v: string): (r: AppConfig)
    ensures Get(r, f) == v
    ensures forall g :: g != f ==> Get(r, g) == Get(c, g)
  {
    match f
    case LastfmApiKey => c.(lastfmApiKey := v)
    case LastfmApiSecret => c.(lastfmApiSecret := v)
    case LastfmUsername => c.(lastfmUsername := v)
    case SteamApiKey => c.(steamApiKey := v)
    case SteamUsername => c.(steamUsername := v)
    case AzureStorageConnectionString => c.(azureStorageConnectionString := v)
    case AzureContainerName => c.(azureContainerName := v)
    case DownloadPath => c.(downloadPath := v)
    case UploadPath => c.(uploadPath := v)
    case TtsOutputPath => c.(ttsOutputPath := v)
    case AudioQuality => c.(audioQuality := v)
    case AudioFormat => c.(audioFormat := v)
    case Theme => c.(theme := v)
    case WindowSize => c.(windowSize := v)
  }

  /** Two settings records that agree on every field are the same record. */
  lemma SameFields(a: AppConfig, b: AppConfig)
    requires forall f :: Get(a, f) == Get(b, f)
    ensures a == b
  {
    assert Get(a, LastfmApiKey) == Get(b, LastfmApiKey);
    assert Get(a, LastfmApiSecret) == Get(b, LastfmApiSecret);
    assert Get(a, LastfmUsername) == Get(b, LastfmUsername);
    assert Get(a, SteamApiKey) == Get(b, SteamApiKey);
    assert Get(a, SteamUsername) == Get(b, SteamUsername);
    assert Get(a, AzureStorageConnectionString) == Get(b, AzureStorageConnectionString);
    assert Get(a, AzureContainerName) == Get(b, AzureContainerName);
    assert Get(a, DownloadPath) == Get(b, DownloadPath);
    assert Get(a, UploadPath) == Get(b, UploadPath);
    assert Get(a, TtsOutputPath) == Get(b, TtsOutputPath);
    assert Get(a, AudioQuality) == Get(b, AudioQuality);
    assert Get(a, AudioFormat) == Get(b, AudioFormat);
    assert Get(a, Theme) == Get(b, Theme);
    assert Get(a, WindowSize) == Get(b, WindowSize);
  }

  /** The environment variable that overrides each field. */
  function EnvVar(f: Field): string {
    match f
    case LastfmApiKey => "LASTFM_API_KEY"
    case LastfmApiSecret => "LASTFM_API_SECRET"
    case LastfmUsername => "LASTFM_USERNAME"
    case SteamApiKey => "STEAM_API_KEY"
    case SteamUsername => "STEAM_USERNAME"
    case AzureStorageConnectionString => "AZURE_STORAGE_CONNECTION_STRING"
    case AzureContainerName => "AZURE_CONTAINER_NAME"
    case DownloadPath => "DOWNLOAD_PATH"
    case UploadPath => "UPLOAD_PATH"
    case TtsOutputPath => "TTS_OUTPUT_PATH"
    case AudioQuality => "AUDIO_QUALITY"
    case AudioFormat => "AUDIO_FORMAT"
    case Theme => "THEME"
    case WindowSize => "WINDOW_SIZE"
  }

  /** The fields the environment mapping visits, in its order. */
  const EnvFields: seq<Field> := [
    LastfmApiKey, LastfmApiSecret, LastfmUsername, SteamApiKey, SteamUsername,
    AzureStorageConnectionString, AzureContainerName, DownloadPath, UploadPath, TtsOutputPath,
    AudioQuality, AudioFormat, Theme, WindowSize]

  /** `os.getenv(name)` when it is set to something non-empty (`if value:`). */
  function EnvValue(env: map<string, string>, name: string): (r: Option<string>)
    ensures r.Some? <==> name in env && env[name] != ""
    ensures r.Some? ==> r.value == env[name]
  {
    if name in env && env[name] != "" then Some(env[name]) else None
  }

  /** What `_load_from_env` leaves in one field: the variable's value if set and non-empty. */
  function EnvOr(c: AppConfig, env: map<string, string>, f: Field): string {
    match EnvValue(env, EnvVar(f))
    case Some(v) => v
    case None => Get(c, f)
  }

  /**
   * The effect of `_load_from_env` on a settings record: each field takes its variable's
   * value when that is set and non-empty, and keeps what it had otherwise.
   */
  function FromEnv(c: AppConfig, env: map<string, string>): AppConfig {
    AppConfig(
      EnvOr(c, env, LastfmApiKey), EnvOr(c, env, LastfmApiSecret), EnvOr(c, env, LastfmUsername),
      EnvOr(c, env, SteamApiKey), EnvOr(c, env, SteamUsername),
      EnvOr(c, env, AzureStorageConnectionString), EnvOr(c, env, AzureContainerName),
      EnvOr(c, env, DownloadPath), EnvOr(c, env, UploadPath), EnvOr(c, env, TtsOutputPath),
      EnvOr(c, env, AudioQuality), EnvOr(c, env, AudioFormat), EnvOr(c, env, Theme),
      EnvOr(c, env, WindowSize))
  }

  /**
   * After `_load_from_env`, a field holds its variable's value when that is set and
   * non-empty, and keeps what it had otherwise.
   */
  lemma EnvOverrides(c: AppConfig, env: map<string, string>, f: Field)
    ensures EnvValue(env, EnvVar(f)).Some? ==> Get(FromEnv(c, env), f) == env[EnvVar(f)]
    ensures EnvValue(env, EnvVar(f)).None? ==> Get(FromEnv(c, env), f) == Get(c, f)
  {
    var r := FromEnv(c, env);
    match f {
      case LastfmApiKey => assert Get(r, f) == EnvOr(c, env, f);
      case LastfmApiSecret => assert Get(r, f) == EnvOr(c, env, f);
      case LastfmUsername => assert Get(r, f) == EnvOr(c, env, f);
      case SteamApiKey => assert Get(r, f) == EnvOr(c, env, f);
      case SteamUsername => assert Get(r, f) == EnvOr(c, env, f);
      case AzureStorageConnectionString => assert Get(r, f) == EnvOr(c, env, f);
      case AzureContainerName => assert Get(r, f) == EnvOr(c, env, f);
      case DownloadPath => assert Get(r, f) == EnvOr(c, env, f);
      case UploadPath => assert Get(r, f) == EnvOr(c, env, f);
      case TtsOutputPath => assert Get(r, f) == EnvOr(c, env, f);
      case AudioQuality => assert Get(r, f) == EnvOr(c, env, f);
      case AudioFormat => assert Get(r, f) == EnvOr(c, env, f);
      case Theme => assert Get(r, f) == EnvOr(c, env, f);
      case WindowSize => assert Get(r, f) == EnvOr(c, env, f);
    }
  }

  /** Position of each field in the environment mapping. */
  function EnvIndex(f: Field): (i: nat)
    ensures i < |EnvFields| && EnvFields[i] == f
  {
    match f
    case LastfmApiKey => 0
    case LastfmApiSecret => 1
    case LastfmUsername => 2
    case SteamApiKey => 3
    case SteamUsername => 4
    case AzureStorageConnectionString => 5
    case AzureContainerName => 6
    case DownloadPath => 7
    case UploadPath => 8
    case TtsOutputPath => 9
    case AudioQuality => 10
    case AudioFormat => 11
    case Theme => 12
    case WindowSize => 13
  }

  /** The environment mapping names each field once. */
  lemma EnvFieldsDistinct()
    ensures forall i, j :: 0 <= i < j < |EnvFields| ==> EnvFields[i] != EnvFields[j]
  {
    forall i, j | 0 <= i < j < |EnvFields|
      ensures EnvFields[i] != EnvFields[j]
    {
      assert EnvIndex(EnvFields[i]) == i && EnvIndex(EnvFields[j]) == j;
    }
  }

  /** `ConfigManager.is_configured`: both the Last.fm key and the Last.fm user are set. */
  function IsConfigured(c: AppConfig): (b: bool)
    ensures b ==> c.lastfmApiKey != "" && c.lastfmUsername != ""
  {
    c.lastfmApiKey != "" && c.lastfmUsername != ""
  }

  /** Loading from the environment configures the application iff each of the two settings comes from somewhere. */
  lemma ConfiguredFromEnv(c: AppConfig, env: map<string, string>)
    ensures IsConfigured(FromEnv(c, env)) <==>
      (EnvValue(env, "LASTFM_API_KEY").Some? || c.lastfmApiKey != "")
      && (EnvValue(env, "LASTFM_USERNAME").Some? || c.lastfmUsername != "")
  {
    EnvOverrides(c, env, LastfmApiKey);
    EnvOverrides(c, env, LastfmUsername);
  }

  /** A fresh settings record is not configured, and its audio quality is a valid one. */
  lemma DefaultsUnconfigured()
    ensures !IsConfigured(Defaults())
    ensures ValidateAudioQuality(Defaults().audioQuality)
  {
  }

  /** After the first `i` variables of the load order: those fields overridden, the rest as before. */
  ghost predicate LoadedUpTo(c: AppConfig, before: AppConfig, env: map<string, string>, i: nat) {
    forall f :: (Get(c, f) == if EnvIndex(f) < i then EnvOr(before, env, f) else Get(before, f))
  }

  /** One variable of the load order: its field takes the variable's value when it is set. */
  lemma LoadStep(c: AppConfig, before: AppConfig, env: map<string, string>, i: nat)
    requires i < |EnvFields| && LoadedUpTo(c, before, env, i)
    ensures var f := EnvFields[i];
      var value := EnvValue(env, EnvVar(f));
      LoadedUpTo(if value.Some? then Set(c, f, value.value) else c, before, env, i + 1)
  {
    EnvFieldsDistinct();
    assert EnvIndex(EnvFields[i]) == i;
  }

  /** With every variable loaded, the settings are exactly `FromEnv`. */
  lemma LoadedAll(c: AppConfig, before: AppConfig, env: map<string, string>)
    requires LoadedUpTo(c, before, env, |EnvFields|)
    ensures c == FromEnv(before, env)
  {
    forall f
      ensures Get(c, f) == Get(FromEnv(before, env), f)
    {
      EnvOverrides(before, env, f);
    }
    SameFields(c, FromEnv(before, env));
  }

  /** `ConfigManager`: holds the current settings. The JSON settings file is not modelled. */
  class ConfigManager {
    var config: AppConfig

    /** `ConfigManager()`: the defaults, then the environment overrides. */
    constructor(env: map<string, string>)
      ensures config == FromEnv(Defaults(), env)
    {
      config := Defaults();
      new;
      LoadFromEnv(env);
    }

    /** `_load_from_env`: every mapped variable that is set and non-empty overrides its field. */
    method LoadFromEnv(env: map<string, string>)
      modifies this
      ensures config == FromEnv(old(config), env)
    {
      ghost var before := config;
      var i := 0;
      while i < |EnvFields|
        invariant 0 <= i <= |EnvFields|
        invariant LoadedUpTo(config, before, env, i)
      {
        LoadStep(config, before, env, i);
        var f := EnvFields[i];
        var value := EnvValue(env, EnvVar(f));
        if value.Some? {
          config := Set(config, f, value.value);
        }
        i := i + 1;
      }
      LoadedAll(config, before, env);
    }

    /**
     * `update_config(**kwargs)`: every key naming a setting replaces it; unknown keys
     * are ignored and every other setting keeps its value. Saving the file afterwards
     * is not modelled.
     */
    method UpdateConfig(kwargs: map<string, string>)
      modifies this
      ensures forall f :: (Get(config, f) ==
        if FieldName(f) in kwargs then kwargs[FieldName(f)] else Get(old(config), f))
    {
      var remaining := kwargs.Keys;
      while remaining != {}
        invariant remaining <= kwargs.Keys
        invariant forall f :: (Get(config, f) ==
          if FieldName(f) in kwargs && FieldName(f) !in remaining then kwargs[FieldName(f)]
          else Get(old(config), f))
        decreases remaining
      {
        var key :| key in remaining;
        var field := FieldOf(key);
        if field.Some? {
          config := Set(config, field.value, kwargs[key]);
        }
        remaining := remaining - {key};
      }
    }
  }

  // ---------------------------------------------------------------------------
  // Validators and text utilities
  // ---------------------------------------------------------------------------

  const ValidQualities: seq<string> := ["128", "192", "256", "320"]

  /** `validate_audio_quality`: one of the four bit rates, so always three digits. */
  function ValidateAudioQuality(quality: string): (b: bool)
    ensures b ==> |quality| == 3 && AllDigits(quality)
  {
    quality in ValidQualities
  }

  /** The characters the sanitisers drop. */
  const InvalidChars: set<char> := {'<', '>', ':', '"', '/', '\\', '|', '?', '*'}

  /** Stripping keeps a slice, so it adds no character and no adjacent whitespace. */
  lemma StripKeeps(t: string)
    requires NoDoubleSpace(t)
    ensures NoDoubleSpace(Strip(t))
    ensures forall c :: c in Strip(t) ==> c in t
  {
    var a := LeadingSpaces(t);
    var r := Strip(t);
    assert r == RStrip(t[a..]);
    assert r == t[a..a + |r|];
    NoDoubleSpaceSlice(t, a, a + |r|);
  }

  /** The first three steps of `sanitize_filename`: drop, collapse whitespace, strip. */
  function CleanedName(s: string): string {
    Strip(CollapseSpaces(DropChars(s, InvalidChars), " "))
  }

  /**
   * The cleaned name has no forbidden character and no character that was not in the
   * name except the single space, whitespace only as single spaces, and none at either end.
   */
  lemma CleanedNameSafe(s: string)
    ensures forall c :: c in CleanedName(s) ==> c !in InvalidChars && (c in s || c == ' ')
    ensures forall c :: c in CleanedName(s) && IsSpace(c) ==> c == ' '
    ensures NoDoubleSpace(CleanedName(s)) && IsStripped(CleanedName(s))
  {
    var dropped := DropChars(s, InvalidChars);
    var collapsed := CollapseSpaces(dropped, " ");
    DropCharsSafe(s, InvalidChars);
    CollapseSpacesChars(dropped, " ");
    CollapseSingleSpaced(dropped);
    StripKeeps(collapsed);
  }

  /**
   * `sanitize_filename(filename, max_length)`. A cut can leave one trailing space.
   */
  function SanitizeFilename(s: string, maxLength: int): string {
    var t := CleanedName(s);
    if |t| > maxLength then PyPrefix(t, maxLength) else t
  }

  /**
   * A sanitised name has no forbidden character, whitespace only as single spaces, no
   * leading whitespace, and at most `max_length` characters.
   */
  lemma SanitizedIsSafe(s: string, maxLength: int)
    ensures var r := SanitizeFilename(s, maxLength);
      && (forall c :: c in r ==> c !in InvalidChars && (c in s || c == ' '))
      && (forall c :: c in r && IsSpace(c) ==> c == ' ')
      && NoDoubleSpace(r)
      && (r == [] || !IsSpace(r[0]))
      && (0 <= maxLength ==> |r| <= maxLength)
  {
    var t := CleanedName(s);
    CleanedNameSafe(s);
    if |t| > maxLength {
      var r := PyPrefix(t, maxLength);
      NoDoubleSpaceSlice(t, 0, |r|);
      assert forall c :: c in r ==> c in t;
      assert r != [] ==> r[0] == t[0];
    }
  }

  /** Text whose only whitespace is single spaces is left alone by `re.sub(r'\s+', ' ', s)`. */
  lemma {:induction false} CollapseSingleSpaces(s: string)
    requires NoDoubleSpace(s)
    requires forall c :: c in s && IsSpace(c) ==> c == ' '
    ensures CollapseSpaces(s, " ") == s
    decreases |s|
  {
    if s != [] {
      assert s[0] in s;
      assert forall c :: c in s[1..] ==> c in s;
      NoDoubleSpaceSlice(s, 1, |s|);
      CollapseSingleSpaces(s[1..]);
      if IsSpace(s[0]) {
        assert |s| > 1 ==> !IsSpace(s[1]);
        assert LeadingSpaces(s) == 1 by {
          if |s| > 1 {
            assert LeadingSpaces(s[1..]) == 0;
          }
        }
      }
      assert [s[0]] + s[1..] == s;
    }
  }

  /** A name that is already clean and short enough comes out of the sanitiser unchanged. */
  lemma SanitizeClean(s: string, maxLength: int)
    requires forall c :: c in s ==> c !in InvalidChars
    requires forall c :: c in s && IsSpace(c) ==> c == ' '
    requires NoDoubleSpace(s) && IsStripped(s) && |s| <= maxLength
    ensures SanitizeFilename(s, maxLength) == s
  {
    DropCharsNone(s, InvalidChars);
    CollapseSingleSpaces(s);
    StripOfStripped(s);
  }

  /** Sanitising a name that needed no cut a second time changes nothing. */
  lemma SanitizeIdempotentUncut(s: string, maxLength: int)
    requires |CleanedName(s)| <= maxLength
    ensures SanitizeFilename(SanitizeFilename(s, maxLength), maxLength) == SanitizeFilename(s, maxLength)
  {
    CleanedNameSafe(s);
    SanitizeClean(CleanedName(s), maxLength);
  }

  /** `f"{n:02d}"` for `n < 100`. */
  function TwoDigits(n: nat): (r: string)
    requires n < 100
    ensures |r| == 2 && AllDigits(r)
  {
    [DigitChar(n / 10), DigitChar(n % 10)]
  }

  lemma TwoDigitsRoundTrip(n: nat)
    requires n < 100
    ensures ParseDigits(TwoDigits(n)) == n
  {
    var r := TwoDigits(n);
    assert r[..1][..0] == [];
    assert r[..1] == [DigitChar(n / 10)];
    assert ParseDigits(r[..1]) == n / 10;
  }

  /**
   * `format_duration(seconds)` on whole seconds: `"0:00"` when not positive, `"M:SS"` under
   * an hour, `"H:MM:SS"` from an hour on.
   */
  function FormatDuration(seconds: int): (r: string)
    ensures seconds <= 0 ==> r == "0:00"
    ensures seconds > 0 ==> |SplitChar(r, ':')| == (if seconds < 3600 then 2 else 3)
  {
    if seconds <= 0 then "0:00"
    else
      var minutes := seconds / 60;
      var secs := seconds % 60;
      var ss := TwoDigits(secs);
      assert ':' !in ss;
      SplitCharNone(ss, ':');
      if minutes >= 60 then
        var hh := NatToString(minutes / 60);
        var mm := TwoDigits(minutes % 60);
        assert ':' !in hh && ':' !in mm;
        assert hh + ":" + mm + ":" + ss == hh + [':'] + (mm + [':'] + ss);
        SplitCharAppend(hh, mm + [':'] + ss, ':');
        SplitCharAppend(mm, ss, ':');
        hh + ":" + mm + ":" + ss
      else
        var m := NatToString(minutes);
        assert ':' !in m;
        SplitCharAppend(m, ss, ':');
        m + ":" + ss
  }

  /** Reads `"M:SS"` or `"H:MM:SS"` back into seconds: the inverse of `FormatDuration`. */
  function ParseDuration(text: string): Option<int> {
    var fields := SplitChar(text, ':');
    if exists i :: 0 <= i < |fields| && !AllDigits(fields[i]) then None
    else if |fields| == 2 then
      Some(ParseDigits(fields[0]) * 60 + ParseDigits(fields[1]))
    else if |fields| == 3 then
      Some(ParseDigits(fields[0]) * 3600 + ParseDigits(fields[1]) * 60 + ParseDigits(fields[2]))
    else None
  }

  /** The duration text of a positive number of seconds reads back as that number. */
  lemma FormatDurationRoundTrip(seconds: int)
    requires seconds > 0
    ensures ParseDuration(FormatDuration(seconds)) == Some(seconds)
  {
    if seconds / 60 >= 60 {
      RoundTripHours(seconds);
    } else {
      RoundTripMinutes(seconds);
    }
  }

  lemma RoundTripMinutes(seconds: int)
    requires seconds > 0 && seconds / 60 < 60
    ensures ParseDuration(FormatDuration(seconds)) == Some(seconds)
  {
    var ss := TwoDigits(seconds % 60);
    TwoDigitsRoundTrip(seconds % 60);
    var m := NatToString(seconds / 60);
    NatToStringRoundTrip(seconds / 60);
    SplitCharNone(ss, ':');
    SplitCharAppend(m, ss, ':');
    var fields := SplitChar(FormatDuration(seconds), ':');
    assert fields == [m, ss];
    assert forall i :: 0 <= i < |fields| ==> AllDigits(fields[i]);
    assert ParseDigits(fields[0]) * 60 + ParseDigits(fields[1]) == seconds;
  }

  lemma RoundTripHours(seconds: int)
    requires seconds / 60 >= 60
    ensures ParseDuration(FormatDuration(seconds)) == Some(seconds)
  {
    var minutes := seconds / 60;
    var ss := TwoDigits(seconds % 60);
    var hh := NatToString(minutes / 60);
    var mm := TwoDigits(minutes % 60);
    TwoDigitsRoundTrip(seconds % 60);
    NatToStringRoundTrip(minutes / 60);
    TwoDigitsRoundTrip(minutes % 60);
    SplitCharNone(ss, ':');
    assert hh + ":" + mm + ":" + ss == hh + [':'] + (mm + [':'] + ss);
    SplitCharAppend(hh, mm + [':'] + ss, ':');
    SplitCharAppend(mm, ss, ':');
    assert SplitChar(FormatDuration(seconds), ':') == [hh, mm, ss];
    assert seconds == minutes * 60 + seconds % 60;
    assert minutes == (minutes / 60) * 60 + minutes % 60;
  }

  /** The extensions `is_audio_file` accepts, lower-case. */
  const AudioExtensions: set<string> :=
    {".mp3", ".wav", ".flac", ".ogg", ".m4a", ".aac", ".wma", ".opus", ".mp4", ".m4p", ".3gp"}

  /** `s.rfind(c)`, as an option. */
  function LastIndex(s: string, c: char): (r: Option<nat>)
    ensures r.Some? ==> r.value < |s| && s[r.value] == c && forall j :: r.value < j < |s| ==> s[j] != c
    ensures r.None? ==> forall j :: 0 <= j < |s| ==> s[j] != c
    decreases |s|
  {
    if s == [] then None
    else if s[|s| - 1] == c then Some(|s| - 1)
    else LastIndex(s[..|s| - 1], c)
  }

  /** `PurePosixPath(p).name`: the text after the last `/`. */
  function BaseName(p: string): (r: string)
    ensures EndsWith(p, r) && '/' !in r
  {
    match LastIndex(p, '/')
    case None => p
    case Some(i) => p[i + 1..]
  }

  /** The suffix of a file name: from its last dot, unless that dot starts or ends the name. */
  function NameSuffix(name: string): (r: string)
    ensures r == [] || (r[0] == '.' && |r| >= 2 && EndsWith(name, r))
  {
    match LastIndex(name, '.')
    case Some(i) => if 0 < i < |name| - 1 then name[i..] else []
    case None => []
  }

  /** `Path(p).suffix`: the suffix of the last path component. */
  function Suffix(p: string): (r: string)
    ensures r == [] || (r[0] == '.' && |r| >= 2 && EndsWith(p, r))
  {
    var name := BaseName(p);
    var r := NameSuffix(name);
    assert r != [] ==> p[|p| - |r|..] == name[|name| - |r|..];
    r
  }

  /** `is_audio_file`: the lower-cased suffix is one of the audio extensions. */
  function IsAudioFile(p: string): bool {
    Lower(Suffix(p)) in AudioExtensions
  }

  /** The lower-cased suffix is a suffix of the lower-cased path. */
  lemma LowerSuffixEnds(p: string)
    ensures EndsWith(Lower(p), Lower(Suffix(p)))
  {
    var r := Suffix(p);
    if r != [] {
      LowerEndsWith(p, r);
    }
  }

  /** An audio file's lower-cased path ends with one of the audio extensions. */
  lemma AudioFileHasExtension(p: string)
    ensures IsAudioFile(p) ==> exists e :: e in AudioExtensions && EndsWith(Lower(p), e)
  {
    LowerSuffixEnds(p);
  }

  /** Lower-casing neither creates nor removes a separator, so `rfind` of one is unchanged. */
  lemma {:induction false} LastIndexLower(s: string, c: char)
    requires c == '/' || c == '.'
    ensures LastIndex(Lower(s), c) == LastIndex(s, c)
    decreases |s|
  {
    if s != [] {
      var t := s[..|s| - 1];
      assert Lower(s)[..|s| - 1] == Lower(t);
      LastIndexLower(t, c);
    }
  }

  lemma BaseNameLower(p: string)
    ensures BaseName(Lower(p)) == Lower(BaseName(p))
  {
    LastIndexLower(p, '/');
  }

  lemma NameSuffixLower(name: string)
    ensures NameSuffix(Lower(name)) == Lower(NameSuffix(name))
  {
    LastIndexLower(name, '.');
    match LastIndex(name, '.') {
      case Some(i) =>
        if 0 < i < |name| - 1 {
          assert Lower(name)[i..] == Lower(name[i..]);
        }
      case None =>
    }
  }

  lemma SuffixLower(p: string)
    ensures Suffix(Lower(p)) == Lower(Suffix(p))
  {
    BaseNameLower(p);
    NameSuffixLower(BaseName(p));
  }

  /** The check ignores case: a path and its lower-cased form are both audio files or neither. */
  lemma IsAudioFileIgnoresCase(p: string)
    ensures IsAudioFile(Lower(p)) == IsAudioFile(p)
  {
    SuffixLower(p);
    LowerIdempotent(Suffix(p));
  }

  // ---------------------------------------------------------------------------
  // Progress counter
  // ---------------------------------------------------------------------------

  /** `ProgressTracker`: a counter capped at its total. */
  class ProgressTracker {
    var total: int
    var current: int
    var description: string

    constructor(total: int, description: string)
      ensures this.total == total && current == 0 && this.description == description
    {
      this.total := total;
      current := 0;
      this.description := description;
    }

    /** `is_complete` */
    function IsComplete(): (b: bool)
      reads this
      ensures b <==> current >= total
    {
      current >= total
    }

    /**
     * `update(increment)`: adds the increment but never goes past the total; the
     * tracker is complete afterwards exactly when the sum reached the total.
     */
    method Update(increment: int)
      modifies this
      ensures current == Min(old(current) + increment, total)
      ensures current <= total
      ensures IsComplete() <==> old(current) + increment >= total
      ensures total == old(total) && description == old(description)
    {
      current := current + increment;
      if current > total {
        current := total;
      }
    }

    /** `reset`: back to zero, so complete only when the total is not positive. */
    method Reset()
      modifies this
      ensures current == 0
      ensures IsComplete() <==> total <= 0
      ensures total == old(total) && description == old(description)
    {
      current := 0;
    }
  }
}
