/**
 * The registry of configured music services: which adapters exist, which services are
 * enabled with which credentials, single-service dispatch and the all-services aggregates.
 *
 * An adapter is represented by the service it talks to and the settings its constructor
 * reads from the credentials. What an adapter answers over the network is a `Backend`
 * of functions, one per adapter operation.
 */
module ServiceManager {
  import opened Wrappers
  import opened MusicModel
  import Lastfm = LastfmService
  import Youtube = YoutubeService

  type Credentials = map<string, string>

  /** The configuration record kept per service. */
  datatype ServiceConfig = ServiceConfig(serviceType: ServiceType, enabled: bool, credentials: Credentials)

  /** A constructed adapter: its service and the constructor arguments it was given. */
  datatype Adapter = Adapter(serviceType: ServiceType, settings: map<string, string>)

  /** Keyword arguments passed through to an adapter. */
  type Kwargs = map<string, string>

  /** What the adapters do beyond their constructors; `Err` carries an exception's message. */
  datatype Backend = Backend(
    builds: Adapter -> bool,
    connects: Adapter -> bool,
    userPlaylists: (Adapter, Kwargs) -> Result<seq<PlaylistInfo>, string>,
    playlistTracks: (Adapter, string, Kwargs) -> Result<PlaylistInfo, string>,
    search: (Adapter, string, int) -> Result<seq<PlaylistInfo>, string>)

  /** What a dispatch raises: `ValueError` for a service without an adapter, or the adapter's own exception. */
  datatype Failure = ValueError(message: string) | AdapterError(message: string)

  /** The credential keys each adapter's constructor reads. */
  function CredentialKeys(t: ServiceType): seq<string> {
    match t
    case LastFm => ["api_key", "api_secret", "username"]
    case YouTube => ["api_key", "channel_id"]
    case Spotify => ["client_id", "client_secret", "user_id"]
  }

  /** The adapter `configure_service` builds: each key it reads, defaulting to "" when absent. */
  function AdapterFor(t: ServiceType, credentials: Credentials): (a: Adapter)
    ensures a.serviceType == t
    ensures forall k :: k in a.settings <==> k in CredentialKeys(t)
    ensures forall k :: k in a.settings ==> a.settings[k] == (if k in credentials then credentials[k] else "")
  {
    Adapter(t, map k | k in CredentialKeys(t) :: if k in credentials then credentials[k] else "")
  }

  /** The playlist kinds each adapter advertises; the Spotify adapter keeps the base class's empty list. */
  function SupportedFor(t: ServiceType): seq<PlaylistType> {
    match t
    case LastFm => Lastfm.SupportedPlaylistTypes()
    case YouTube => Youtube.SupportedPlaylistTypes()
    case Spotify => BaseSupportedPlaylistTypes()
  }

  /** The three configurations a new manager starts with: disabled, no credentials. */
  const InitialConfigs: map<ServiceType, ServiceConfig> :=
    map[LastFm := ServiceConfig(LastFm, false, map[]),
        YouTube := ServiceConfig(YouTube, false, map[]),
        Spotify := ServiceConfig(Spotify, false, map[])]

  /** The message of the `ValueError` raised for a service without an adapter. */
  function NotConfiguredMessage(t: ServiceType): string {
    "Service " + ServiceTag(t) + " is not configured"
  }

  /** An adapter's result as the manager passes it on: its exception re-raised unchanged. */
  function Lift<T>(r: Result<T, string>): Result<T, Failure> {
    match r
    case Ok(v) => Ok(v)
    case Err(m) => Err(AdapterError(m))
  }

  /** A dispatched call's result, or `[]` when it raised, as the aggregates record it. */
  function OrEmpty(r: Result<seq<PlaylistInfo>, Failure>): seq<PlaylistInfo> {
    if r.Ok? then r.value else []
  }

  /** What the aggregates record for an adapter's answer. */
  function Recorded(r: Result<seq<PlaylistInfo>, string>): (ps: seq<PlaylistInfo>)
    ensures r.Err? ==> ps == []
    ensures r.Ok? ==> ps == r.value
  {
    OrEmpty(Lift(r))
  }

  /** What `debug_service_status` reports for one service. */
  datatype Status = Status(enabled: bool, hasCredentials: bool, credentialKeys: set<string>,
                           serviceInstance: bool, connectionTest: bool)

  class MusicServiceManager {
    var services: map<ServiceType, Adapter>
    var configs: map<ServiceType, ServiceConfig>

    /**
     * Every service has its configuration; a service has an adapter exactly when it is
     * enabled, and that adapter talks to that service.
     */
    ghost predicate Valid()
      reads this
    {
      (forall t: ServiceType :: t in configs && configs[t].serviceType == t) &&
      (forall t :: t in services <==> configs[t].enabled) &&
      (forall t :: t in services ==> services[t].serviceType == t)
    }

    constructor()
      ensures Valid()
      ensures services == map[] && configs == InitialConfigs
    {
      services := map[];
      configs := InitialConfigs;
      new;
      forall t: ServiceType
        ensures t in configs && configs[t].serviceType == t
      {
        InitiallyNothingEnabled(t);
      }
    }

    /**
     * `configure_service(service_type, credentials)`: build the adapter and test it. Only
     * when the test passes are the adapter stored and the service enabled with these
     * credentials; otherwise (including a constructor that raises) nothing changes.
     */
    method ConfigureService(t: ServiceType, credentials: Credentials, backend: Backend) returns (ok: bool)
      requires Valid()
      modifies this
      ensures Valid()
      ensures ok <==> backend.builds(AdapterFor(t, credentials)) && backend.connects(AdapterFor(t, credentials))
      ensures ok ==> services == old(services)[t := AdapterFor(t, credentials)]
      ensures ok ==> configs == old(configs)[t := ServiceConfig(t, true, credentials)]
      ensures !ok ==> services == old(services) && configs == old(configs)
    {
      var adapter := AdapterFor(t, credentials);
      if !backend.builds(adapter) {
        return false;
      }
      if backend.connects(adapter) {
        services := services[t := adapter];
        configs := configs[t := configs[t].(enabled := true, credentials := credentials)];
        return true;
      }
      return false;
    }

    /** `get_enabled_services`: the enabled services, in the configuration table's order. */
    function EnabledServices(): (r: seq<ServiceType>)
      reads this
      requires Valid()
      ensures forall t :: t in r <==> configs[t].enabled
      ensures forall i, j :: 0 <= i < j < |r| ==> r[i] != r[j]
      ensures |r| <= 3
    {
      (if configs[LastFm].enabled then [LastFm] else []) +
      (if configs[YouTube].enabled then [YouTube] else []) +
      (if configs[Spotify].enabled then [Spotify] else [])
    }

    /** `get_service` */
    function GetService(t: ServiceType): (r: Option<Adapter>)
      reads this
      ensures r.Some? <==> t in services
      ensures r.Some? ==> r.value == services[t]
    {
      if t in services then Some(services[t]) else None
    }

    /** `is_service_enabled` */
    function IsServiceEnabled(t: ServiceType): bool
      reads this
      requires Valid()
    {
      configs[t].enabled
    }

    /** The enabled list, the enabled flag and the stored adapters all agree. */
    lemma EnabledAgrees(t: ServiceType)
      requires Valid()
      ensures t in EnabledServices() <==> IsServiceEnabled(t)
      ensures IsServiceEnabled(t) <==> GetService(t).Some?
    {
    }

    /** `get_user_playlists(service_type, **kwargs)` */
    method GetUserPlaylists(t: ServiceType, kwargs: Kwargs, backend: Backend)
      returns (r: Result<seq<PlaylistInfo>, Failure>)
      ensures t !in services ==> r == Err(ValueError(NotConfiguredMessage(t)))
      ensures t in services ==>
        r == Lift(backend.userPlaylists(services[t], kwargs))
    {
      var service := GetService(t);
      if service.None? {
        return Err(ValueError(NotConfiguredMessage(t)));
      }
      r := Lift(backend.userPlaylists(service.value, kwargs));
    }

    /** `get_playlist_tracks(service_type, playlist_id, **kwargs)` */
    method GetPlaylistTracks(t: ServiceType, playlistId: string, kwargs: Kwargs, backend: Backend)
      returns (r: Result<PlaylistInfo, Failure>)
      ensures t !in services ==> r == Err(ValueError(NotConfiguredMessage(t)))
      ensures t in services ==>
        r == Lift(backend.playlistTracks(services[t], playlistId, kwargs))
    {
      var service := GetService(t);
      if service.None? {
        return Err(ValueError(NotConfiguredMessage(t)));
      }
      r := Lift(backend.playlistTracks(service.value, playlistId, kwargs));
    }

    /** `search_playlists(service_type, query, limit)` */
    method SearchPlaylists(t: ServiceType, query: string, limit: int, backend: Backend)
      returns (r: Result<seq<PlaylistInfo>, Failure>)
      ensures t !in services ==> r == Err(ValueError(NotConfiguredMessage(t)))
      ensures t in services ==>
        r == Lift(backend.search(services[t], query, limit))
    {
      var service := GetService(t);
      if service.None? {
        return Err(ValueError(NotConfiguredMessage(t)));
      }
      r := Lift(backend.search(service.value, query, limit));
    }

    /** `get_supported_playlist_types`: nothing for a service without an adapter. */
    function GetSupportedPlaylistTypes(t: ServiceType): (r: seq<PlaylistType>)
      reads this
      requires Valid()
      ensures t !in services ==> r == []
      ensures t in services ==> r == SupportedFor(t)
    {
      if t !in services then [] else SupportedFor(services[t].serviceType)
    }

    /** `test_service_connection`: false for a service without an adapter. */
    function TestServiceConnection(t: ServiceType, backend: Backend): (ok: bool)
      reads this
      ensures ok <==> t in services && backend.connects(services[t])
    {
      t in services && backend.connects(services[t])
    }

    /** What the aggregates record for asking one service for its playlists. */
    function PlaylistsOrEmpty(t: ServiceType, kwargs: Kwargs, backend: Backend): seq<PlaylistInfo>
      reads this
    {
      if t in services then Recorded(backend.userPlaylists(services[t], kwargs)) else []
    }

    /** What the aggregates record for searching one service. */
    function SearchOrEmpty(t: ServiceType, query: string, limit: int, backend: Backend): seq<PlaylistInfo>
      reads this
    {
      if t in services then Recorded(backend.search(services[t], query, limit)) else []
    }

    /**
     * `get_all_playlists(**kwargs)`: one entry per enabled service, holding its playlists,
     * or `[]` when asking that service raised; a failure does not stop the other services.
     */
    method GetAllPlaylists(kwargs: Kwargs, backend: Backend) returns (results: map<ServiceType, seq<PlaylistInfo>>)
      requires Valid()
      ensures forall t :: t in results <==> IsServiceEnabled(t)
      ensures forall t :: t in results ==> results[t] == PlaylistsOrEmpty(t, kwargs, backend)
    {
      var enabled := EnabledServices();
      results := map[];
      var i := 0;
      while i < |enabled|
        invariant 0 <= i <= |enabled|
        invariant forall t :: t in results <==> t in enabled[..i]
        invariant forall t :: t in results ==> results[t] == PlaylistsOrEmpty(t, kwargs, backend)
      {
        var t := enabled[i];
        var r := GetUserPlaylists(t, kwargs, backend);
        results := results[t := OrEmpty(r)];
        i := i + 1;
      }
    }

    /**
     * `search_all_services(query, limit)`: one entry per enabled service, holding its search
     * results, or `[]` when that search raised.
     */
    method SearchAllServices(query: string, limit: int, backend: Backend)
      returns (results: map<ServiceType, seq<PlaylistInfo>>)
      requires Valid()
      ensures forall t :: t in results <==> IsServiceEnabled(t)
      ensures forall t :: t in results ==> results[t] == SearchOrEmpty(t, query, limit, backend)
    {
      var enabled := EnabledServices();
      results := map[];
      var i := 0;
      while i < |enabled|
        invariant 0 <= i <= |enabled|
        invariant forall t :: t in results <==> t in enabled[..i]
        invariant forall t :: t in results ==> results[t] == SearchOrEmpty(t, query, limit, backend)
      {
        var t := enabled[i];
        var r := SearchPlaylists(t, query, limit, backend);
        results := results[t := OrEmpty(r)];
        i := i + 1;
      }
    }

    /**
     * For an enabled service the aggregates record exactly its adapter's answer, or `[]`
     * when the adapter raised.
     */
    lemma AggregateEntries(t: ServiceType, kwargs: Kwargs, query: string, limit: int, backend: Backend)
      requires Valid() && IsServiceEnabled(t)
      ensures backend.userPlaylists(services[t], kwargs).Ok? ==>
        PlaylistsOrEmpty(t, kwargs, backend) == backend.userPlaylists(services[t], kwargs).value
      ensures backend.userPlaylists(services[t], kwargs).Err? ==> PlaylistsOrEmpty(t, kwargs, backend) == []
      ensures backend.search(services[t], query, limit).Ok? ==>
        SearchOrEmpty(t, query, limit, backend) == backend.search(services[t], query, limit).value
      ensures backend.search(services[t], query, limit).Err? ==> SearchOrEmpty(t, query, limit, backend) == []
    {
    }

    /** `debug_service_status`: per service, its flags, credential keys and a fresh connection test. */
    function DebugServiceStatus(backend: Backend): (r: map<ServiceType, Status>)
      reads this
      requires Valid()
      ensures forall t: ServiceType :: t in r
      ensures forall t: ServiceType ::
        (r[t].enabled == configs[t].enabled &&
         r[t].serviceInstance == (t in services) &&
         r[t].hasCredentials == (configs[t].credentials != map[]) &&
         r[t].credentialKeys == configs[t].credentials.Keys &&
         r[t].connectionTest == TestServiceConnection(t, backend))
    {
      map t: ServiceType | t in configs ::
        Status(configs[t].enabled, configs[t].credentials != map[], configs[t].credentials.Keys,
               t in services, TestServiceConnection(t, backend))
    }
  }

  /** A fresh manager has no adapters and no enabled service. */
  lemma InitiallyNothingEnabled(t: ServiceType)
    ensures t in InitialConfigs && !InitialConfigs[t].enabled && InitialConfigs[t].credentials == map[]
    ensures InitialConfigs[t].serviceType == t
  {
  }
}
