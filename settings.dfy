/**
 * The vocabulary of the session configurator: the operator's configuration
 * record, the engine setting names it writes, the typed values a settings
 * pack holds, and the engine enumeration values the configurator uses.
 */
module Settings {
  import opened Wrappers

  /** The optional proxy block of the configuration. */
  datatype ProxySettings = ProxySettings(
    proxyType: int,
    port: int,
    hostname: string,
    username: string,
    password: string)

  /** The operator's configuration, replaced wholesale on reconfigure. */
  datatype BTConfiguration = BTConfiguration(
    backgroundHandling: bool,
    bufferSize: int,
    maxUploadRate: int,
    maxDownloadRate: int,
    limitAfterBuffering: bool,
    connectionsLimit: int,
    sessionSave: int,
    shareRatioLimit: int,
    seedTimeRatioLimit: int,
    seedTimeLimit: int,
    disableDHT: bool,
    disableUPNP: bool,
    encryptionPolicy: int,
    lowerListenPort: int,
    upperListenPort: int,
    downloadPath: string,
    torrentsPath: string,
    proxy: Option<ProxySettings>)

  /** A value held by the settings pack under one setting name. */
  datatype Setting = IntVal(i: int) | StrVal(s: string) | BoolVal(b: bool)

  /** Settings configure writes on every run: the user agent and the fixed tuning. */
  datatype TuningKey =
    | UserAgent | RequestTimeout | PeerConnectTimeout | StrictEndGameMode | AnnounceToAllTrackers
    | AnnounceToAllTiers | ConnectionSpeed | PeerTos | TorrentConnectBoost | RateLimitIpOverhead
    | NoAtimeStorage | AnnounceDoubleNat | PrioritizePartialPieces | FreeTorrentHashes
    | UseParoleMode | SeedChokingAlgorithm | UpnpIgnoreNonrouters | LazyBitfields
    | StopTrackerTimeout | AutoScrapeInterval | AutoScrapeMinInterval | IgnoreLimitsOnLocalNetwork
    | RateLimitUtp | MixedModeAlgorithm
  {
    function Name(): string {
      match this
      case UserAgent => "user_agent"
      case RequestTimeout => "request_timeout"
      case PeerConnectTimeout => "peer_connect_timeout"
      case StrictEndGameMode => "strict_end_game_mode"
      case AnnounceToAllTrackers => "announce_to_all_trackers"
      case AnnounceToAllTiers => "announce_to_all_tiers"
      case ConnectionSpeed => "connection_speed"
      case PeerTos => "peer_tos"
      case TorrentConnectBoost => "torrent_connect_boost"
      case RateLimitIpOverhead => "rate_limit_ip_overhead"
      case NoAtimeStorage => "no_atime_storage"
      case AnnounceDoubleNat => "announce_double_nat"
      case PrioritizePartialPieces => "prioritize_partial_pieces"
      case FreeTorrentHashes => "free_torrent_hashes"
      case UseParoleMode => "use_parole_mode"
      case SeedChokingAlgorithm => "seed_choking_algorithm"
      case UpnpIgnoreNonrouters => "upnp_ignore_nonrouters"
      case LazyBitfields => "lazy_bitfields"
      case StopTrackerTimeout => "stop_tracker_timeout"
      case AutoScrapeInterval => "auto_scrape_interval"
      case AutoScrapeMinInterval => "auto_scrape_min_interval"
      case IgnoreLimitsOnLocalNetwork => "ignore_limits_on_local_network"
      case RateLimitUtp => "rate_limit_utp"
      case MixedModeAlgorithm => "mixed_mode_algorithm"
    }
  }

  /** The connection, rate, choker and seeding limits: a default first, then the configured value. */
  datatype LimitKey =
    | ConnectionsLimit | DownloadRateLimit | UploadRateLimit | ChokingAlgorithm | ShareRatioLimit
    | SeedTimeRatioLimit | SeedTimeLimit
  {
    function Name(): string {
      match this
      case ConnectionsLimit => "connections_limit"
      case DownloadRateLimit => "download_rate_limit"
      case UploadRateLimit => "upload_rate_limit"
      case ChokingAlgorithm => "choking_algorithm"
      case ShareRatioLimit => "share_ratio_limit"
      case SeedTimeRatioLimit => "seed_time_ratio_limit"
      case SeedTimeLimit => "seed_time_limit"
    }
  }

  /** The protocol-encryption settings, written only for a positive policy. */
  datatype EncryptionKey =
    | OutEncPolicy | InEncPolicy | AllowedEncLevel | PreferRc4
  {
    function Name(): string {
      match this
      case OutEncPolicy => "out_enc_policy"
      case InEncPolicy => "in_enc_policy"
      case AllowedEncLevel => "allowed_enc_level"
      case PreferRc4 => "prefer_rc4"
    }
  }

  /** The proxy settings, and the I2P ones among them, written only with a proxy block. */
  datatype ProxyKey =
    | ProxyType | ProxyPort | ProxyHostname | ProxyUsername | ProxyPassword
    | ProxyTrackerConnections | ProxyPeerConnections | ProxyHostnames | ForceProxy | I2pPort
    | I2pHostname | AllowsI2pMixed
  {
    function Name(): string {
      match this
      case ProxyType => "proxy_type"
      case ProxyPort => "proxy_port"
      case ProxyHostname => "proxy_hostname"
      case ProxyUsername => "proxy_username"
      case ProxyPassword => "proxy_password"
      case ProxyTrackerConnections => "proxy_tracker_connections"
      case ProxyPeerConnections => "proxy_peer_connections"
      case ProxyHostnames => "proxy_hostnames"
      case ForceProxy => "force_proxy"
      case I2pPort => "i2p_port"
      case I2pHostname => "i2p_hostname"
      case AllowsI2pMixed => "allows_i2p_mixed"
    }
  }

  /** The discovery-service switches startServices and stopServices write. */
  datatype ServiceKey =
    | EnableLsd | DhtBootstrapNodes | EnableDht | EnableUpnp | EnableNatpmp
  {
    function Name(): string {
      match this
      case EnableLsd => "enable_lsd"
      case DhtBootstrapNodes => "dht_bootstrap_nodes"
      case EnableDht => "enable_dht"
      case EnableUpnp => "enable_upnp"
      case EnableNatpmp => "enable_natpmp"
    }
  }
  /**
   * The engine settings this service writes, grouped by the part of the
   * service that writes them; Name() is the engine's name for each.
   */
  datatype Key =
    | Tuning(tuningKey: TuningKey)
    | Limit(limitKey: LimitKey)
    | Encryption(encryptionKey: EncryptionKey)
    | Proxy(proxyKey: ProxyKey)
    | Service(serviceKey: ServiceKey)
  {
    function Name(): string {
      match this
      case Tuning(k) => k.Name()
      case Limit(k) => k.Name()
      case Encryption(k) => k.Name()
      case Proxy(k) => k.Name()
      case Service(k) => k.Name()
    }
  }

  /**
   * A settings pack: a value per setting name that has been written, held in
   * one map per group of keys. Set replaces the value under its key, so the
   * last write wins.
   */
  datatype Pack = Pack(
    tuning: map<TuningKey, Setting>,
    limits: map<LimitKey, Setting>,
    encryption: map<EncryptionKey, Setting>,
    proxy: map<ProxyKey, Setting>,
    services: map<ServiceKey, Setting>)
  {
    /** The value written last under k, if any. */
    function Get(k: Key): Option<Setting> {
      match k
      case Tuning(t) => if t in tuning then Some(tuning[t]) else None
      case Limit(l) => if l in limits then Some(limits[l]) else None
      case Encryption(e) => if e in encryption then Some(encryption[e]) else None
      case Proxy(x) => if x in proxy then Some(proxy[x]) else None
      case Service(s) => if s in services then Some(services[s]) else None
    }

    /** The pack after writing v under k. */
    function Set(k: Key, v: Setting): Pack {
      match k
      case Tuning(t) => this.(tuning := tuning[t := v])
      case Limit(l) => this.(limits := limits[l := v])
      case Encryption(e) => this.(encryption := encryption[e := v])
      case Proxy(x) => this.(proxy := proxy[x := v])
      case Service(s) => this.(services := services[s := v])
    }

    /** The pack holds value v under key k. */
    predicate Has(k: Key, v: Setting) {
      Get(k) == Some(v)
    }
  }

  /** A fresh pack, with nothing written. */
  const EmptyPack := Pack(map[], map[], map[], map[], map[])

  /** Nothing is written in a fresh pack. */
  lemma EmptyPackHasNothing(k: Key)
    ensures EmptyPack.Get(k) == None
  {
  }

  /**
   * The pack behaves as one map from setting to value: a write is read back
   * under its own key, and every other key reads as before.
   */
  lemma SetThenGet(p: Pack, k: Key, v: Setting, k': Key)
    ensures p.Set(k, v).Get(k') == if k' == k then Some(v) else p.Get(k')
  {
  }

  // Values of the engine's settings_pack enumerations (libtorrent).
  const FixedSlotsChoker := 0
  const BittyrantChoker := 3
  const FastestUpload := 1
  const PreferTcp := 0
  const PeForced := 0
  const PeDisabled := 2
  const PeRc4 := 2
  const PeBoth := 3

  // The service's own proxy-type enumeration.
  const ProxyTypeNone := 0
  const ProxyTypeI2PSAM := 6

  /** Type-of-service classes named by the ipToS constants. */
  datatype TosClass = TosDefault | LowDelay | Reliability | Throughput | LowCost

  function Pow2(k: nat): nat {
    if k == 0 then 1 else 2 * Pow2(k - 1)
  }

  /**
   * The values the ipToS constant block actually takes: the block's counter
   * starts at 0 on the first line, so the k-th shifted constant is 1 << k.
   */
  function IpTosAsWritten(c: TosClass): (b: nat)
    ensures Rfc1349Class(b).Some?
    ensures c in {TosDefault, Reliability, Throughput} ==> Rfc1349Class(b) == Some(c)
  {
    match c
    case TosDefault => 0
    case LowDelay => Pow2(1)
    case Reliability => Pow2(2)
    case Throughput => Pow2(3)
    case LowCost => Pow2(4)
  }

  /** The class a type-of-service byte selects, following section 4 of RFC 1349. */
  function Rfc1349Class(tos: int): Option<TosClass> {
    if tos == 0x00 then Some(TosDefault)
    else if tos == 0x10 then Some(LowDelay)
    else if tos == 0x08 then Some(Throughput)
    else if tos == 0x04 then Some(Reliability)
    else if tos == 0x02 then Some(LowCost)
    else None
  }

  /** The type-of-service byte for each class, as RFC 1349 assigns it. */
  function IpTos(c: TosClass): (b: nat)
    ensures Rfc1349Class(b) == Some(c)
  {
    match c
    case TosDefault => 0x00
    case LowDelay => 0x10
    case Reliability => 0x04
    case Throughput => 0x08
    case LowCost => 0x02
  }

  /**
   * The constant block as written swaps two classes: the value named low cost
   * asks routers for minimum delay, and the value named low delay asks for
   * minimum cost.
   */
  lemma TosBlockSwapsDelayAndCost()
    ensures IpTosAsWritten(LowCost) == 16
    ensures Rfc1349Class(IpTosAsWritten(LowCost)) == Some(LowDelay)
    ensures Rfc1349Class(IpTosAsWritten(LowDelay)) == Some(LowCost)
    ensures IpTosAsWritten(LowCost) != IpTos(LowCost)
  {
  }

  /** A configured limit when it is positive, the engine's "unlimited" 0 otherwise. */
  function PositiveOrZero(limit: int): (r: int)
    ensures r >= 0
    ensures r > 0 <==> limit > 0
    ensures limit > 0 ==> r == limit
  {
    if limit > 0 then limit else 0
  }

  /** The DHT routers the service bootstraps from. */
  const DhtRouters: seq<string> := [
    "router.bittorrent.com",
    "router.utorrent.com",
    "dht.transmissionbt.com",
    "dht.aelitis.com"]

  /** The parts with the separator between each two neighbours. */
  function Join(parts: seq<string>, sep: string): string {
    if parts == [] then ""
    else if |parts| == 1 then parts[0]
    else parts[0] + sep + Join(parts[1..], sep)
  }

  /** Every node name with the DHT port appended. */
  function WithDhtPort(nodes: seq<string>): (r: seq<string>)
    ensures |r| == |nodes|
  {
    seq(|nodes|, i requires 0 <= i < |nodes| => nodes[i] + ":6881")
  }

  /** The bootstrap string: the nodes joined by ":6881," with ":6881" appended. */
  function BootstrapNodes(nodes: seq<string>): (s: string)
    ensures nodes != [] ==> s == Join(WithDhtPort(nodes), ",")
    ensures nodes == [] ==> s == ":6881"
  {
    BootstrapNodesAreHostPorts(nodes);
    Join(nodes, ":6881,") + ":6881"
  }

  /**
   * Joining a non-empty node list with ":6881," and appending ":6881" gives
   * the comma-separated list of host:6881 entries.
   */
  lemma {:induction false} BootstrapNodesAreHostPorts(nodes: seq<string>)
    ensures nodes != [] ==> Join(nodes, ":6881,") + ":6881" == Join(WithDhtPort(nodes), ",")
  {
    if |nodes| >= 2 {
      var rest := nodes[1..];
      BootstrapNodesAreHostPorts(rest);
      assert WithDhtPort(nodes)[1..] == WithDhtPort(rest);
      calc {
        Join(nodes, ":6881,") + ":6881";
        nodes[0] + ":6881," + Join(rest, ":6881,") + ":6881";
        (nodes[0] + ":6881") + "," + (Join(rest, ":6881,") + ":6881");
        WithDhtPort(nodes)[0] + "," + Join(WithDhtPort(rest), ",");
        Join(WithDhtPort(nodes), ",");
      }
    }
  }
}
