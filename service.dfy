/**
 * The service object: the configuration it runs under, the settings pack it
 * applies to the engine session, the background progress dialog, and the
 * rotating cursor of the download-progress loop.
 */
module Service {
  import opened Wrappers
  import opened Settings
  import opened Seeding

  /** The background progress dialog: none, showing, or closed but still held by the service. */
  datatype Dialog = Absent | Showing | Closed

  /** The seeding limits the download-progress loop enforces. */
  function LimitsOf(c: BTConfiguration): SeedingLimits {
    SeedingLimits(c.seedTimeLimit, c.seedTimeRatioLimit, c.shareRatioLimit)
  }

  /** The proxy block is present and, shifted by one, selects the I2P SAM type. */
  predicate UsesI2P(c: BTConfiguration) {
    c.proxy.Some? && c.proxy.value.proxyType + 1 == ProxyTypeI2PSAM
  }

  /**
   * The user agent and the fixed tuning configure writes on every run, in the
   * order it writes them. The peer type-of-service byte is the constant named
   * low cost, with the value 16 the constant block gives it, which RFC 1349
   * reads as "minimize delay" and not as the low-cost class.
   */
  function FixedTuning(userAgent: string): (tuning: map<TuningKey, Setting>)
    ensures UserAgent in tuning && tuning[UserAgent] == StrVal(userAgent)
    ensures PeerTos in tuning && tuning[PeerTos] == IntVal(16)
    ensures Rfc1349Class(tuning[PeerTos].i) == Some(LowDelay)
    ensures tuning[PeerTos] != IntVal(IpTos(LowCost))
  {
    map[
      UserAgent := StrVal(userAgent),
      RequestTimeout := IntVal(2),
      PeerConnectTimeout := IntVal(2),
      StrictEndGameMode := BoolVal(true),
      AnnounceToAllTrackers := BoolVal(true),
      AnnounceToAllTiers := BoolVal(true),
      ConnectionSpeed := IntVal(500),
      PeerTos := IntVal(IpTosAsWritten(LowCost)),
      TorrentConnectBoost := IntVal(0),
      RateLimitIpOverhead := BoolVal(true),
      NoAtimeStorage := BoolVal(true),
      AnnounceDoubleNat := BoolVal(true),
      PrioritizePartialPieces := BoolVal(false),
      FreeTorrentHashes := BoolVal(true),
      UseParoleMode := BoolVal(true),
      SeedChokingAlgorithm := IntVal(FastestUpload),
      UpnpIgnoreNonrouters := BoolVal(true),
      LazyBitfields := BoolVal(true),
      StopTrackerTimeout := IntVal(1),
      AutoScrapeInterval := IntVal(1200),
      AutoScrapeMinInterval := IntVal(900),
      IgnoreLimitsOnLocalNetwork := BoolVal(true),
      RateLimitUtp := BoolVal(true),
      MixedModeAlgorithm := IntVal(PreferTcp)
    ]
  }

  /**
   * What configure leaves in the pack for configuration c: the fixed tuning,
   * each conditional setting with the value of its last write, and nothing
   * in a group the configuration does not call for.
   */
  predicate Configured(p: Pack, c: BTConfiguration, userAgent: string) {
    && p.tuning == FixedTuning(userAgent)
    && LimitsConfigured(p, c)
    && EncryptionConfigured(p, c.encryptionPolicy)
    && ProxyConfigured(p, c)
    && I2PConfigured(p, c)
  }

  /** The connection, rate, choker and seeding limits configure leaves. */
  predicate LimitsConfigured(p: Pack, c: BTConfiguration) {
    // An explicit connection limit replaces the default 0.
    && p.Has(Limit(ConnectionsLimit), IntVal(PositiveOrZero(c.connectionsLimit)))
    // Rate limits apply at once unless they are to apply after buffering;
    // an upload limit also selects the bittyrant choker.
    && p.Has(Limit(DownloadRateLimit), IntVal(if c.limitAfterBuffering then 0 else PositiveOrZero(c.maxDownloadRate)))
    && p.Has(Limit(UploadRateLimit), IntVal(if c.limitAfterBuffering then 0 else PositiveOrZero(c.maxUploadRate)))
    && p.Has(Limit(ChokingAlgorithm), IntVal(
         if !c.limitAfterBuffering && c.maxUploadRate > 0 then BittyrantChoker else FixedSlotsChoker))
    && p.Has(Limit(ShareRatioLimit), IntVal(PositiveOrZero(c.shareRatioLimit)))
    && p.Has(Limit(SeedTimeRatioLimit), IntVal(PositiveOrZero(c.seedTimeRatioLimit)))
    && p.Has(Limit(SeedTimeLimit), IntVal(PositiveOrZero(c.seedTimeLimit)))
  }

  /**
   * Policy 0 (or less) writes no encryption setting. Policy 2 forces RC4 both
   * ways; any other positive policy writes the disabled policy with both
   * levels allowed.
   */
  predicate EncryptionConfigured(p: Pack, policy: int) {
    if policy > 0 then
      && p.Has(Encryption(OutEncPolicy), IntVal(if policy == 2 then PeForced else PeDisabled))
      && p.Has(Encryption(InEncPolicy), IntVal(if policy == 2 then PeForced else PeDisabled))
      && p.Has(Encryption(AllowedEncLevel), IntVal(if policy == 2 then PeRc4 else PeBoth))
      && p.Has(Encryption(PreferRc4), BoolVal(policy == 2))
    else
      p.encryption == map[]
  }

  /**
   * Without a proxy no proxy setting is written. With one, the type is shifted
   * by one and trackers, peers and host-name lookups all go through the
   * forced proxy.
   */
  predicate ProxyConfigured(p: Pack, c: BTConfiguration) {
    if c.proxy.Some? then
      var proxy := c.proxy.value;
      && p.Has(Proxy(ProxyType), IntVal(proxy.proxyType + 1))
      && p.Has(Proxy(ProxyPort), IntVal(proxy.port))
      && p.Has(Proxy(ProxyHostname), StrVal(proxy.hostname))
      && p.Has(Proxy(ProxyUsername), StrVal(proxy.username))
      && p.Has(Proxy(ProxyPassword), StrVal(proxy.password))
      && p.Has(Proxy(ProxyTrackerConnections), BoolVal(true))
      && p.Has(Proxy(ProxyPeerConnections), BoolVal(true))
      && p.Has(Proxy(ProxyHostnames), BoolVal(true))
      && p.Has(Proxy(ForceProxy), BoolVal(true))
    else
      p.proxy == map[]
  }

  /**
   * The I2P settings are written only when the shifted proxy type is I2P SAM,
   * and mixed I2P traffic ends up allowed.
   */
  predicate I2PConfigured(p: Pack, c: BTConfiguration) {
    if UsesI2P(c) then
      && p.Has(Proxy(I2pPort), IntVal(c.proxy.value.port))
      && p.Has(Proxy(I2pHostname), StrVal(c.proxy.value.hostname))
      && p.Has(Proxy(AllowsI2pMixed), BoolVal(true))
    else
      && p.Get(Proxy(I2pPort)) == None
      && p.Get(Proxy(I2pHostname)) == None
      && p.Get(Proxy(AllowsI2pMixed)) == None
  }

  /** The limits before the configuration is consulted: all 0, with the fixed-slots choker. */
  predicate LimitDefaults(p: Pack) {
    && p.Has(Limit(ConnectionsLimit), IntVal(0))
    && p.Has(Limit(DownloadRateLimit), IntVal(0))
    && p.Has(Limit(UploadRateLimit), IntVal(0))
    && p.Has(Limit(ChokingAlgorithm), IntVal(FixedSlotsChoker))
    && p.Has(Limit(ShareRatioLimit), IntVal(0))
    && p.Has(Limit(SeedTimeRatioLimit), IntVal(0))
    && p.Has(Limit(SeedTimeLimit), IntVal(0))
  }

  /**
   * The writes configure makes before it consults the configuration: the
   * fixed tuning and the default limits, into a fresh pack.
   */
  method DefaultSettings(userAgent: string) returns (settings: Pack)
    ensures settings.tuning == FixedTuning(userAgent) && LimitDefaults(settings)
    ensures settings.encryption == map[] && settings.proxy == map[] && settings.services == map[]
  {
    var tuning: map<TuningKey, Setting> := map[];
    var limits: map<LimitKey, Setting> := map[];
    tuning := tuning[UserAgent := StrVal(userAgent)];
    tuning := tuning[RequestTimeout := IntVal(2)];
    tuning := tuning[PeerConnectTimeout := IntVal(2)];
    tuning := tuning[StrictEndGameMode := BoolVal(true)];
    tuning := tuning[AnnounceToAllTrackers := BoolVal(true)];
    tuning := tuning[AnnounceToAllTiers := BoolVal(true)];
    tuning := tuning[ConnectionSpeed := IntVal(500)];
    limits := limits[ConnectionsLimit := IntVal(0)];
    limits := limits[DownloadRateLimit := IntVal(0)];
    limits := limits[UploadRateLimit := IntVal(0)];
    limits := limits[ChokingAlgorithm := IntVal(FixedSlotsChoker)];
    limits := limits[ShareRatioLimit := IntVal(0)];
    limits := limits[SeedTimeRatioLimit := IntVal(0)];
    limits := limits[SeedTimeLimit := IntVal(0)];
    tuning := tuning[PeerTos := IntVal(IpTosAsWritten(LowCost))];
    tuning := tuning[TorrentConnectBoost := IntVal(0)];
    tuning := tuning[RateLimitIpOverhead := BoolVal(true)];
    tuning := tuning[NoAtimeStorage := BoolVal(true)];
    tuning := tuning[AnnounceDoubleNat := BoolVal(true)];
    tuning := tuning[PrioritizePartialPieces := BoolVal(false)];
    tuning := tuning[FreeTorrentHashes := BoolVal(true)];
    tuning := tuning[UseParoleMode := BoolVal(true)];
    tuning := tuning[SeedChokingAlgorithm := IntVal(FastestUpload)];
    tuning := tuning[UpnpIgnoreNonrouters := BoolVal(true)];
    tuning := tuning[LazyBitfields := BoolVal(true)];
    tuning := tuning[StopTrackerTimeout := IntVal(1)];
    tuning := tuning[AutoScrapeInterval := IntVal(1200)];
    tuning := tuning[AutoScrapeMinInterval := IntVal(900)];
    tuning := tuning[IgnoreLimitsOnLocalNetwork := BoolVal(true)];
    tuning := tuning[RateLimitUtp := BoolVal(true)];
    tuning := tuning[MixedModeAlgorithm := IntVal(PreferTcp)];
    settings := EmptyPack.(tuning := tuning, limits := limits);
  }

  /**
   * The limits section of configure: positive configured limits replace the
   * defaults, rate limits only when they are not deferred until after
   * buffering; no setting outside the limits changes.
   */
  method LimitSettings(settings: Pack, c: BTConfiguration) returns (r: Pack)
    requires LimitDefaults(settings)
    ensures LimitsConfigured(r, c) && r.(limits := settings.limits) == settings
  {
    r := ConnectionLimitSetting(settings, c.connectionsLimit);
    r := RateLimitSettings(r, c);
    r := SeedingLimitSettings(r, c);
  }

  /** An explicit connection limit replaces the default; no other setting changes. */
  method ConnectionLimitSetting(settings: Pack, connectionsLimit: int) returns (r: Pack)
    requires settings.Has(Limit(ConnectionsLimit), IntVal(0))
    ensures r.Has(Limit(ConnectionsLimit), IntVal(PositiveOrZero(connectionsLimit)))
    ensures r.limits == settings.limits[ConnectionsLimit := r.limits[ConnectionsLimit]]
    ensures r.(limits := settings.limits) == settings
  {
    var limits := settings.limits;
    if connectionsLimit > 0 {
      limits := limits[ConnectionsLimit := IntVal(connectionsLimit)];
    }
    // Otherwise the platform-specific defaults apply; they are not part of this model.
    r := settings.(limits := limits);
  }

  /**
   * Rate limits that are not deferred until after buffering replace the
   * defaults, and an upload limit selects the bittyrant choker; no other
   * setting changes.
   */
  method RateLimitSettings(settings: Pack, c: BTConfiguration) returns (r: Pack)
    requires settings.Has(Limit(DownloadRateLimit), IntVal(0)) && settings.Has(Limit(UploadRateLimit), IntVal(0))
    requires settings.Has(Limit(ChokingAlgorithm), IntVal(FixedSlotsChoker))
    ensures r.Has(Limit(DownloadRateLimit), IntVal(if c.limitAfterBuffering then 0 else PositiveOrZero(c.maxDownloadRate)))
    ensures r.Has(Limit(UploadRateLimit), IntVal(if c.limitAfterBuffering then 0 else PositiveOrZero(c.maxUploadRate)))
    ensures r.Has(Limit(ChokingAlgorithm), IntVal(
              if !c.limitAfterBuffering && c.maxUploadRate > 0 then BittyrantChoker else FixedSlotsChoker))
    ensures r.limits == settings.limits[DownloadRateLimit := r.limits[DownloadRateLimit]]
              [UploadRateLimit := r.limits[UploadRateLimit]][ChokingAlgorithm := r.limits[ChokingAlgorithm]]
    ensures r.(limits := settings.limits) == settings
  {
    var limits := settings.limits;
    if !c.limitAfterBuffering {
      if c.maxDownloadRate > 0 {
        limits := limits[DownloadRateLimit := IntVal(c.maxDownloadRate)];
      }
      if c.maxUploadRate > 0 {
        limits := limits[UploadRateLimit := IntVal(c.maxUploadRate)];
        limits := limits[ChokingAlgorithm := IntVal(BittyrantChoker)];
      }
    }
    r := settings.(limits := limits);
  }

  /** Positive seeding limits replace the defaults; no other setting changes. */
  method SeedingLimitSettings(settings: Pack, c: BTConfiguration) returns (r: Pack)
    requires settings.Has(Limit(ShareRatioLimit), IntVal(0)) && settings.Has(Limit(SeedTimeRatioLimit), IntVal(0))
    requires settings.Has(Limit(SeedTimeLimit), IntVal(0))
    ensures r.Has(Limit(ShareRatioLimit), IntVal(PositiveOrZero(c.shareRatioLimit)))
    ensures r.Has(Limit(SeedTimeRatioLimit), IntVal(PositiveOrZero(c.seedTimeRatioLimit)))
    ensures r.Has(Limit(SeedTimeLimit), IntVal(PositiveOrZero(c.seedTimeLimit)))
    ensures r.limits == settings.limits[ShareRatioLimit := r.limits[ShareRatioLimit]]
              [SeedTimeRatioLimit := r.limits[SeedTimeRatioLimit]][SeedTimeLimit := r.limits[SeedTimeLimit]]
    ensures r.(limits := settings.limits) == settings
  {
    var limits := settings.limits;
    if c.shareRatioLimit > 0 {
      limits := limits[ShareRatioLimit := IntVal(c.shareRatioLimit)];
    }
    if c.seedTimeRatioLimit > 0 {
      limits := limits[SeedTimeRatioLimit := IntVal(c.seedTimeRatioLimit)];
    }
    if c.seedTimeLimit > 0 {
      limits := limits[SeedTimeLimit := IntVal(c.seedTimeLimit)];
    }
    r := settings.(limits := limits);
  }

  /** The encryption section of configure; no setting outside it changes. */
  method EncryptionSettings(settings: Pack, encryptionPolicy: int) returns (r: Pack)
    requires settings.encryption == map[]
    ensures EncryptionConfigured(r, encryptionPolicy) && r.(encryption := settings.encryption) == settings
  {
    var encryption := settings.encryption;
    if encryptionPolicy > 0 {
      var policy, level, preferRc4 := PeDisabled, PeBoth, false;
      if encryptionPolicy == 2 {
        policy, level, preferRc4 := PeForced, PeRc4, true;
      }
      encryption := encryption[OutEncPolicy := IntVal(policy)];
      encryption := encryption[InEncPolicy := IntVal(policy)];
      encryption := encryption[AllowedEncLevel := IntVal(level)];
      encryption := encryption[PreferRc4 := BoolVal(preferRc4)];
    }
    r := settings.(encryption := encryption);
  }

  /** The proxy section of configure; no setting outside it changes. */
  method ProxySettingsFor(settings: Pack, c: BTConfiguration) returns (r: Pack)
    requires settings.proxy == map[]
    ensures ProxyConfigured(r, c) && I2PConfigured(r, c) && r.(proxy := settings.proxy) == settings
  {
    r := settings;
    if c.proxy.Some? {
      var proxy := c.proxy.value;
      var proxyType := proxy.proxyType + 1;
      r := ProxyConnectionSettings(r, proxy);
      if proxyType == ProxyTypeI2PSAM {
        r := I2PSettings(r, proxy);
      }
    }
  }

  /**
   * The proxy type (shifted by one), its address and credentials, with
   * trackers, peers and host-name lookups all forced through it; no I2P
   * setting is written and no setting outside the proxy group changes.
   */
  method ProxyConnectionSettings(settings: Pack, proxy: ProxySettings) returns (r: Pack)
    requires settings.proxy == map[]
    ensures r.Has(Proxy(ProxyType), IntVal(proxy.proxyType + 1))
    ensures r.Has(Proxy(ProxyPort), IntVal(proxy.port))
    ensures r.Has(Proxy(ProxyHostname), StrVal(proxy.hostname))
    ensures r.Has(Proxy(ProxyUsername), StrVal(proxy.username))
    ensures r.Has(Proxy(ProxyPassword), StrVal(proxy.password))
    ensures r.Has(Proxy(ProxyTrackerConnections), BoolVal(true))
    ensures r.Has(Proxy(ProxyPeerConnections), BoolVal(true))
    ensures r.Has(Proxy(ProxyHostnames), BoolVal(true))
    ensures r.Has(Proxy(ForceProxy), BoolVal(true))
    ensures I2pPort !in r.proxy && I2pHostname !in r.proxy && AllowsI2pMixed !in r.proxy
    ensures r.(proxy := settings.proxy) == settings
  {
    var group := settings.proxy;
    group := group[ProxyType := IntVal(proxy.proxyType + 1)];
    group := group[ProxyPort := IntVal(proxy.port)];
    group := group[ProxyHostname := StrVal(proxy.hostname)];
    group := group[ProxyUsername := StrVal(proxy.username)];
    group := group[ProxyPassword := StrVal(proxy.password)];
    group := group[ProxyTrackerConnections := BoolVal(true)];
    group := group[ProxyPeerConnections := BoolVal(true)];
    group := group[ProxyHostnames := BoolVal(true)];
    group := group[ForceProxy := BoolVal(true)];
    r := settings.(proxy := group);
  }

  /**
   * The I2P SAM bridge at the proxy's address, with mixed I2P traffic
   * allowed by the later of two writes; no other setting changes.
   */
  method I2PSettings(settings: Pack, proxy: ProxySettings) returns (r: Pack)
    ensures r.Has(Proxy(I2pPort), IntVal(proxy.port))
    ensures r.Has(Proxy(I2pHostname), StrVal(proxy.hostname))
    ensures r.Has(Proxy(AllowsI2pMixed), BoolVal(true))
    ensures r.proxy == settings.proxy[I2pPort := r.proxy[I2pPort]][I2pHostname := r.proxy[I2pHostname]]
              [AllowsI2pMixed := r.proxy[AllowsI2pMixed]]
    ensures r.(proxy := settings.proxy) == settings
  {
    var group := settings.proxy;
    group := group[I2pPort := IntVal(proxy.port)];
    group := group[I2pHostname := StrVal(proxy.hostname)];
    group := group[AllowsI2pMixed := BoolVal(false)];
    group := group[AllowsI2pMixed := BoolVal(true)];
    r := settings.(proxy := group);
  }

  /** None of the discovery-service settings is in the pack. */
  predicate NoServiceKeys(p: Pack) {
    p.services == map[]
  }

  /** p and q agree on every setting outside the discovery services. */
  predicate SameOutsideServices(p: Pack, q: Pack) {
    q.tuning == p.tuning && q.limits == p.limits && q.encryption == p.encryption && q.proxy == p.proxy
  }

  /**
   * The pack after startServices (on) or stopServices (off): local service
   * discovery always, the DHT unless it is disabled (starting it also names
   * the bootstrap routers), UPnP and NAT-PMP unless UPnP is disabled.
   */
  function WithServices(p: Pack, c: BTConfiguration, on: bool): (q: Pack)
    ensures SameOutsideServices(p, q)
  {
    var lsd := p.Set(Service(EnableLsd), BoolVal(on));
    var dht :=
      if c.disableDHT then lsd
      else if on then lsd.Set(Service(DhtBootstrapNodes), StrVal(BootstrapNodes(DhtRouters))).Set(Service(EnableDht), BoolVal(true))
      else lsd.Set(Service(EnableDht), BoolVal(false));
    if c.disableUPNP then dht
    else dht.Set(Service(EnableUpnp), BoolVal(on)).Set(Service(EnableNatpmp), BoolVal(on))
  }

  /**
   * The discovery flags a configuration calls for after startServices: local
   * discovery on, the DHT on with its routers unless disabled, UPnP and
   * NAT-PMP on unless disabled, and nothing at all for a disabled service.
   */
  predicate ServicesStarted(p: Pack, c: BTConfiguration) {
    && p.Has(Service(EnableLsd), BoolVal(true))
    && (if c.disableDHT then p.Get(Service(EnableDht)) == None && p.Get(Service(DhtBootstrapNodes)) == None
        else p.Has(Service(EnableDht), BoolVal(true)) && p.Has(Service(DhtBootstrapNodes), StrVal(BootstrapNodes(DhtRouters))))
    && (if c.disableUPNP then p.Get(Service(EnableUpnp)) == None && p.Get(Service(EnableNatpmp)) == None
        else p.Has(Service(EnableUpnp), BoolVal(true)) && p.Has(Service(EnableNatpmp), BoolVal(true)))
  }

  /**
   * Starting services on a freshly configured pack leaves the discovery flags
   * exactly as the configuration calls for and every configured setting as it
   * was.
   */
  lemma StartedFromConfigured(p: Pack, c: BTConfiguration, userAgent: string)
    requires Configured(p, c, userAgent) && NoServiceKeys(p)
    ensures ServicesStarted(WithServices(p, c, true), c)
    ensures Configured(WithServices(p, c, true), c, userAgent)
  {
    ServicesFromNone(p, c);
    ConfiguredOutsideServices(p, WithServices(p, c, true), c, userAgent);
  }

  /** Starting services on a pack without discovery settings writes exactly the flags the configuration calls for. */
  lemma ServicesFromNone(p: Pack, c: BTConfiguration)
    requires NoServiceKeys(p)
    ensures ServicesStarted(WithServices(p, c, true), c)
  {
  }

  /** Whether a pack is configured does not depend on its discovery settings. */
  lemma ConfiguredOutsideServices(p: Pack, q: Pack, c: BTConfiguration, userAgent: string)
    requires SameOutsideServices(p, q) && Configured(p, c, userAgent)
    ensures Configured(q, c, userAgent)
  {
  }

  /**
   * What one discovery setting reads after startServices (on) or stopServices
   * (off), key by key: local discovery always takes the new state; the DHT
   * flag and UPnP/NAT-PMP flags take it unless their service is disabled; the
   * bootstrap routers are written only when starting an enabled DHT. Every
   * other read is as before.
   */
  lemma ServiceSettingAfter(p: Pack, c: BTConfiguration, on: bool, k: ServiceKey)
    ensures WithServices(p, c, on).Get(Service(k)) ==
      match k
      case EnableLsd => Some(BoolVal(on))
      case EnableDht => if c.disableDHT then p.Get(Service(k)) else Some(BoolVal(on))
      case DhtBootstrapNodes =>
        if !c.disableDHT && on then Some(StrVal(BootstrapNodes(DhtRouters))) else p.Get(Service(k))
      case EnableUpnp => if c.disableUPNP then p.Get(Service(k)) else Some(BoolVal(on))
      case EnableNatpmp => if c.disableUPNP then p.Get(Service(k)) else Some(BoolVal(on))
  {
  }

  /**
   * Starting (or stopping) services twice leaves the pack as starting (or
   * stopping) them once: every write of the second run finds its value there.
   */
  lemma WithServicesIdempotent(p: Pack, c: BTConfiguration, on: bool)
    ensures WithServices(WithServices(p, c, on), c, on) == WithServices(p, c, on)
  {
    var q := WithServices(p, c, on);
    var r := WithServices(q, c, on);
    assert r.services.Keys == q.services.Keys;
    forall k | k in q.services
      ensures r.services[k] == q.services[k]
    {
      ServiceSettingAfter(q, c, on, k);
      ServiceSettingAfter(p, c, on, k);
    }
  }

  /**
   * Stopping after starting turns off exactly the flags that starting turned
   * on, leaves every flag of a disabled service as it was before, and leaves
   * every other setting as it was.
   */
  lemma StopUndoesStart(p: Pack, c: BTConfiguration)
    ensures var q := WithServices(WithServices(p, c, true), c, false);
      && q.Has(Service(EnableLsd), BoolVal(false))
      && (if c.disableDHT then q.Get(Service(EnableDht)) == p.Get(Service(EnableDht))
          else q.Has(Service(EnableDht), BoolVal(false)))
      && (if c.disableUPNP
          then q.Get(Service(EnableUpnp)) == p.Get(Service(EnableUpnp)) && q.Get(Service(EnableNatpmp)) == p.Get(Service(EnableNatpmp))
          else q.Has(Service(EnableUpnp), BoolVal(false)) && q.Has(Service(EnableNatpmp), BoolVal(false)))
    ensures SameOutsideServices(p, WithServices(WithServices(p, c, true), c, false))
  {
  }

  class BTService {
    var config: BTConfiguration
    var pack: Pack
    var dialog: Dialog
    var showNext: nat

    /** A new service configures its session; the progress cursor starts at 0 with no dialog. */
    constructor (config: BTConfiguration, userAgent: string)
      ensures this.config == config && dialog == Absent && showNext == 0
      ensures Configured(pack, config, userAgent) && NoServiceKeys(pack)
    {
      this.config := config;
      pack := EmptyPack;
      dialog := Absent;
      showNext := 0;
      new;
      Configure(userAgent);
    }

    /**
     * Builds a fresh settings pack from the configuration: the unconditional
     * writes, then the limits, encryption and proxy sections in turn.
     */
    method Configure(userAgent: string)
      modifies this`pack
      ensures Configured(pack, config, userAgent) && NoServiceKeys(pack)
    {
      var settings := DefaultSettings(userAgent);
      settings := LimitSettings(settings, config);
      settings := EncryptionSettings(settings, config.encryptionPolicy);
      settings := ProxySettingsFor(settings, config);
      pack := settings;
    }

    /** Turns the discovery services on, as far as the configuration allows; nothing else changes. */
    method StartServices()
      modifies this`pack
      ensures pack == WithServices(old(pack), config, true)
    {
      pack := pack.Set(Service(EnableLsd), BoolVal(true));
      if !config.disableDHT {
        pack := pack.Set(Service(DhtBootstrapNodes), StrVal(BootstrapNodes(DhtRouters)));
        pack := pack.Set(Service(EnableDht), BoolVal(true));
      }
      if !config.disableUPNP {
        pack := pack.Set(Service(EnableUpnp), BoolVal(true));
        pack := pack.Set(Service(EnableNatpmp), BoolVal(true));
      }
    }

    /**
     * Closes a progress dialog (which the service keeps holding) and turns the
     * discovery services off, as far as the configuration allows.
     */
    method StopServices()
      modifies this`pack, this`dialog
      ensures dialog == if old(dialog) == Absent then Absent else Closed
      ensures pack == WithServices(old(pack), config, false)
    {
      if dialog != Absent {
        dialog := Closed;
      }
      pack := pack.Set(Service(EnableLsd), BoolVal(false));
      if !config.disableDHT {
        pack := pack.Set(Service(EnableDht), BoolVal(false));
      }
      if !config.disableUPNP {
        pack := pack.Set(Service(EnableUpnp), BoolVal(false));
        pack := pack.Set(Service(EnableNatpmp), BoolVal(false));
      }
    }

    /**
     * Stop services, switch to the new configuration, configure a fresh pack
     * and start services again: the pack is the new configuration's plus the
     * discovery flags it calls for, with nothing left over from before.
     */
    method Reconfigure(newConfig: BTConfiguration, userAgent: string)
      modifies this`pack, this`dialog, this`config
      ensures config == newConfig
      ensures dialog == if old(dialog) == Absent then Absent else Closed
      ensures Configured(pack, newConfig, userAgent)
      ensures ServicesStarted(pack, newConfig)
    {
      StopServices();
      config := newConfig;
      Configure(userAgent);
      StartedFromConfigured(pack, config, userAgent);
      StartServices();
    }

    /**
     * One five-second tick of the download-progress loop. While the session is
     * paused a held dialog is dropped and nothing else happens. Otherwise the
     * statuses are classified, finished torrents over a limit are paused, and
     * the display shows the torrent under the cursor or the "Total" mean; with
     * nothing active the dialog is dropped.
     */
    method Tick(statuses: seq<TorrentStatus>, sessionPaused: bool)
      returns (pauses: seq<Pause>, shown: Option<View>)
      modifies this`showNext, this`dialog
      ensures sessionPaused && old(dialog) != Absent ==>
        pauses == [] && shown == None && dialog == Absent && showNext == old(showNext)
      ensures !(sessionPaused && old(dialog) != Absent) ==>
        pauses == PausesOf(statuses, LimitsOf(config), sessionPaused)
      ensures !(sessionPaused && old(dialog) != Absent) && ActiveOf(statuses, sessionPaused) == [] ==>
        shown == None && dialog == Absent && showNext == old(showNext)
      ensures !(sessionPaused && old(dialog) != Absent) && ActiveOf(statuses, sessionPaused) != [] ==>
        var active := ActiveOf(statuses, sessionPaused);
        && shown == Some(Rotate(old(showNext), active, Sum(active)).0)
        && showNext == Rotate(old(showNext), active, Sum(active)).1
        && showNext <= |active|
        && dialog == (if old(dialog) == Absent then Showing else old(dialog))
    {
      if sessionPaused && dialog != Absent {
        dialog := Absent;
        return [], None;
      }

      var active, totalProgress;
      active, totalProgress, pauses := Scan(statuses, LimitsOf(config), sessionPaused);

      shown := ShowProgress(active, totalProgress);
    }

    /**
     * The display half of a tick: with torrents active, the view under the
     * cursor (or the "Total" mean) in a dialog created only if there is none;
     * with nothing active, any held dialog is dropped.
     */
    method ShowProgress(active: seq<ActiveTorrent>, totalProgress: nat) returns (shown: Option<View>)
      modifies this`showNext, this`dialog
      ensures active == [] ==> shown == None && dialog == Absent && showNext == old(showNext)
      ensures active != [] ==>
        && shown == Some(Rotate(old(showNext), active, totalProgress).0)
        && showNext == Rotate(old(showNext), active, totalProgress).1
        && dialog == (if old(dialog) == Absent then Showing else old(dialog))
    {
      var activeDownloads := |active|;
      if activeDownloads > 0 {
        var showProgress := totalProgress / activeDownloads;
        var showTorrent := TotalTitle;
        if showNext >= activeDownloads {
          showNext := 0;
        } else {
          showProgress := active[showNext].progress;
          showTorrent := active[showNext].name;
          showNext := showNext + 1;
        }
        if dialog == Absent {
          dialog := Showing;
        }
        shown := Some(View(showProgress, showTorrent));
      } else {
        if dialog != Absent {
          dialog := Absent;
        }
        shown := None;
      }
    }
  }
}
