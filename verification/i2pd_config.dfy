/** The i2pd configuration record of lib/i2pd/config.go, its default
    value and the generation of the router configuration text. */
module I2pdConfig {
  import opened Wrappers

  datatype TransportSection = TransportSection(enabled: bool, published: bool, port: int)

  datatype HttpSection = HttpSection(enabled: bool, address: string, port: int, webroot: string,
                                     auth: bool, user: string, pass: string, lang: string)

  datatype HttpProxySection = HttpProxySection(enabled: bool, address: string, port: int, keys: string,
                                               addressHelper: bool, outproxy: string)

  datatype SocksProxySection = SocksProxySection(enabled: bool, address: string, port: int, keys: string,
                                                 outproxyEnabled: bool, outproxy: string, outproxyPort: int)

  /** The SAM, BOB and I2CP sections share one shape. */
  datatype ServiceSection = ServiceSection(enabled: bool, address: string, port: int)

  datatype I2pControlSection = I2pControlSection(enabled: bool, address: string, port: int, password: string)

  datatype UpnpSection = UpnpSection(enabled: bool, name: string)

  datatype MeshnetsSection = MeshnetsSection(yggdrasil: bool, yggAddress: string)

  datatype ReseedSection = ReseedSection(verify: bool, urls: string, yggUrls: string, file: string,
                                         zipFile: string, proxy: string, threshold: int)

  datatype AddressbookSection = AddressbookSection(defaultUrl: string, subscriptions: string)

  datatype LimitsSection = LimitsSection(transitTunnels: int, openFiles: int, coreSize: int)

  datatype TrustSection = TrustSection(enabled: bool, family: string, routers: string, hidden: bool)

  datatype Tunnel = Tunnel(length: int, quantity: int)

  datatype ExploratorySection = ExploratorySection(inbound: Tunnel, outbound: Tunnel)

  datatype PersistSection = PersistSection(profiles: bool, addressbook: bool)

  datatype CpuExtSection = CpuExtSection(aesni: bool, avx: bool, force: bool)

  /** The global options, before any INI section. */
  datatype Globals = Globals(
    tunnelsConf: string, tunnelsDir: string, certsDir: string, pidfile: string,
    log: string, logfile: string, loglevel: string, logclftime: bool, daemon: bool,
    family: string, ifname: string, ifname4: string, ifname6: string,
    address4: string, address6: string, host: string, port: int,
    ipv4: bool, ipv6: bool, ssu: bool, bandwidth: string, share: int,
    notransit: bool, floodfill: bool)

  /** `I2PDConfig`: the globals followed by one value per INI section. */
  datatype Config = Config(
    globals: Globals,
    ntcp2: TransportSection, ssu2: TransportSection,
    http: HttpSection, httpProxy: HttpProxySection, socksProxy: SocksProxySection,
    sam: ServiceSection, bob: ServiceSection, i2cp: ServiceSection,
    i2pControl: I2pControlSection,
    precomputationElGamal: bool,
    upnp: UpnpSection, meshnets: MeshnetsSection, reseed: ReseedSection,
    addressbook: AddressbookSection, limits: LimitsSection, trust: TrustSection,
    exploratory: ExploratorySection, persist: PersistSection, cpuExt: CpuExtSection)

  const Loopback: string := "127.0.0.1"

  /** `GenerateDefaultI2PDConfig`. */
  function DefaultConfig(): Config
  {
    Config(
      Globals("", "", "", "", "stdout", "", "warn", false, false,
              "", "", "", "", "", "", "", 0,
              true, true, true, "L", 100, false, false),
      TransportSection(true, true, 0),
      TransportSection(true, true, 0),
      HttpSection(true, Loopback, 7070, "/", false, "", "", "english"),
      HttpProxySection(true, Loopback, 4444, "", true, ""),
      SocksProxySection(true, Loopback, 4447, "", false, "", 0),
      ServiceSection(true, Loopback, 7656),
      ServiceSection(false, Loopback, 2827),
      ServiceSection(false, Loopback, 7654),
      I2pControlSection(false, Loopback, 7650, "itoopie"),
      true,
      UpnpSection(false, "I2Pd"),
      MeshnetsSection(false, ""),
      ReseedSection(true, "https://reseed.i2p-projekt.de/," + "https://i2p.mooo.com/netDb/," + "https://netdb.i2p2.no/",
                    "", "", "", "", 25),
      AddressbookSection("http://reg.i2p/hosts.txt", ""),
      LimitsSection(5000, 0, 0),
      TrustSection(false, "", "", false),
      ExploratorySection(Tunnel(2, 3), Tunnel(2, 3)),
      PersistSection(true, true),
      CpuExtSection(true, true, false))
  }

  /** The seven local services, as (enabled, address, port). */
  datatype Listener = Listener(enabled: bool, address: string, port: int)

  function Listeners(c: Config): (ls: seq<Listener>)
    ensures |ls| == 7
  {
    [ Listener(c.http.enabled, c.http.address, c.http.port),
      Listener(c.httpProxy.enabled, c.httpProxy.address, c.httpProxy.port),
      Listener(c.socksProxy.enabled, c.socksProxy.address, c.socksProxy.port),
      Listener(c.sam.enabled, c.sam.address, c.sam.port),
      Listener(c.bob.enabled, c.bob.address, c.bob.port),
      Listener(c.i2cp.enabled, c.i2cp.address, c.i2cp.port),
      Listener(c.i2pControl.enabled, c.i2pControl.address, c.i2pControl.port) ]
  }

  predicate ValidPort(p: int)
  {
    1 <= p <= 65535
  }

  /** Every default service listens on the loopback address only, on a
      valid port no other service uses; HTTP, the HTTP proxy, SOCKS and
      SAM are on, BOB, I2CP and I2PControl off. */
  lemma DefaultListeners()
    ensures var ls := Listeners(DefaultConfig());
            && (forall k :: 0 <= k < 7 ==> ls[k].address == Loopback && ValidPort(ls[k].port))
            && (forall k, m :: 0 <= k < m < 7 ==> ls[k].port != ls[m].port)
            && (forall k :: 0 <= k < 7 ==> (ls[k].enabled <==> k < 4))
  {
  }

  /** The default transport settings: the router picks a random port,
      NTCP2 and SSU2 follow it, a full share of bandwidth, reseeding
      below 25 known routers, and exploratory tunnels of two hops, three
      of them each way. */
  lemma DefaultTransport()
    ensures var c := DefaultConfig();
            && c.globals.port == 0 && c.ntcp2.port == 0 && c.ssu2.port == 0
            && c.ntcp2.enabled && c.ssu2.enabled
            && c.globals.share == 100
            && c.reseed.threshold == 25
            && c.exploratory.inbound == Tunnel(2, 3) && c.exploratory.outbound == Tunnel(2, 3)
  {
  }

  /** `GenerateDefaultRouterConfig`: the default record rendered as INI
      text.  `reflect` (`ini.ReflectFrom`) and `write` (`WriteTo` into a
      buffer) are the INI library; their errors are returned unwrapped. */
  function GenerateDefaultRouterConfig<Ini>(routerID: int, reflect: Config -> Result<Ini>,
                                            write: Ini -> Result<string>): (r: Result<string>)
    ensures reflect(DefaultConfig()).Err? ==> r == Err(reflect(DefaultConfig()).error)
    ensures reflect(DefaultConfig()).Ok? ==> r == write(reflect(DefaultConfig()).value)
  {
    var reflected := reflect(DefaultConfig());
    if reflected.Err? then Err(reflected.error)
    else
      var written := write(reflected.value);
      if written.Err? then Err(written.error) else Ok(written.value)
  }

  /** Every router gets the same configuration: the per-router edits in
      the source are all commented out. */
  lemma SameForEveryRouter<Ini>(a: int, b: int, reflect: Config -> Result<Ini>, write: Ini -> Result<string>)
    ensures GenerateDefaultRouterConfig(a, reflect, write) == GenerateDefaultRouterConfig(b, reflect, write)
  {
  }

  /** The text is produced exactly when both library steps succeed. */
  lemma GeneratedIffBothSucceed<Ini>(routerID: int, reflect: Config -> Result<Ini>, write: Ini -> Result<string>)
    ensures GenerateDefaultRouterConfig(routerID, reflect, write).Ok?
        <==> reflect(DefaultConfig()).Ok? && write(reflect(DefaultConfig()).value).Ok?
  {
  }
}
