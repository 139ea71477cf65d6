/** The per-router directory layout of lib/go-i2p/config.go. */
module GoI2pLayout {
  import opened Wrappers
  import opened Text

  /** The fields of go-i2p's `RouterConfig` that the layout fills in; the
      bootstrap setting is go-i2p's own default and is not modelled. */
  datatype RouterConfig = RouterConfig(baseDir: string, workingDir: string, netDbPath: string)

  /** `filepath.Join("testnet", fmt.Sprintf("router%d", routerID))`. */
  function BaseDir(routerID: int): string
  {
    "testnet/router" + IntToString(routerID)
  }

  /** The outcome of `initializeRouterConfig`: the directories it asked
      to create, in order, and the configuration (`None` for Go's nil). */
  datatype Init = Init(created: seq<string>, config: Option<RouterConfig>)

  /** `initializeRouterConfig`: creates the base, netDb and working
      directories in turn; `mkdirFails` is `os.MkdirAll`'s answer for a
      path.  The first failure ends the function with no configuration. */
  function InitializeRouterConfig(routerID: int, mkdirFails: string -> bool): (r: Init)
    ensures 1 <= |r.created| <= 3
    ensures r.created[0] == BaseDir(routerID)
    ensures |r.created| >= 2 ==> r.created[1] == BaseDir(routerID) + "/netDb"
    ensures |r.created| == 3 ==> r.created[2] == BaseDir(routerID) + "/config"
    ensures r.config.Some? <==> forall k :: 0 <= k < |r.created| ==> !mkdirFails(r.created[k])
    ensures r.config.Some? ==> |r.created| == 3
    ensures r.config.None? ==> mkdirFails(r.created[|r.created| - 1])
    ensures r.config.Some? ==>
              r.config.value == RouterConfig(BaseDir(routerID), BaseDir(routerID) + "/config", BaseDir(routerID) + "/netDb")
  {
    var base := BaseDir(routerID);
    var netDb := base + "/netDb";
    var working := base + "/config";
    if mkdirFails(base) then Init([base], None)
    else if mkdirFails(netDb) then Init([base, netDb], None)
    else if mkdirFails(working) then Init([base, netDb, working], None)
    else Init([base, netDb, working], Some(RouterConfig(base, working, netDb)))
  }

  /** The netDb and working directories lie inside the base directory,
      apart from each other. */
  lemma LayoutNested(routerID: int, mkdirFails: string -> bool)
    requires InitializeRouterConfig(routerID, mkdirFails).config.Some?
    ensures var c := InitializeRouterConfig(routerID, mkdirFails).config.value;
            && c.baseDir + "/" <= c.netDbPath
            && c.baseDir + "/" <= c.workingDir
            && c.netDbPath != c.workingDir
  {
    var c := InitializeRouterConfig(routerID, mkdirFails).config.value;
    assert c.netDbPath[|c.baseDir| + 1..] == "netDb";
    assert c.workingDir[|c.baseDir| + 1..] == "config";
  }

  /** Two routers never share a directory. */
  lemma DistinctRoutersDistinctDirs(a: int, b: int)
    requires a != b
    ensures BaseDir(a) != BaseDir(b)
    ensures BaseDir(a) + "/netDb" != BaseDir(b) + "/netDb"
    ensures BaseDir(a) + "/config" != BaseDir(b) + "/config"
  {
    if BaseDir(a) == BaseDir(b) {
      assert BaseDir(a)[14..] == IntToString(a);
      assert BaseDir(b)[14..] == IntToString(b);
      IntToStringInjective(a, b);
    }
    assert (BaseDir(a) + "/netDb")[..|BaseDir(a)|] == BaseDir(a);
    assert (BaseDir(b) + "/netDb")[..|BaseDir(b)|] == BaseDir(b);
    assert (BaseDir(a) + "/config")[..|BaseDir(a)|] == BaseDir(a);
    assert (BaseDir(b) + "/config")[..|BaseDir(b)|] == BaseDir(b);
  }

  /** `GenerateRouterConfig`: logs "Failed to initialize router config"
      whatever happened, then marshals the configuration even when it is
      nil.  `marshal` is the YAML encoder, whose panic on error is not
      modelled. */
  datatype Generated = Generated(yaml: string, loggedFailure: bool)

  function GenerateRouterConfig(routerID: int, mkdirFails: string -> bool,
                                marshal: Option<RouterConfig> -> string): (g: Generated)
    ensures g.loggedFailure
    ensures g.yaml == marshal(InitializeRouterConfig(routerID, mkdirFails).config)
  {
    Generated(marshal(InitializeRouterConfig(routerID, mkdirFails).config), true)
  }

  /** The failure message is logged even on success, and a failed layout
      still yields text: the nil configuration, marshalled. */
  lemma FailureNotReported(routerID: int, mkdirFails: string -> bool, marshal: Option<RouterConfig> -> string)
    requires mkdirFails(BaseDir(routerID))
    ensures GenerateRouterConfig(routerID, mkdirFails, marshal) == Generated(marshal(None), true)
  {
  }
}
