/** The testnet plan of main.go: router addresses, peer lists, the
    go-i2p router configuration text, container and volume names, the
    tracking of created resources and the final cleanup. */
module Testnet {
  import opened Wrappers
  import opened Text
  import opened Docker

  const BaseIP: string := "172.28.0."
  /** The number of routers main.go starts. */
  const NumRouters: nat := 3

  /** `fmt.Sprintf("%s%d", baseIP, i+2)`: router `i` (counted from 0) is
      host `i + 2` of the testnet subnet. */
  function RouterIP(i: nat): (ip: string)
    ensures BaseIP <= ip && ip[|BaseIP|..] == NatToString(i + 2)
  {
    BaseIP + NatToString(i + 2)
  }

  /** Distinct routers get distinct addresses. */
  lemma RouterIPInjective(i: nat, j: nat)
    ensures RouterIP(i) == RouterIP(j) ==> i == j
  {
    if RouterIP(i) == RouterIP(j) {
      assert RouterIP(i)[|BaseIP|..] == NatToString(i + 2);
      NatToStringInjective(i + 2, j + 2);
    }
  }

  /** The `routerIPs` slice. */
  function RouterIPs(n: nat): (ips: seq<string>)
    ensures |ips| == n && forall i :: 0 <= i < n ==> ips[i] == RouterIP(i)
  {
    seq(n, i requires 0 <= i => RouterIP(i))
  }

  /** The loop collecting router `i`'s peers: every address but its own,
      in the original order. */
  method PeersOf(ips: seq<string>, i: nat) returns (peers: seq<string>)
    requires i < |ips|
    ensures peers == ips[..i] + ips[i + 1..]
  {
    peers := [];
    var j := 0;
    while j < |ips|
      invariant 0 <= j <= |ips|
      invariant peers == if j <= i then ips[..j] else ips[..i] + ips[i + 1..j]
    {
      if j != i {
        peers := peers + [ips[j]];
      }
      j := j + 1;
    }
  }

  /** Router `i`'s peer list has `n - 1` entries and never holds its own
      address; every other router's address is in it. */
  lemma PeersExcludeSelf(n: nat, i: nat)
    requires i < n
    ensures var ips := RouterIPs(n);
            var peers := ips[..i] + ips[i + 1..];
            && |peers| == n - 1
            && RouterIP(i) !in peers
            && forall j :: 0 <= j < n && j != i ==> RouterIP(j) in peers
  {
    var ips := RouterIPs(n);
    var peers := ips[..i] + ips[i + 1..];
    forall k | 0 <= k < |peers| ensures peers[k] != RouterIP(i) {
      var j := if k < i then k else k + 1;
      assert peers[k] == RouterIP(j);
      RouterIPInjective(i, j);
    }
    forall j | 0 <= j < n && j != i ensures RouterIP(j) in peers {
      if j < i { assert peers[j] == RouterIP(j); } else { assert peers[j - 1] == RouterIP(j); }
    }
  }

  /** The fixed header of a router configuration, with `ip` as the UDP
      host (the raw string literal keeps its newlines and tabs). */
  function ConfigHeader(ip: string): string
  {
    "\n\tnetID=12345\n\treseed.disable=true\n\trouter.transport.udp.host=" + ip
    + "\n\trouter.transport.udp.port=7654\n\t"
  }

  /** `fmt.Sprintf("peer.%d=%s\n", k, peer)`. */
  function PeerLine(k: nat, peer: string): string
  {
    "peer." + NatToString(k) + "=" + peer + "\n"
  }

  /** The peer lines for `peers`, numbered from 1. */
  function PeerLines(peers: seq<string>): string
  {
    if |peers| == 0 then ""
    else PeerLines(peers[..|peers| - 1]) + PeerLine(|peers|, peers[|peers| - 1])
  }

  /** `generateRouterConfig`: the header followed by one line per peer, in
      order.  `routerID` is accepted and unused. */
  method GenerateRouterConfig(routerID: int, ip: string, peers: seq<string>) returns (config: string)
    ensures config == ConfigHeader(ip) + PeerLines(peers)
  {
    var header := ConfigHeader(ip);
    var lines := "";
    var i := 0;
    while i < |peers|
      invariant 0 <= i <= |peers|
      invariant lines == PeerLines(peers[..i])
    {
      assert peers[..i + 1][..i] == peers[..i];
      lines := lines + PeerLine(i + 1, peers[i]);
      i := i + 1;
    }
    assert peers[..|peers|] == peers;
    config := header + lines;
  }

  /** One line per peer: when no peer holds a newline, the peer lines hold
      exactly as many newlines as there are peers. */
  lemma {:induction false} OneLinePerPeer(peers: seq<string>)
    requires forall k :: 0 <= k < |peers| ==> '\n' !in peers[k]
    ensures multiset(PeerLines(peers))['\n'] == |peers|
  {
    if |peers| > 0 {
      var init := peers[..|peers| - 1];
      OneLinePerPeer(init);
      PeerLineHasOneNewline(|peers|, peers[|peers| - 1]);
      assert multiset(PeerLines(peers))
          == multiset(PeerLines(init)) + multiset(PeerLine(|peers|, peers[|peers| - 1]));
    }
  }

  /** A single peer line ends in the only newline it holds. */
  lemma PeerLineHasOneNewline(k: nat, peer: string)
    requires '\n' !in peer
    ensures multiset(PeerLine(k, peer))['\n'] == 1
  {
    var digits := NatToString(k);
    var body := "peer." + digits + "=" + peer;
    assert '\n' !in digits;
    assert '\n' !in body;
    assert multiset(body)['\n'] == 0;
    assert PeerLine(k, peer) == body + "\n";
    assert multiset(PeerLine(k, peer)) == multiset(body) + multiset("\n");
  }

  /** `fmt.Sprintf("router%d", routerID)`. */
  function ContainerName(routerID: int): string
  {
    "router" + IntToString(routerID)
  }

  /** `fmt.Sprintf("router%d_config", routerID)`. */
  function VolumeName(routerID: int): string
  {
    "router" + IntToString(routerID) + "_config"
  }

  /** Distinct routers get distinct container and volume names. */
  lemma NamesDistinguishRouters(a: int, b: int)
    ensures ContainerName(a) == ContainerName(b) ==> a == b
    ensures VolumeName(a) == VolumeName(b) ==> a == b
  {
    if ContainerName(a) == ContainerName(b) {
      assert ContainerName(a)[6..] == IntToString(a);
      IntToStringInjective(a, b);
    }
    if VolumeName(a) == VolumeName(b) {
      var sa := VolumeName(a);
      assert sa[6..|sa| - 7] == IntToString(a);
      assert VolumeName(b)[6..|VolumeName(b)| - 7] == IntToString(b);
      IntToStringInjective(a, b);
    }
  }

  /** What one iteration of main's router loop hands to
      `createRouterContainer`: the router's ID, address, peers and
      configuration text, and the names its container and volume get. */
  datatype RouterPlan = RouterPlan(routerID: int, ip: string, peers: seq<string>, config: string,
                                   containerName: string, volumeName: string)

  /** The plan for router `i` (counted from 0) of `n`: its ID is `i + 1`. */
  function Plan(n: nat, i: nat): (p: RouterPlan)
    requires i < n
    ensures 1 <= p.routerID <= n
    ensures p.ip == RouterIP(p.routerID - 1)
    ensures |p.peers| == n - 1 && p.ip !in p.peers
    ensures p.containerName == ContainerName(p.routerID) && p.volumeName == VolumeName(p.routerID)
  {
    var ips := RouterIPs(n);
    var peers := ips[..i] + ips[i + 1..];
    PeersExcludeSelf(n, i);
    RouterPlan(i + 1, ips[i], peers, ConfigHeader(ips[i]) + PeerLines(peers), ContainerName(i + 1), VolumeName(i + 1))
  }

  /** One iteration of main's router loop: `routerID := i + 1`, the
      address from the `routerIPs` slice, the peer loop, the configuration,
      and the names `createRouterContainer` derives from the ID. */
  method PlanRouter(n: nat, i: nat) returns (plan: RouterPlan)
    requires i < n
    ensures plan == Plan(n, i)
  {
    var ips := RouterIPs(n);
    var routerID := i + 1;
    var ip := ips[i];
    var peers := PeersOf(ips, i);
    var config := GenerateRouterConfig(routerID, ip, peers);
    plan := RouterPlan(routerID, ip, peers, config, ContainerName(routerID), VolumeName(routerID));
  }

  /** Two routers of one testnet never share an ID, an address, a
      container name or a volume name, and each is a peer of the other. */
  lemma PlansDistinct(n: nat, i: nat, j: nat)
    requires i < n && j < n && i != j
    ensures Plan(n, i).routerID != Plan(n, j).routerID
    ensures Plan(n, i).ip != Plan(n, j).ip
    ensures Plan(n, i).containerName != Plan(n, j).containerName
    ensures Plan(n, i).volumeName != Plan(n, j).volumeName
    ensures Plan(n, i).ip in Plan(n, j).peers
  {
    RouterIPInjective(i, j);
    NamesDistinguishRouters(i + 1, j + 1);
    PeersExcludeSelf(n, j);
  }

  /** The two tracking slices of `main`. */
  datatype Tracking = Tracking(containers: seq<string>, volumes: seq<string>)

  /** Both slices grow together: they always have the same length. */
  predicate Paired(t: Tracking)
  {
    |t.containers| == |t.volumes|
  }

  /** `addCreated`: appends to both slices at once. */
  function AddCreated(t: Tracking, containerID: string, volumeID: string): (t': Tracking)
    ensures Paired(t) ==> Paired(t')
    ensures |t'.containers| == |t.containers| + 1 && |t'.volumes| == |t.volumes| + 1
    ensures t'.containers[..|t.containers|] == t.containers && t'.containers[|t.containers|] == containerID
    ensures t'.volumes[..|t.volumes|] == t.volumes && t'.volumes[|t.volumes|] == volumeID
  {
    Tracking(t.containers + [containerID], t.volumes + [volumeID])
  }

  /** The deferred function of `main` calls `cleanup` unless both slices
      are empty. */
  predicate CleanupRuns(t: Tracking)
  {
    !(|t.containers| == 0 && |t.volumes| == 0)
  }

  /** How `main` ends: by returning after the interrupt signal, or by
      `log.Fatalf`, which calls `os.Exit` and so skips every deferred
      function. */
  datatype MainExit = Returns | Fatal

  /** The deferred cleanup of `main` runs: `main` returned, and the guard
      found something tracked. */
  predicate DeferredCleanupRuns(t: Tracking, exit: MainExit)
  {
    exit == Returns && CleanupRuns(t)
  }

  /** Once anything was tracked, the guard lets cleanup proceed, and the
      cleanup runs exactly when `main` returns: a fatal exit after the
      first router was tracked (the second `createRouterContainer`
      failing) leaves the tracked container and volume behind. */
  lemma TrackedMeansCleanup(t: Tracking, containerID: string, volumeID: string, exit: MainExit)
    ensures CleanupRuns(AddCreated(t, containerID, volumeID))
    ensures DeferredCleanupRuns(AddCreated(t, containerID, volumeID), exit) <==> exit == Returns
  {
  }

  /** The network main.go creates and removes. */
  const NetworkName: string := "go-i2p-testnet"

  /** How many calls in `trace` the daemon refuses: each refusal is
      logged as one warning. */
  function Failures(trace: seq<Call>, fails: Call -> Option<string>): nat
  {
    if |trace| == 0 then 0
    else Failures(trace[..|trace| - 1], fails) + (if fails(trace[|trace| - 1]).Some? then 1 else 0)
  }

  /** Every refusal counts at most once, and none are counted when the
      daemon accepts everything. */
  lemma {:induction false} FailuresBounded(trace: seq<Call>, fails: Call -> Option<string>)
    ensures Failures(trace, fails) <= |trace|
    ensures (forall k :: 0 <= k < |trace| ==> fails(trace[k]).None?) ==> Failures(trace, fails) == 0
  {
    if |trace| > 0 {
      var init := trace[..|trace| - 1];
      FailuresBounded(init, fails);
      assert forall k :: 0 <= k < |init| ==> init[k] == trace[k];
    }
  }

  /** `cleanup`: stop (10 s timeout) and force-remove every tracked
      container in order, whether or not earlier calls failed, then
      force-remove every volume, then remove the network.  `fails` is the
      daemon's answer to each call; failures are only logged, one warning
      each, and the number of warnings is returned. */
  method Cleanup(containers: seq<string>, volumes: seq<string>, networkName: string,
                 fails: Call -> Option<string>) returns (trace: seq<Call>, warnings: nat)
    ensures |trace| == 2 * |containers| + |volumes| + 1
    ensures forall k :: 0 <= k < |containers| ==>
              trace[2 * k] == ContainerStop(Container(containers[k]), Some(10))
              && trace[2 * k + 1] == ContainerRemove(Container(containers[k]), true)
    ensures forall k :: 0 <= k < |volumes| ==> trace[2 * |containers| + k] == VolumeRemove(volumes[k], true)
    ensures trace[|trace| - 1] == NetworkRemove(networkName)
    ensures warnings == Failures(trace, fails)
  {
    trace := [];
    warnings := 0;
    var i := 0;
    while i < |containers|
      invariant 0 <= i <= |containers|
      invariant |trace| == 2 * i
      invariant forall k :: 0 <= k < i ==>
                  trace[2 * k] == ContainerStop(Container(containers[k]), Some(10))
                  && trace[2 * k + 1] == ContainerRemove(Container(containers[k]), true)
      invariant warnings == Failures(trace, fails)
    {
      var stop := ContainerStop(Container(containers[i]), Some(10));
      var remove := ContainerRemove(Container(containers[i]), true);
      if fails(stop).Some? { warnings := warnings + 1; }
      assert (trace + [stop])[..|trace|] == trace;
      trace := trace + [stop];
      if fails(remove).Some? { warnings := warnings + 1; }
      assert (trace + [remove])[..|trace|] == trace;
      trace := trace + [remove];
      i := i + 1;
    }
    var j := 0;
    while j < |volumes|
      invariant 0 <= j <= |volumes|
      invariant |trace| == 2 * |containers| + j
      invariant forall k :: 0 <= k < |containers| ==>
                  trace[2 * k] == ContainerStop(Container(containers[k]), Some(10))
                  && trace[2 * k + 1] == ContainerRemove(Container(containers[k]), true)
      invariant forall k :: 0 <= k < j ==> trace[2 * |containers| + k] == VolumeRemove(volumes[k], true)
      invariant warnings == Failures(trace, fails)
    {
      var remove := VolumeRemove(volumes[j], true);
      if fails(remove).Some? { warnings := warnings + 1; }
      assert (trace + [remove])[..|trace|] == trace;
      trace := trace + [remove];
      j := j + 1;
    }
    var last := NetworkRemove(networkName);
    if fails(last).Some? { warnings := warnings + 1; }
    assert (trace + [last])[..|trace|] == trace;
    trace := trace + [last];
  }
}
