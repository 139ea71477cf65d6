/** Find-or-create of the testnet's Docker network
    (lib/docker_control/network.go; main.go's `createDockerNetwork` is the
    same code). */
module Networks {
  import opened Wrappers
  import opened Docker

  /** An entry of `NetworkList`. */
  datatype NetworkSummary = NetworkSummary(name: string, id: string)

  const Driver: string := "bridge"
  const Subnet: string := "172.28.0.0/16"

  /** `i` is the first network in list order that carries `name`. */
  predicate FirstNamed(nets: seq<NetworkSummary>, name: string, i: int)
  {
    && 0 <= i < |nets| && nets[i].name == name
    && forall j :: 0 <= j < i ==> nets[j].name != name
  }

  /** The loop over the listed networks: the ID of the first one named
      `name`, nothing when none is. */
  function FindNetwork(nets: seq<NetworkSummary>, name: string): (r: Option<string>)
    ensures r.None? <==> forall i :: 0 <= i < |nets| ==> nets[i].name != name
    ensures forall i :: FirstNamed(nets, name, i) ==> r == Some(nets[i].id)
  {
    if |nets| == 0 then None
    else if nets[0].name == name then Some(nets[0].id)
    else
      var r := FindNetwork(nets[1..], name);
      assert forall i :: FirstNamed(nets, name, i) ==> FirstNamed(nets[1..], name, i - 1);
      assert forall i :: 1 <= i < |nets| ==> nets[i] == nets[1..][i - 1];
      r
  }

  /** The calls `CreateDockerNetwork` issued and what it returned. */
  datatype Provision = Provision(trace: seq<Call>, result: Result<string>)

  function CreateCall(networkName: string): Call
  {
    NetworkCreate(networkName, Driver, Subnet)
  }

  /** `CreateDockerNetwork`: a list error is returned with no create; a
      listed network with an equal name is reused, the first one in list
      order, with no create; otherwise a bridge network on 172.28.0.0/16 is
      created and its ID (or its error) returned. */
  function CreateDockerNetwork(networkName: string, list: Result<seq<NetworkSummary>>,
                               create: Result<string>): (r: Provision)
    ensures list.Err? ==> r == Provision([NetworkList], Err(list.error))
    ensures list.Ok? ==> forall i :: FirstNamed(list.value, networkName, i)
                                     ==> r == Provision([NetworkList], Ok(list.value[i].id))
    ensures CreateCall(networkName) in r.trace
            <==> list.Ok? && forall i :: 0 <= i < |list.value| ==> list.value[i].name != networkName
    ensures CreateCall(networkName) in r.trace ==> r.result == create
  {
    if list.Err? then Provision([NetworkList], Err(list.error))
    else
      var found := FindNetwork(list.value, networkName);
      if found.Some? then Provision([NetworkList], Ok(found.value))
      else
        Provision([NetworkList, CreateCall(networkName)], if create.Err? then Err(create.error) else Ok(create.value))
  }

  /** A daemon whose network list grows by one entry per successful create. */
  datatype Daemon = Daemon(networks: seq<NetworkSummary>)

  /** One call of `CreateDockerNetwork` against that daemon, with `freshID`
      the ID the daemon hands out if asked to create. */
  function EnsureNetwork(d: Daemon, networkName: string, freshID: string): (Daemon, Provision)
  {
    var p := CreateDockerNetwork(networkName, Ok(d.networks), Ok(freshID));
    if CreateCall(networkName) in p.trace then (Daemon(d.networks + [NetworkSummary(networkName, freshID)]), p)
    else (d, p)
  }

  /** Two successive calls create at most one network, the second creates
      none, and both return the same ID. */
  lemma {:induction false} SecondCallReuses(d: Daemon, networkName: string, id1: string, id2: string)
    ensures var (d1, p1) := EnsureNetwork(d, networkName, id1);
            var (d2, p2) := EnsureNetwork(d1, networkName, id2);
            && CreateCall(networkName) !in p2.trace
            && d2 == d1
            && p2.result == p1.result
            && p1.result.Ok?
  {
    var (d1, p1) := EnsureNetwork(d, networkName, id1);
    var nets := d.networks;
    if CreateCall(networkName) in p1.trace {
      var k := |nets|;
      assert FirstNamed(d1.networks, networkName, k);
    } else {
      var i :| 0 <= i < |nets| && nets[i].name == networkName;
      var first := FirstIndex(nets, networkName, i);
      assert FirstNamed(nets, networkName, first);
    }
  }

  /** Some listed network carries the name, so a first one does. */
  lemma {:induction false} FirstIndex(nets: seq<NetworkSummary>, name: string, i: nat) returns (first: nat)
    requires i < |nets| && nets[i].name == name
    ensures FirstNamed(nets, name, first)
    decreases i
  {
    if forall j :: 0 <= j < i ==> nets[j].name != name {
      first := i;
    } else {
      var j :| 0 <= j < i && nets[j].name == name;
      first := FirstIndex(nets, name, j);
    }
  }
}
