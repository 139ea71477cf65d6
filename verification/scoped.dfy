/** The scoped helper-container lifecycle: create, start, use, remove.

    Seven functions of the repository follow the same pattern (the three
    netDb sync verbs in lib/i2pd/sync.go and the four config copies in
    main.go, lib/docker_control/docker.go, lib/go-i2p/config.go and
    lib/i2pd/config.go): `ContainerCreate`; on error return at once;
    otherwise `defer` a forced `ContainerRemove`; then run a list of steps,
    returning the wrapped error of the first one that fails.

    The daemon is replaced by a fault: the index of the first failing step
    (0 is the create, i >= 1 is the i-th step of the body) and its error. */
module Scoped {
  import opened Wrappers
  import opened Docker

  /** A call of an operation's body and the context its error is wrapped in. */
  datatype Step = Step(call: Call, context: string)

  /** The first call that fails, if any. */
  datatype Fault = NoFault | FailAt(index: nat, cause: string)

  /** What the deferred removal does with its own error: the sync verbs and
      main.go drop it, the other config copies log it. */
  datatype RemovalPolicy = Ignore | Log

  /** What one scoped operation did: the calls it issued in order, what it
      returned, and the removal failure it logged, if any. */
  datatype Scope = Scope(trace: seq<Call>, result: Outcome, warning: Option<string>)

  /** The fault names the create or a step of the body. */
  predicate Fits(body: seq<Step>, fault: Fault)
  {
    fault.FailAt? ==> fault.index <= |body|
  }

  /** The helper was never created. */
  predicate CreateFails(fault: Fault)
  {
    fault.FailAt? && fault.index == 0
  }

  /** A body the lifecycle may wrap: it never removes the helper itself. */
  predicate RemovalFree(body: seq<Step>)
  {
    forall i :: 0 <= i < |body| ==> !body[i].call.ContainerRemove?
  }

  /** The positions of a trace at which a container is removed. */
  function RemovalsAt(trace: seq<Call>): set<nat>
  {
    set i: nat | i < |trace| && trace[i].ContainerRemove?
  }

  /** The number of body steps that are issued: all of them, or those up to
      and including the failing one. */
  function Issued(body: seq<Step>, fault: Fault): (n: nat)
    requires Fits(body, fault)
    ensures n <= |body|
  {
    if fault.FailAt? then fault.index else |body|
  }

  function Calls(steps: seq<Step>): (cs: seq<Call>)
    ensures |cs| == |steps|
    ensures forall i :: 0 <= i < |steps| ==> cs[i] == steps[i].call
  {
    if |steps| == 0 then [] else [steps[0].call] + Calls(steps[1..])
  }

  /** The context of the call the fault names. */
  function FailedContext(createContext: string, body: seq<Step>, fault: Fault): string
    requires fault.FailAt? && fault.index <= |body|
  {
    if fault.index == 0 then createContext else body[fault.index - 1].context
  }

  /** The lifecycle.  The helper is removed if and only if its creation
      succeeded, and then exactly once, as the last call; the result is the
      wrapped error of the first failing call, or success; a removal error
      never reaches the result, and is reported as a warning only under the
      `Log` policy. */
  function Run(create: Call, createContext: string, body: seq<Step>, fault: Fault,
               removeErr: Option<string>, policy: RemovalPolicy): (r: Scope)
    requires create.ContainerCreate?
    requires RemovalFree(body)
    requires Fits(body, fault)
    ensures |r.trace| >= 1 && r.trace[0] == create
    ensures RemovalsAt(r.trace) == if CreateFails(fault) then {} else {|r.trace| - 1}
    ensures CreateFails(fault) ==> |r.trace| == 1
    ensures !CreateFails(fault) ==> |r.trace| == Issued(body, fault) + 2 && r.trace[|r.trace| - 1] == RemoveHelper
    ensures forall i :: 0 <= i < Issued(body, fault) ==> r.trace[i + 1] == body[i].call
    ensures r.result.Fail? <==> fault.FailAt?
    ensures fault.FailAt? ==> r.result.error == Wrap(FailedContext(createContext, body, fault), fault.cause)
    ensures r.warning.Some? <==> !CreateFails(fault) && removeErr.Some? && policy == Log
    ensures r.warning.Some? ==> r.warning == removeErr
  {
    if CreateFails(fault) then
      var r := Scope([create], Fail(Wrap(createContext, fault.cause)), None);
      assert RemovalsAt(r.trace) == {};
      r
    else
      var n := Issued(body, fault);
      var trace := [create] + Calls(body[..n]) + [RemoveHelper];
      assert RemovalsAt(trace) == {|trace| - 1} by {
        forall i: nat | i < |trace| - 1 ensures !trace[i].ContainerRemove? {
          if i > 0 { assert trace[i] == body[i - 1].call; }
        }
      }
      var result := if fault.FailAt? then Fail(Wrap(body[fault.index - 1].context, fault.cause)) else Pass;
      var warning := if removeErr.Some? && policy == Log then removeErr else None;
      Scope(trace, result, warning)
  }

  /** A failing removal changes neither the calls issued nor the result. */
  lemma RemovalFailureIrrelevant(create: Call, createContext: string, body: seq<Step>, fault: Fault,
                                 removeErr: Option<string>, policy: RemovalPolicy)
    requires create.ContainerCreate?
    requires RemovalFree(body)
    requires Fits(body, fault)
    ensures Run(create, createContext, body, fault, removeErr, policy).trace
            == Run(create, createContext, body, fault, None, policy).trace
    ensures Run(create, createContext, body, fault, removeErr, policy).result
            == Run(create, createContext, body, fault, None, policy).result
  {
  }

  /** Without a fault every step of the body is issued, in order, between
      the create and the removal, and the operation succeeds. */
  lemma CleanRun(create: Call, createContext: string, body: seq<Step>,
                 removeErr: Option<string>, policy: RemovalPolicy)
    requires create.ContainerCreate?
    requires RemovalFree(body)
    ensures Run(create, createContext, body, NoFault, removeErr, policy).trace
            == [create] + Calls(body) + [RemoveHelper]
    ensures Run(create, createContext, body, NoFault, removeErr, policy).result == Pass
  {
    var r := Run(create, createContext, body, NoFault, removeErr, policy);
    assert r.trace == [create] + Calls(body) + [RemoveHelper];
  }

  /** A call that occurs once in the body is issued exactly when the helper
      was created and the run got as far as that step. */
  lemma {:induction false} IssuedStep(create: Call, createContext: string, body: seq<Step>, fault: Fault,
                                      removeErr: Option<string>, policy: RemovalPolicy, j: nat)
    requires create.ContainerCreate?
    requires RemovalFree(body)
    requires Fits(body, fault)
    requires j < |body| && !body[j].call.ContainerCreate?
    requires forall i :: 0 <= i < |body| && i != j ==> body[i].call != body[j].call
    ensures body[j].call in Run(create, createContext, body, fault, removeErr, policy).trace
            <==> !CreateFails(fault) && j < Issued(body, fault)
  {
    var r := Run(create, createContext, body, fault, removeErr, policy);
    if body[j].call in r.trace {
      var k :| 0 <= k < |r.trace| && r.trace[k] == body[j].call;
      assert k != 0;
      assert !CreateFails(fault);
      assert k != |r.trace| - 1;
      assert r.trace[k] == body[k - 1].call;
    }
    if !CreateFails(fault) && j < Issued(body, fault) {
      assert r.trace[j + 1] == body[j].call;
    }
  }

  /** A call issued before the lifecycle that removes nothing shifts the
      removal one place on and adds no other. */
  lemma RemovalAfterPrefix(c: Call, trace: seq<Call>)
    requires !c.ContainerRemove?
    requires |trace| >= 1
    ensures RemovalsAt(trace) == {} ==> RemovalsAt([c] + trace) == {}
    ensures RemovalsAt(trace) == {|trace| - 1} ==> RemovalsAt([c] + trace) == {|trace|}
  {
    var t := [c] + trace;
    assert forall i :: 1 <= i < |t| ==> t[i] == trace[i - 1];
    if RemovalsAt(trace) == {} {
      forall i: nat | i < |t| ensures !t[i].ContainerRemove? {
        if i > 0 { assert i - 1 !in RemovalsAt(trace); }
      }
    }
    if RemovalsAt(trace) == {|trace| - 1} {
      assert |trace| in RemovalsAt(t) by { assert |trace| - 1 in RemovalsAt(trace); }
      forall i: nat | i < |t| && i != |trace| ensures !t[i].ContainerRemove? {
        if i > 0 { assert i - 1 !in RemovalsAt(trace); }
      }
    }
  }

  /** A fault at step `k` of the body issues the steps up to and including
      the failing one, then removes the helper, and fails with that step's
      wrapped error. */
  lemma FailingRun(create: Call, createContext: string, body: seq<Step>, k: nat, cause: string,
                   removeErr: Option<string>, policy: RemovalPolicy)
    requires create.ContainerCreate?
    requires RemovalFree(body)
    requires 1 <= k <= |body|
    ensures Run(create, createContext, body, FailAt(k, cause), removeErr, policy).trace
            == [create] + Calls(body[..k]) + [RemoveHelper]
    ensures Run(create, createContext, body, FailAt(k, cause), removeErr, policy).result
            == Fail(Wrap(body[k - 1].context, cause))
  {
    var r := Run(create, createContext, body, FailAt(k, cause), removeErr, policy);
    assert r.trace == [create] + Calls(body[..k]) + [RemoveHelper];
  }

  /** `CleanRun` behind one earlier call. */
  lemma PrefixedCleanRun(c: Call, create: Call, createContext: string, body: seq<Step>,
                         removeErr: Option<string>, policy: RemovalPolicy)
    requires create.ContainerCreate?
    requires RemovalFree(body)
    ensures [c] + Run(create, createContext, body, NoFault, removeErr, policy).trace
            == [c, create] + Calls(body) + [RemoveHelper]
  {
    CleanRun(create, createContext, body, removeErr, policy);
  }

  /** When the body's last step is its only upload, the upload is issued
      only by a run that issued every step. */
  lemma LastUploadMeansAllIssued(create: Call, createContext: string, body: seq<Step>, fault: Fault,
                                 removeErr: Option<string>, policy: RemovalPolicy)
    requires create.ContainerCreate?
    requires RemovalFree(body)
    requires Fits(body, fault)
    requires |body| >= 1 && body[|body| - 1].call.CopyToContainer?
    requires forall i :: 0 <= i < |body| - 1 ==> !body[i].call.CopyToContainer?
    ensures body[|body| - 1].call in Run(create, createContext, body, fault, removeErr, policy).trace
            ==> !CreateFails(fault) && Issued(body, fault) == |body|
  {
    var r := Run(create, createContext, body, fault, removeErr, policy);
    if body[|body| - 1].call in r.trace {
      var k :| 0 <= k < |r.trace| && r.trace[k] == body[|body| - 1].call;
      assert k != 0;
      assert !CreateFails(fault);
      assert k != |r.trace| - 1;
      assert r.trace[k] == body[k - 1].call;
    }
  }
}
