/** What every sequence of join and device transactions keeps. */
module JoinSafety {
  import opened Options
  import opened JoinTables

  // ---- The invariant ----

  /** A device was drawn for a host owner, or comes from an approved request, with its token. */
  ghost predicate OriginOk(t: Tables, d: string)
    requires d in t.devices
  {
    && d in t.drawn && d !in t.deleted
    && (d in t.hosts || exists r :: FromRequest(t, d, r))
  }

  predicate FromRequest(t: Tables, d: string, r: string)
    requires d in t.devices
  {
    && r in t.requests && t.requests[r].status.Approved?
    && t.requests[r].deviceId == d && t.requests[r].token == t.devices[d].token
  }

  /** The id of a pending request is held back for it. */
  predicate RequestOk(t: Tables, r: string)
    requires r in t.requests
  {
    var q := t.requests[r];
    && q.deviceId in t.drawn && q.deviceId !in t.hosts
    && (q.status.Pending? ==> q.deviceId !in t.devices && q.deviceId !in t.deleted)
  }

  predicate DistinctRequests(requests: map<string, Request>) {
    forall r, s :: r in requests && s in requests && requests[r].deviceId == requests[s].deviceId ==> r == s
  }

  predicate DistinctTokens(devices: map<string, Device>) {
    forall d, e :: d in devices && e in devices && devices[d].token == devices[e].token ==> d == e
  }

  /** The host owner's device is there, is an owner and is not revoked. */
  predicate HostOk(t: Tables) {
    t.host.Some? ==>
      && t.host.value in t.hosts && t.host.value in t.devices
      && t.devices[t.host.value].scope.Owner? && !t.devices[t.host.value].revoked
  }

  ghost predicate Inv(t: Tables) {
    && (forall d :: d in t.devices ==> OriginOk(t, d))
    && (forall r :: r in t.requests ==> RequestOk(t, r))
    && HostOk(t) && t.deleted <= t.drawn && t.hosts <= t.drawn
    && DistinctRequests(t.requests) && DistinctTokens(t.devices)
  }

  /** Approved requests stay as they are, and ids once drawn or drawn for a host stay so. */
  predicate Grows(t: Tables, u: Tables) {
    && t.hosts <= u.hosts && t.drawn <= u.drawn
    && forall r :: r in t.requests && t.requests[r].status.Approved? ==> r in u.requests && u.requests[r] == t.requests[r]
  }

  lemma OriginKept(t: Tables, u: Tables, d: string)
    requires d in t.devices && d in u.devices && OriginOk(t, d) && Grows(t, u)
    requires u.devices[d].token == t.devices[d].token && d !in u.deleted
    ensures OriginOk(u, d)
  {
    if d !in t.hosts {
      var r :| FromRequest(t, d, r);
      assert FromRequest(u, d, r);
    }
  }

  lemma SharesKeepInv(t: Tables, shares: map<string, Share>)
    requires Inv(t)
    ensures Inv(t.(shares := shares))
  {
    var u := t.(shares := shares);
    forall d | d in u.devices
      ensures OriginOk(u, d)
    {
      OriginKept(t, u, d);
    }
    assert forall r :: r in u.requests ==> RequestOk(t, r);
  }

  lemma DrawKeepsInv(t: Tables, id: string)
    requires Inv(t)
    ensures Inv(t.(drawn := t.drawn + {id}))
  {
    var u := t.(drawn := t.drawn + {id});
    forall d | d in u.devices
      ensures OriginOk(u, d)
    {
      OriginKept(t, u, d);
    }
    assert forall r :: r in u.requests ==> RequestOk(t, r);
  }

  /** A pending request is settled without a device. */
  lemma ResolveKeepsInv(t: Tables, id: string, status: Status, scope: Option<Scope>)
    requires Inv(t) && IsPending(t, id) && !status.Approved?
    ensures Inv(Resolve(t, id, status, scope))
  {
    var u := Resolve(t, id, status, scope);
    forall d | d in u.devices
      ensures OriginOk(u, d)
    {
      OriginKept(t, u, d);
    }
    forall r | r in u.requests
      ensures RequestOk(u, r)
    {
      assert RequestOk(t, r);
    }
  }

  lemma ApproveKeepsInv(t: Tables, id: string, scope: Scope)
    requires Inv(t) && IsPending(t, id) && DeviceFits(t.devices, t.requests[id].deviceId, t.requests[id].token)
    ensures var r := t.requests[id];
      Inv(Resolve(AddDevice(t, r.deviceId, Device(r.name, scope, r.token, false)), id, Approved, Some(scope)))
  {
    var r := t.requests[id];
    var u := Resolve(AddDevice(t, r.deviceId, Device(r.name, scope, r.token, false)), id, Approved, Some(scope));
    assert RequestOk(t, id);
    forall d | d in u.devices
      ensures OriginOk(u, d)
    {
      if d == r.deviceId {
        assert FromRequest(u, d, id);
      } else {
        OriginKept(t, u, d);
      }
    }
    forall s | s in u.requests
      ensures RequestOk(u, s)
    {
      assert RequestOk(t, s);
    }
  }

  /** A new request, pending. */
  lemma SubmitKeepsInv(t: Tables, id: string, r: Request)
    requires Inv(t) && r.status.Pending? && RequestFits(t, id, r.claim, r.deviceId, r.token) && r.deviceId !in t.drawn
    ensures Inv(Submit(t, id, r, false))
  {
    var u := Submit(t, id, r, false);
    forall d | d in u.devices
      ensures OriginOk(u, d)
    {
      OriginKept(t, u, d);
    }
    forall s | s in u.requests
      ensures RequestOk(u, s)
    {
      if s == id {
        assert forall d :: d in t.devices ==> OriginOk(t, d);
      } else {
        assert RequestOk(t, s);
      }
    }
  }

  /** A request approved by its share is submitted and approved at once. */
  lemma AutoApproves(t: Tables, id: string, r: Request)
    requires Inv(t) && r.status.Approved? && r.scope == Some(Read) && r.deviceId !in t.drawn
    requires RequestFits(t, id, r.claim, r.deviceId, r.token) && DeviceFits(t.devices, r.deviceId, r.token)
    ensures Inv(Submit(t, id, r, true))
  {
    hide Inv, RequestFits;
    var q := r.(status := Pending, scope := None);
    SubmitKeepsInv(t, id, q);
    var s := Submit(t, id, q, false);
    ApproveKeepsInv(s, id, Read);
    assert Submit(t, id, r, true)
        == Resolve(AddDevice(s, r.deviceId, Device(r.name, Read, r.token, false)), id, Approved, Some(Read));
  }

  function Hosted(t: Tables, id: string, name: string, token: string): Tables {
    AddDevice(t.(drawn := t.drawn + {id}), id, Device(name, Owner, token, false))
      .(host := Some(id), hosts := t.hosts + {id})
  }

  lemma HostKeepsInv(t: Tables, id: string, name: string, token: string)
    requires Inv(t) && TokenFree(t.devices, token, id) && (id !in t.drawn || t.host == Some(id))
    ensures Inv(Hosted(t, id, name, token))
  {
    var u := Hosted(t, id, name, token);
    forall d | d in u.devices
      ensures OriginOk(u, d)
    {
      if d in t.devices {
        assert OriginOk(t, d);
        if d != id { OriginKept(t, u, d); }
      }
    }
    forall r | r in u.requests
      ensures RequestOk(u, r)
    {
      assert RequestOk(t, r);
    }
  }

  /** A device changes, but not its token; the host owner's stays an owner. */
  lemma ChangeKeepsInv(t: Tables, id: string, device: Device)
    requires Inv(t) && id in t.devices && device.token == t.devices[id].token && t.host != Some(id)
    ensures Inv(AddDevice(t, id, device))
  {
    var u := AddDevice(t, id, device);
    forall d | d in u.devices
      ensures OriginOk(u, d)
    {
      OriginKept(t, u, d);
    }
    forall r | r in u.requests
      ensures RequestOk(u, r)
    {
      assert RequestOk(t, r);
    }
  }

  lemma DeleteKeepsInv(t: Tables, id: string)
    requires Inv(t) && id in t.devices && t.host != Some(id)
    ensures Inv(t.(requests := RejectPending(t.requests), devices := t.devices - {id}, deleted := t.deleted + {id}))
  {
    var u := t.(requests := RejectPending(t.requests), devices := t.devices - {id}, deleted := t.deleted + {id});
    assert OriginOk(t, id);
    forall d | d in u.devices
      ensures OriginOk(u, d)
    {
      assert OriginOk(t, d);
      OriginKept(t, u, d);
    }
    forall r | r in u.requests
      ensures RequestOk(u, r)
    {
      assert RequestOk(t, r);
    }
  }

  lemma StepKeepsInv(t: Tables, step: Step)
    requires Inv(t) && Fresh(t, step)
    ensures Inv(Apply(t, step))
  {
    assert HostOk(t);
    hide Inv, RequestFits, DeviceFits, TokenFree, RejectPending;
    match step
    case CreateShare(id, secret, autoApprove, expiresAt) => SharesKeepInv(t, Apply(t, step).shares);
    case StopShare(id) => SharesKeepInv(t, Stopped(t.shares, id));
    case CreateRequest(id, claim, name, deviceId, token, shareSecret, now, expiresAt) => CreateKeepsInv(t, step);
    case ReadByClaim(id, claim, now) =>
      if IsPending(t, id) { ResolveKeepsInv(t, id, Expired, t.requests[id].scope); }
    case Approve(id, scope, now) =>
      if IsPending(t, id) {
        ResolveKeepsInv(t, id, Expired, t.requests[id].scope);
        if DeviceFits(t.devices, t.requests[id].deviceId, t.requests[id].token) { ApproveKeepsInv(t, id, scope); }
      }
    case Reject(id) =>
      if IsPending(t, id) { ResolveKeepsInv(t, id, Rejected, None); }
    case Cancel(id, claim) =>
      if IsPending(t, id) { ResolveKeepsInv(t, id, Cancelled, t.requests[id].scope); }
    case AddHostOwner(deviceId, name, token) => HostOwnerKeepsInv(t, step, deviceId, name, token);
    case RecoverHostOwner(deviceId, name, token) => HostOwnerKeepsInv(t, step, deviceId, name, token);
    case UpdateDevice(id, name, scope, revoked) =>
      if id in t.devices && !t.devices[id].scope.Owner? { ChangeKeepsInv(t, id, Apply(t, step).devices[id]); }
    case DeleteDevice(id) =>
      if id in t.devices && !t.devices[id].scope.Owner? { DeleteKeepsInv(t, id); }
    case SetOwnerRole(id, owner) =>
      if t.host != Some(id) && id in t.devices { ChangeKeepsInv(t, id, t.devices[id].(scope := if owner then Owner else Manage)); }
  }

  lemma CreateKeepsInv(t: Tables, step: Step)
    requires Inv(t) && Fresh(t, step) && step.CreateRequest?
    ensures Inv(Apply(t, step))
  {
    hide Inv, RequestFits, DeviceFits;
    DrawKeepsInv(t, step.deviceId);
    if Submits(t, step) {
      if AutoApproved(t, step) {
        AutoApproves(t, step.id, RequestOf(t, step));
      } else {
        SubmitKeepsInv(t, step.id, RequestOf(t, step));
      }
    }
  }

  lemma HostOwnerKeepsInv(t: Tables, step: Step, id: string, name: string, token: string)
    requires Inv(t) && Fresh(t, step) && (step == AddHostOwner(id, name, token) || step == RecoverHostOwner(id, name, token))
    ensures Inv(Apply(t, step))
  {
    hide Inv, TokenFree;
    DrawKeepsInv(t, id);
    if TokenFree(t.devices, token, id) {
      HostKeepsInv(t, id, name, token);
    }
  }

  // ---- Runs ----

  ghost predicate IsRun(states: seq<Tables>, steps: seq<Step>) {
    && |states| == |steps| + 1 && states[0] == EMPTY
    && forall i :: 0 <= i < |steps| ==> StepAt(states, steps, i)
  }

  predicate StepAt(states: seq<Tables>, steps: seq<Step>, i: nat)
    requires |states| == |steps| + 1 && i < |steps|
  {
    Fresh(states[i], steps[i]) && states[i + 1] == Apply(states[i], steps[i])
  }

  lemma {:induction false} RunKeepsInv(states: seq<Tables>, steps: seq<Step>, n: nat)
    requires IsRun(states, steps) && n < |states|
    ensures Inv(states[n])
  {
    if n > 0 {
      hide Inv, Apply, Fresh;
      RunKeepsInv(states, steps, n - 1);
      assert StepAt(states, steps, n - 1);
      StepKeepsInv(states[n - 1], steps[n - 1]);
    }
  }

  /** Every device was drawn for a host owner, or comes from a request that was approved, with
      the token of that request. */
  lemma DeviceOrigin(states: seq<Tables>, steps: seq<Step>, n: nat, d: string)
    requires IsRun(states, steps) && n < |states| && d in states[n].devices
    ensures d in states[n].hosts || exists r :: FromRequest(states[n], d, r)
  {
    RunKeepsInv(states, steps, n);
    assert OriginOk(states[n], d);
  }

  /** The host owner's device can be neither removed, demoted nor revoked. */
  lemma HostStays(states: seq<Tables>, steps: seq<Step>, n: nat)
    requires IsRun(states, steps) && n < |states|
    ensures HostOk(states[n])
  {
    RunKeepsInv(states, steps, n);
  }

  // ---- Requests are settled once ----

  /** A request never goes, and once it is no longer pending nothing about it changes. */
  predicate Settles(before: map<string, Request>, after: map<string, Request>, r: string)
    requires r in before
  {
    && r in after
    && after[r] == before[r].(status := after[r].status, scope := after[r].scope)
    && (!before[r].status.Pending? ==> after[r] == before[r])
  }

  lemma StepSettles(t: Tables, step: Step, r: string)
    requires r in t.requests
    ensures Settles(t.requests, Apply(t, step).requests, r)
  {
  }

  lemma {:induction false} SettledOnce(states: seq<Tables>, steps: seq<Step>, n: nat, m: nat, r: string)
    requires IsRun(states, steps) && n <= m < |states| && r in states[n].requests
    ensures Settles(states[n].requests, states[m].requests, r)
    decreases m
  {
    if n < m {
      hide Apply, Fresh;
      SettledOnce(states, steps, n, m - 1, r);
      assert StepAt(states, steps, m - 1);
      StepSettles(states[m - 1], steps[m - 1], r);
    }
  }

  /** A stopped share stays stopped. */
  lemma {:induction false} StoppedForGood(states: seq<Tables>, steps: seq<Step>, n: nat, m: nat, secret: string)
    requires IsRun(states, steps) && n <= m < |states| && secret in states[n].shares && states[n].shares[secret].stopped
    ensures secret in states[m].shares && states[m].shares[secret].stopped
    decreases m
  {
    if n < m {
      StoppedForGood(states, steps, n, m - 1, secret);
      assert StepAt(states, steps, m - 1);
      StepKeepsStopped(states[m - 1], steps[m - 1], secret);
    }
  }

  lemma StepKeepsStopped(t: Tables, step: Step, secret: string)
    requires secret in t.shares && t.shares[secret].stopped
    ensures secret in Apply(t, step).shares && Apply(t, step).shares[secret].stopped
  {
    hide Submits, DeviceFits, TokenFree, RequestFits;
  }

  // ---- After a member is removed ----

  lemma StepAddsDevice(t: Tables, step: Step, d: string)
    requires Inv(t) && Fresh(t, step) && d in Apply(t, step).devices && d !in t.devices
    ensures d !in t.drawn || exists r :: IsPending(t, r) && t.requests[r].deviceId == d
  {
  }

  lemma StepKeepsDrawn(t: Tables, step: Step)
    ensures t.drawn <= Apply(t, step).drawn && t.deleted <= Apply(t, step).deleted
  {
  }

  /** The step removed a member. */
  predicate Removes(t: Tables, step: Step) {
    step.DeleteDevice? && step.id in t.devices && !t.devices[step.id].scope.Owner?
  }

  /** Once a member has been removed, its id never comes back. */
  lemma {:induction false} DeletedForGood(states: seq<Tables>, steps: seq<Step>, n: nat, m: nat)
    requires IsRun(states, steps) && n < m < |states| && Removes(states[n], steps[n])
    ensures steps[n].id in states[m].deleted && steps[n].id !in states[m].devices
    decreases m
  {
    assert StepAt(states, steps, m - 1);
    RunKeepsInv(states, steps, m);
    if m > n + 1 {
      DeletedForGood(states, steps, n, m - 1);
      StepKeepsDrawn(states[m - 1], steps[m - 1]);
    }
    DeletedAbsent(states[m]);
  }

  lemma DeletedAbsent(t: Tables)
    requires Inv(t)
    ensures t.deleted !! t.devices.Keys
  {
  }

  /** No request submitted before a member was removed is pending afterwards, and none ever
      brings a device that was not there already. */
  lemma {:induction false} NoLateDevice(states: seq<Tables>, steps: seq<Step>, n: nat, m: nat, r: string)
    requires IsRun(states, steps) && n < m < |states| && Removes(states[n], steps[n]) && r in states[n].requests
    ensures r in states[m].requests && !states[m].requests[r].status.Pending?
    ensures var d := states[n].requests[r].deviceId; d in states[m].devices ==> d in states[n + 1].devices
    decreases m
  {
    assert StepAt(states, steps, m - 1);
    if m > n + 1 {
      var t, d := states[m - 1], states[n].requests[r].deviceId;
      NoLateDevice(states, steps, n, m - 1, r);
      SettledOnce(states, steps, n, m - 1, r);
      RunKeepsInv(states, steps, m - 1);
      hide Apply, Fresh, IsRun, Settles;
      StepSettles(t, steps[m - 1], r);
      SettledSame(states[n].requests, t.requests, r);
      SettledSame(t.requests, states[m].requests, r);
      assert RequestOk(t, r);
      if d in states[m].devices && d !in t.devices {
        StepAddsDevice(t, steps[m - 1], d);
      }
    }
  }

  lemma SettledSame(before: map<string, Request>, after: map<string, Request>, r: string)
    requires r in before && Settles(before, after, r)
    ensures r in after && after[r].deviceId == before[r].deviceId
    ensures !before[r].status.Pending? ==> !after[r].status.Pending?
  {
  }
}
