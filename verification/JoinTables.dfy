/** Join requests and devices: the tables, and what each transaction does to them. */
module JoinTables {
  import opened Options

  datatype Scope = Read | Manage | Owner

  datatype Status = Pending | Approved | Rejected | Cancelled | Expired

  /** A share, by the hash of its secret. */
  datatype Share = Share(id: string, autoApprove: bool, expiresAt: int, stopped: bool)

  datatype Request = Request(
    claim: string,
    name: string,
    deviceId: string,
    token: string,
    shareId: Option<string>,
    expiresAt: int,
    status: Status,
    scope: Option<Scope>)

  datatype Device = Device(name: string, scope: Scope, token: string, revoked: bool)

  /** `host` is the id of the host owner's device. History: `drawn` are the device ids ever
      drawn, `hosts` those drawn or recovered for a host owner, `deleted` those deleted. */
  datatype Tables = Tables(
    shares: map<string, Share>,
    requests: map<string, Request>,
    devices: map<string, Device>,
    host: Option<string>,
    drawn: set<string>,
    hosts: set<string>,
    deleted: set<string>)

  const EMPTY := Tables(map[], map[], map[], None, {}, {}, {})

  datatype Step =
    | CreateShare(id: string, secret: string, autoApprove: bool, expiresAt: int)
    | StopShare(id: string)
    | CreateRequest(id: string, claim: string, name: string, deviceId: string, token: string,
                    shareSecret: Option<string>, now: int, expiresAt: int)
    | ReadByClaim(id: string, claim: string, now: int)
    | Approve(id: string, scope: Scope, now: int)
    | Reject(id: string)
    | Cancel(id: string, claim: string)
    | AddHostOwner(deviceId: string, name: string, token: string)
    | RecoverHostOwner(deviceId: string, name: string, token: string)
    | UpdateDevice(id: string, newName: Option<string>, newScope: Option<Scope>, newRevoked: Option<bool>)
    | DeleteDevice(id: string)
    | SetOwnerRole(id: string, owner: bool)

  /** Device ids are random, so never drawn before; a recovery keeps the id of the host owner's
      device if there is one. */
  predicate Fresh(t: Tables, step: Step) {
    match step
    case CreateRequest(_, _, _, deviceId, _, _, _, _) => deviceId !in t.drawn
    case AddHostOwner(deviceId, _, _) => deviceId !in t.drawn
    case RecoverHostOwner(deviceId, _, _) =>
      if t.host.Some? && t.host.value in t.devices then deviceId == t.host.value else deviceId !in t.drawn
    case _ => true
  }

  // ---- Shares ----

  predicate ShareFits(t: Tables, id: string, secret: string) {
    secret !in t.shares && forall s :: s in t.shares ==> t.shares[s].id != id
  }

  /** The share a request may name: not stopped, and not over yet. */
  predicate ActiveShare(t: Tables, secret: string, now: int) {
    secret in t.shares && !t.shares[secret].stopped && t.shares[secret].expiresAt >= now
  }

  function Stopped(shares: map<string, Share>, id: string): map<string, Share> {
    map s | s in shares :: if shares[s].id == id then shares[s].(stopped := true) else shares[s]
  }

  // ---- The UNIQUE columns ----

  predicate TokenFree(devices: map<string, Device>, token: string, id: string) {
    forall d :: d in devices && d != id ==> devices[d].token != token
  }

  predicate RequestFits(t: Tables, id: string, claim: string, deviceId: string, token: string) {
    && id !in t.requests
    && forall r :: r in t.requests ==>
         t.requests[r].claim != claim && t.requests[r].deviceId != deviceId && t.requests[r].token != token
  }

  predicate DeviceFits(devices: map<string, Device>, id: string, token: string) {
    id !in devices && TokenFree(devices, token, id)
  }

  predicate IsPending(t: Tables, id: string) {
    id in t.requests && t.requests[id].status.Pending?
  }

  /** Some device has the token and is not revoked. */
  predicate Authorizes(t: Tables, token: string) {
    exists d :: d in t.devices && t.devices[d].token == token && !t.devices[d].revoked
  }

  // ---- Transactions ----

  function Resolve(t: Tables, id: string, status: Status, scope: Option<Scope>): Tables
    requires id in t.requests
  {
    t.(requests := t.requests[id := t.requests[id].(status := status, scope := scope)])
  }

  function AddDevice(t: Tables, id: string, device: Device): Tables {
    t.(devices := t.devices[id := device])
  }

  function Submit(t: Tables, id: string, r: Request, autoApprove: bool): Tables {
    var u := t.(requests := t.requests[id := r], drawn := t.drawn + {r.deviceId});
    if autoApprove then AddDevice(u, r.deviceId, Device(r.name, Read, r.token, false)) else u
  }

  /** A request that names no share, or an active one. */
  predicate ShareFound(t: Tables, step: Step)
    requires step.CreateRequest?
  {
    step.shareSecret.Some? ==> ActiveShare(t, step.shareSecret.value, step.now)
  }

  predicate AutoApproved(t: Tables, step: Step)
    requires step.CreateRequest?
  {
    && step.shareSecret.Some? && ActiveShare(t, step.shareSecret.value, step.now)
    && t.shares[step.shareSecret.value].autoApprove
  }

  function RequestOf(t: Tables, step: Step): Request
    requires step.CreateRequest? && ShareFound(t, step)
  {
    var approved := AutoApproved(t, step);
    Request(step.claim, step.name, step.deviceId, step.token,
            if step.shareSecret.Some? then Some(t.shares[step.shareSecret.value].id) else None,
            step.expiresAt, if approved then Approved else Pending, if approved then Some(Read) else None)
  }

  predicate Submits(t: Tables, step: Step)
    requires step.CreateRequest?
  {
    && ShareFound(t, step)
    && RequestFits(t, step.id, step.claim, step.deviceId, step.token)
    && (AutoApproved(t, step) ==> DeviceFits(t.devices, step.deviceId, step.token))
  }

  /** Removing a member rejects every pending request in the same transaction. */
  function RejectPending(requests: map<string, Request>): map<string, Request> {
    map r | r in requests ::
      if requests[r].status.Pending? then requests[r].(status := Rejected) else requests[r]
  }

  /** The tables after a transaction; one that fails leaves them as they were. */
  function Apply(t: Tables, step: Step): Tables {
    match step
    case CreateShare(id, secret, autoApprove, expiresAt) =>
      if ShareFits(t, id, secret) then t.(shares := t.shares[secret := Share(id, autoApprove, expiresAt, false)]) else t
    case StopShare(id) => t.(shares := Stopped(t.shares, id))
    case CreateRequest(id, claim, name, deviceId, token, shareSecret, now, expiresAt) =>
      if Submits(t, step) then Submit(t, id, RequestOf(t, step), AutoApproved(t, step))
      else t.(drawn := t.drawn + {deviceId})
    case ReadByClaim(id, claim, now) =>
      if IsPending(t, id) && t.requests[id].claim == claim && t.requests[id].expiresAt < now
      then Resolve(t, id, Expired, t.requests[id].scope) else t
    case Approve(id, scope, now) =>
      if !IsPending(t, id) then t
      else if t.requests[id].expiresAt < now then Resolve(t, id, Expired, t.requests[id].scope)
      else
        var r := t.requests[id];
        if !DeviceFits(t.devices, r.deviceId, r.token) then t
        else Resolve(AddDevice(t, r.deviceId, Device(r.name, scope, r.token, false)), id, Approved, Some(scope))
    case Reject(id) => if IsPending(t, id) then Resolve(t, id, Rejected, None) else t
    case Cancel(id, claim) =>
      if IsPending(t, id) && t.requests[id].claim == claim then Resolve(t, id, Cancelled, t.requests[id].scope) else t
    case AddHostOwner(deviceId, name, token) =>
      var u := t.(drawn := t.drawn + {deviceId});
      if !DeviceFits(t.devices, deviceId, token) then u
      else AddDevice(u, deviceId, Device(name, Owner, token, false)).(host := Some(deviceId), hosts := t.hosts + {deviceId})
    case RecoverHostOwner(deviceId, name, token) =>
      var u := t.(drawn := t.drawn + {deviceId});
      if !TokenFree(t.devices, token, deviceId) then u
      else AddDevice(u, deviceId, Device(name, Owner, token, false)).(host := Some(deviceId), hosts := t.hosts + {deviceId})
    case UpdateDevice(id, name, scope, revoked) =>
      if id !in t.devices || t.devices[id].scope.Owner? then t
      else
        var d := t.devices[id];
        AddDevice(t, id, d.(name := Or(name, d.name), scope := Or(scope, d.scope), revoked := Or(revoked, d.revoked)))
    case DeleteDevice(id) =>
      if id !in t.devices || t.devices[id].scope.Owner? then t
      else t.(requests := RejectPending(t.requests), devices := t.devices - {id}, deleted := t.deleted + {id})
    case SetOwnerRole(id, owner) =>
      if t.host == Some(id) || id !in t.devices || t.devices[id].revoked then t
      else AddDevice(t, id, t.devices[id].(scope := if owner then Owner else Manage))
  }

  function Or<T>(o: Option<T>, d: T): T {
    if o.Some? then o.value else d
  }
}
