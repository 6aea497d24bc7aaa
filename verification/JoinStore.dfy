/** Join requests and devices in the store: each transaction as the statements it runs. A
    statement that breaks a UNIQUE column fails, and the transaction is rolled back. */
module JoinStore {
  import opened Options
  import opened JoinTables

  datatype DeviceError = Fine | NotFound | OwnerProtected | HostOwnerProtected | Revoked

  class Store {
    var shares: map<string, Share>
    var requests: map<string, Request>
    var devices: map<string, Device>
    var host: Option<string>
    ghost var drawn: set<string>
    ghost var hosts: set<string>
    ghost var deleted: set<string>

    ghost function Abs(): Tables
      reads this
    {
      Tables(shares, requests, devices, host, drawn, hosts, deleted)
    }

    constructor ()
      ensures Abs() == EMPTY
    {
      shares, requests, devices, host := map[], map[], map[], None;
      drawn, hosts, deleted := {}, {}, {};
    }

    method InsertRequest(id: string, r: Request) returns (ok: bool)
      modifies this`requests
      ensures ok == RequestFits(old(Abs()), id, r.claim, r.deviceId, r.token)
      ensures requests == if ok then old(requests)[id := r] else old(requests)
    {
      if id in requests
         || exists s :: s in requests
              && (requests[s].claim == r.claim || requests[s].deviceId == r.deviceId || requests[s].token == r.token)
      {
        return false;
      }
      requests := requests[id := r];
      return true;
    }

    method InsertDevice(id: string, device: Device) returns (ok: bool)
      modifies this`devices
      ensures ok == DeviceFits(old(devices), id, device.token)
      ensures devices == if ok then old(devices)[id := device] else old(devices)
    {
      if id in devices || exists d :: d in devices && devices[d].token == device.token {
        return false;
      }
      devices := devices[id := device];
      return true;
    }

    method CreateShare(id: string, secret: string, autoApprove: bool, expiresAt: int) returns (ok: bool)
      modifies this`shares
      ensures ok == ShareFits(old(Abs()), id, secret)
      ensures Abs() == Apply(old(Abs()), Step.CreateShare(id, secret, autoApprove, expiresAt))
    {
      if secret in shares || exists s :: s in shares && shares[s].id == id {
        return false;
      }
      shares := shares[secret := Share(id, autoApprove, expiresAt, false)];
      return true;
    }

    method StopShare(id: string) returns (ok: bool)
      modifies this`shares
      ensures ok == exists s :: s in old(shares) && old(shares)[s].id == id && !old(shares)[s].stopped
      ensures Abs() == Apply(old(Abs()), Step.StopShare(id))
    {
      ok := exists s :: s in shares && shares[s].id == id && !shares[s].stopped;
      shares := map s | s in shares ::
        if shares[s].id == id && !shares[s].stopped then shares[s].(stopped := true) else shares[s];
      assert shares == Stopped(old(shares), id);
    }

    method CreateJoinRequest(id: string, claim: string, name: string, deviceId: string, token: string,
                             shareSecret: Option<string>, now: int, expiresAt: int)
      returns (ok: bool)
      modifies this
      ensures var step := CreateRequest(id, claim, name, deviceId, token, shareSecret, now, expiresAt);
        ok == Submits(old(Abs()), step) && Abs() == Apply(old(Abs()), step)
    {
      drawn := drawn + {deviceId};
      var shareId, auto := None, false;
      if shareSecret.Some? {
        var secret := shareSecret.value;
        if secret !in shares || shares[secret].stopped || shares[secret].expiresAt < now {
          return false;
        }
        shareId, auto := Some(shares[secret].id), shares[secret].autoApprove;
      }
      var begin := requests;
      ok := InsertRequest(id, Request(claim, name, deviceId, token, shareId, expiresAt,
                                      if auto then Approved else Pending, if auto then Some(Read) else None));
      if !ok {
        return false;
      }
      if auto {
        ok := InsertDevice(deviceId, Device(name, Read, token, false));
        if !ok {
          requests := begin;
        }
      }
    }

    /** `join_request_by_claim`: reading a request that ran out marks it expired. */
    method JoinRequestByClaim(id: string, claim: string, now: int) returns (request: Option<Request>)
      modifies this`requests
      ensures Abs() == Apply(old(Abs()), ReadByClaim(id, claim, now))
      ensures request == if id in requests && requests[id].claim == claim then Some(requests[id]) else None
    {
      if id in requests && requests[id].claim == claim && requests[id].status.Pending? && requests[id].expiresAt < now {
        requests := requests[id := requests[id].(status := Expired)];
      }
      if id !in requests || requests[id].claim != claim {
        return None;
      }
      return Some(requests[id]);
    }

    method ApproveJoinRequest(id: string, scope: Scope, now: int) returns (ok: bool)
      modifies this`requests, this`devices
      ensures Abs() == Apply(old(Abs()), Approve(id, scope, now))
      ensures ok <==> IsPending(old(Abs()), id) && id in requests && requests[id].status.Approved?
    {
      if id !in requests || !requests[id].status.Pending? {
        return false;
      }
      var r := requests[id];
      if r.expiresAt < now {
        requests := requests[id := r.(status := Expired)];
        return false;
      }
      ok := InsertDevice(r.deviceId, Device(r.name, scope, r.token, false));
      if !ok {
        return false;
      }
      requests := requests[id := r.(status := Approved, scope := Some(scope))];
    }

    method RejectJoinRequest(id: string) returns (ok: bool)
      modifies this`requests
      ensures ok == IsPending(old(Abs()), id) && Abs() == Apply(old(Abs()), Reject(id))
    {
      if id !in requests || !requests[id].status.Pending? {
        return false;
      }
      requests := requests[id := requests[id].(status := Rejected, scope := None)];
      return true;
    }

    method CancelJoinRequest(id: string, claim: string) returns (ok: bool)
      modifies this`requests
      ensures ok == (IsPending(old(Abs()), id) && old(requests)[id].claim == claim)
      ensures Abs() == Apply(old(Abs()), Cancel(id, claim))
    {
      if id !in requests || requests[id].claim != claim || !requests[id].status.Pending? {
        return false;
      }
      requests := requests[id := requests[id].(status := Cancelled)];
      return true;
    }

    method AddHostOwnerDevice(deviceId: string, name: string, token: string) returns (ok: bool)
      modifies this
      ensures ok == DeviceFits(old(devices), deviceId, token)
      ensures Abs() == Apply(old(Abs()), AddHostOwner(deviceId, name, token))
    {
      drawn := drawn + {deviceId};
      ok := InsertDevice(deviceId, Device(name, Owner, token, false));
      if ok {
        host := Some(deviceId);
        hosts := hosts + {deviceId};
      }
    }

    method RecoverHostOwnerDevice(deviceId: string, name: string, token: string) returns (ok: bool)
      modifies this
      ensures ok == TokenFree(old(devices), token, deviceId)
      ensures Abs() == Apply(old(Abs()), RecoverHostOwner(deviceId, name, token))
    {
      drawn := drawn + {deviceId};
      if deviceId in devices {
        if exists d :: d in devices && d != deviceId && devices[d].token == token {
          return false;
        }
        devices := devices[deviceId := devices[deviceId].(name := name, scope := Owner, token := token, revoked := false)];
      } else {
        ok := InsertDevice(deviceId, Device(name, Owner, token, false));
        if !ok {
          return false;
        }
      }
      host := Some(deviceId);
      hosts := hosts + {deviceId};
      return true;
    }

    /** `authorize_token`: tokens are unique, so at most one device has it. */
    method AuthorizeToken(token: string) returns (grant: Option<string>)
      ensures grant.Some? <==> Authorizes(Abs(), token)
      ensures grant.Some? ==> grant.value in devices && devices[grant.value].token == token && !devices[grant.value].revoked
    {
      if d :| d in devices && devices[d].token == token && !devices[d].revoked {
        return Some(d);
      }
      return None;
    }

    method ChangeDevice(id: string, name: Option<string>, scope: Option<Scope>, revoked: Option<bool>)
      returns (error: DeviceError)
      modifies this`devices
      ensures error == if id !in old(devices) then NotFound
        else if old(devices)[id].scope.Owner? then OwnerProtected else Fine
      ensures Abs() == Apply(old(Abs()), UpdateDevice(id, name, scope, revoked))
    {
      if id !in devices {
        return NotFound;
      }
      var current := devices[id];
      if current.scope.Owner? {
        return OwnerProtected;
      }
      devices := devices[id := current.(name := Or(name, current.name), scope := Or(scope, current.scope),
                                        revoked := Or(revoked, current.revoked))];
      return Fine;
    }

    /** `delete_device`: every pending request is rejected in the same transaction. */
    method RemoveDevice(id: string) returns (error: DeviceError)
      modifies this
      ensures error == if id !in old(devices) then NotFound
        else if old(devices)[id].scope.Owner? then OwnerProtected else Fine
      ensures Abs() == Apply(old(Abs()), DeleteDevice(id))
    {
      if id !in devices {
        return NotFound;
      }
      if devices[id].scope.Owner? {
        return OwnerProtected;
      }
      requests := map r | r in requests ::
        if requests[r].status.Pending? then requests[r].(status := Rejected) else requests[r];
      devices := devices - {id};
      deleted := deleted + {id};
      return Fine;
    }

    method ChangeOwnerRole(id: string, owner: bool) returns (error: DeviceError)
      modifies this`devices
      ensures error == if host == Some(id) then HostOwnerProtected else if id !in old(devices) then NotFound
        else if old(devices)[id].revoked then Revoked else Fine
      ensures Abs() == Apply(old(Abs()), SetOwnerRole(id, owner))
    {
      if host == Some(id) {
        return HostOwnerProtected;
      }
      if id !in devices {
        return NotFound;
      }
      if devices[id].revoked {
        return Revoked;
      }
      devices := devices[id := devices[id].(scope := if owner then Owner else Manage)];
      return Fine;
    }
  }
}
