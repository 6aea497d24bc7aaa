/** Every column of the join tables, over all transactions of all runs: how requests are settled,
    where devices and their scopes come from, and whom a token lets in. */
module JoinLaws {
  import opened Options
  import opened JoinTables
  import opened JoinSafety

  /** Step `i` of a run leads from `t` to `u`. */
  ghost predicate Does(states: seq<Tables>, steps: seq<Step>, i: nat, t: Tables, step: Step, u: Tables) {
    IsRun(states, steps) && i < |steps| && states[i] == t && steps[i] == step && states[i + 1] == u
  }

  lemma Applied(states: seq<Tables>, steps: seq<Step>, i: nat, t: Tables, step: Step, u: Tables)
    requires Does(states, steps, i, t, step, u)
    ensures Inv(t) && Fresh(t, step) && u == Apply(t, step)
  {
    RunKeepsInv(states, steps, i);
    assert StepAt(states, steps, i);
    hide IsRun, Inv, Apply, Fresh;
  }

  /** The request names a share that has not been stopped and has not run out, or none. */
  predicate ShareOpen(t: Tables, secret: Option<string>, now: int) {
    secret.Some? ==> secret.value in t.shares && !t.shares[secret.value].stopped && now <= t.shares[secret.value].expiresAt
  }

  /** That share approves requests by itself. */
  predicate ApprovesAlone(t: Tables, secret: Option<string>) {
    secret.Some? && secret.value in t.shares && t.shares[secret.value].autoApprove
  }

  predicate TokenKnown(t: Tables, token: string) {
    exists d :: d in t.devices && t.devices[d].token == token
  }

  /** Nothing the request brings is taken by another request. */
  predicate Unclaimed(t: Tables, claim: string, deviceId: string, token: string) {
    forall r :: r in t.requests ==>
      t.requests[r].claim != claim && t.requests[r].deviceId != deviceId && t.requests[r].token != token
  }

  // ---- Requests ----

  /** A request comes exactly if what it brings is new and the share it names, if any, is open.
      It is pending, unless that share approves by itself: then it is approved for reading. */
  lemma RequestComes(states: seq<Tables>, steps: seq<Step>, i: nat, t: Tables, step: Step, u: Tables, r: string)
    requires Does(states, steps, i, t, step, u) && r !in t.requests
    ensures r in u.requests <==>
      && step.CreateRequest? && step.id == r && ShareOpen(t, step.shareSecret, step.now)
      && Unclaimed(t, step.claim, step.deviceId, step.token)
      && (ApprovesAlone(t, step.shareSecret) ==> !TokenKnown(t, step.token))
    ensures r in u.requests ==>
      var row, alone := u.requests[r], ApprovesAlone(t, step.shareSecret);
      && row.claim == step.claim && row.name == step.name && row.deviceId == step.deviceId && row.token == step.token
      && row.expiresAt == step.expiresAt
      && row.status == (if alone then Approved else Pending) && row.scope == (if alone then Some(Read) else None)
      && (step.shareSecret.None? ==> row.shareId.None?)
      && (step.shareSecret.Some? ==> row.shareId == Some(t.shares[step.shareSecret.value].id))
  {
    Applied(states, steps, i, t, step, u);
    hide Does, Stopped;
    if step.CreateRequest? {
      FreshFits(t, step);
    }
    hide Inv;
  }

  /** The id drawn for a request is new, so only its token can be in the way. */
  lemma FreshFits(t: Tables, step: Step)
    requires Inv(t) && Fresh(t, step) && step.CreateRequest?
    ensures DeviceFits(t.devices, step.deviceId, step.token) <==> !TokenKnown(t, step.token)
  {
    assert forall d :: d in t.devices ==> OriginOk(t, d);
  }

  /** The step removes a member's device. */
  predicate RemovesMember(t: Tables, step: Step) {
    step.DeleteDevice? && step.id in t.devices && t.devices[step.id].scope != Owner
  }

  /** What becomes of a pending request: approved in time, if its token is still free; expired,
      when it is read or to be approved too late; cancelled by its claim; rejected by the host or
      by the removal of any member. Else it waits. */
  function Outcome(t: Tables, step: Step, r: string): Status
    requires r in t.requests
  {
    var q := t.requests[r];
    if step.Approve? && step.id == r && q.expiresAt < step.now then Expired
    else if step.Approve? && step.id == r && !TokenKnown(t, q.token) then Approved
    else if step.ReadByClaim? && step.id == r && step.claim == q.claim && q.expiresAt < step.now then Expired
    else if step.Cancel? && step.id == r && step.claim == q.claim then Cancelled
    else if (step.Reject? && step.id == r) || RemovesMember(t, step) then Rejected
    else Pending
  }

  /** Nothing else about it changes, but for the scope of an approval. */
  lemma RequestSettles(states: seq<Tables>, steps: seq<Step>, i: nat, t: Tables, step: Step, u: Tables, r: string)
    requires Does(states, steps, i, t, step, u) && r in t.requests && t.requests[r].status == Pending
    ensures r in u.requests && u.requests[r].status == Outcome(t, step, r)
    ensures u.requests[r].status == Approved ==> u.requests[r].scope == Some(step.scope)
    ensures u.requests[r] == t.requests[r].(status := u.requests[r].status, scope := u.requests[r].scope)
  {
    Applied(states, steps, i, t, step, u);
    hide Does, Inv, Apply, Outcome;
    if step.Approve? {
      ApprovalSettles(t, step, r);
    } else {
      OtherwiseSettles(t, step, r);
    }
  }

  lemma ApprovalSettles(t: Tables, step: Step, r: string)
    requires Inv(t) && step.Approve? && IsPending(t, r)
    ensures var u := Apply(t, step);
      && r in u.requests && u.requests[r].status == Outcome(t, step, r)
      && (u.requests[r].status == Approved ==> u.requests[r].scope == Some(step.scope))
      && u.requests[r] == t.requests[r].(status := u.requests[r].status, scope := u.requests[r].scope)
  {
    PendingFits(t, r);
    hide Inv, DeviceFits, TokenKnown;
  }

  lemma OtherwiseSettles(t: Tables, step: Step, r: string)
    requires !step.Approve? && IsPending(t, r)
    ensures var u := Apply(t, step);
      && r in u.requests && u.requests[r].status == Outcome(t, step, r) && u.requests[r].status != Approved
      && u.requests[r] == t.requests[r].(status := u.requests[r].status, scope := u.requests[r].scope)
  {
    hide DeviceFits, TokenFree, TokenKnown, Stopped, AutoApproved, ShareFound;
  }

  lemma PendingFits(t: Tables, r: string)
    requires Inv(t) && IsPending(t, r)
    ensures DeviceFits(t.devices, t.requests[r].deviceId, t.requests[r].token) <==> !TokenKnown(t, t.requests[r].token)
  {
    assert RequestOk(t, r);
  }

  // ---- Devices ----

  /** The device a step brings, if none has its id: that of a request the host approves, with the
      scope the host names; that of a request its share approves, for reading; an owner's. */
  function Brings(t: Tables, step: Step): map<string, Device> {
    match step
    case Approve(id, scope, now) =>
      if id in t.requests && Outcome(t, step, id) == Approved && t.requests[id].status == Pending
      then map[t.requests[id].deviceId := Device(t.requests[id].name, scope, t.requests[id].token, false)]
      else map[]
    case CreateRequest(id, claim, name, deviceId, token, shareSecret, now, expiresAt) =>
      if id !in t.requests && ShareOpen(t, shareSecret, now) && ApprovesAlone(t, shareSecret)
         && Unclaimed(t, claim, deviceId, token) && !TokenKnown(t, token)
      then map[deviceId := Device(name, Read, token, false)]
      else map[]
    case AddHostOwner(deviceId, name, token) =>
      if TokenKnown(t, token) then map[] else map[deviceId := Device(name, Owner, token, false)]
    case RecoverHostOwner(deviceId, name, token) =>
      if TokenKnown(t, token) then map[] else map[deviceId := Device(name, Owner, token, false)]
    case _ => map[]
  }

  lemma DeviceComes(states: seq<Tables>, steps: seq<Step>, i: nat, t: Tables, step: Step, u: Tables, d: string)
    requires Does(states, steps, i, t, step, u) && d !in t.devices
    ensures d in u.devices <==> d in Brings(t, step)
    ensures d in u.devices ==> u.devices[d] == Brings(t, step)[d]
  {
    Applied(states, steps, i, t, step, u);
    match step
    case CreateRequest(_, _, _, _, _, _, _, _) => FreshFits(t, step);
    case Approve(id, _, _) => if IsPending(t, id) { PendingFits(t, id); }
    case AddHostOwner(id, _, _) => assert id !in t.devices by { HostNew(t, step); }
    case _ =>
    hide Does, Inv, Stopped;
  }

  lemma HostNew(t: Tables, step: Step)
    requires Inv(t) && Fresh(t, step) && step.AddHostOwner?
    ensures step.deviceId !in t.devices
  {
    assert forall d :: d in t.devices ==> OriginOk(t, d);
  }

  /** Only the removal of a member takes a device away, and never an owner's. */
  lemma DeviceGoes(states: seq<Tables>, steps: seq<Step>, i: nat, t: Tables, step: Step, u: Tables, d: string)
    requires Does(states, steps, i, t, step, u) && d in t.devices
    ensures d !in u.devices <==> RemovesMember(t, step) && step.id == d
    ensures d !in u.devices ==> d in u.deleted
  {
    Applied(states, steps, i, t, step, u);
    hide Does, Inv, Stopped, Submits, RequestFits, DeviceFits, TokenFree;
  }

  /** No other device has the token. */
  predicate TokenSpare(t: Tables, token: string, d: string) {
    forall e :: e in t.devices && t.devices[e].token == token ==> e == d
  }

  /** A device changes exactly by an update, unless it is an owner's; by the recovery of the host
      owner; or by an owner role given or taken, unless it is the host owner's or revoked. */
  lemma DeviceChanges(states: seq<Tables>, steps: seq<Step>, i: nat, t: Tables, step: Step, u: Tables, d: string)
    requires Does(states, steps, i, t, step, u) && d in t.devices && d in u.devices
    ensures var row := t.devices[d];
      u.devices[d] ==
      if step.UpdateDevice? && step.id == d && row.scope != Owner
      then Device(if step.newName.Some? then step.newName.value else row.name,
                  if step.newScope.Some? then step.newScope.value else row.scope,
                  row.token,
                  if step.newRevoked.Some? then step.newRevoked.value else row.revoked)
      else if step.RecoverHostOwner? && step.deviceId == d && TokenSpare(t, step.token, d)
      then Device(step.name, Owner, step.token, false)
      else if step.SetOwnerRole? && step.id == d && t.host != Some(d) && !row.revoked
      then row.(scope := if step.owner then Owner else Manage)
      else row
  {
    Applied(states, steps, i, t, step, u);
    hide Does, Inv, Stopped, Submits, RequestFits;
  }

  // ---- Shares and the host owner ----

  /** A share comes exactly with a new secret and a new id, and is not stopped. */
  lemma ShareComes(states: seq<Tables>, steps: seq<Step>, i: nat, t: Tables, step: Step, u: Tables, s: string)
    requires Does(states, steps, i, t, step, u) && s !in t.shares
    ensures s in u.shares <==>
      step.CreateShare? && step.secret == s && forall k :: k in t.shares ==> t.shares[k].id != step.id
    ensures s in u.shares ==> u.shares[s] == Share(step.id, step.autoApprove, step.expiresAt, false)
  {
    Applied(states, steps, i, t, step, u);
    hide Does, Inv, Submits, RequestFits, DeviceFits, TokenFree;
  }

  /** A share stays as it is, but for being stopped. */
  lemma ShareChanges(states: seq<Tables>, steps: seq<Step>, i: nat, t: Tables, step: Step, u: Tables, s: string)
    requires Does(states, steps, i, t, step, u) && s in t.shares
    ensures s in u.shares && u.shares[s] ==
      if step.StopShare? && step.id == t.shares[s].id then t.shares[s].(stopped := true) else t.shares[s]
  {
    Applied(states, steps, i, t, step, u);
    hide Does, Inv, Submits, RequestFits, DeviceFits, TokenFree;
  }

  /** The host owner's device is the last one that was added or recovered as such. */
  lemma HostChanges(states: seq<Tables>, steps: seq<Step>, i: nat, t: Tables, step: Step, u: Tables)
    requires Does(states, steps, i, t, step, u)
    ensures u.host ==
      if (step.AddHostOwner? && !TokenKnown(t, step.token))
         || (step.RecoverHostOwner? && TokenSpare(t, step.token, step.deviceId))
      then Some(step.deviceId) else t.host
  {
    Applied(states, steps, i, t, step, u);
    if step.AddHostOwner? {
      HostNew(t, step);
    }
    hide Does, Inv, Submits, RequestFits, Stopped;
  }

  // ---- Over runs ----

  /** The step lets a request in, for this scope: the host approves it in time and names the scope,
      or it names an open share that approves by itself, for reading. */
  predicate LetsIn(t: Tables, step: Step, r: string, scope: Scope) {
    || (step.Approve? && step.id == r && r in t.requests && t.requests[r].status == Pending
        && step.now <= t.requests[r].expiresAt && scope == step.scope)
    || (step.CreateRequest? && step.id == r && step.shareSecret.Some? && ShareOpen(t, step.shareSecret, step.now)
        && ApprovesAlone(t, step.shareSecret) && scope == Read)
  }

  /** Every approved request was let in, for the scope it carries, and brought its device with
      that scope, under its name and token, not revoked. */
  lemma {:induction false} ApprovalOrigin(states: seq<Tables>, steps: seq<Step>, n: nat, r: string) returns (i: nat)
    requires IsRun(states, steps) && n < |states| && r in states[n].requests && states[n].requests[r].status == Approved
    ensures var q := states[n].requests[r];
      && i < n && q.scope.Some? && LetsIn(states[i], steps[i], r, q.scope.value)
      && q.deviceId !in states[i].devices && q.deviceId in states[i + 1].devices
      && states[i + 1].devices[q.deviceId] == Device(q.name, q.scope.value, q.token, false)
    decreases n
  {
    assert n > 0;
    var t, step, u := states[n - 1], steps[n - 1], states[n];
    assert Does(states, steps, n - 1, t, step, u);
    hide IsRun, Does;
    if r in t.requests && t.requests[r].status == Approved {
      i := ApprovalOrigin(states, steps, n - 1, r);
      SettledNow(states, steps, n - 1, t, step, u, r);
    } else {
      i := n - 1;
      LetInNow(states, steps, n - 1, t, step, u, r);
    }
  }

  lemma SettledNow(states: seq<Tables>, steps: seq<Step>, i: nat, t: Tables, step: Step, u: Tables, r: string)
    requires Does(states, steps, i, t, step, u) && r in t.requests && t.requests[r].status != Pending
    ensures r in u.requests && u.requests[r] == t.requests[r]
  {
    Applied(states, steps, i, t, step, u);
    StepSettles(t, step, r);
    hide Does, Inv, Apply;
  }

  lemma LetInNow(states: seq<Tables>, steps: seq<Step>, i: nat, t: Tables, step: Step, u: Tables, r: string)
    requires Does(states, steps, i, t, step, u) && r in u.requests && u.requests[r].status == Approved
    requires r in t.requests ==> t.requests[r].status != Approved
    ensures var q := u.requests[r];
      && q.scope.Some? && LetsIn(t, step, r, q.scope.value)
      && q.deviceId !in t.devices && q.deviceId in u.devices
      && u.devices[q.deviceId] == Device(q.name, q.scope.value, q.token, false)
  {
    Applied(states, steps, i, t, step, u);
    hide Apply, Inv, ShareOpen, Unclaimed, TokenKnown;
    if r !in t.requests {
      RequestComes(states, steps, i, t, step, u, r);
      NotDrawnYet(t, step);
    } else {
      if t.requests[r].status != Pending {
        SettledNow(states, steps, i, t, step, u, r);
      }
      RequestSettles(states, steps, i, t, step, u, r);
      HeldBack(t, r);
    }
    DeviceComes(states, steps, i, t, step, u, u.requests[r].deviceId);
  }

  lemma NotDrawnYet(t: Tables, step: Step)
    requires Inv(t) && Fresh(t, step)
    ensures step.CreateRequest? ==> step.deviceId !in t.devices
  {
    assert forall d :: d in t.devices ==> OriginOk(t, d);
  }

  lemma HeldBack(t: Tables, r: string)
    requires Inv(t) && r in t.requests && t.requests[r].status == Pending
    ensures t.requests[r].deviceId !in t.devices
  {
    assert RequestOk(t, r);
  }

  /** The steps that make a device an owner's. */
  predicate MakesOwner(t: Tables, step: Step, d: string) {
    || (step.AddHostOwner? && step.deviceId == d)
    || (step.RecoverHostOwner? && step.deviceId == d)
    || (step.Approve? && step.scope == Owner && step.id in t.requests
        && t.requests[step.id].status == Pending && t.requests[step.id].deviceId == d)
    || (step.UpdateDevice? && step.id == d && step.newScope == Some(Owner))
    || (step.SetOwnerRole? && step.id == d && step.owner)
  }

  /** Every owner's device was made one, and has been one ever since. */
  lemma {:induction false} OwnerOrigin(states: seq<Tables>, steps: seq<Step>, n: nat, d: string) returns (i: nat)
    requires IsRun(states, steps) && n < |states| && d in states[n].devices && states[n].devices[d].scope == Owner
    ensures i < n && MakesOwner(states[i], steps[i], d)
    ensures forall k :: i < k <= n ==> d in states[k].devices && states[k].devices[d].scope == Owner
    decreases n
  {
    assert n > 0;
    var t, step, u := states[n - 1], steps[n - 1], states[n];
    assert Does(states, steps, n - 1, t, step, u);
    hide IsRun, Does, TokenKnown, TokenSpare, Unclaimed, ShareOpen;
    if d in t.devices && t.devices[d].scope == Owner {
      i := OwnerOrigin(states, steps, n - 1, d);
    } else {
      i := n - 1;
      if d in t.devices {
        DeviceChanges(states, steps, n - 1, t, step, u, d);
      } else {
        DeviceComes(states, steps, n - 1, t, step, u, d);
      }
    }
  }

  /** A device that was there once is there unless it has been deleted. */
  lemma {:induction false} ThereOrDeleted(states: seq<Tables>, steps: seq<Step>, n: nat, m: nat, d: string)
    requires IsRun(states, steps) && n <= m < |states| && d in states[n].devices
    ensures d in states[m].devices <==> d !in states[m].deleted
    decreases m
  {
    RunKeepsInv(states, steps, m);
    DeletedAbsent(states[m]);
    if n < m {
      var t, step, u := states[m - 1], steps[m - 1], states[m];
      ThereOrDeleted(states, steps, n, m - 1, d);
      assert Does(states, steps, m - 1, t, step, u);
      Applied(states, steps, m - 1, t, step, u);
      StepKeepsDrawn(t, step);
      hide IsRun, Does, Inv, Apply;
      if d in t.devices {
        DeviceGoes(states, steps, m - 1, t, step, u, d);
      }
    }
  }

  /** The step says that the device is not revoked. */
  predicate Readmits(step: Step, d: string) {
    || (step.UpdateDevice? && step.id == d && step.newRevoked == Some(false))
    || (step.RecoverHostOwner? && step.deviceId == d)
  }

  /** A revoked device stays revoked, as long as it is there and no step says otherwise. */
  lemma {:induction false} RevokedStays(states: seq<Tables>, steps: seq<Step>, n: nat, m: nat, d: string)
    requires IsRun(states, steps) && n <= m < |states| && d in states[n].devices && states[n].devices[d].revoked
    requires d in states[m].devices && forall k :: n <= k < m ==> !Readmits(steps[k], d)
    ensures states[m].devices[d].revoked
    decreases m
  {
    if n < m {
      var t, step, u := states[m - 1], steps[m - 1], states[m];
      assert Does(states, steps, m - 1, t, step, u);
      Applied(states, steps, m - 1, t, step, u);
      StepKeepsDrawn(t, step);
      ThereOrDeleted(states, steps, n, m - 1, d);
      ThereOrDeleted(states, steps, n, m, d);
      RevokedStays(states, steps, n, m - 1, d);
      hide IsRun, Does, Inv, Apply;
      DeviceChanges(states, steps, m - 1, t, step, u, d);
    }
  }

  // ---- Tokens ----

  ghost predicate RequestTokensDiffer(t: Tables) {
    forall r, s :: r in t.requests && s in t.requests && t.requests[r].token == t.requests[s].token ==> r == s
  }

  lemma {:induction false} TokensDiffer(states: seq<Tables>, steps: seq<Step>, n: nat)
    requires IsRun(states, steps) && n < |states|
    ensures RequestTokensDiffer(states[n])
  {
    if n > 0 {
      var t, step, u := states[n - 1], steps[n - 1], states[n];
      TokensDiffer(states, steps, n - 1);
      assert Does(states, steps, n - 1, t, step, u);
      hide IsRun, Does;
      forall r | r in u.requests
        ensures r in t.requests ==> u.requests[r].token == t.requests[r].token
        ensures r !in t.requests ==> step.CreateRequest? && step.id == r && u.requests[r].token == step.token
        ensures r !in t.requests ==> Unclaimed(t, step.claim, step.deviceId, step.token)
      {
        if r !in t.requests {
          RequestComes(states, steps, n - 1, t, step, u, r);
        } else if t.requests[r].status == Pending {
          RequestSettles(states, steps, n - 1, t, step, u, r);
        } else {
          SettledNow(states, steps, n - 1, t, step, u, r);
        }
      }
    }
  }

  /** Once a member that joined by a request has been removed, its token lets nobody in again,
      unless a host owner's device is given that very token. */
  lemma RemovedTokenIsDead(states: seq<Tables>, steps: seq<Step>, n: nat, m: nat, d: string)
    requires IsRun(states, steps) && n < m < |states| && RemovesMember(states[n], steps[n]) && steps[n].id == d
    requires d !in states[n].hosts
    ensures var token := states[n].devices[d].token;
      Authorizes(states[m], token) ==>
        exists e :: e in states[m].devices && e in states[m].hosts && states[m].devices[e].token == token
  {
    var token := states[n].devices[d].token;
    if Authorizes(states[m], token) {
      var e :| e in states[m].devices && states[m].devices[e].token == token;
      DeviceOrigin(states, steps, n, d);
      DeviceOrigin(states, steps, m, e);
      DeletedForGood(states, steps, n, m);
      if e !in states[m].hosts {
        var r :| FromRequest(states[n], d, r);
        var s :| FromRequest(states[m], e, s);
        SettledOnce(states, steps, n, m, r);
        TokensDiffer(states, steps, m);
      }
    }
  }
}
