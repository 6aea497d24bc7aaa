/** The relay as it runs: mutable maps, changed step by step by handlers with early returns.
    Each handler has exactly the effect the protocol model gives it. */
module RelayServer {
  import opened Options
  import opened RelayState
  import opened Relay
  import opened RelayProtocol
  import RateBuckets
  import Revocations

  class Server {
    const c: Config
    const limiter: RateBuckets.Limiter  // of endpoint creations, by client address
    var sockets: map<Ws, Socket>
    var endpoints: map<string, Rec>
    var records: map<Rec, Endpoint>
    var pending: map<nat, Pending>
    var disk: Revocations.Disk
    ghost var issued: map<Lease, Ws>
    ghost var seen: set<Ws>
    ghost var delivered: seq<Frame>

    ghost function Abs(): State
      reads this
    {
      State(sockets, endpoints, records, pending, disk, issued, seen, delivered)
    }

    ghost predicate Valid()
      reads this
    {
      Slots(sockets, endpoints, records)
    }

    /** A relay that has just read its state file. */
    constructor (config: Config, creations: RateBuckets.Limiter, loaded: Revocations.Disk)
      ensures c == config && limiter == creations && Abs() == State(map[], map[], map[], map[], loaded, map[], {}, [])
      ensures Valid()
    {
      c, limiter := config, creations;
      sockets, endpoints, records, pending := map[], map[], map[], map[];
      disk := loaded;
      issued, seen, delivered := map[], {}, [];
    }

    predicate SocketOpen(ws: Option<Ws>)
      reads this
      ensures SocketOpen(ws) == IsOpen(Abs(), ws)
    {
      ws.Some? && ws.value in sockets && sockets[ws.value].open
    }

    method CloseSocket(ws: Option<Ws>)
      modifies this`sockets
      ensures sockets == Shut(old(sockets), ws)
    {
      if ws.None? || ws.value !in sockets { return; }
      sockets := sockets[ws.value := sockets[ws.value].(policyClosing := true)];
      sockets := sockets[ws.value := sockets[ws.value].(open := false)];
    }

    method RejectSocket(ws: Ws)
      modifies this`sockets
      ensures Abs() == Reject(old(Abs()), ws)
    {
      CloseSocket(Some(ws));
    }

    method AuthenticateSocket(ws: Ws, role: Role, id: string, lease: Option<Lease>)
      requires ws in sockets
      modifies this`sockets
      ensures sockets == old(sockets)[ws := Authenticated(old(sockets)[ws], role, id, lease)]
    {
      sockets := sockets[ws := sockets[ws].(role := role, endpointId := Some(id), leaseId := lease)];
    }

    /** `expireEndpoint` */
    method ExpireEndpoint(id: string)
      requires Valid() && id in endpoints
      modifies this`sockets, this`endpoints, this`records
      ensures Abs() == if RecordOf(old(Abs()), id).revoking then old(Abs()) else Drop(old(Abs()), {id})
    {
      var rec := endpoints[id];
      var e := records[rec];
      if e.revoking { return; }
      endpoints := endpoints - {id};
      CloseSocket(e.web);
      CloseSocket(e.desktop);
      records := records[rec := e.(web := None, desktop := None, lease := None)];
    }

    /** `pruneExpiredEndpoints`: one record at a time, each looked at in the state its
        predecessors left. */
    method PruneExpiredEndpoints(now: int)
      requires Valid()
      modifies this`sockets, this`endpoints, this`records
      ensures Abs() == Prune(c, old(Abs()), now) && Valid()
      ensures sockets.Keys == old(sockets.Keys) && records.Keys == old(records.Keys)
    {
      hide ValidEndpointId, Drop, EndpointOk;
      ghost var s := Abs();
      ghost var gone: set<string> := {};
      DropNone(s);
      var rest := endpoints.Keys;
      while rest != {}
        invariant gone + rest <= s.endpoints.Keys && gone !! rest && gone == Expired(c, s, now) - rest
        invariant Abs() == Drop(s, gone) && Valid()
        decreases rest
      {
        var id :| id in rest;
        DropSlots(s, gone);
        DropKeys(s, gone);
        DropKeepsDesktop(c, s, gone, id, now);
        var e := records[endpoints[id]];
        if e.revoking || SocketOpen(e.desktop) || e.offlineSince.None? {
          rest := rest - {id};
          continue;
        }
        if now - e.offlineSince.value >= c.ttl {
          DropAgain(s, gone, id);
          DropSlots(s, gone + {id});
          ExpireEndpoint(id);
          gone := gone + {id};
        }
        rest := rest - {id};
      }
      DropKeys(s, gone);
      assert gone == Expired(c, s, now);
    }

    /** `registerDesktop`; `ip` is the client address of the socket. */
    method RegisterDesktop(ws: Ws, ip: string, now: int, id: string, token: Option<string>, secret: Option<string>, rec: Rec)
      requires Valid() && ws in sockets && rec !in records
      modifies this`sockets, this`endpoints, this`records, limiter
      ensures Abs() == Register(c, old(Abs()), ws, now, id, token, secret, rec, old(limiter.Admits(ip, now)))
      ensures limiter.buckets == if AsksLimiter(c, old(Abs()), ws, now, id, token, secret)
        then old(limiter.Counted(ip, now)) else old(limiter.buckets)
    {
      hide ValidEndpointId, Prune, Expired, EndpointOk, Slots, Enter;
      if sockets[ws].role != Unknown || !ValidEndpointId(id) || token.None? || secret.None? {
        RejectSocket(ws);
        return;
      }
      PruneExpiredEndpoints(now);
      EnterEndpoint(ws, ip, now, id, token.value, secret.value, rec);
    }

    method EnterEndpoint(ws: Ws, ip: string, now: int, id: string, token: string, secret: string, rec: Rec)
      requires Valid() && ws in sockets && rec !in records
      modifies this`sockets, this`endpoints, this`records, limiter
      ensures Abs() == Enter(c, old(Abs()), ws, id, token, secret, rec, old(limiter.Admits(ip, now)))
      ensures limiter.buckets == if id !in disk.revoked && id !in old(endpoints) && |old(endpoints)| < c.maxEndpoints
        then old(limiter.Counted(ip, now)) else old(limiter.buckets)
    {
      hide Slots, Create, Replace, Shut;
      if id in disk.revoked {
        RejectSocket(ws);
        return;
      }
      if id !in endpoints {
        if |endpoints| >= c.maxEndpoints {
          RejectSocket(ws);
          return;
        }
        var admitted := limiter.Consume(ip, now);
        if !admitted {
          RejectSocket(ws);
          return;
        }
        CreateEndpoint(ws, id, token, secret, rec);
        return;
      }
      SlotHolds(Abs(), id);
      var e := records[endpoints[id]];
      if secret != e.secret {
        RejectSocket(ws);
        return;
      }
      if token != e.token {
        RejectSocket(ws);
        return;
      }
      ReplaceDesktop(ws, id);
    }

    method CreateEndpoint(ws: Ws, id: string, token: string, secret: string, rec: Rec)
      requires ws in sockets && id !in endpoints
      modifies this`sockets, this`endpoints, this`records
      ensures Abs() == Create(old(Abs()), ws, id, token, secret, rec)
    {
      records := records[rec := Endpoint(id, token, secret, None, None, None, None, false)];
      endpoints := endpoints[id := rec];
      TakeDesktopSlot(ws, id, rec);
    }

    method ReplaceDesktop(ws: Ws, id: string)
      requires ws in sockets && id in endpoints && endpoints[id] in records
      modifies this`sockets, this`records
      ensures Abs() == Replace(old(Abs()), ws, id)
    {
      var desktop := records[endpoints[id]].desktop;
      if SocketOpen(desktop) && desktop != Some(ws) {
        CloseSocket(desktop);
      }
      TakeDesktopSlot(ws, id, endpoints[id]);
    }

    method TakeDesktopSlot(ws: Ws, id: string, rec: Rec)
      requires ws in sockets && rec in records
      modifies this`sockets, this`records
      ensures records == old(records)[rec := old(records)[rec].(desktop := Some(ws), offlineSince := None)]
      ensures sockets == old(sockets)[ws := Authenticated(old(sockets)[ws], Desktop, id, None)]
    {
      records := records[rec := records[rec].(desktop := Some(ws))];
      records := records[rec := records[rec].(offlineSince := None)];
      AuthenticateSocket(ws, Desktop, id, None);
    }

    method JoinWebClient(ws: Ws, now: int, id: string, token: Option<string>, lease: Lease)
      requires Valid() && ws in sockets
      modifies this`sockets, this`endpoints, this`records, this`issued
      ensures Abs() == Join(c, old(Abs()), ws, now, id, token, lease)
    {
      hide ValidEndpointId, Prune, Expired, EndpointOk;
      if sockets[ws].role != Unknown || !ValidEndpointId(id) || token.None? {
        RejectSocket(ws);
        return;
      }
      PruneExpiredEndpoints(now);
      if id !in endpoints {
        RejectSocket(ws);
        return;
      }
      var rec := endpoints[id];
      if token.value != records[rec].token {
        RejectSocket(ws);
        return;
      }
      var previousWeb := if SocketOpen(records[rec].web) then records[rec].web else None;
      records := records[rec := records[rec].(web := Some(ws), lease := Some(lease))];
      issued := issued[lease := ws];
      AuthenticateSocket(ws, Web, id, Some(lease));
      CloseSocket(previousWeb);
    }

    /** `revokeFromSocket` up to its await; the write joins the chain under `ticket`. */
    method RevokeFromSocket(ws: Ws, id: string, secret: Option<string>, ticket: nat)
      requires Valid() && ws in sockets
      modifies this`sockets, this`records, this`pending, this`disk
      ensures Abs() == Revoke(old(Abs()), ws, id, secret, ticket)
    {
      if !ValidEndpointId(id) || id !in endpoints {
        RejectSocket(ws);
        return;
      }
      var rec := endpoints[id];
      var e := records[rec];
      if (sockets[ws].role != Desktop || sockets[ws].endpointId != Some(id)) && secret != Some(e.secret) {
        RejectSocket(ws);
        return;
      }
      if secret.Some? && secret.value != e.secret {
        RejectSocket(ws);
        return;
      }
      if e.revoking {
        RejectSocket(ws);
        return;
      }
      records := records[rec := e.(revoking := true)];
      sockets := sockets[ws := sockets[ws].(revokePending := true)];
      pending := pending[ticket := Pending(ws, rec, id)];
      disk := disk.(queue := disk.queue + [Revocations.Op(id, ticket)]);
    }

    /** `revokeEndpoint` */
    method RevokeEndpoint(rec: Rec, requester: Ws)
      requires rec in records
      modifies this`sockets, this`endpoints, this`records
      ensures var e := old(records)[rec];
        if e.id in old(endpoints) && old(endpoints)[e.id] == rec then
          && endpoints == old(endpoints) - {e.id} && records == old(records)[rec := Vacate(e)]
          && Shut(sockets, Some(requester)) == Shut(Shut(Shut(old(sockets), e.web), e.desktop), Some(requester))
        else Abs() == old(Abs())
    {
      var e := records[rec];
      if e.id !in endpoints || endpoints[e.id] != rec { return; }
      endpoints := endpoints - {e.id};
      CloseSocket(e.web);
      if e.desktop != Some(requester) {
        CloseSocket(e.desktop);
      }
      records := records[rec := e.(web := None, desktop := None, lease := None)];
    }

    /** `revokeFromSocket` after its await. */
    method ResumeRevocation(ticket: nat)
      requires ticket in pending && ticket in disk.settled && pending[ticket].rec in records
      modifies this`sockets, this`endpoints, this`records, this`pending, this`disk
      ensures Abs() == Resume(old(Abs()), ticket)
    {
      var p := pending[ticket];
      var persisted := disk.settled[ticket];
      pending := pending - {ticket};
      disk := disk.(settled := disk.settled - {ticket});
      if !persisted {
        records := records[p.rec := records[p.rec].(revoking := false)];
        if p.ws in sockets {
          sockets := sockets[p.ws := sockets[p.ws].(revokePending := false)];
        }
        RejectSocket(p.ws);
        return;
      }
      RevokeEndpoint(p.rec, p.ws);
      CloseSocket(Some(p.ws));
    }

    /** `send`, for a message passed on. */
    method Send(frame: Frame, fits: bool)
      modifies this`sockets, this`delivered
      ensures Abs() == Sent(old(Abs()), frame, fits)
    {
      if !SocketOpen(Some(frame.to)) || sockets[frame.to].policyClosing { return; }
      if !fits {
        sockets := sockets[frame.to := sockets[frame.to].(policyClosing := true)];
        sockets := sockets[frame.to := sockets[frame.to].(open := false)];
        return;
      }
      delivered := delivered + [frame];
    }

    method ForwardAuthenticatedMessage(ws: Ws, supported: bool, tag: Option<Lease>, fits: bool)
      requires Valid() && ws in sockets
      modifies this`sockets, this`delivered
      ensures Abs() == Forward(old(Abs()), ws, supported, tag, fits)
    {
      var sock := sockets[ws];
      if sock.role == Unknown || sock.endpointId.None? || sock.endpointId.value !in endpoints {
        RejectSocket(ws);
        return;
      }
      var e := records[endpoints[sock.endpointId.value]];
      if sock.role == Web {
        if e.web != Some(ws) || e.lease != sock.leaseId {
          RejectSocket(ws);
          return;
        }
        if !supported { return; }
        if !SocketOpen(e.desktop) { return; }
        Send(Frame(ws, e.desktop.value, ws, sock.endpointId.value, e.lease, None), fits);
        return;
      }
      if e.desktop != Some(ws) {
        RejectSocket(ws);
        return;
      }
      if !supported { return; }
      if !SocketOpen(e.web) { return; }
      if tag.Some? && tag != e.lease { return; }
      Send(Frame(ws, e.web.value, e.web.value, sock.endpointId.value, e.lease, tag), fits);
    }

    /** The close event. */
    method OnClose(ws: Ws, now: int)
      requires Valid() && ws in sockets
      modifies this`sockets, this`records
      ensures Abs() == Closed(old(Abs()), ws, now)
    {
      var sock := sockets[ws];
      sockets := sockets[ws := sock.(gone := true, open := false)];
      if sock.endpointId.None? || sock.endpointId.value !in endpoints { return; }
      var rec := endpoints[sock.endpointId.value];
      if sock.role == Web && records[rec].web == Some(ws) {
        records := records[rec := records[rec].(web := None)];
        records := records[rec := records[rec].(lease := None)];
      }
      if sock.role == Desktop && records[rec].desktop == Some(ws) {
        records := records[rec := records[rec].(desktop := None)];
        records := records[rec := records[rec].(offlineSince := Some(now))];
      }
    }
  }

  /** The registrations that come as far as the rate limiter: of new ids, below the cap. */
  predicate AsksLimiter(c: Config, s: State, ws: Ws, now: int, id: string, token: Option<string>, secret: Option<string>)
    requires ws in s.sockets
  {
    !BadRegister(s, ws, id, token, secret) &&
    var p := Prune(c, s, now);
    id !in p.disk.revoked && id !in p.endpoints && |p.endpoints| < c.maxEndpoints
  }

  // ---- Dropping one record after another ----

  lemma DropNone(s: State)
    ensures Drop(s, {}) == s
  {
  }

  lemma DropKeys(s: State, ids: set<string>)
    requires ids <= s.endpoints.Keys
    ensures Drop(s, ids).sockets.Keys == s.sockets.Keys && Drop(s, ids).records.Keys == s.records.Keys
    ensures Drop(s, ids).endpoints.Keys == s.endpoints.Keys - ids
  {
  }

  /** Dropping records one by one leaves what dropping them together leaves. */
  lemma DropAgain(s: State, gone: set<string>, id: string)
    requires Slots(s.sockets, s.endpoints, s.records) && gone <= s.endpoints.Keys && id in s.endpoints && id !in gone
    ensures Drop(Drop(s, gone), {id}) == Drop(s, gone + {id})
  {
    hide ValidEndpointId, InSlot;
    DropSlots(s, gone);
    var d, both := Drop(s, gone), Drop(s, gone + {id});
    DropAgainShuts(s, gone, id);
    assert Drop(d, {id}).records == both.records;
    assert Drop(d, {id}).endpoints == both.endpoints;
  }

  lemma DropAgainShuts(s: State, gone: set<string>, id: string)
    requires gone <= s.endpoints.Keys && id in s.endpoints && id !in gone
    requires RecordOf(Drop(s, gone), id) == RecordOf(s, id)
    ensures ShutSlots(Drop(s, gone), {id}) == ShutSlots(s, gone + {id})
  {
  }

  /** Dropping other records makes no record expire and saves none: the sockets closed with
      them are in no other record. */
  lemma DropKeepsDesktop(c: Config, s: State, gone: set<string>, id: string, now: int)
    requires Slots(s.sockets, s.endpoints, s.records) && gone <= s.endpoints.Keys && id in s.endpoints && id !in gone
    ensures RecordOf(Drop(s, gone), id) == RecordOf(s, id)
    ensures Expires(c, Drop(s, gone), id, now) == Expires(c, s, id, now)
  {
  }
}
