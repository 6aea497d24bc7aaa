/** Runs of the relay: every handler, close event, timer, write step, crash and restart,
    in any order, and what holds after each of them. */
module RelayProtocol {
  import opened Options
  import opened Orders
  import opened RelayState
  import opened Relay
  import Revocations

  datatype Action =
    | Connect(ws: Ws)
    | Break(ws: Ws, closing: bool)
    | CloseEvent(ws: Ws, now: int)
    | RegisterMessage(ws: Ws, now: int, id: string, token: Option<string>, secret: Option<string>, rec: Rec, admitted: bool)
    | JoinMessage(ws: Ws, now: int, id: string, token: Option<string>, lease: Lease)
    | RevokeMessage(ws: Ws, id: string, secret: Option<string>, ticket: nat)
    | RevokeResumes(ticket: nat)
    | ForwardMessage(ws: Ws, supported: bool, tag: Option<Lease>, fits: bool)
    | BadMessage(ws: Ws)
    | Heartbeat(now: int)
    | Write(step: Revocations.Action)
    | Crash

  const NEW_SOCKET := Socket(Unknown, None, None, true, false, false, false)

  ghost predicate Enabled(c: Config, s: State, a: Action) {
    match a
    case Connect(ws) => s.disk.up && ws !in s.seen
    case Break(ws, closing) => s.disk.up && ws in s.sockets
    case CloseEvent(ws, now) => s.disk.up && ws in s.sockets && !s.sockets[ws].gone
    case RegisterMessage(ws, now, id, token, secret, rec, admitted) => s.disk.up && Hears(s, ws) && rec !in s.records
    case JoinMessage(ws, now, id, token, lease) => s.disk.up && Hears(s, ws) && lease !in s.issued
    case RevokeMessage(ws, id, secret, ticket) => s.disk.up && Hears(s, ws) && ticket !in s.pending
    case RevokeResumes(ticket) => s.disk.up && ticket in s.pending && ticket in s.disk.settled
    case ForwardMessage(ws, supported, tag, fits) => s.disk.up && Hears(s, ws)
    case BadMessage(ws) => s.disk.up && Hears(s, ws)
    case Heartbeat(now) => s.disk.up
    case Write(step) => !step.Submit? && !step.Resume? && !step.Crash? && Revocations.Enabled(c.limits, s.disk, step)
    case Crash => s.disk.up
  }

  ghost function Next(c: Config, s: State, a: Action): State
    requires StrictTotal(c.limits.before) && Enabled(c, s, a)
  {
    match a
    case Connect(ws) => s.(sockets := s.sockets[ws := NEW_SOCKET], seen := s.seen + {ws})
    case Break(ws, closing) =>
      s.(sockets := s.sockets[ws := s.sockets[ws].(open := false, policyClosing := s.sockets[ws].policyClosing || closing)])
    case CloseEvent(ws, now) => Closed(s, ws, now)
    case RegisterMessage(ws, now, id, token, secret, rec, admitted) => Register(c, s, ws, now, id, token, secret, rec, admitted)
    case JoinMessage(ws, now, id, token, lease) => Join(c, s, ws, now, id, token, lease)
    case RevokeMessage(ws, id, secret, ticket) => Revoke(s, ws, id, secret, ticket)
    case RevokeResumes(ticket) => Resume(s, ticket)
    case ForwardMessage(ws, supported, tag, fits) => Forward(s, ws, supported, tag, fits)
    case BadMessage(ws) => Reject(s, ws)
    case Heartbeat(now) => Prune(c, s, now)
    case Write(step) => s.(disk := Revocations.Next(c.limits, s.disk, step))
    case Crash =>
      s.(sockets := map[], endpoints := map[], records := map[], pending := map[],
         disk := Revocations.Next(c.limits, s.disk, Revocations.Crash))
  }

  // ---- The invariant ----

  predicate InSlot(sockets: map<Ws, Socket>, ws: Ws, role: Role, id: string) {
    ws in sockets && sockets[ws].role == role && sockets[ws].endpointId == Some(id) && !sockets[ws].gone
  }

  /** A live record: both slots hold their own kind of socket for this id, web and lease come
      and go together and agree, and the offline time is set exactly while no desktop is held. */
  predicate EndpointOk(sockets: map<Ws, Socket>, e: Endpoint, id: string) {
    && e.id == id && ValidEndpointId(id)
    && (e.desktop.Some? ==> InSlot(sockets, e.desktop.value, Desktop, id))
    && (e.web.Some? ==> InSlot(sockets, e.web.value, Web, id) && sockets[e.web.value].leaseId == e.lease)
    && (e.web.Some? <==> e.lease.Some?)
    && (e.desktop.None? <==> e.offlineSince.Some?)
  }

  predicate Slots(sockets: map<Ws, Socket>, endpoints: map<string, Rec>, records: map<Rec, Endpoint>) {
    forall id :: id in endpoints ==> endpoints[id] in records && EndpointOk(sockets, records[endpoints[id]], id)
  }

  predicate LeaseOk(sock: Socket, ws: Ws, issued: map<Lease, Ws>) {
    sock.leaseId.Some? ==> sock.leaseId.value in issued && issued[sock.leaseId.value] == ws
  }

  predicate Leases(sockets: map<Ws, Socket>, seen: set<Ws>, issued: map<Lease, Ws>) {
    && sockets.Keys <= seen
    && (forall ws :: ws in sockets ==> LeaseOk(sockets[ws], ws, issued))
    && (forall l :: l in issued ==> issued[l] in seen)
  }

  predicate FrameOk(issued: map<Lease, Ws>, f: Frame) {
    && f.lease.Some? && f.lease.value in issued && issued[f.lease.value] == f.web
    && (f.tag.Some? ==> f.tag == f.lease)
    && (f.web == f.from || f.web == f.to)
  }

  predicate Frames(issued: map<Lease, Ws>, delivered: seq<Frame>) {
    forall f :: f in delivered ==> FrameOk(issued, f)
  }

  predicate PendingOk(p: Pending, endpoints: map<string, Rec>, records: map<Rec, Endpoint>) {
    p.id in endpoints && endpoints[p.id] == p.rec && p.rec in records && records[p.rec].revoking
  }

  /** A revocation under way holds on to its live record, and no two share an id. */
  predicate Pendings(pending: map<nat, Pending>, endpoints: map<string, Rec>, records: map<Rec, Endpoint>) {
    && (forall t :: t in pending ==> PendingOk(pending[t], endpoints, records))
    && (forall t, u :: t in pending && u in pending && pending[t].id == pending[u].id ==> t == u)
  }

  /** A revocation has retired its id exactly when its write has settled well. */
  predicate Settlements(pending: map<nat, Pending>, d: Revocations.Disk) {
    && d.settled.Keys <= pending.Keys
    && (forall t :: t in pending ==> (pending[t].id in d.revoked <==> t in d.settled && d.settled[t]))
    && (forall t :: t in d.settled && d.settled[t] ==> pending[t].id in d.fulfilled)
  }

  predicate QueueOk(pending: map<nat, Pending>, settled: map<nat, bool>, queue: seq<Revocations.Op>) {
    && (forall i :: 0 <= i < |queue| ==>
         queue[i].ticket in pending && pending[queue[i].ticket].id == queue[i].id && queue[i].ticket !in settled)
    && (forall i, j :: 0 <= i < j < |queue| ==> queue[i].ticket != queue[j].ticket)
  }

  /** A revoked id is live only while the revocation that caused it has not resumed. */
  predicate Retired(endpoints: map<string, Rec>, revoked: Revoked, pending: map<nat, Pending>) {
    forall id :: id in endpoints && id in revoked ==> exists t :: t in pending && pending[t].id == id
  }

  predicate WhenDown(s: State) {
    !s.disk.up ==> s.sockets == map[] && s.endpoints == map[] && s.pending == map[]
  }

  ghost predicate Inv(c: Config, s: State)
    requires StrictTotal(c.limits.before)
  {
    && Slots(s.sockets, s.endpoints, s.records)
    && Leases(s.sockets, s.seen, s.issued)
    && Frames(s.issued, s.delivered)
    && Pendings(s.pending, s.endpoints, s.records)
    && Settlements(s.pending, s.disk)
    && QueueOk(s.pending, s.disk.settled, s.disk.queue)
    && Retired(s.endpoints, s.disk.revoked, s.pending)
    && WhenDown(s)
    && |s.endpoints| <= c.maxEndpoints
    && Revocations.Inv(c.limits, s.disk)
  }

  // ---- Changes that concern no slot ----

  predicate SameSlot(a: Socket, b: Socket) {
    b.role == a.role && b.endpointId == a.endpointId && b.leaseId == a.leaseId && b.gone == a.gone
  }

  /** Sockets may be closed or marked, but keep their role, endpoint, lease and close event. */
  predicate Benign(a: map<Ws, Socket>, b: map<Ws, Socket>) {
    a.Keys == b.Keys && forall ws :: ws in a ==> SameSlot(a[ws], b[ws])
  }

  lemma ShutBenign(a: map<Ws, Socket>, ws: Option<Ws>)
    ensures Benign(a, Shut(a, ws))
  {
  }

  lemma SlotsBenign(s: State, sockets: map<Ws, Socket>)
    requires Slots(s.sockets, s.endpoints, s.records) && Benign(s.sockets, sockets)
    ensures Slots(sockets, s.endpoints, s.records)
  {
  }

  lemma LeasesBenign(s: State, sockets: map<Ws, Socket>)
    requires Leases(s.sockets, s.seen, s.issued) && Benign(s.sockets, sockets)
    ensures Leases(sockets, s.seen, s.issued)
  {
  }

  lemma BenignKeepsInv(c: Config, s: State, sockets: map<Ws, Socket>)
    requires StrictTotal(c.limits.before) && Inv(c, s) && s.disk.up && Benign(s.sockets, sockets)
    ensures Inv(c, s.(sockets := sockets))
  {
  }

  lemma RejectKeepsInv(c: Config, s: State, ws: Ws)
    requires StrictTotal(c.limits.before) && Inv(c, s) && s.disk.up
    ensures Inv(c, Reject(s, ws))
  {
    hide StrictTotal, Inv, Benign, Shut;
    ShutBenign(s.sockets, Some(ws));
    BenignKeepsInv(c, s, Shut(s.sockets, Some(ws)));
  }

  // ---- Expiry ----

  lemma DropBenign(s: State, ids: set<string>)
    requires ids <= s.endpoints.Keys
    ensures Benign(s.sockets, ShutSlots(s, ids))
  {
  }

  /** Dropping records that no revocation holds on to. */
  lemma DropKeepsInv(c: Config, s: State, ids: set<string>)
    requires StrictTotal(c.limits.before) && Inv(c, s) && s.disk.up && ids <= s.endpoints.Keys
    requires forall id :: id in ids ==> !RecordOf(s, id).revoking
    ensures Inv(c, Drop(s, ids))
  {
    DropBenign(s, ids);
    BenignKeepsInv(c, s, ShutSlots(s, ids));
    DropSlots(s, ids);
    DropPendings(s, ids);
    DropRetired(s, ids);
    DropCount(s, ids);
    hide StrictTotal, Revocations.Inv, Slots, Leases, Frames, Pendings, Settlements, QueueOk, Retired, Benign, ShutSlots;
  }

  lemma DropCount(s: State, ids: set<string>)
    requires ids <= s.endpoints.Keys
    ensures |Drop(s, ids).endpoints| <= |s.endpoints|
  {
  }

  lemma DropSlots(s: State, ids: set<string>)
    requires Slots(s.sockets, s.endpoints, s.records) && ids <= s.endpoints.Keys
    ensures var d := Drop(s, ids); Slots(d.sockets, d.endpoints, d.records)
    ensures forall id :: id in s.endpoints && id !in ids ==> RecordOf(Drop(s, ids), id) == RecordOf(s, id)
  {
  }

  lemma DropPendings(s: State, ids: set<string>)
    requires Slots(s.sockets, s.endpoints, s.records) && ids <= s.endpoints.Keys && Pendings(s.pending, s.endpoints, s.records)
    requires forall id :: id in ids ==> !RecordOf(s, id).revoking
    ensures var d := Drop(s, ids); Pendings(d.pending, d.endpoints, d.records)
  {
  }

  lemma DropRetired(s: State, ids: set<string>)
    requires ids <= s.endpoints.Keys && Retired(s.endpoints, s.disk.revoked, s.pending)
    ensures var d := Drop(s, ids); Retired(d.endpoints, d.disk.revoked, d.pending)
  {
  }

  lemma PruneKeepsInv(c: Config, s: State, now: int)
    requires StrictTotal(c.limits.before) && Inv(c, s) && s.disk.up
    ensures Inv(c, Prune(c, s, now))
  {
    hide StrictTotal, Inv;
    DropKeepsInv(c, s, Expired(c, s, now));
  }

  // ---- One record or one socket changes ----

  /** A socket without a role is in no slot, so it may become anything. */
  lemma SlotsUnknown(s: State, ws: Ws, sock: Socket)
    requires Slots(s.sockets, s.endpoints, s.records)
    requires ws in s.sockets ==> s.sockets[ws].role == Unknown
    ensures Slots(s.sockets[ws := sock], s.endpoints, s.records)
  {
  }

  lemma RecordsDistinct(s: State, id: string, other: string)
    requires Slots(s.sockets, s.endpoints, s.records)
    requires id in s.endpoints && other in s.endpoints && id != other
    ensures s.endpoints[id] != s.endpoints[other]
  {
  }

  lemma SlotsUpdate(s: State, id: string, e: Endpoint)
    requires Slots(s.sockets, s.endpoints, s.records) && id in s.endpoints && EndpointOk(s.sockets, e, id)
    ensures Slots(s.sockets, s.endpoints, s.records[s.endpoints[id] := e])
  {
  }

  lemma PendingsUpdate(s: State, rec: Rec, e: Endpoint)
    requires Pendings(s.pending, s.endpoints, s.records) && rec in s.records && e.revoking == s.records[rec].revoking
    ensures Pendings(s.pending, s.endpoints, s.records[rec := e])
  {
  }

  /** The record of a live id after one of its handlers ran: the live record is replaced. */
  lemma RecordKeepsInv(c: Config, s: State, id: string, e: Endpoint)
    requires StrictTotal(c.limits.before) && Inv(c, s) && id in s.endpoints
    requires EndpointOk(s.sockets, e, id) && e.revoking == RecordOf(s, id).revoking
    ensures Inv(c, s.(records := s.records[s.endpoints[id] := e]))
  {
  }

  /** A socket without a role takes one that holds no lease yet. */
  lemma AuthKeepsInv(c: Config, s: State, ws: Ws, sock: Socket)
    requires StrictTotal(c.limits.before) && Inv(c, s) && s.disk.up && ws in s.sockets
    requires s.sockets[ws].role == Unknown && sock.leaseId.None?
    ensures Inv(c, s.(sockets := s.sockets[ws := sock]))
  {
  }

  // ---- Registration ----

  lemma CreateKeepsInv(c: Config, s: State, ws: Ws, id: string, token: string, secret: string, rec: Rec)
    requires StrictTotal(c.limits.before) && Inv(c, s) && s.disk.up && ws in s.sockets
    requires s.sockets[ws].role == Unknown && !s.sockets[ws].gone
    requires ValidEndpointId(id) && id !in s.endpoints && id !in s.disk.revoked
    requires rec !in s.records && |s.endpoints| < c.maxEndpoints
    ensures Inv(c, Create(s, ws, id, token, secret, rec))
  {
    hide StrictTotal, Inv, ValidEndpointId;
    var sock := Authenticated(s.sockets[ws], Desktop, id, None);
    AuthKeepsInv(c, s, ws, sock);
    var t := s.(sockets := s.sockets[ws := sock]);
    EntryKeepsInv(c, t, id, rec, Endpoint(id, token, secret, Some(ws), None, None, None, false));
  }

  lemma EntryKeepsInv(c: Config, s: State, id: string, rec: Rec, e: Endpoint)
    requires StrictTotal(c.limits.before) && Inv(c, s) && s.disk.up && EndpointOk(s.sockets, e, id)
    requires id !in s.endpoints && id !in s.disk.revoked
    requires rec !in s.records && |s.endpoints| < c.maxEndpoints
    ensures Inv(c, s.(endpoints := s.endpoints[id := rec], records := s.records[rec := e]))
  {
    hide StrictTotal, Revocations.Inv, Slots, Leases, Frames, Pendings, Settlements, QueueOk, Retired, EndpointOk;
    SlotsCreate(s, id, rec, e);
    PendingsCreate(s, id, rec, e);
    RetiredCreate(s, id, rec);
    EntryCount(s, id, rec);
  }

  lemma EntryCount(s: State, id: string, rec: Rec)
    requires id !in s.endpoints
    ensures |s.endpoints[id := rec]| == |s.endpoints| + 1
  {
  }

  lemma SlotsCreate(s: State, id: string, rec: Rec, e: Endpoint)
    requires Slots(s.sockets, s.endpoints, s.records) && rec !in s.records && EndpointOk(s.sockets, e, id)
    ensures Slots(s.sockets, s.endpoints[id := rec], s.records[rec := e])
  {
  }

  lemma PendingsCreate(s: State, id: string, rec: Rec, e: Endpoint)
    requires Pendings(s.pending, s.endpoints, s.records) && id !in s.endpoints && rec !in s.records
    ensures Pendings(s.pending, s.endpoints[id := rec], s.records[rec := e])
  {
  }

  lemma RetiredCreate(s: State, id: string, rec: Rec)
    requires Retired(s.endpoints, s.disk.revoked, s.pending) && id !in s.disk.revoked
    ensures Retired(s.endpoints[id := rec], s.disk.revoked, s.pending)
  {
  }

  lemma ReplaceKeepsInv(c: Config, s: State, ws: Ws, id: string)
    requires StrictTotal(c.limits.before) && Inv(c, s) && s.disk.up && ws in s.sockets
    requires s.sockets[ws].role == Unknown && !s.sockets[ws].gone && id in s.endpoints
    ensures Inv(c, Replace(s, ws, id))
  {
    var e := RecordOf(s, id);
    assert EndpointOk(s.sockets, e, id) && s.endpoints[id] in s.records;
    hide StrictTotal, Inv, ValidEndpointId;
    var shut := if IsOpen(s, e.desktop) && e.desktop != Some(ws) then Shut(s.sockets, e.desktop) else s.sockets;
    ShutBenign(s.sockets, e.desktop);
    BenignKeepsInv(c, s, shut);
    ReplacedOk(s.sockets, shut, e, id, ws);
    ReplaceIs(s, ws, id, shut);
    hide *;
    var t := s.(sockets := shut);
    SeatDesktopKeepsInv(c, t, ws, id, Authenticated(shut[ws], Desktop, id, None), e.(desktop := Some(ws), offlineSince := None));
  }

  /** A socket without a role takes one with no lease, and the live record takes it in. */
  lemma SeatDesktopKeepsInv(c: Config, s: State, ws: Ws, id: string, sock: Socket, e: Endpoint)
    requires StrictTotal(c.limits.before) && Inv(c, s) && s.disk.up && ws in s.sockets && id in s.endpoints
    requires s.sockets[ws].role == Unknown && sock.leaseId.None?
    requires EndpointOk(s.sockets[ws := sock], e, id) && e.revoking == RecordAt(s, s.endpoints[id]).revoking
    ensures Inv(c, s.(sockets := s.sockets[ws := sock], records := s.records[s.endpoints[id] := e]))
  {
    hide StrictTotal, Inv, EndpointOk;
    AuthKeepsInv(c, s, ws, sock);
    RecordKeepsInv(c, s.(sockets := s.sockets[ws := sock]), id, e);
  }

  lemma ReplaceIs(s: State, ws: Ws, id: string, shut: map<Ws, Socket>)
    requires ws in s.sockets && id in s.endpoints && ws in shut
    requires var e := RecordOf(s, id);
      shut == if IsOpen(s, e.desktop) && e.desktop != Some(ws) then Shut(s.sockets, e.desktop) else s.sockets
    ensures Replace(s, ws, id) ==
      s.(sockets := shut[ws := Authenticated(shut[ws], Desktop, id, None)],
         records := s.records[s.endpoints[id] := RecordOf(s, id).(desktop := Some(ws), offlineSince := None)])
  {
  }

  lemma ReplacedOk(sockets: map<Ws, Socket>, shut: map<Ws, Socket>, e: Endpoint, id: string, ws: Ws)
    requires EndpointOk(sockets, e, id) && Benign(sockets, shut) && ws in sockets
    requires sockets[ws].role == Unknown && !sockets[ws].gone
    ensures ws in shut && shut[ws].role == Unknown
    ensures EndpointOk(shut[ws := Authenticated(shut[ws], Desktop, id, None)], e.(desktop := Some(ws), offlineSince := None), id)
  {
  }

  /** The ways `registerDesktop` can end. */
  lemma RegisterCases(c: Config, s: State, ws: Ws, now: int, id: string,
                      token: Option<string>, secret: Option<string>, rec: Rec, admitted: bool)
    requires ws in s.sockets
    ensures var t, p := Register(c, s, ws, now, id, token, secret, rec, admitted), Prune(c, s, now);
      || t == Reject(s, ws)
      || t == Reject(p, ws)
      || (s.sockets[ws].role == Unknown && id !in p.endpoints && id !in p.disk.revoked
          && token.Some? && secret.Some? && ws in p.sockets
          && t == Create(p, ws, id, token.value, secret.value, rec))
      || (s.sockets[ws].role == Unknown && id in p.endpoints && ws in p.sockets && t == Replace(p, ws, id))
  {
  }

  /** The ways `joinWebClient` can end. */
  lemma JoinCases(c: Config, s: State, ws: Ws, now: int, id: string, token: Option<string>, lease: Lease)
    requires ws in s.sockets
    ensures var t, p := Join(c, s, ws, now, id, token, lease), Prune(c, s, now);
      || t == Reject(s, ws)
      || t == Reject(p, ws)
      || (s.sockets[ws].role == Unknown && id in p.endpoints && ws in p.sockets && t == Seat(p, ws, id, lease))
  {
  }

  lemma RegisterKeepsInv(c: Config, s: State, ws: Ws, now: int, id: string,
                         token: Option<string>, secret: Option<string>, rec: Rec, admitted: bool)
    requires StrictTotal(c.limits.before) && Inv(c, s) && s.disk.up && Hears(s, ws) && rec !in s.records
    ensures Inv(c, Register(c, s, ws, now, id, token, secret, rec, admitted))
  {
    hide StrictTotal, Inv, Reject, Expired, ShutSlots, Benign;
    RejectKeepsInv(c, s, ws);
    if !BadRegister(s, ws, id, token, secret) {
      var p := Prune(c, s, now);
      PruneKeepsInv(c, s, now);
      PruneFacts(c, s, now, ws);
      RejectKeepsInv(c, p, ws);
      if id in p.disk.revoked {
      } else if id !in p.endpoints {
        if |p.endpoints| < c.maxEndpoints {
          CreateKeepsInv(c, p, ws, id, token.value, secret.value, rec);
        }
      } else {
        ReplaceKeepsInv(c, p, ws, id);
      }
    }
  }

  /** Expiry leaves a socket's standing and the set of records alone. */
  lemma PruneFacts(c: Config, s: State, now: int, ws: Ws)
    requires ws in s.sockets
    ensures var p := Prune(c, s, now);
      ws in p.sockets && SameSlot(s.sockets[ws], p.sockets[ws]) && p.records.Keys == s.records.Keys && p.disk == s.disk
      && p.issued == s.issued && p.seen == s.seen && p.delivered == s.delivered && p.pending == s.pending
  {
  }

  // ---- Joining ----

  lemma SeatKeepsInv(c: Config, s: State, ws: Ws, id: string, lease: Lease)
    requires StrictTotal(c.limits.before) && Inv(c, s) && s.disk.up && ws in s.sockets
    requires s.sockets[ws].role == Unknown && !s.sockets[ws].gone && id in s.endpoints && lease !in s.issued
    ensures Inv(c, Seat(s, ws, id, lease))
  {
    var e := RecordOf(s, id);
    assert EndpointOk(s.sockets, e, id) && s.endpoints[id] in s.records;
    hide StrictTotal, Inv, ValidEndpointId;
    var sock := Authenticated(s.sockets[ws], Web, id, Some(lease));
    LeasedKeepsInv(c, s, ws, sock, lease);
    var t := s.(sockets := s.sockets[ws := sock], issued := s.issued[lease := ws]);
    RecordKeepsInv(c, t, id, e.(web := Some(ws), lease := Some(lease)));
    var u := t.(records := s.records[s.endpoints[id] := e.(web := Some(ws), lease := Some(lease))]);
    ShutBenign(u.sockets, e.web);
    BenignKeepsInv(c, u, Shut(u.sockets, e.web));
  }

  /** A socket without a role takes one, with a lease drawn for it. */
  lemma LeasedKeepsInv(c: Config, s: State, ws: Ws, sock: Socket, lease: Lease)
    requires StrictTotal(c.limits.before) && Inv(c, s) && s.disk.up && ws in s.sockets
    requires s.sockets[ws].role == Unknown && sock.leaseId == Some(lease) && lease !in s.issued
    ensures Inv(c, s.(sockets := s.sockets[ws := sock], issued := s.issued[lease := ws]))
  {
    SlotsUnknown(s, ws, sock);
    LeasesDraw(s, ws, sock, lease);
    FramesDraw(s, ws, lease);
    hide StrictTotal, Revocations.Inv, Slots, Leases, Frames, PendingOk, Settlements, QueueOk, Retired;
  }

  lemma LeasesDraw(s: State, ws: Ws, sock: Socket, lease: Lease)
    requires Leases(s.sockets, s.seen, s.issued) && ws in s.sockets && sock.leaseId == Some(lease) && lease !in s.issued
    ensures Leases(s.sockets[ws := sock], s.seen, s.issued[lease := ws])
  {
  }

  lemma FramesDraw(s: State, ws: Ws, lease: Lease)
    requires Frames(s.issued, s.delivered) && lease !in s.issued
    ensures Frames(s.issued[lease := ws], s.delivered)
  {
  }

  lemma JoinKeepsInv(c: Config, s: State, ws: Ws, now: int, id: string, token: Option<string>, lease: Lease)
    requires StrictTotal(c.limits.before) && Inv(c, s) && s.disk.up && Hears(s, ws) && lease !in s.issued
    ensures Inv(c, Join(c, s, ws, now, id, token, lease))
  {
    hide StrictTotal, Inv, Reject, Expired, ShutSlots, Benign, ValidEndpointId;
    RejectKeepsInv(c, s, ws);
    if s.sockets[ws].role == Unknown {
      var p := Prune(c, s, now);
      PruneKeepsInv(c, s, now);
      PruneFacts(c, s, now, ws);
      RejectKeepsInv(c, p, ws);
      if id in p.endpoints {
        SeatKeepsInv(c, p, ws, id, lease);
      }
    }
  }

  // ---- Close events, messages, connections ----

  lemma ClosedKeepsInv(c: Config, s: State, ws: Ws, now: int)
    requires StrictTotal(c.limits.before) && Inv(c, s) && s.disk.up && ws in s.sockets
    ensures Inv(c, Closed(s, ws, now))
  {
    hide StrictTotal, Revocations.Inv, Leases, Frames, Pendings, Settlements, QueueOk, Retired, ValidEndpointId;
    var sock, t := s.sockets[ws], Closed(s, ws, now);
    ClosedSlots(s, ws, now);
    ClosedLeases(s, ws);
    if t.records != s.records {
      var id := sock.endpointId.value;
      PendingsUpdate(s, s.endpoints[id], t.records[s.endpoints[id]]);
    }
    hide Slots;
  }

  lemma ClosedLeases(s: State, ws: Ws)
    requires Leases(s.sockets, s.seen, s.issued) && ws in s.sockets
    ensures Leases(s.sockets[ws := s.sockets[ws].(gone := true, open := false)], s.seen, s.issued)
  {
  }

  /** The closed socket held at most the slot its role and endpoint name, and that is emptied. */
  lemma ClosedSlots(s: State, ws: Ws, now: int)
    requires Slots(s.sockets, s.endpoints, s.records) && ws in s.sockets
    ensures var t := Closed(s, ws, now); Slots(t.sockets, t.endpoints, t.records)
  {
    hide ValidEndpointId, EndpointOk, Closed;
    forall id | id in s.endpoints
      ensures s.endpoints[id] in Closed(s, ws, now).records
      ensures EndpointOk(Closed(s, ws, now).sockets, Closed(s, ws, now).records[s.endpoints[id]], id)
    {
      ClosedSlot(s, ws, now, id);
    }
    ClosedEndpoints(s, ws, now);
  }

  lemma ClosedEndpoints(s: State, ws: Ws, now: int)
    requires ws in s.sockets
    ensures Closed(s, ws, now).endpoints == s.endpoints
  {
  }

  lemma ClosedSlot(s: State, ws: Ws, now: int, id: string)
    requires Slots(s.sockets, s.endpoints, s.records) && ws in s.sockets && id in s.endpoints
    ensures var t := Closed(s, ws, now);
      s.endpoints[id] in t.records && EndpointOk(t.sockets, t.records[s.endpoints[id]], id)
  {
    hide ValidEndpointId, Slots;
    SlotHolds(s, id);
    var of := s.sockets[ws].endpointId;
    if of.Some? && of.value != id && of.value in s.endpoints {
      RecordsDistinct(s, id, of.value);
    }
  }

  lemma SlotHolds(s: State, id: string)
    requires Slots(s.sockets, s.endpoints, s.records) && id in s.endpoints
    ensures s.endpoints[id] in s.records && EndpointOk(s.sockets, s.records[s.endpoints[id]], id)
  {
  }

  /** Forwarding adds one frame, or closes at most one socket. */
  lemma ForwardCases(s: State, ws: Ws, supported: bool, tag: Option<Lease>, fits: bool)
    requires ws in s.sockets
    ensures var t := Forward(s, ws, supported, tag, fits);
      && Benign(s.sockets, t.sockets)
      && ((t == s.(sockets := t.sockets))
          || (t == s.(delivered := t.delivered) && |t.delivered| == |s.delivered| + 1 && s.delivered <= t.delivered))
  {
    ForwardIs(s, ws, supported, tag, fits);
    hide Forward, Sent, Benign, Shut;
    BenignSelf(s.sockets);
    ShutBenign(s.sockets, Some(ws));
    var t := Forward(s, ws, supported, tag, fits);
    if f: Frame :| t == Sent(s, f, fits) {
      SentCases(s, f, fits);
    }
  }

  lemma ForwardIs(s: State, ws: Ws, supported: bool, tag: Option<Lease>, fits: bool)
    requires ws in s.sockets
    ensures var t := Forward(s, ws, supported, tag, fits);
      t == s || t == Reject(s, ws) || exists f: Frame :: t == Sent(s, f, fits)
  {
    hide RecordOf, Sent, Reject;
  }

  lemma SentCases(s: State, f: Frame, fits: bool)
    ensures var t := Sent(s, f, fits);
      && Benign(s.sockets, t.sockets)
      && (t == s.(sockets := t.sockets) || t == s.(delivered := s.delivered + [f]))
  {
    hide Receives, Shut, Benign;
    BenignSelf(s.sockets);
    ShutBenign(s.sockets, Some(f.to));
  }

  lemma BenignSelf(a: map<Ws, Socket>)
    ensures Benign(a, a)
  {
  }

  lemma ForwardKeepsInv(c: Config, s: State, ws: Ws, supported: bool, tag: Option<Lease>, fits: bool)
    requires StrictTotal(c.limits.before) && Inv(c, s) && s.disk.up && ws in s.sockets
    ensures Inv(c, Forward(s, ws, supported, tag, fits))
  {
    var t := Forward(s, ws, supported, tag, fits);
    ForwardCases(s, ws, supported, tag, fits);
    if t.delivered == s.delivered {
      hide StrictTotal, Inv, Forward, Benign;
      BenignKeepsInv(c, s, t.sockets);
    } else {
      ForwardSound(s, ws, supported, tag, fits);
      hide StrictTotal, Revocations.Inv, Forward, Slots, Leases, Pendings, Settlements, QueueOk, Retired, FrameOk;
    }
  }

  /** A message is passed on only between the two sockets one live record holds now, under its
      current lease, which is the lease drawn for its web socket. */
  lemma ForwardSound(s: State, ws: Ws, supported: bool, tag: Option<Lease>, fits: bool)
    requires Slots(s.sockets, s.endpoints, s.records) && Leases(s.sockets, s.seen, s.issued) && ws in s.sockets
    requires Forward(s, ws, supported, tag, fits).delivered != s.delivered
    ensures var t := Forward(s, ws, supported, tag, fits);
      && |t.delivered| == |s.delivered| + 1 && t == s.(delivered := s.delivered + [t.delivered[|s.delivered|]])
      && Between(s, t.delivered[|s.delivered|])
      && t.delivered[|s.delivered|].from == ws
      && FrameOk(s.issued, t.delivered[|s.delivered|])
  {
    hide ValidEndpointId, Slots, Shut;
    var id := s.sockets[ws].endpointId.value;
    SlotHolds(s, id);
  }

  /** `f` joins the two sockets the live record of its id holds, under that record's lease. */
  predicate Between(s: State, f: Frame) {
    && f.id in s.endpoints
    && RecordOf(s, f.id).web == Some(f.web) && RecordOf(s, f.id).lease == f.lease
    && RecordOf(s, f.id).desktop == Some(if f.web == f.from then f.to else f.from)
    && (f.web == f.from || f.web == f.to)
  }

  // ---- Revocation ----

  lemma RevokeKeepsInv(c: Config, s: State, ws: Ws, id: string, secret: Option<string>, ticket: nat)
    requires StrictTotal(c.limits.before) && Inv(c, s) && s.disk.up && Hears(s, ws) && ticket !in s.pending
    ensures Inv(c, Revoke(s, ws, id, secret, ticket))
  {
    RejectKeepsInv(c, s, ws);
    if ValidEndpointId(id) && id in s.endpoints && MayRevoke(s, ws, id, secret) {
      RevokeTaken(c, s, ws, id, ticket);
      hide StrictTotal, Inv;
      assert s.endpoints[id] in s.records by { LiveRecord(c, s, id); }
    }
  }

  lemma LiveRecord(c: Config, s: State, id: string)
    requires StrictTotal(c.limits.before) && Inv(c, s) && id in s.endpoints
    ensures s.endpoints[id] in s.records && EndpointOk(s.sockets, RecordOf(s, id), id)
  {
  }

  /** The state once `revokeFromSocket` has marked the record and queued its write. */
  function Queued(s: State, ws: Ws, id: string, ticket: nat): State
    requires ws in s.sockets && id in s.endpoints
  {
    s.(sockets := s.sockets[ws := s.sockets[ws].(revokePending := true)],
       records := s.records[s.endpoints[id] := RecordOf(s, id).(revoking := true)],
       pending := s.pending[ticket := Pending(ws, s.endpoints[id], id)],
       disk := s.disk.(queue := s.disk.queue + [Revocations.Op(id, ticket)]))
  }

  lemma RevokeTaken(c: Config, s: State, ws: Ws, id: string, ticket: nat)
    requires StrictTotal(c.limits.before) && Inv(c, s) && s.disk.up && ws in s.sockets && ticket !in s.pending
    requires ValidEndpointId(id) && id in s.endpoints && !RecordOf(s, id).revoking
    ensures Inv(c, Queued(s, ws, id, ticket))
  {
    QueuedSlots(c, s, ws, id, ticket);
    QueuedPendings(c, s, ws, id, ticket);
    QueuedDisk(c, s, ws, id, ticket);
    hide StrictTotal, Revocations.Inv, Slots, Leases, Frames, Pendings, Settlements, QueueOk, Retired, RecordOf, ValidEndpointId;
  }

  lemma QueuedSlots(c: Config, s: State, ws: Ws, id: string, ticket: nat)
    requires StrictTotal(c.limits.before) && Inv(c, s) && ws in s.sockets && id in s.endpoints
    ensures var t := Queued(s, ws, id, ticket);
      Slots(t.sockets, t.endpoints, t.records) && Leases(t.sockets, t.seen, t.issued)
  {
    hide StrictTotal, Revocations.Inv, Frames, Pendings, Settlements, QueueOk, Retired, ValidEndpointId;
    var t, e := Queued(s, ws, id, ticket), RecordOf(s, id).(revoking := true);
    LiveRecord(c, s, id);
    SlotsUpdate(s, id, e);
    SlotsBenign(s.(records := t.records), t.sockets);
    LeasesBenign(s, t.sockets);
  }

  lemma QueuedPendings(c: Config, s: State, ws: Ws, id: string, ticket: nat)
    requires StrictTotal(c.limits.before) && Inv(c, s) && ws in s.sockets && id in s.endpoints
    requires ticket !in s.pending && !RecordOf(s, id).revoking
    ensures var t := Queued(s, ws, id, ticket);
      && Pendings(t.pending, t.endpoints, t.records)
      && Settlements(t.pending, t.disk)
      && QueueOk(t.pending, t.disk.settled, t.disk.queue)
      && Retired(t.endpoints, t.disk.revoked, t.pending)
  {
    hide StrictTotal, Revocations.Inv, Slots, Leases, Frames;
    NotPending(s, id);
    PendingsQueued(s, id, ticket, Pending(ws, s.endpoints[id], id), RecordOf(s, id).(revoking := true));
    QueueAppends(s, id, ticket, Pending(ws, s.endpoints[id], id));
    RetiredMore(s, ticket, Pending(ws, s.endpoints[id], id));
    hide QueueOk, Pendings, Retired;
  }

  lemma RetiredMore(s: State, ticket: nat, p: Pending)
    requires Retired(s.endpoints, s.disk.revoked, s.pending) && ticket !in s.pending
    ensures Retired(s.endpoints, s.disk.revoked, s.pending[ticket := p])
  {
    var more := s.pending[ticket := p];
    forall id | id in s.endpoints && id in s.disk.revoked
      ensures exists t :: t in more && more[t].id == id
    {
      var t :| t in s.pending && s.pending[t].id == id;
      assert t in more && more[t].id == id;
    }
  }

  lemma QueuedDisk(c: Config, s: State, ws: Ws, id: string, ticket: nat)
    requires StrictTotal(c.limits.before) && Revocations.Inv(c.limits, s.disk) && s.disk.up
    requires ws in s.sockets && id in s.endpoints && ValidEndpointId(id)
    ensures Revocations.Inv(c.limits, Queued(s, ws, id, ticket).disk)
  {
  }

  lemma QueueAppends(s: State, id: string, ticket: nat, p: Pending)
    requires QueueOk(s.pending, s.disk.settled, s.disk.queue) && ticket !in s.pending && p.id == id
    requires s.disk.settled.Keys <= s.pending.Keys
    ensures QueueOk(s.pending[ticket := p], s.disk.settled, s.disk.queue + [Revocations.Op(id, ticket)])
  {
  }

  /** Nobody waits for the revocation of a record that is not being revoked, so its id is not revoked. */
  lemma NotPending(s: State, id: string)
    requires Pendings(s.pending, s.endpoints, s.records) && Retired(s.endpoints, s.disk.revoked, s.pending)
    requires id in s.endpoints && !RecordOf(s, id).revoking
    ensures id !in s.disk.revoked && forall t :: t in s.pending ==> s.pending[t].id != id
  {
  }

  lemma PendingsQueued(s: State, id: string, ticket: nat, p: Pending, e: Endpoint)
    requires Pendings(s.pending, s.endpoints, s.records) && id in s.endpoints && e.revoking
    requires p.id == id && p.rec == s.endpoints[id] && forall t :: t in s.pending ==> s.pending[t].id != id
    ensures Pendings(s.pending[ticket := p], s.endpoints, s.records[s.endpoints[id] := e])
  {
  }

  /** The revocation that resumes still holds its live record. */
  lemma ResumeFacts(c: Config, s: State, ticket: nat)
    requires StrictTotal(c.limits.before) && Inv(c, s) && ticket in s.pending && ticket in s.disk.settled
    ensures var p := s.pending[ticket];
      && p.id in s.endpoints && s.endpoints[p.id] == p.rec && p.rec in s.records
      && s.records[p.rec].id == p.id && EndpointOk(s.sockets, s.records[p.rec], p.id)
      && (p.id in s.disk.revoked <==> s.disk.settled[ticket])
  {
  }

  function Waited(s: State, ticket: nat): State {
    s.(pending := s.pending - {ticket}, disk := s.disk.(settled := s.disk.settled - {ticket}))
  }

  /** Forgetting a settled ticket touches neither the other revocations nor the chain. */
  lemma WaitedChain(s: State, ticket: nat)
    requires Settlements(s.pending, s.disk) && QueueOk(s.pending, s.disk.settled, s.disk.queue)
    requires ticket in s.disk.settled
    ensures var t := Waited(s, ticket);
      Settlements(t.pending, t.disk) && QueueOk(t.pending, t.disk.settled, t.disk.queue)
  {
  }

  lemma WaitedDisk(c: Config, s: State, ticket: nat)
    requires StrictTotal(c.limits.before) && Revocations.Inv(c.limits, s.disk) && s.disk.up && ticket in s.disk.settled
    ensures Revocations.Inv(c.limits, Waited(s, ticket).disk)
  {
  }

  lemma ResumeFailed(c: Config, s: State, ticket: nat, sockets: map<Ws, Socket>)
    requires StrictTotal(c.limits.before) && Inv(c, s) && s.disk.up && ticket in s.pending && ticket in s.disk.settled
    requires !s.disk.settled[ticket] && Benign(s.sockets, sockets)
    ensures var p := s.pending[ticket];
      Inv(c, Waited(s, ticket).(sockets := sockets, records := s.records[p.rec := RecordAt(s, p.rec).(revoking := false)]))
  {
    var p := s.pending[ticket];
    var e := RecordAt(s, p.rec).(revoking := false);
    ResumeFacts(c, s, ticket);
    WaitedChain(s, ticket);
    WaitedDisk(c, s, ticket);
    SlotsUpdate(s, p.id, e);
    hide StrictTotal, Revocations.Inv, Frames, ValidEndpointId;
    PendingsDone(s, ticket, e);
    SlotsBenign(s.(records := s.records[p.rec := e]), sockets);
    LeasesBenign(s, sockets);
    RetiredDone(s, ticket);
    hide Slots, Leases, Pendings, Settlements, QueueOk, Retired, Benign;
  }

  lemma PendingsDone(s: State, ticket: nat, e: Endpoint)
    requires Slots(s.sockets, s.endpoints, s.records) && Pendings(s.pending, s.endpoints, s.records) && ticket in s.pending
    ensures Pendings(s.pending - {ticket}, s.endpoints, s.records[s.pending[ticket].rec := e])
  {
  }

  lemma RetiredDone(s: State, ticket: nat)
    requires Retired(s.endpoints, s.disk.revoked, s.pending) && ticket in s.pending
    requires s.pending[ticket].id !in s.disk.revoked
    ensures Retired(s.endpoints, s.disk.revoked, s.pending - {ticket})
  {
    forall id | id in s.endpoints && id in s.disk.revoked
      ensures exists t :: t in s.pending - {ticket} && s.pending[t].id == id
    {
      var t :| t in s.pending && s.pending[t].id == id;
      assert t in s.pending - {ticket};
    }
  }

  lemma ResumeRevoked(c: Config, s: State, ticket: nat, sockets: map<Ws, Socket>)
    requires StrictTotal(c.limits.before) && Inv(c, s) && s.disk.up && ticket in s.pending && ticket in s.disk.settled
    requires Benign(s.sockets, sockets)
    ensures var p := s.pending[ticket];
      Inv(c, Waited(s, ticket).(sockets := sockets, endpoints := s.endpoints - {p.id},
                                records := s.records[p.rec := Vacate(RecordAt(s, p.rec))]))
  {
    var p := s.pending[ticket];
    var e := Vacate(RecordAt(s, p.rec));
    ResumeFacts(c, s, ticket);
    WaitedChain(s, ticket);
    WaitedDisk(c, s, ticket);
    hide StrictTotal, Revocations.Inv, Frames, ValidEndpointId;
    PendingsDone(s, ticket, e);
    PendingsWithout(s, ticket, e);
    SlotsWithout(s, p.id, e);
    SlotsBenign(s.(endpoints := s.endpoints - {p.id}, records := s.records[p.rec := e]), sockets);
    LeasesBenign(s, sockets);
    RetiredWithout(s, ticket);
    assert (s.endpoints - {p.id}).Keys == s.endpoints.Keys - {p.id};
    hide Slots, Leases, Pendings, Settlements, QueueOk, Retired, Benign;
  }

  lemma PendingsWithout(s: State, ticket: nat, e: Endpoint)
    requires ticket in s.pending && Pendings(s.pending, s.endpoints, s.records)
    requires Pendings(s.pending - {ticket}, s.endpoints, s.records[s.pending[ticket].rec := e])
    ensures Pendings(s.pending - {ticket}, s.endpoints - {s.pending[ticket].id}, s.records[s.pending[ticket].rec := e])
  {
  }

  lemma SlotsWithout(s: State, id: string, e: Endpoint)
    requires Slots(s.sockets, s.endpoints, s.records) && id in s.endpoints
    ensures Slots(s.sockets, s.endpoints - {id}, s.records[s.endpoints[id] := e])
  {
  }

  lemma RetiredWithout(s: State, ticket: nat)
    requires Retired(s.endpoints, s.disk.revoked, s.pending) && ticket in s.pending
    ensures Retired(s.endpoints - {s.pending[ticket].id}, s.disk.revoked, s.pending - {ticket})
  {
    forall id | id in s.endpoints && id in s.disk.revoked && id != s.pending[ticket].id
      ensures exists t :: t in s.pending - {ticket} && s.pending[t].id == id
    {
      var t :| t in s.pending && s.pending[t].id == id;
      assert t in s.pending - {ticket};
    }
  }

  lemma ResumeKeepsInv(c: Config, s: State, ticket: nat)
    requires StrictTotal(c.limits.before) && Inv(c, s) && s.disk.up && ticket in s.pending && ticket in s.disk.settled
    ensures Inv(c, Resume(s, ticket))
  {
    ResumeFacts(c, s, ticket);
    hide StrictTotal, Inv, EndpointOk;
    var p := s.pending[ticket];
    var e := RecordAt(s, p.rec);
    if !s.disk.settled[ticket] {
      var sockets := if p.ws in s.sockets then s.sockets[p.ws := s.sockets[p.ws].(revokePending := false)] else s.sockets;
      ShutBenign(sockets, Some(p.ws));
      BenignTrans(s.sockets, sockets, Shut(sockets, Some(p.ws)));
      ResumeFailed(c, s, ticket, Shut(sockets, Some(p.ws)));
    } else {
      var one := Shut(s.sockets, e.web);
      var two := Shut(one, e.desktop);
      ShutBenign(s.sockets, e.web);
      ShutBenign(one, e.desktop);
      ShutBenign(two, Some(p.ws));
      BenignTrans(s.sockets, one, two);
      BenignTrans(s.sockets, two, Shut(two, Some(p.ws)));
      ResumeRevoked(c, s, ticket, Shut(two, Some(p.ws)));
    }
  }

  lemma BenignTrans(a: map<Ws, Socket>, b: map<Ws, Socket>, d: map<Ws, Socket>)
    requires Benign(a, b) && Benign(b, d)
    ensures Benign(a, d)
  {
  }

  // ---- The durable list ----

  predicate IsWriteStep(step: Revocations.Action) {
    !step.Submit? && !step.Resume? && !step.Crash?
  }

  lemma WriteKeepsInv(c: Config, s: State, step: Revocations.Action)
    requires StrictTotal(c.limits.before) && Inv(c, s) && IsWriteStep(step) && Revocations.Enabled(c.limits, s.disk, step)
    ensures Inv(c, s.(disk := Revocations.Next(c.limits, s.disk, step)))
  {
    Revocations.NextKeepsInv(c.limits, s.disk, step);
    WriteSettles(c, s, step);
    hide StrictTotal, Revocations.Inv, Revocations.Next, Slots, Leases, Frames, Pendings, Settlements, QueueOk, Retired;
  }

  lemma WriteSettles(c: Config, s: State, step: Revocations.Action)
    requires StrictTotal(c.limits.before) && IsWriteStep(step) && Revocations.Enabled(c.limits, s.disk, step)
    requires forall t, u :: t in s.pending && u in s.pending && s.pending[t].id == s.pending[u].id ==> t == u
    requires WhenDown(s)
    requires Settlements(s.pending, s.disk) && QueueOk(s.pending, s.disk.settled, s.disk.queue)
    requires Retired(s.endpoints, s.disk.revoked, s.pending)
    ensures var d := Revocations.Next(c.limits, s.disk, step);
      && Settlements(s.pending, d) && QueueOk(s.pending, d.settled, d.queue)
      && Retired(s.endpoints, d.revoked, s.pending)
      && WhenDown(s.(disk := d))
  {
    hide StrictTotal, Settlements, QueueOk, Retired, Pendings;
    match step
    case Begin(at) => BeginSettles(c, s, at);
    case FailBeforeRename => HeadSettles(s, false);
    case FailAfterRename => HeadSettles(s, false);
    case Rename => RenameSettles(c, s);
    case Commit => HeadCommits(s, Iso(s.disk.phase.at));
    case Boot => BootSettles(c, s);
  }

  lemma BeginSettles(c: Config, s: State, at: int)
    requires StrictTotal(c.limits.before) && Revocations.Enabled(c.limits, s.disk, Revocations.Begin(at))
    requires Settlements(s.pending, s.disk) && QueueOk(s.pending, s.disk.settled, s.disk.queue)
    ensures var d := Revocations.Next(c.limits, s.disk, Revocations.Begin(at));
      Settlements(s.pending, d) && QueueOk(s.pending, d.settled, d.queue) && d.revoked == s.disk.revoked && d.up
  {
    HeadNotRevoked(s);
    BeginCases(c, s.disk, at);
    hide StrictTotal, Revocations.Next, Revocations.BeginWrite, QueueOk, Settlements;
    HeadSettles(s, false);
    PhaseSettles(s, Revocations.Next(c.limits, s.disk, Revocations.Begin(at)).phase);
  }

  lemma PhaseSettles(s: State, phase: Revocations.Phase)
    requires Settlements(s.pending, s.disk)
    ensures Settlements(s.pending, s.disk.(phase := phase))
  {
  }

  lemma HeadNotRevoked(s: State)
    requires s.disk.queue != []
    requires Settlements(s.pending, s.disk) && QueueOk(s.pending, s.disk.settled, s.disk.queue)
    ensures s.disk.queue[0].id !in s.disk.revoked
  {
  }

  lemma BeginCases(c: Config, d: Revocations.Disk, at: int)
    requires StrictTotal(c.limits.before) && Revocations.Enabled(c.limits, d, Revocations.Begin(at))
    requires d.queue[0].id !in d.revoked
    ensures var e := Revocations.Next(c.limits, d, Revocations.Begin(at));
      e == Revocations.Settle(d, false) || e == d.(phase := e.phase)
  {
  }

  lemma RenameSettles(c: Config, s: State)
    requires StrictTotal(c.limits.before) && Revocations.Enabled(c.limits, s.disk, Revocations.Rename)
    requires Settlements(s.pending, s.disk)
    ensures var d := Revocations.Next(c.limits, s.disk, Revocations.Rename);
      Settlements(s.pending, d) && d.settled == s.disk.settled && d.queue == s.disk.queue && d.revoked == s.disk.revoked
  {
  }

  lemma BootSettles(c: Config, s: State)
    requires StrictTotal(c.limits.before) && Revocations.Enabled(c.limits, s.disk, Revocations.Boot) && WhenDown(s)
    requires Settlements(s.pending, s.disk)
    ensures var d := Revocations.Next(c.limits, s.disk, Revocations.Boot);
      Settlements(s.pending, d) && d.settled == s.disk.settled && d.queue == s.disk.queue
      && Retired(s.endpoints, d.revoked, s.pending)
  {
  }

  lemma HeadSettles(s: State, ok: bool)
    requires s.disk.queue != [] && !ok
    requires Settlements(s.pending, s.disk) && QueueOk(s.pending, s.disk.settled, s.disk.queue)
    ensures var d := Revocations.Settle(s.disk, ok);
      Settlements(s.pending, d) && QueueOk(s.pending, d.settled, d.queue)
  {
  }

  lemma HeadCommits(s: State, at: Stamp)
    requires s.disk.queue != []
    requires forall t, u :: t in s.pending && u in s.pending && s.pending[t].id == s.pending[u].id ==> t == u
    requires Settlements(s.pending, s.disk) && QueueOk(s.pending, s.disk.settled, s.disk.queue)
    requires Retired(s.endpoints, s.disk.revoked, s.pending)
    ensures var d := Revocations.Fulfil(s.disk.(revoked := s.disk.revoked[s.disk.queue[0].id := at]));
      && Settlements(s.pending, d) && QueueOk(s.pending, d.settled, d.queue)
      && Retired(s.endpoints, d.revoked, s.pending)
  {
  }

  lemma CrashKeepsInv(c: Config, s: State)
    requires StrictTotal(c.limits.before) && Inv(c, s) && s.disk.up
    ensures Inv(c, Next(c, s, Crash))
  {
    Revocations.CrashKeepsInv(c.limits, s.disk);
    hide StrictTotal, Revocations.Inv, Frames;
  }

  lemma ConnectKeepsInv(c: Config, s: State, ws: Ws)
    requires StrictTotal(c.limits.before) && Inv(c, s) && s.disk.up && ws !in s.seen
    ensures Inv(c, Next(c, s, Connect(ws)))
  {
    SlotsUnknown(s, ws, NEW_SOCKET);
    ConnectLeases(s, ws);
    hide StrictTotal, Revocations.Inv, Slots, Leases, Frames, Pendings, Settlements, QueueOk, Retired;
  }

  lemma ConnectLeases(s: State, ws: Ws)
    requires Leases(s.sockets, s.seen, s.issued) && ws !in s.seen
    ensures Leases(s.sockets[ws := NEW_SOCKET], s.seen + {ws}, s.issued)
  {
  }
}
