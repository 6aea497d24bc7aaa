/** What every run of the relay guarantees, under any interleaving of clients, timers,
    writes, failures, crashes and restarts. */
module RelaySafety {
  import opened Options
  import opened Orders
  import opened RelayState
  import opened Relay
  import opened RelayProtocol
  import Revocations

  // ---- Runs ----

  /** A process that has not started yet, on whatever state file it finds. */
  ghost predicate Initial(s: State) {
    && s.sockets == map[] && s.endpoints == map[] && s.records == map[] && s.pending == map[]
    && s.issued == map[] && s.seen == {} && s.delivered == [] && Revocations.Fresh(s.disk)
  }

  ghost predicate StepAt(c: Config, states: seq<State>, actions: seq<Action>, i: nat)
    requires StrictTotal(c.limits.before) && |states| == |actions| + 1 && i < |actions|
  {
    Enabled(c, states[i], actions[i]) && states[i + 1] == Next(c, states[i], actions[i])
  }

  ghost predicate IsRun(c: Config, states: seq<State>, actions: seq<Action>)
    requires StrictTotal(c.limits.before)
  {
    && |states| == |actions| + 1 && Initial(states[0])
    && forall i :: 0 <= i < |actions| ==> StepAt(c, states, actions, i)
  }

  lemma NextKeepsInv(c: Config, s: State, a: Action)
    requires StrictTotal(c.limits.before) && Inv(c, s) && Enabled(c, s, a)
    ensures Inv(c, Next(c, s, a))
  {
    hide StrictTotal, Inv;
    match a
    case Connect(ws) => ConnectKeepsInv(c, s, ws);
    case Break(ws, closing) =>
      BenignKeepsInv(c, s, Next(c, s, a).sockets);
    case CloseEvent(ws, now) => ClosedKeepsInv(c, s, ws, now);
    case RegisterMessage(ws, now, id, token, secret, rec, admitted) =>
      RegisterKeepsInv(c, s, ws, now, id, token, secret, rec, admitted);
    case JoinMessage(ws, now, id, token, lease) => JoinKeepsInv(c, s, ws, now, id, token, lease);
    case RevokeMessage(ws, id, secret, ticket) => RevokeKeepsInv(c, s, ws, id, secret, ticket);
    case RevokeResumes(ticket) => ResumeKeepsInv(c, s, ticket);
    case ForwardMessage(ws, supported, tag, fits) => ForwardKeepsInv(c, s, ws, supported, tag, fits);
    case BadMessage(ws) => RejectKeepsInv(c, s, ws);
    case Heartbeat(now) => PruneKeepsInv(c, s, now);
    case Write(step) => WriteKeepsInv(c, s, step);
    case Crash => CrashKeepsInv(c, s);
  }

  lemma InitialInv(c: Config, s: State)
    requires StrictTotal(c.limits.before) && Initial(s)
    ensures Inv(c, s)
  {
  }

  lemma {:induction false} RunKeepsInv(c: Config, states: seq<State>, actions: seq<Action>, n: nat)
    requires StrictTotal(c.limits.before) && IsRun(c, states, actions) && n < |states|
    ensures Inv(c, states[n])
  {
    hide StrictTotal, Inv, Enabled, Next;
    if n == 0 {
      InitialInv(c, states[0]);
    } else {
      RunKeepsInv(c, states, actions, n - 1);
      assert StepAt(c, states, actions, n - 1);
      NextKeepsInv(c, states[n - 1], actions[n - 1]);
    }
  }

  // ---- Slots ----

  predicate HeldBy(s: State, ws: Ws, id: string) {
    id in s.endpoints && (RecordOf(s, id).desktop == Some(ws) || RecordOf(s, id).web == Some(ws))
  }

  predicate Held(s: State, ws: Ws) {
    exists id :: id in s.endpoints && HeldBy(s, ws, id)
  }

  /** A socket is in at most one slot of one live record; web and lease come and go together
      and agree; the offline time is set exactly while the desktop slot is empty. */
  lemma SlotsExclusive(c: Config, states: seq<State>, actions: seq<Action>, n: nat, ws: Ws, id: string, other: string)
    requires StrictTotal(c.limits.before) && IsRun(c, states, actions) && n < |states|
    requires HeldBy(states[n], ws, id)
    ensures HeldBy(states[n], ws, other) ==> other == id
    ensures var e := RecordOf(states[n], id);
      && !(e.desktop == Some(ws) && e.web == Some(ws))
      && (e.web.Some? <==> e.lease.Some?)
      && (e.web.Some? ==> e.web.value in states[n].sockets && states[n].sockets[e.web.value].leaseId == e.lease)
      && (e.desktop.None? <==> e.offlineSince.Some?)
  {
    RunKeepsInv(c, states, actions, n);
    hide StrictTotal, IsRun, Revocations.Inv, Leases, Frames, Pendings, Settlements, QueueOk, Retired, ValidEndpointId;
    var s := states[n];
    assert EndpointOk(s.sockets, s.records[s.endpoints[id]], id);
    if HeldBy(s, ws, other) {
      assert EndpointOk(s.sockets, s.records[s.endpoints[other]], other);
    }
  }

  /** Neither the live records nor the revoked ids ever exceed their caps. */
  lemma CapsHold(c: Config, states: seq<State>, actions: seq<Action>, n: nat)
    requires StrictTotal(c.limits.before) && IsRun(c, states, actions) && n < |states|
    ensures |states[n].endpoints| <= c.maxEndpoints && |states[n].disk.revoked| <= c.limits.maxRevoked
  {
    RunKeepsInv(c, states, actions, n);
    hide StrictTotal, IsRun;
  }

  // ---- Frames ----

  /** Frames and leases already recorded stay, and so do the sockets seen. */
  predicate HistoryKept(s: State, t: State) {
    && s.delivered <= t.delivered
    && (forall l :: l in s.issued ==> l in t.issued && t.issued[l] == s.issued[l])
    && s.seen <= t.seen
  }

  lemma RegisterHistory(c: Config, s: State, ws: Ws, now: int, id: string,
                        token: Option<string>, secret: Option<string>, rec: Rec, admitted: bool)
    requires ws in s.sockets
    ensures var t := Register(c, s, ws, now, id, token, secret, rec, admitted);
      t.delivered == s.delivered && HistoryKept(s, t)
  {
    hide Register, Prune, Shut, IsOpen, RecordOf, SameSlot;
    RegisterCases(c, s, ws, now, id, token, secret, rec, admitted);
    PruneFacts(c, s, now, ws);
  }

  lemma JoinHistory(c: Config, s: State, ws: Ws, now: int, id: string, token: Option<string>, lease: Lease)
    requires ws in s.sockets && lease !in s.issued
    ensures var t := Join(c, s, ws, now, id, token, lease); t.delivered == s.delivered && HistoryKept(s, t)
  {
    hide Join, Prune, Shut, IsOpen, RecordOf, SameSlot;
    JoinCases(c, s, ws, now, id, token, lease);
    PruneFacts(c, s, now, ws);
  }

  lemma ForwardHistory(s: State, ws: Ws, supported: bool, tag: Option<Lease>, fits: bool)
    requires ws in s.sockets
    ensures HistoryKept(s, Forward(s, ws, supported, tag, fits))
  {
    hide Forward, Benign;
    ForwardCases(s, ws, supported, tag, fits);
  }

  /** Only forwarding adds a frame. */
  lemma StepHistory(c: Config, s: State, a: Action)
    requires StrictTotal(c.limits.before) && Enabled(c, s, a)
    ensures HistoryKept(s, Next(c, s, a))
    ensures !a.ForwardMessage? ==> Next(c, s, a).delivered == s.delivered
  {
    hide StrictTotal, Revocations.Next, Register, Join, Forward, ShutSlots, Shut, ValidEndpointId, Expired, RecordOf;
    match a
    case ForwardMessage(ws, supported, tag, fits) => ForwardHistory(s, ws, supported, tag, fits);
    case RegisterMessage(ws, now, id, token, secret, rec, admitted) =>
      RegisterHistory(c, s, ws, now, id, token, secret, rec, admitted);
    case JoinMessage(ws, now, id, token, lease) => JoinHistory(c, s, ws, now, id, token, lease);
    case _ =>
  }

  /** Every frame passed on in a run went, at that moment, between the two sockets of one live
      record under its current lease, and its sender was one of them. */
  lemma FrameAtSending(c: Config, states: seq<State>, actions: seq<Action>, n: nat)
    requires StrictTotal(c.limits.before) && IsRun(c, states, actions) && n < |actions|
    requires states[n + 1].delivered != states[n].delivered
    ensures |states[n + 1].delivered| == |states[n].delivered| + 1
    ensures var f := states[n + 1].delivered[|states[n].delivered|];
      states[n + 1].delivered == states[n].delivered + [f] && Between(states[n], f) && FrameOk(states[n].issued, f)
      && actions[n].ForwardMessage? && f.from == actions[n].ws
  {
    var s, a := states[n], actions[n];
    RunKeepsInv(c, states, actions, n);
    assert StepAt(c, states, actions, n);
    hide StrictTotal, IsRun;
    if a.ForwardMessage? {
      ForwardSound(s, a.ws, a.supported, a.tag, a.fits);
    } else {
      StepHistory(c, s, a);
    }
  }

  /** A lease names one web socket for ever, so a frame under it, and a response tagged with
      it, only ever reached or came from that socket. */
  lemma FrameUnderItsLease(c: Config, states: seq<State>, actions: seq<Action>, n: nat, f: Frame)
    requires StrictTotal(c.limits.before) && IsRun(c, states, actions) && n < |states| && f in states[n].delivered
    ensures f.lease.Some? && f.lease.value in states[n].issued && states[n].issued[f.lease.value] == f.web
    ensures f.tag.Some? ==> f.tag == f.lease
    ensures f.web == f.from || f.web == f.to
  {
    RunKeepsInv(c, states, actions, n);
    hide StrictTotal, IsRun, Revocations.Inv, Slots, Leases, Pendings, Settlements, QueueOk, Retired;
    assert FrameOk(states[n].issued, f);
  }

  // ---- Sockets that have lost their slot ----

  /** `ws` has played its part: it had a role or is gone, and no live record holds it. */
  predicate Out(s: State, ws: Ws) {
    ws in s.seen && (ws in s.sockets ==> s.sockets[ws].role != Unknown) && !Held(s, ws)
  }

  predicate MayTakeSlot(s: State, ws: Ws) {
    ws in s.sockets && s.sockets[ws].role == Unknown
  }

  /** When one record of a live id changes, whoever is held afterwards was held before, or is
      named by the new record. */
  lemma UpdateHolds(s: State, id: string, e: Endpoint, t: State, ws: Ws)
    requires Slots(s.sockets, s.endpoints, s.records) && id in s.endpoints
    requires t.endpoints.Keys <= s.endpoints.Keys && t.records == s.records[s.endpoints[id] := e]
    requires forall k :: k in t.endpoints ==> t.endpoints[k] == s.endpoints[k]
    requires Held(t, ws)
    ensures Held(s, ws) || e.desktop == Some(ws) || e.web == Some(ws)
  {
  }

  /** Only closing and marking sockets changes who is held by nothing. */
  lemma SocketsHold(s: State, sockets: map<Ws, Socket>, ws: Ws)
    ensures Held(s.(sockets := sockets), ws) <==> Held(s, ws)
  {
  }

  lemma CreateHolds(s: State, w: Ws, id: string, token: string, secret: string, rec: Rec, ws: Ws)
    requires Slots(s.sockets, s.endpoints, s.records) && w in s.sockets && id !in s.endpoints && rec !in s.records
    requires Held(Create(s, w, id, token, secret, rec), ws)
    ensures Held(s, ws) || ws == w
  {
  }

  lemma ReplaceHolds(s: State, w: Ws, id: string, ws: Ws)
    requires Slots(s.sockets, s.endpoints, s.records) && w in s.sockets && id in s.endpoints
    requires Held(Replace(s, w, id), ws)
    ensures Held(s, ws) || ws == w
  {
  }

  lemma SeatHolds(s: State, w: Ws, id: string, lease: Lease, ws: Ws)
    requires Slots(s.sockets, s.endpoints, s.records) && w in s.sockets && id in s.endpoints
    requires Held(Seat(s, w, id, lease), ws)
    ensures Held(s, ws) || ws == w
  {
  }

  lemma ClosedHolds(s: State, w: Ws, now: int, ws: Ws)
    requires Slots(s.sockets, s.endpoints, s.records) && w in s.sockets && Held(Closed(s, w, now), ws)
    ensures Held(s, ws)
  {
  }

  lemma RevokeHolds(s: State, w: Ws, id: string, secret: Option<string>, ticket: nat, ws: Ws)
    requires Slots(s.sockets, s.endpoints, s.records) && w in s.sockets && Held(Revoke(s, w, id, secret, ticket), ws)
    ensures Held(s, ws)
  {
  }

  lemma SameHolds(s: State, t: State, ws: Ws)
    requires t.endpoints == s.endpoints && t.records == s.records && Held(t, ws)
    ensures Held(s, ws)
  {
  }

  lemma ResumeHolds(c: Config, s: State, ticket: nat, ws: Ws)
    requires StrictTotal(c.limits.before) && Inv(c, s) && ticket in s.pending && ticket in s.disk.settled
    requires Held(Resume(s, ticket), ws)
    ensures Held(s, ws)
  {
    ResumeFacts(c, s, ticket);
    var p, t := s.pending[ticket], Resume(s, ticket);
    hide StrictTotal, Revocations.Inv, Leases, Frames, Pendings, Settlements, QueueOk, Retired, Shut;
    UpdateHolds(s, p.id, t.records[p.rec], t, ws);
    hide Slots;
    if t.records[p.rec].desktop == Some(ws) || t.records[p.rec].web == Some(ws) {
      assert HeldBy(s, ws, p.id);
    }
  }

  /** Only a socket without a role can come to be held. */
  lemma StepHolds(c: Config, s: State, a: Action, ws: Ws)
    requires StrictTotal(c.limits.before) && Inv(c, s) && Enabled(c, s, a) && Held(Next(c, s, a), ws)
    ensures Held(s, ws) || MayTakeSlot(s, ws)
  {
    SlotsOf(c, s);
    var t := Next(c, s, a);
    hide StrictTotal, Inv, Revocations.Next, Held, Slots, Forward, Shut, Register, Join, Revoke, Resume, Closed;
    match a
    case RegisterMessage(w, now, id, token, secret, rec, admitted) =>
      RegisterHolds(c, s, w, now, id, token, secret, rec, admitted, ws);
    case JoinMessage(w, now, id, token, lease) => JoinHolds(c, s, w, now, id, token, lease, ws);
    case CloseEvent(w, now) => ClosedHolds(s, w, now, ws);
    case RevokeMessage(w, id, secret, ticket) => RevokeHolds(s, w, id, secret, ticket, ws);
    case RevokeResumes(ticket) => ResumeHolds(c, s, ticket, ws);
    case Heartbeat(now) => PruneHolds(c, s, now, ws);
    case Crash => NobodyHeld(t, ws);
    case _ => QuietStep(c, s, a); SameHolds(s, t, ws);
  }

  /** Connections, broken sockets, messages and writes change no record. */
  lemma QuietStep(c: Config, s: State, a: Action)
    requires StrictTotal(c.limits.before) && Enabled(c, s, a)
    requires a.Connect? || a.Break? || a.ForwardMessage? || a.BadMessage? || a.Write?
    ensures Next(c, s, a).endpoints == s.endpoints && Next(c, s, a).records == s.records
  {
    hide StrictTotal, Revocations.Next, Shut, RecordOf, Receives, Register, Join, Revoke, Resume, Prune, Closed, Forward;
    match a
    case ForwardMessage(ws, supported, tag, fits) => ForwardCases(s, ws, supported, tag, fits);
    case _ =>
  }

  lemma NobodyHeld(s: State, ws: Ws)
    requires s.endpoints == map[]
    ensures !Held(s, ws)
  {
  }

  lemma SlotsOf(c: Config, s: State)
    requires StrictTotal(c.limits.before) && Inv(c, s)
    ensures Slots(s.sockets, s.endpoints, s.records)
  {
  }

  lemma RegisterHolds(c: Config, s: State, w: Ws, now: int, id: string, token: Option<string>, secret: Option<string>,
                      rec: Rec, admitted: bool, ws: Ws)
    requires Slots(s.sockets, s.endpoints, s.records) && w in s.sockets && rec !in s.records
    requires Held(Register(c, s, w, now, id, token, secret, rec, admitted), ws)
    ensures Held(s, ws) || MayTakeSlot(s, ws)
  {
    RegisterCases(c, s, w, now, id, token, secret, rec, admitted);
    PruneFacts(c, s, now, w);
    PruneSlots(c, s, now);
    hide Register, Prune, Create, Replace, Held, Slots, SameSlot;
    var p, t := Prune(c, s, now), Register(c, s, w, now, id, token, secret, rec, admitted);
    if t == Reject(s, w) || t == Reject(p, w) {
      SocketsHold(s, Reject(s, w).sockets, ws);
      SocketsHold(p, Reject(p, w).sockets, ws);
    } else if id !in p.endpoints {
      CreateHolds(p, w, id, token.value, secret.value, rec, ws);
    } else {
      ReplaceHolds(p, w, id, ws);
    }
    if Held(p, ws) {
      PruneHolds(c, s, now, ws);
    }
  }

  lemma JoinHolds(c: Config, s: State, w: Ws, now: int, id: string, token: Option<string>, lease: Lease, ws: Ws)
    requires Slots(s.sockets, s.endpoints, s.records) && w in s.sockets
    requires Held(Join(c, s, w, now, id, token, lease), ws)
    ensures Held(s, ws) || MayTakeSlot(s, ws)
  {
    JoinCases(c, s, w, now, id, token, lease);
    PruneFacts(c, s, now, w);
    PruneSlots(c, s, now);
    hide Join, Prune, Seat, Held, Slots, SameSlot;
    var p, t := Prune(c, s, now), Join(c, s, w, now, id, token, lease);
    if t == Reject(s, w) || t == Reject(p, w) {
      SocketsHold(s, Reject(s, w).sockets, ws);
      SocketsHold(p, Reject(p, w).sockets, ws);
    } else {
      SeatHolds(p, w, id, lease, ws);
    }
    if Held(p, ws) {
      PruneHolds(c, s, now, ws);
    }
  }

  lemma PruneHolds(c: Config, s: State, now: int, ws: Ws)
    requires Slots(s.sockets, s.endpoints, s.records) && Held(Prune(c, s, now), ws)
    ensures Held(s, ws)
  {
  }

  lemma PruneSlots(c: Config, s: State, now: int)
    requires Slots(s.sockets, s.endpoints, s.records)
    ensures var p := Prune(c, s, now); Slots(p.sockets, p.endpoints, p.records)
  {
  }

  /** A socket keeps its role until it is forgotten, and is never accepted twice. */
  lemma StepRoles(c: Config, s: State, a: Action, ws: Ws)
    requires StrictTotal(c.limits.before) && Enabled(c, s, a)
    requires ws in s.seen && (ws in s.sockets ==> s.sockets[ws].role != Unknown)
    ensures var t := Next(c, s, a); ws in t.sockets ==> t.sockets[ws].role != Unknown
  {
    hide StrictTotal, Revocations.Next, Register, Join, Prune, Resume, Forward, Closed, Revoke;
    match a
    case RegisterMessage(w, now, id, token, secret, rec, admitted) =>
      RegisterCases(c, s, w, now, id, token, secret, rec, admitted);
      PruneRole(c, s, now, ws);
      hide Held;
    case JoinMessage(w, now, id, token, lease) =>
      JoinCases(c, s, w, now, id, token, lease);
      PruneRole(c, s, now, ws);
    case Heartbeat(now) => PruneRole(c, s, now, ws);
    case RevokeResumes(ticket) => ResumeRole(s, ticket, ws);
    case ForwardMessage(w, supported, tag, fits) => ForwardRole(s, w, supported, tag, fits, ws);
    case CloseEvent(w, now) => ClosedRole(s, w, now, ws);
    case RevokeMessage(w, id, secret, ticket) => RevokeRole(s, w, id, secret, ticket, ws);
    case _ =>
  }

  lemma PruneRole(c: Config, s: State, now: int, ws: Ws)
    ensures var p := Prune(c, s, now);
      (ws in p.sockets <==> ws in s.sockets) && (ws in s.sockets ==> SameSlot(s.sockets[ws], p.sockets[ws]))
  {
  }

  lemma ResumeRole(s: State, ticket: nat, ws: Ws)
    requires ticket in s.pending && ticket in s.disk.settled
    ensures var t := Resume(s, ticket);
      (ws in t.sockets <==> ws in s.sockets) && (ws in s.sockets ==> t.sockets[ws].role == s.sockets[ws].role)
  {
    hide RecordAt, Shut, Vacate;
    var p := s.pending[ticket];
    var e := RecordAt(s, p.rec);
    var quiet := if p.ws in s.sockets then s.sockets[p.ws := s.sockets[p.ws].(revokePending := false)] else s.sockets;
    ShutRole(quiet, Some(p.ws), ws);
    ShutRole(s.sockets, e.web, ws);
    ShutRole(Shut(s.sockets, e.web), e.desktop, ws);
    ShutRole(Shut(Shut(s.sockets, e.web), e.desktop), Some(p.ws), ws);
    ShutRole(s.sockets, Some(p.ws), ws);
  }

  lemma ShutRole(a: map<Ws, Socket>, closed: Option<Ws>, ws: Ws)
    ensures ws in Shut(a, closed) <==> ws in a
    ensures ws in a ==> Shut(a, closed)[ws].role == a[ws].role
  {
  }

  lemma ForwardRole(s: State, w: Ws, supported: bool, tag: Option<Lease>, fits: bool, ws: Ws)
    requires w in s.sockets
    ensures var t := Forward(s, w, supported, tag, fits);
      (ws in t.sockets <==> ws in s.sockets) && (ws in s.sockets ==> t.sockets[ws].role == s.sockets[ws].role)
  {
    hide Forward;
    ForwardCases(s, w, supported, tag, fits);
  }

  lemma ClosedRole(s: State, w: Ws, now: int, ws: Ws)
    requires w in s.sockets
    ensures var t := Closed(s, w, now);
      (ws in t.sockets <==> ws in s.sockets) && (ws in s.sockets ==> t.sockets[ws].role == s.sockets[ws].role)
  {
  }

  lemma RevokeRole(s: State, w: Ws, id: string, secret: Option<string>, ticket: nat, ws: Ws)
    requires w in s.sockets
    ensures var t := Revoke(s, w, id, secret, ticket);
      (ws in t.sockets <==> ws in s.sockets) && (ws in s.sockets ==> t.sockets[ws].role == s.sockets[ws].role)
  {
  }

  /** A socket that is out stays out, and no frame passes from it or to it. */
  lemma StepOut(c: Config, s: State, a: Action, ws: Ws)
    requires StrictTotal(c.limits.before) && Inv(c, s) && Enabled(c, s, a) && Out(s, ws)
    ensures Out(Next(c, s, a), ws)
    ensures var t := Next(c, s, a);
      t.delivered == s.delivered
      || (|t.delivered| == |s.delivered| + 1 && t.delivered[|s.delivered|].from != ws && t.delivered[|s.delivered|].to != ws)
  {
    var t := Next(c, s, a);
    if Held(t, ws) {
      StepHolds(c, s, a, ws);
    }
    StepRoles(c, s, a, ws);
    StepHistory(c, s, a);
    if a.ForwardMessage? && t.delivered != s.delivered {
      FrameMisses(c, s, a.ws, a.supported, a.tag, a.fits, ws);
    }
    hide StrictTotal, Inv, Next, Held;
  }

  /** A socket that held a slot and holds none after a step is out: replaced, closed, left by an
      expired or revoked record, or gone with the process. */
  lemma LosesSlot(c: Config, s: State, a: Action, ws: Ws)
    requires StrictTotal(c.limits.before) && Inv(c, s) && Enabled(c, s, a)
    requires Held(s, ws) && !Held(Next(c, s, a), ws)
    ensures Out(Next(c, s, a), ws)
  {
    HolderHasRole(c, s, ws);
    StepRoles(c, s, a, ws);
    StepHistory(c, s, a);
    hide StrictTotal, Inv, Enabled, Next, Held;
  }

  lemma HolderHasRole(c: Config, s: State, ws: Ws)
    requires StrictTotal(c.limits.before) && Inv(c, s) && Held(s, ws)
    ensures ws in s.seen && ws in s.sockets && s.sockets[ws].role != Unknown
  {
    SlotsOf(c, s);
    var id :| id in s.endpoints && HeldBy(s, ws, id);
    assert EndpointOk(s.sockets, s.records[s.endpoints[id]], id);
  }

  /** So a replaced or expired socket gets no frame through ever again, and none reaches it. */
  lemma LostForever(c: Config, states: seq<State>, actions: seq<Action>, n: nat, m: nat, ws: Ws)
    requires StrictTotal(c.limits.before) && IsRun(c, states, actions) && n < m < |states|
    requires Held(states[n], ws) && !Held(states[n + 1], ws)
    ensures !Held(states[m], ws) && states[n + 1].delivered <= states[m].delivered
    ensures forall i :: |states[n + 1].delivered| <= i < |states[m].delivered| ==>
      states[m].delivered[i].from != ws && states[m].delivered[i].to != ws
  {
    hide StrictTotal, Inv, Enabled, Next, Held;
    RunKeepsInv(c, states, actions, n);
    RunSteps(c, states, actions, n);
    LosesSlot(c, states[n], actions[n], ws);
    OutForever(c, states, actions, n + 1, m, ws);
  }

  lemma FrameMisses(c: Config, s: State, w: Ws, supported: bool, tag: Option<Lease>, fits: bool, ws: Ws)
    requires StrictTotal(c.limits.before) && Inv(c, s) && w in s.sockets && !Held(s, ws)
    requires Forward(s, w, supported, tag, fits).delivered != s.delivered
    ensures var t := Forward(s, w, supported, tag, fits);
      |t.delivered| == |s.delivered| + 1 && t.delivered[|s.delivered|].from != ws && t.delivered[|s.delivered|].to != ws
  {
    hide StrictTotal, Revocations.Inv, Frames, Pendings, Settlements, QueueOk, Retired;
    ForwardSound(s, w, supported, tag, fits);
    hide Forward, Slots, Leases;
    var f := Forward(s, w, supported, tag, fits).delivered[|s.delivered|];
    assert !HeldBy(s, ws, f.id);
  }

  /** Once a socket with a role is held by no live record - it was replaced, its record expired
      or was revoked, even if the id was registered again, or its process restarted - no frame
      ever passes from it or to it again. */
  lemma {:induction false} OutForever(c: Config, states: seq<State>, actions: seq<Action>, n: nat, m: nat, ws: Ws)
    requires StrictTotal(c.limits.before) && IsRun(c, states, actions) && n <= m < |states| && Out(states[n], ws)
    ensures Out(states[m], ws) && states[n].delivered <= states[m].delivered
    ensures forall i :: |states[n].delivered| <= i < |states[m].delivered| ==>
      states[m].delivered[i].from != ws && states[m].delivered[i].to != ws
    decreases m
  {
    hide StrictTotal, Inv, Enabled, Next, Out;
    if n < m {
      OutForever(c, states, actions, n, m - 1, ws);
      RunKeepsInv(c, states, actions, m - 1);
      assert StepAt(c, states, actions, m - 1);
      StepOut(c, states[m - 1], actions[m - 1], ws);
      StepHistory(c, states[m - 1], actions[m - 1]);
    }
  }

  // ---- Expiry ----

  /** `id` is live in `s` as the record `rec`. */
  predicate LiveAs(s: State, id: string, rec: Rec) {
    id in s.endpoints && s.endpoints[id] == rec
  }

  /** A record is offline since `t` because it was already, or because its desktop closed at `t` just now. */
  lemma StepOffline(c: Config, s: State, a: Action, id: string, rec: Rec, t: int)
    requires StrictTotal(c.limits.before) && Inv(c, s) && Enabled(c, s, a)
    requires LiveAs(Next(c, s, a), id, rec) && RecordAt(Next(c, s, a), rec).offlineSince == Some(t)
    ensures LiveAs(s, id, rec)
    ensures RecordAt(s, rec).offlineSince == Some(t)
         || (a.CloseEvent? && a.now == t && RecordAt(s, rec).desktop == Some(a.ws))
  {
    SlotsOf(c, s);
    hide StrictTotal, Inv, Revocations.Next, Forward, Shut, Register, Join, Revoke, Resume, Closed, Slots;
    match a
    case RegisterMessage(w, now, k, token, secret, r, admitted) =>
      RegisterOffline(c, s, w, now, k, token, secret, r, admitted, id, rec, t);
    case JoinMessage(w, now, k, token, lease) => JoinOffline(c, s, w, now, k, token, lease, id, rec, t);
    case CloseEvent(w, now) => ClosedOffline(s, w, now, id, rec);
    case RevokeMessage(w, k, secret, ticket) => RevokeOffline(s, w, k, secret, ticket, rec);
    case RevokeResumes(ticket) => ResumeOffline(c, s, ticket, id, rec);
    case Heartbeat(now) => PruneOffline(c, s, now, id, rec);
    case Crash =>
    case _ => QuietStep(c, s, a);
  }

  lemma PruneOffline(c: Config, s: State, now: int, id: string, rec: Rec)
    requires Slots(s.sockets, s.endpoints, s.records) && LiveAs(Prune(c, s, now), id, rec)
    ensures LiveAs(s, id, rec) && RecordAt(Prune(c, s, now), rec) == RecordAt(s, rec)
  {
  }

  lemma RegisterOffline(c: Config, s: State, w: Ws, now: int, k: string, token: Option<string>, secret: Option<string>,
                        r: Rec, admitted: bool, id: string, rec: Rec, t: int)
    requires Slots(s.sockets, s.endpoints, s.records) && w in s.sockets && r !in s.records
    requires var v := Register(c, s, w, now, k, token, secret, r, admitted);
      LiveAs(v, id, rec) && RecordAt(v, rec).offlineSince == Some(t)
    ensures LiveAs(s, id, rec) && RecordAt(s, rec).offlineSince == Some(t)
  {
    RegisterCases(c, s, w, now, k, token, secret, r, admitted);
    PruneFacts(c, s, now, w);
    PruneSlots(c, s, now);
    var p := Prune(c, s, now);
    if LiveAs(p, id, rec) {
      PruneOffline(c, s, now, id, rec);
    }
    if k in p.endpoints && id in p.endpoints && k != id {
      RecordsDistinct(p, k, id);
    }
    hide Register, Prune, Slots, Shut, IsOpen, SameSlot;
  }

  lemma JoinOffline(c: Config, s: State, w: Ws, now: int, k: string, token: Option<string>, lease: Lease,
                    id: string, rec: Rec, t: int)
    requires Slots(s.sockets, s.endpoints, s.records) && w in s.sockets
    requires var v := Join(c, s, w, now, k, token, lease);
      LiveAs(v, id, rec) && RecordAt(v, rec).offlineSince == Some(t)
    ensures LiveAs(s, id, rec) && RecordAt(s, rec).offlineSince == Some(t)
  {
    JoinCases(c, s, w, now, k, token, lease);
    PruneFacts(c, s, now, w);
    var p := Prune(c, s, now);
    if LiveAs(p, id, rec) {
      PruneOffline(c, s, now, id, rec);
    }
    hide Join, Prune, Slots, Shut, IsOpen, SameSlot;
  }

  lemma ClosedOffline(s: State, w: Ws, now: int, id: string, rec: Rec)
    requires Slots(s.sockets, s.endpoints, s.records) && w in s.sockets && LiveAs(Closed(s, w, now), id, rec)
    ensures LiveAs(s, id, rec)
    ensures RecordAt(Closed(s, w, now), rec).offlineSince == RecordAt(s, rec).offlineSince
         || (RecordAt(Closed(s, w, now), rec).offlineSince == Some(now) && RecordAt(s, rec).desktop == Some(w))
  {
  }

  lemma RevokeOffline(s: State, w: Ws, k: string, secret: Option<string>, ticket: nat, rec: Rec)
    requires w in s.sockets
    ensures var v := Revoke(s, w, k, secret, ticket);
      v.endpoints == s.endpoints && RecordAt(v, rec).offlineSince == RecordAt(s, rec).offlineSince
  {
  }

  lemma ResumeOffline(c: Config, s: State, ticket: nat, id: string, rec: Rec)
    requires StrictTotal(c.limits.before) && Inv(c, s) && ticket in s.pending && ticket in s.disk.settled
    requires LiveAs(Resume(s, ticket), id, rec)
    ensures LiveAs(s, id, rec) && RecordAt(Resume(s, ticket), rec).offlineSince == RecordAt(s, rec).offlineSince
  {
    hide StrictTotal, Inv, Shut, EndpointOk;
    ResumeFacts(c, s, ticket);
  }

  /** The run has had `id` live as `rec` with no desktop since the close event at step `j`, read at `t`. */
  ghost predicate OfflineSinceStep(states: seq<State>, actions: seq<Action>, n: nat, id: string, rec: Rec, t: int, j: nat)
    requires |states| == |actions| + 1 && n < |states|
  {
    && j < n && actions[j].CloseEvent? && actions[j].now == t
    && LiveAs(states[j], id, rec) && RecordAt(states[j], rec).desktop == Some(actions[j].ws)
    && forall i :: j < i <= n ==> LiveAs(states[i], id, rec) && RecordAt(states[i], rec).desktop.None?
  }

  lemma {:induction false} OfflineSinceClose(c: Config, states: seq<State>, actions: seq<Action>, n: nat,
                                            id: string, rec: Rec, t: int)
    requires StrictTotal(c.limits.before) && IsRun(c, states, actions) && n < |states|
    requires LiveAs(states[n], id, rec) && RecordAt(states[n], rec).offlineSince == Some(t)
    ensures exists j :: OfflineSinceStep(states, actions, n, id, rec, t, j)
    decreases n
  {
    hide StrictTotal, Inv, Enabled, Next, RecordAt;
    RunKeepsInv(c, states, actions, n);
    OfflineMeansEmpty(c, states[n], id, rec);
    if n > 0 {
      RunKeepsInv(c, states, actions, n - 1);
      assert StepAt(c, states, actions, n - 1);
      StepOffline(c, states[n - 1], actions[n - 1], id, rec, t);
      if RecordAt(states[n - 1], rec).offlineSince == Some(t) {
        OfflineSinceClose(c, states, actions, n - 1, id, rec, t);
        var j :| OfflineSinceStep(states, actions, n - 1, id, rec, t, j);
        assert OfflineSinceStep(states, actions, n, id, rec, t, j);
      } else {
        assert OfflineSinceStep(states, actions, n, id, rec, t, n - 1);
      }
    }
  }

  lemma OfflineMeansEmpty(c: Config, s: State, id: string, rec: Rec)
    requires StrictTotal(c.limits.before) && Inv(c, s) && LiveAs(s, id, rec)
    ensures RecordAt(s, rec).desktop.None? <==> RecordAt(s, rec).offlineSince.Some?
  {
  }

  /** A record leaves the live ones only by a restart, by the revocation that holds it, or by
      expiry, and expiry takes it only when it is not being revoked and its offline time is a
      TTL old. */
  lemma StepExpires(c: Config, s: State, a: Action, id: string, rec: Rec)
    requires StrictTotal(c.limits.before) && Inv(c, s) && Enabled(c, s, a)
    requires LiveAs(s, id, rec) && !LiveAs(Next(c, s, a), id, rec) && !a.Crash? && !a.RevokeResumes?
    ensures a.RegisterMessage? || a.JoinMessage? || a.Heartbeat?
    ensures var e := RecordAt(s, rec); !e.revoking && e.offlineSince.Some? && a.now - e.offlineSince.value >= c.ttl
  {
    hide StrictTotal, Inv, Revocations.Next, Forward, Shut, Register, Join, Revoke, Resume, Closed, RecordAt;
    match a
    case RegisterMessage(w, now, k, token, secret, r, admitted) =>
      RegisterCases(c, s, w, now, k, token, secret, r, admitted);
      PruneFacts(c, s, now, w);
    case JoinMessage(w, now, k, token, lease) =>
      JoinCases(c, s, w, now, k, token, lease);
      PruneFacts(c, s, now, w);
    case CloseEvent(w, now) => ClosedEndpoints(s, w, now);
    case RevokeMessage(w, k, secret, ticket) => RevokeOffline(s, w, k, secret, ticket, rec);
    case Heartbeat(now) =>
    case _ => QuietStep(c, s, a);
  }

  /** Whenever a record expires, its desktop closed at least a TTL earlier by the relay's clock,
      and the desktop slot has been empty at every step since. */
  lemma ExpiredOnlyAfterTtl(c: Config, states: seq<State>, actions: seq<Action>, n: nat, id: string, rec: Rec)
    returns (j: nat)
    requires StrictTotal(c.limits.before) && IsRun(c, states, actions) && n < |actions|
    requires LiveAs(states[n], id, rec) && !LiveAs(states[n + 1], id, rec)
    requires !actions[n].Crash? && !actions[n].RevokeResumes?
    ensures actions[n].RegisterMessage? || actions[n].JoinMessage? || actions[n].Heartbeat?
    ensures !RecordAt(states[n], rec).revoking
    ensures j < n && actions[j].CloseEvent? && OfflineSinceStep(states, actions, n, id, rec, actions[j].now, j)
    ensures actions[n].now - actions[j].now >= c.ttl
  {
    RunKeepsInv(c, states, actions, n);
    assert StepAt(c, states, actions, n);
    hide StrictTotal, Inv, Enabled, Next;
    StepExpires(c, states[n], actions[n], id, rec);
    var t := RecordAt(states[n], rec).offlineSince.value;
    OfflineSinceClose(c, states, actions, n, id, rec, t);
    j :| OfflineSinceStep(states, actions, n, id, rec, t, j);
  }

  // ---- Revoked for ever ----

  /** The id is in the state file, the relay knows it while it runs, and no record has it. */
  predicate Buried(s: State, id: string) {
    && id in Revocations.MapIn(s.disk.file) && (s.disk.up ==> id in s.disk.revoked)
    && id !in s.endpoints
  }

  lemma StepBuried(c: Config, s: State, a: Action, id: string)
    requires StrictTotal(c.limits.before) && Inv(c, s) && Enabled(c, s, a) && Buried(s, id)
    ensures Buried(Next(c, s, a), id)
  {
    StepRetains(c, s, a, id);
    StaysUnregistered(c, s, a, id);
    hide StrictTotal, Inv, Next, Revocations.MapIn;
  }

  lemma StepRetains(c: Config, s: State, a: Action, id: string)
    requires StrictTotal(c.limits.before) && Inv(c, s) && Enabled(c, s, a) && Buried(s, id)
    ensures var t := Next(c, s, a);
      id in Revocations.MapIn(t.disk.file) && (t.disk.up ==> id in t.disk.revoked)
  {
    DiskInv(c, s);
    WithinAt(c, s, id);
    hide StrictTotal, Inv, Revocations.Inv, Revocations.Next, Revocations.MapIn;
    hide Forward, Shut, Register, Join, Revoke, Resume, Closed, ShutSlots, Expired;
    match a
    case Write(step) => Revocations.NextRetains(c.limits, s.disk, step, id, Revocations.MapIn(s.disk.file)[id]);
    case Crash => Revocations.NextRetains(c.limits, s.disk, Revocations.Crash, id, Revocations.MapIn(s.disk.file)[id]);
    case RegisterMessage(w, now, k, token, secret, r, admitted) =>
      RegisterDisk(c, s, w, now, k, token, secret, r, admitted);
    case JoinMessage(w, now, k, token, lease) => JoinDisk(c, s, w, now, k, token, lease);
    case _ => DiskQuiet(c, s, a);
  }

  lemma DiskInv(c: Config, s: State)
    requires StrictTotal(c.limits.before) && Inv(c, s)
    ensures Revocations.Inv(c.limits, s.disk)
  {
  }

  /** What memory has, it has under the date in the file. */
  lemma WithinAt(c: Config, s: State, id: string)
    requires StrictTotal(c.limits.before) && Inv(c, s) && Buried(s, id)
    ensures Revocations.Retained(s.disk, id, Revocations.MapIn(s.disk.file)[id])
  {
    DiskInv(c, s);
    hide StrictTotal, Inv, WellFormed, Revocations.Loadable, Revocations.NextExtends, Revocations.MapIn;
  }

  lemma RegisterDisk(c: Config, s: State, ws: Ws, now: int, k: string, token: Option<string>,
                     secret: Option<string>, rec: Rec, admitted: bool)
    requires ws in s.sockets
    ensures Register(c, s, ws, now, k, token, secret, rec, admitted).disk == s.disk
  {
    RegisterCases(c, s, ws, now, k, token, secret, rec, admitted);
    PruneFacts(c, s, now, ws);
    hide Register, Prune, Shut, IsOpen, RecordOf, SameSlot;
  }

  lemma JoinDisk(c: Config, s: State, ws: Ws, now: int, k: string, token: Option<string>, lease: Lease)
    requires ws in s.sockets
    ensures Join(c, s, ws, now, k, token, lease).disk == s.disk
  {
    JoinCases(c, s, ws, now, k, token, lease);
    PruneFacts(c, s, now, ws);
    hide Join, Prune, Shut, IsOpen, RecordOf, SameSlot;
  }

  lemma DiskQuiet(c: Config, s: State, a: Action)
    requires StrictTotal(c.limits.before) && Enabled(c, s, a)
    requires !a.Write? && !a.Crash? && !a.RegisterMessage? && !a.JoinMessage?
    ensures var d := Next(c, s, a).disk; d.file == s.disk.file && d.up == s.disk.up && d.revoked == s.disk.revoked
  {
    hide StrictTotal, Revocations.Next, Shut, RecordOf, RecordAt, Receives, Expired, ShutSlots, ValidEndpointId, MayRevoke;
    hide Register, Join, Forward, Closed;
    match a
    case ForwardMessage(ws, supported, tag, fits) => ForwardEndpoints(s, ws, supported, tag, fits);
    case CloseEvent(ws, now) => ClosedDisk(s, ws, now);
    case _ =>
  }

  lemma ClosedDisk(s: State, ws: Ws, now: int)
    requires ws in s.sockets
    ensures Closed(s, ws, now).disk == s.disk
  {
    hide RecordOf;
  }

  lemma ForwardEndpoints(s: State, ws: Ws, supported: bool, tag: Option<Lease>, fits: bool)
    requires ws in s.sockets
    ensures var t := Forward(s, ws, supported, tag, fits); t.disk == s.disk && t.endpoints == s.endpoints
  {
    hide Forward, Benign;
    ForwardCases(s, ws, supported, tag, fits);
  }

  lemma RegisterUnregistered(c: Config, s: State, ws: Ws, now: int, k: string, token: Option<string>,
                             secret: Option<string>, rec: Rec, admitted: bool, id: string)
    requires ws in s.sockets && id in s.disk.revoked && id !in s.endpoints
    ensures id !in Register(c, s, ws, now, k, token, secret, rec, admitted).endpoints
  {
    RegisterCases(c, s, ws, now, k, token, secret, rec, admitted);
    PruneFacts(c, s, now, ws);
    hide Register, Prune, Shut, IsOpen, RecordOf, SameSlot;
  }

  lemma JoinUnregistered(c: Config, s: State, ws: Ws, now: int, k: string, token: Option<string>, lease: Lease, id: string)
    requires ws in s.sockets && id !in s.endpoints
    ensures id !in Join(c, s, ws, now, k, token, lease).endpoints
  {
    JoinCases(c, s, ws, now, k, token, lease);
    PruneFacts(c, s, now, ws);
    hide Join, Prune, Shut, IsOpen, RecordOf, SameSlot;
  }

  lemma StaysUnregistered(c: Config, s: State, a: Action, id: string)
    requires StrictTotal(c.limits.before) && Inv(c, s) && Enabled(c, s, a) && Buried(s, id)
    ensures id !in Next(c, s, a).endpoints
  {
    hide StrictTotal, Inv, Revocations.Next, Revocations.MapIn, Shut, RecordAt, RecordOf, Expired, ShutSlots;
    hide Forward, Register, Join, Revoke, Resume, Closed;
    match a
    case RegisterMessage(w, now, k, token, secret, r, admitted) =>
      RegisterUnregistered(c, s, w, now, k, token, secret, r, admitted, id);
    case JoinMessage(w, now, k, token, lease) => JoinUnregistered(c, s, w, now, k, token, lease, id);
    case CloseEvent(w, now) => ClosedEndpoints(s, w, now);
    case RevokeMessage(w, k, secret, ticket) => RevokeOffline(s, w, k, secret, ticket, 0);
    case RevokeResumes(ticket) => ResumeEndpoints(s, ticket);
    case ForwardMessage(ws, supported, tag, fits) => ForwardEndpoints(s, ws, supported, tag, fits);
    case _ =>
  }

  lemma ResumeEndpoints(s: State, ticket: nat)
    requires ticket in s.pending && ticket in s.disk.settled
    ensures Resume(s, ticket).endpoints.Keys <= s.endpoints.Keys
  {
  }

  lemma {:induction false} BuriedForever(c: Config, states: seq<State>, actions: seq<Action>, n: nat, m: nat, id: string)
    requires StrictTotal(c.limits.before) && IsRun(c, states, actions) && n <= m < |states| && Buried(states[n], id)
    ensures Buried(states[m], id)
    decreases m
  {
    hide StrictTotal, Inv, Enabled, Next, Buried;
    if n < m {
      BuriedForever(c, states, actions, n, m - 1, id);
      RunKeepsInv(c, states, actions, m - 1);
      StepBuriedAt(c, states, actions, m - 1, id);
    }
  }

  lemma StepBuriedAt(c: Config, states: seq<State>, actions: seq<Action>, i: nat, id: string)
    requires StrictTotal(c.limits.before) && IsRun(c, states, actions) && i < |actions|
    requires Inv(c, states[i]) && Buried(states[i], id)
    ensures Buried(states[i + 1], id)
  {
    RunSteps(c, states, actions, i);
    hide StrictTotal, Inv, Enabled, Next, IsRun, Buried;
    StepBuried(c, states[i], actions[i], id);
  }

  lemma RunSteps(c: Config, states: seq<State>, actions: seq<Action>, i: nat)
    requires StrictTotal(c.limits.before) && IsRun(c, states, actions) && i < |actions|
    ensures StepAt(c, states, actions, i)
  {
  }

  /** Once a revocation has completed, its id is in the state file at every later step and is
      never registered again, whatever else happens, restarts included. */
  lemma CompletedRevocationIsFinal(c: Config, states: seq<State>, actions: seq<Action>, n: nat, m: nat, ticket: nat)
    requires StrictTotal(c.limits.before) && IsRun(c, states, actions) && n < |actions| && n < m < |states|
    requires actions[n] == RevokeResumes(ticket) && ticket in states[n].disk.settled && states[n].disk.settled[ticket]
    ensures ticket in states[n].pending && Buried(states[m], states[n].pending[ticket].id)
  {
    RunKeepsInv(c, states, actions, n);
    RunSteps(c, states, actions, n);
    var s := states[n];
    ResumeFacts(c, s, ticket);
    CompletesBuried(c, s, ticket);
    hide StrictTotal, Inv, IsRun, Resume, Buried;
    BuriedForever(c, states, actions, n + 1, m, s.pending[ticket].id);
  }

  lemma CompletesBuried(c: Config, s: State, ticket: nat)
    requires StrictTotal(c.limits.before) && Inv(c, s) && ticket in s.pending && ticket in s.disk.settled
    requires s.disk.settled[ticket] && s.disk.up
    ensures Buried(Resume(s, ticket), s.pending[ticket].id)
  {
    DiskInv(c, s);
    ResumeFacts(c, s, ticket);
    hide StrictTotal, Slots, Leases, Frames, Pendings, QueueOk, Retired, Shut, WellFormed;
    hide Revocations.Loadable, Revocations.NextExtends, Revocations.MapIn;
  }

  /** A stop makes whatever the state file has final, a revocation reported as failed included. */
  lemma StopMakesFinal(c: Config, states: seq<State>, actions: seq<Action>, n: nat, m: nat, id: string)
    requires StrictTotal(c.limits.before) && IsRun(c, states, actions) && n <= m < |states|
    requires !states[n].disk.up && id in Revocations.MapIn(states[n].disk.file)
    ensures Buried(states[m], id)
  {
    RunKeepsInv(c, states, actions, n);
    DownIsEmpty(c, states[n]);
    hide StrictTotal, Inv, IsRun, Revocations.MapIn;
    BuriedForever(c, states, actions, n, m, id);
  }

  lemma DownIsEmpty(c: Config, s: State)
    requires StrictTotal(c.limits.before) && Inv(c, s) && !s.disk.up
    ensures s.endpoints == map[]
  {
  }
}
