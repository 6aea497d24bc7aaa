/** The remote-control relay: what each handler, close event and timer does to the
    sockets, the endpoint records and the durable list of revocations. */
module Relay {
  import opened Options
  import opened RelayState
  import Revocations

  type Ws = nat      // one accepted websocket
  type Rec = nat     // one endpoint record, as an object with an identity
  type Lease = nat   // a random lease id; never drawn twice

  datatype Role = Unknown | Desktop | Web

  /** `open` is readyState OPEN, `gone` says that the close event has been handled. */
  datatype Socket = Socket(
    role: Role,
    endpointId: Option<string>,
    leaseId: Option<Lease>,
    open: bool,
    gone: bool,
    policyClosing: bool,
    revokePending: bool)

  datatype Endpoint = Endpoint(
    id: string,
    token: string,
    secret: string,
    desktop: Option<Ws>,
    web: Option<Ws>,
    lease: Option<Lease>,
    offlineSince: Option<int>,
    revoking: bool)

  /** A revocation whose caller waits for the write to settle. */
  datatype Pending = Pending(ws: Ws, rec: Rec, id: string)

  /** One message passed on; `tag` is the lease id the desktop put on it, if any. */
  datatype Frame = Frame(from: Ws, to: Ws, web: Ws, id: string, lease: Option<Lease>, tag: Option<Lease>)

  /** `issued`, `seen` and `delivered` are history: who each lease was drawn for, every
      socket ever accepted, and every frame ever passed on. */
  datatype State = State(
    sockets: map<Ws, Socket>,
    endpoints: map<string, Rec>,
    records: map<Rec, Endpoint>,
    pending: map<nat, Pending>,
    disk: Revocations.Disk,
    issued: map<Lease, Ws>,
    seen: set<Ws>,
    delivered: seq<Frame>)

  datatype Config = Config(maxEndpoints: nat, ttl: int, limits: Limits)

  // ---- Sockets ----

  predicate IsOpen(s: State, ws: Option<Ws>) {
    ws.Some? && ws.value in s.sockets && s.sockets[ws.value].open
  }

  /** `closeSocket` */
  function Shut(sockets: map<Ws, Socket>, ws: Option<Ws>): map<Ws, Socket> {
    if ws.Some? && ws.value in sockets
    then sockets[ws.value := sockets[ws.value].(policyClosing := true, open := false)]
    else sockets
  }

  /** `rejectSocket` */
  function Reject(s: State, ws: Ws): State {
    s.(sockets := Shut(s.sockets, Some(ws)))
  }

  /** A message is only looked at before the close event, and not once the relay is closing
      the socket or waiting for its revocation. */
  predicate Hears(s: State, ws: Ws) {
    ws in s.sockets && !s.sockets[ws].gone && !s.sockets[ws].policyClosing && !s.sockets[ws].revokePending
  }

  const NO_RECORD := Endpoint("", "", "", None, None, None, None, false)

  function RecordAt(s: State, rec: Rec): Endpoint {
    if rec in s.records then s.records[rec] else NO_RECORD
  }

  /** The live record of an endpoint id. */
  function RecordOf(s: State, id: string): Endpoint
    requires id in s.endpoints
  {
    RecordAt(s, s.endpoints[id])
  }

  // ---- Expiry ----

  predicate Expires(c: Config, s: State, id: string, now: int)
    requires id in s.endpoints
  {
    var e := RecordOf(s, id);
    !e.revoking && !IsOpen(s, e.desktop) && e.offlineSince.Some? && now - e.offlineSince.value >= c.ttl
  }

  function Expired(c: Config, s: State, now: int): set<string>
  {
    set id | id in s.endpoints && Expires(c, s, id, now)
  }

  /** The sockets left in the slots of expired records are closed, and the slots emptied. */
  function ShutSlots(s: State, ids: set<string>): map<Ws, Socket>
    requires ids <= s.endpoints.Keys
  {
    map ws | ws in s.sockets ::
      if exists id :: id in ids && (RecordOf(s, id).web == Some(ws) || RecordOf(s, id).desktop == Some(ws))
      then s.sockets[ws].(policyClosing := true, open := false)
      else s.sockets[ws]
  }

  function Vacate(e: Endpoint): Endpoint {
    e.(web := None, desktop := None, lease := None)
  }

  function Prune(c: Config, s: State, now: int): State
  {
    Drop(s, Expired(c, s, now))
  }

  function Drop(s: State, ids: set<string>): State
    requires ids <= s.endpoints.Keys
  {
    s.(sockets := ShutSlots(s, ids),
       endpoints := s.endpoints - ids,
       records := map rec | rec in s.records ::
         if exists id :: id in ids && s.endpoints[id] == rec then Vacate(s.records[rec]) else s.records[rec])
  }

  // ---- Handlers ----

  function Authenticated(s: Socket, role: Role, id: string, lease: Option<Lease>): Socket {
    s.(role := role, endpointId := Some(id), leaseId := lease)
  }

  predicate BadRegister(s: State, ws: Ws, id: string, token: Option<string>, secret: Option<string>)
    requires ws in s.sockets
  {
    s.sockets[ws].role != Unknown || !ValidEndpointId(id) || token.None? || secret.None?
  }

  /** `registerDesktop`; `rec` is the identity a new record gets, `admitted` the rate limiter's answer. */
  function Register(c: Config, s: State, ws: Ws, now: int, id: string,
                    token: Option<string>, secret: Option<string>, rec: Rec, admitted: bool): State
    requires ws in s.sockets
  {
    if BadRegister(s, ws, id, token, secret) then Reject(s, ws)
    else Enter(c, Prune(c, s, now), ws, id, token.value, secret.value, rec, admitted)
  }

  /** `registerDesktop` after it has pruned expired records. */
  function Enter(c: Config, s: State, ws: Ws, id: string, token: string, secret: string, rec: Rec, admitted: bool): State
    requires ws in s.sockets
  {
    if id in s.disk.revoked then Reject(s, ws)
    else if id !in s.endpoints then
      if |s.endpoints| >= c.maxEndpoints || !admitted then Reject(s, ws)
      else Create(s, ws, id, token, secret, rec)
    else
      var e := RecordOf(s, id);
      if secret != e.secret || token != e.token then Reject(s, ws)
      else Replace(s, ws, id)
  }

  function Create(s: State, ws: Ws, id: string, token: string, secret: string, rec: Rec): State
    requires ws in s.sockets
  {
    s.(sockets := s.sockets[ws := Authenticated(s.sockets[ws], Desktop, id, None)],
       endpoints := s.endpoints[id := rec],
       records := s.records[rec := Endpoint(id, token, secret, Some(ws), None, None, None, false)])
  }

  function Replace(s: State, ws: Ws, id: string): State
    requires ws in s.sockets && id in s.endpoints
  {
    var e := RecordOf(s, id);
    var shut := if IsOpen(s, e.desktop) && e.desktop != Some(ws) then Shut(s.sockets, e.desktop) else s.sockets;
    s.(sockets := shut[ws := Authenticated(shut[ws], Desktop, id, None)],
       records := s.records[s.endpoints[id] := e.(desktop := Some(ws), offlineSince := None)])
  }

  /** `joinWebClient`; `lease` is the random id drawn for it. */
  function Join(c: Config, s: State, ws: Ws, now: int, id: string, token: Option<string>, lease: Lease): State
    requires ws in s.sockets
  {
    if s.sockets[ws].role != Unknown || !ValidEndpointId(id) || token.None? then Reject(s, ws) else
      var p := Prune(c, s, now);
      if id !in p.endpoints || token.value != RecordOf(p, id).token then Reject(p, ws)
      else Seat(p, ws, id, lease)
  }

  function Seat(s: State, ws: Ws, id: string, lease: Lease): State
    requires ws in s.sockets && id in s.endpoints
  {
    var e := RecordOf(s, id);
    var seated := s.sockets[ws := Authenticated(s.sockets[ws], Web, id, Some(lease))];
    s.(sockets := if IsOpen(s, e.web) then Shut(seated, e.web) else seated,
       records := s.records[s.endpoints[id] := e.(web := Some(ws), lease := Some(lease))],
       issued := s.issued[lease := ws])
  }

  predicate MayRevoke(s: State, ws: Ws, id: string, secret: Option<string>)
    requires ws in s.sockets && id in s.endpoints
  {
    var e, sock := RecordOf(s, id), s.sockets[ws];
    && ((sock.role == Desktop && sock.endpointId == Some(id)) || secret == Some(e.secret))
    && (secret.Some? ==> secret.value == e.secret)
    && !e.revoking
  }

  /** `revokeFromSocket` up to its await. */
  function Revoke(s: State, ws: Ws, id: string, secret: Option<string>, ticket: nat): State
    requires ws in s.sockets
  {
    if !ValidEndpointId(id) || id !in s.endpoints || !MayRevoke(s, ws, id, secret) then Reject(s, ws) else
      var rec := s.endpoints[id];
      s.(sockets := s.sockets[ws := s.sockets[ws].(revokePending := true)],
         records := s.records[rec := RecordAt(s, rec).(revoking := true)],
         pending := s.pending[ticket := Pending(ws, rec, id)],
         disk := s.disk.(queue := s.disk.queue + [Revocations.Op(id, ticket)]))
  }

  /** `revokeFromSocket` after its await: the write failed, or the record is revoked. */
  function Resume(s: State, ticket: nat): State
    requires ticket in s.pending && ticket in s.disk.settled
  {
    var p := s.pending[ticket];
    var e := RecordAt(s, p.rec);
    var base := s.(pending := s.pending - {ticket}, disk := s.disk.(settled := s.disk.settled - {ticket}));
    if !s.disk.settled[ticket] then
      var sockets := if p.ws in s.sockets then s.sockets[p.ws := s.sockets[p.ws].(revokePending := false)] else s.sockets;
      base.(sockets := Shut(sockets, Some(p.ws)), records := s.records[p.rec := e.(revoking := false)])
    else if e.id in s.endpoints && s.endpoints[e.id] == p.rec then
      base.(sockets := Shut(Shut(Shut(s.sockets, e.web), e.desktop), Some(p.ws)),
            endpoints := s.endpoints - {e.id},
            records := s.records[p.rec := Vacate(e)])
    else
      base.(sockets := Shut(s.sockets, Some(p.ws)))
  }

  /** `forwardAuthenticatedMessage`; `supported` says that the type is allowed in its direction,
      `fits` that the peer's send buffer has room and sending does not fail. */
  function Forward(s: State, ws: Ws, supported: bool, tag: Option<Lease>, fits: bool): State
    requires ws in s.sockets
  {
    var sock := s.sockets[ws];
    if sock.role == Unknown || sock.endpointId.None? || sock.endpointId.value !in s.endpoints then Reject(s, ws) else
      var id := sock.endpointId.value;
      var e := RecordOf(s, id);
      if sock.role == Web then
        if e.web != Some(ws) || e.lease != sock.leaseId then Reject(s, ws)
        else if !supported || !IsOpen(s, e.desktop) then s
        else Sent(s, Frame(ws, e.desktop.value, ws, id, e.lease, None), fits)
      else
        if e.desktop != Some(ws) then Reject(s, ws)
        else if !supported || !IsOpen(s, e.web) || (tag.Some? && tag != e.lease) then s
        else Sent(s, Frame(ws, e.web.value, e.web.value, id, e.lease, tag), fits)
  }

  /** `send`: nothing to a socket that is not open or that the relay is closing; a socket whose
      buffer is full, or on which sending fails, is closed instead. */
  function Sent(s: State, f: Frame, fits: bool): State {
    if !Receives(s, Some(f.to)) then s
    else if !fits then Reject(s, f.to)
    else s.(delivered := s.delivered + [f])
  }

  /** `send` passes a message on only to an open socket the relay is not closing. */
  predicate Receives(s: State, ws: Option<Ws>) {
    IsOpen(s, ws) && !s.sockets[ws.value].policyClosing
  }

  /** The close event of a socket. */
  function Closed(s: State, ws: Ws, now: int): State
    requires ws in s.sockets
  {
    var sock := s.sockets[ws];
    var t := s.(sockets := s.sockets[ws := sock.(gone := true, open := false)]);
    if sock.endpointId.None? || sock.endpointId.value !in s.endpoints then t else
      var id := sock.endpointId.value;
      var e := RecordOf(s, id);
      if sock.role == Web && e.web == Some(ws) then
        t.(records := s.records[s.endpoints[id] := e.(web := None, lease := None)])
      else if sock.role == Desktop && e.desktop == Some(ws) then
        t.(records := s.records[s.endpoints[id] := e.(desktop := None, offlineSince := Some(now))])
      else t
  }
}
