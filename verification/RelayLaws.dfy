/** Every column of the relay's state, over all steps of all runs: who may take a slot or revoke,
    when records come and go, which sockets are closed, and which messages go through. */
module RelayLaws {
  import opened Options
  import opened Orders
  import opened RelayState
  import opened Relay
  import opened RelayProtocol
  import opened RelaySafety
  import Revocations

  /** Step `n` of a run is `a` and leads from `s` to `t`. */
  ghost predicate Does(c: Config, states: seq<State>, actions: seq<Action>, n: nat, s: State, a: Action, t: State)
    requires StrictTotal(c.limits.before)
  {
    IsRun(c, states, actions) && n < |actions| && states[n] == s && actions[n] == a && states[n + 1] == t
  }

  lemma Applied(c: Config, states: seq<State>, actions: seq<Action>, n: nat, s: State, a: Action, t: State)
    requires StrictTotal(c.limits.before) && Does(c, states, actions, n, s, a, t)
    ensures Inv(c, s) && Enabled(c, s, a) && t == Next(c, s, a)
  {
    RunKeepsInv(c, states, actions, n);
    assert StepAt(c, states, actions, n);
    hide StrictTotal, IsRun, Inv, Enabled, Next;
  }

  // ---- What a step may do, from the state before it ----

  /** No revocation is under way, and the desktop has been away for the time to live. */
  predicate TimedOut(c: Config, s: State, id: string, now: int) {
    && id in s.endpoints && !RecordOf(s, id).revoking
    && RecordOf(s, id).offlineSince.Some? && now - RecordOf(s, id).offlineSince.value >= c.ttl
  }

  predicate Live(c: Config, s: State, id: string, now: int) {
    id in s.endpoints && !TimedOut(c, s, id, now)
  }

  function LiveIds(c: Config, s: State, now: int): set<string> {
    set id | id in s.endpoints && Live(c, s, id, now)
  }

  /** The socket is still in a slot of a record that has timed out. */
  ghost predicate LeftBehind(c: Config, s: State, w: Ws, now: int) {
    exists id :: TimedOut(c, s, id, now) && RecordOf(s, id).web == Some(w)
  }

  /** A registration that is looked at: by a socket without a role, for a valid id, with both
      credentials. */
  predicate AsksToRegister(s: State, a: Action) {
    && a.RegisterMessage? && a.ws in s.sockets && s.sockets[a.ws].role == Unknown
    && ValidEndpointId(a.id) && a.token.Some? && a.secret.Some?
  }

  /** It comes back to a live record, with its secret and its token. */
  predicate Returns(c: Config, s: State, a: Action) {
    && AsksToRegister(s, a) && a.id !in s.disk.revoked && Live(c, s, a.id, a.now)
    && a.secret == Some(RecordOf(s, a.id).secret) && a.token == Some(RecordOf(s, a.id).token)
  }

  /** It makes a new record: there is none, room for one, and the limiter admits it. */
  predicate Enrols(c: Config, s: State, a: Action) {
    && AsksToRegister(s, a) && a.id !in s.disk.revoked && !Live(c, s, a.id, a.now)
    && |LiveIds(c, s, a.now)| < c.maxEndpoints && a.admitted
  }

  predicate AsksToJoin(s: State, a: Action) {
    && a.JoinMessage? && a.ws in s.sockets && s.sockets[a.ws].role == Unknown
    && ValidEndpointId(a.id) && a.token.Some?
  }

  /** A web client joins a live record, with its token. */
  predicate Joins(c: Config, s: State, a: Action) {
    AsksToJoin(s, a) && Live(c, s, a.id, a.now) && a.token == Some(RecordOf(s, a.id).token)
  }

  /** A revocation of a record that is not being revoked yet: with its secret, or without any by a
      desktop registered under its id. */
  predicate Revokes(s: State, a: Action) {
    && a.RevokeMessage? && a.ws in s.sockets && ValidEndpointId(a.id) && a.id in s.endpoints
    && !RecordOf(s, a.id).revoking
    && (a.secret == Some(RecordOf(s, a.id).secret)
        || (a.secret.None? && s.sockets[a.ws].role == Desktop && s.sockets[a.ws].endpointId == Some(a.id)))
  }

  /** A revocation goes on whose write went well, or badly. */
  predicate Resumes(s: State, a: Action, well: bool) {
    a.RevokeResumes? && a.ticket in s.pending && a.ticket in s.disk.settled && s.disk.settled[a.ticket] == well
  }

  /** Timed-out records are looked for. */
  predicate Sweeps(s: State, a: Action) {
    a.Heartbeat? || AsksToRegister(s, a) || AsksToJoin(s, a)
  }

  // ---- What expiry does ----

  lemma ExpiredAre(c: Config, s: State, now: int)
    requires Slots(s.sockets, s.endpoints, s.records)
    ensures forall id :: id in Expired(c, s, now) <==> TimedOut(c, s, id, now)
  {
    forall id | id in s.endpoints
      ensures Relay.Expires(c, s, id, now) <==> TimedOut(c, s, id, now)
    {
      SlotHolds(s, id);
    }
  }

  lemma PruneIs(c: Config, s: State, now: int)
    requires Slots(s.sockets, s.endpoints, s.records)
    ensures var p := Prune(c, s, now);
      && p == s.(sockets := p.sockets, endpoints := p.endpoints, records := p.records)
      && (forall id :: id in p.endpoints <==> Live(c, s, id, now))
      && (forall id :: id in p.endpoints ==> p.endpoints[id] == s.endpoints[id] && RecordOf(p, id) == RecordOf(s, id))
      && p.records.Keys == s.records.Keys
  {
    ExpiredAre(c, s, now);
    DropSlots(s, Expired(c, s, now));
    hide Slots, Expired, ShutSlots, RecordAt;
    var p := Prune(c, s, now);
    assert p.records.Keys == s.records.Keys;
  }

  lemma PruneShuts(c: Config, s: State, now: int, w: Ws)
    requires Slots(s.sockets, s.endpoints, s.records) && w in s.sockets
    ensures var p := Prune(c, s, now);
      p.sockets.Keys == s.sockets.Keys
      && p.sockets[w] == if LeftBehind(c, s, w, now) then Shutting(s.sockets[w]) else s.sockets[w]
  {
    ExpiredAre(c, s, now);
    forall id | TimedOut(c, s, id, now)
      ensures RecordOf(s, id).desktop.None?
    {
      SlotHolds(s, id);
    }
    hide Slots, Expired, RecordAt, ValidEndpointId;
    var ids := Expired(c, s, now);
    assert LeftBehind(c, s, w, now) <==>
      exists id :: id in ids && (RecordOf(s, id).web == Some(w) || RecordOf(s, id).desktop == Some(w));
  }

  /** A socket the relay closes. */
  function Shutting(k: Socket): Socket {
    k.(policyClosing := true, open := false)
  }

  lemma LiveCount(c: Config, s: State, now: int)
    requires Slots(s.sockets, s.endpoints, s.records)
    ensures |LiveIds(c, s, now)| == |Prune(c, s, now).endpoints|
  {
    PruneIs(c, s, now);
    assert LiveIds(c, s, now) == Prune(c, s, now).endpoints.Keys;
    assert |Prune(c, s, now).endpoints.Keys| == |Prune(c, s, now).endpoints|;
    hide Slots, Prune;
  }

  // ---- What the handlers come to ----

  lemma RegisterIs(c: Config, s: State, a: Action)
    requires Slots(s.sockets, s.endpoints, s.records) && a.RegisterMessage? && a.ws in s.sockets
    ensures var p, t := Prune(c, s, a.now), Register(c, s, a.ws, a.now, a.id, a.token, a.secret, a.rec, a.admitted);
      && a.ws in p.sockets
      && (if Returns(c, s, a) then a.id in p.endpoints && t == Replace(p, a.ws, a.id)
          else if Enrols(c, s, a) then
            && a.id !in p.endpoints && a.token.Some? && a.secret.Some?
            && t == Create(p, a.ws, a.id, a.token.value, a.secret.value, a.rec)
          else t == Reject(if AsksToRegister(s, a) then p else s, a.ws))
  {
    PruneIs(c, s, a.now);
    LiveCount(c, s, a.now);
    PruneFacts(c, s, a.now, a.ws);
    hide Slots, Prune, LiveIds, Live, Create, Replace, Reject, RecordOf, ValidEndpointId;
  }

  lemma JoinIs(c: Config, s: State, a: Action)
    requires Slots(s.sockets, s.endpoints, s.records) && a.JoinMessage? && a.ws in s.sockets
    ensures var p, t := Prune(c, s, a.now), Join(c, s, a.ws, a.now, a.id, a.token, a.lease);
      && a.ws in p.sockets
      && (if Joins(c, s, a) then a.id in p.endpoints && t == Seat(p, a.ws, a.id, a.lease)
          else t == Reject(if AsksToJoin(s, a) then p else s, a.ws))
  {
    PruneIs(c, s, a.now);
    PruneFacts(c, s, a.now, a.ws);
    hide Slots, Prune, Live, Seat, Reject, RecordOf, ValidEndpointId;
  }

  // ---- Records ----

  /** The record goes: it has timed out and that is noticed, or its revocation went well, or the
      process stops. */
  predicate Goes(c: Config, s: State, a: Action, id: string) {
    || (Sweeps(s, a) && TimedOut(c, s, id, a.now))
    || (Resumes(s, a, true) && s.pending[a.ticket].id == id)
    || a.Crash?
  }

  /** What the live record of an id becomes. */
  function RecordAfter(c: Config, s: State, a: Action, id: string): Endpoint
    requires id in s.endpoints
  {
    var e := RecordOf(s, id);
    match a
    case RegisterMessage(ws, _, k, _, _, _, _) =>
      if k == id && Returns(c, s, a) then e.(desktop := Some(ws), offlineSince := None) else e
    case JoinMessage(ws, _, k, _, lease) =>
      if k == id && Joins(c, s, a) then e.(web := Some(ws), lease := Some(lease)) else e
    case RevokeMessage(_, k, _, _) => if k == id && Revokes(s, a) then e.(revoking := true) else e
    case RevokeResumes(ticket) => if Resumes(s, a, false) && s.pending[ticket].id == id then e.(revoking := false) else e
    case CloseEvent(ws, now) =>
      if e.web == Some(ws) then e.(web := None, lease := None)
      else if e.desktop == Some(ws) then e.(desktop := None, offlineSince := Some(now)) else e
    case _ => e
  }

  /** A record comes exactly by a registration that enrols it, with the credentials that brings;
      it goes exactly as said, and otherwise becomes what is said. */
  predicate RecordsFollow(c: Config, s: State, a: Action, t: State, id: string) {
    if Enrols(c, s, a) && a.id == id
    then
      && LiveAs(t, id, a.rec)
      && RecordOf(t, id) == Endpoint(id, a.token.value, a.secret.value, Some(a.ws), None, None, None, false)
    else
      && (id in t.endpoints <==> id in s.endpoints && !Goes(c, s, a, id))
      && (id in t.endpoints ==> t.endpoints[id] == s.endpoints[id] && RecordOf(t, id) == RecordAfter(c, s, a, id))
  }

  /** `t` has the record `e` for `id` where `s` had another, and all others as in `s`. */
  predicate OneChanged(s: State, t: State, id: string, e: Endpoint) {
    && id in s.endpoints && t.endpoints == s.endpoints && RecordOf(t, id) == e
    && forall k :: k in s.endpoints && k != id ==> RecordOf(t, k) == RecordOf(s, k)
  }

  /** `t` has the record `e`, known as `rec`, for `id`, and all others as in `s`. */
  ghost predicate OneAdded(s: State, t: State, id: string, rec: Rec, e: Endpoint) {
    && LiveAs(t, id, rec) && RecordOf(t, id) == e
    && (forall k :: k != id ==> (k in t.endpoints <==> k in s.endpoints))
    && (forall k :: k != id && k in s.endpoints ==> t.endpoints[k] == s.endpoints[k] && RecordOf(t, k) == RecordOf(s, k))
  }

  lemma ReplaceChanges(s: State, ws: Ws, id: string)
    requires Slots(s.sockets, s.endpoints, s.records) && ws in s.sockets && id in s.endpoints
    ensures OneChanged(s, Replace(s, ws, id), id, RecordOf(s, id).(desktop := Some(ws), offlineSince := None))
  {
    DistinctFrom(s, id);
    hide Slots, Shut, IsOpen;
  }

  lemma SeatChanges(s: State, ws: Ws, id: string, lease: Lease)
    requires Slots(s.sockets, s.endpoints, s.records) && ws in s.sockets && id in s.endpoints
    ensures OneChanged(s, Seat(s, ws, id, lease), id, RecordOf(s, id).(web := Some(ws), lease := Some(lease)))
  {
    DistinctFrom(s, id);
    hide Slots, Shut, IsOpen;
  }

  lemma DistinctFrom(s: State, id: string)
    requires Slots(s.sockets, s.endpoints, s.records) && id in s.endpoints
    ensures s.endpoints[id] in s.records
    ensures forall k :: k in s.endpoints && k != id ==> s.endpoints[k] != s.endpoints[id]
  {
    hide ValidEndpointId;
  }

  lemma RegisterRecords(c: Config, s: State, a: Action, id: string)
    requires Slots(s.sockets, s.endpoints, s.records) && a.RegisterMessage? && a.ws in s.sockets && a.rec !in s.records
    ensures RecordsFollow(c, s, a, Register(c, s, a.ws, a.now, a.id, a.token, a.secret, a.rec, a.admitted), id)
  {
    hide Slots, Prune, Register, Replace, Create, AsksToRegister, Returns, Enrols, RecordsFollow, RecordOf;
    hide Swept, OneChanged, OneAdded;
    RegisterIs(c, s, a);
    SweptBy(c, s, a.now);
    var p := Prune(c, s, a.now);
    if Returns(c, s, a) {
      ReplaceChanges(p, a.ws, a.id);
      ReturnFollows(c, s, a, p, Replace(p, a.ws, a.id), id);
    } else if Enrols(c, s, a) {
      CreateRecords(p, a.ws, a.id, a.token.value, a.secret.value, a.rec);
      EnrolmentFollows(c, s, a, p, Create(p, a.ws, a.id, a.token.value, a.secret.value, a.rec), id);
    } else if AsksToRegister(s, a) {
      RefusalFollows(c, s, a, p, Reject(p, a.ws), id);
    } else {
      UnaskedFollows(c, s, a, Reject(s, a.ws), id);
    }
  }

  /** `p` is `s` without the records that have timed out. */
  ghost predicate Swept(c: Config, s: State, p: State, now: int) {
    && (forall id :: id in p.endpoints <==> Live(c, s, id, now))
    && (forall id :: id in p.endpoints ==> p.endpoints[id] == s.endpoints[id] && RecordOf(p, id) == RecordOf(s, id))
  }

  lemma SweptBy(c: Config, s: State, now: int)
    requires Slots(s.sockets, s.endpoints, s.records)
    ensures var p := Prune(c, s, now);
      Swept(c, s, p, now) && Slots(p.sockets, p.endpoints, p.records) && p.records.Keys == s.records.Keys
  {
    PruneIs(c, s, now);
    PruneSlots(c, s, now);
    hide Slots, Prune, Live, RecordOf;
  }

  lemma ReturnFollows(c: Config, s: State, a: Action, p: State, t: State, id: string)
    requires Returns(c, s, a) && Swept(c, s, p, a.now)
    requires OneChanged(p, t, a.id, RecordOf(p, a.id).(desktop := Some(a.ws), offlineSince := None))
    ensures RecordsFollow(c, s, a, t, id)
  {
    hide TimedOut, RecordOf, LiveIds, ValidEndpointId;
  }

  lemma JoinFollows(c: Config, s: State, a: Action, p: State, t: State, id: string)
    requires Joins(c, s, a) && Swept(c, s, p, a.now)
    requires OneChanged(p, t, a.id, RecordOf(p, a.id).(web := Some(a.ws), lease := Some(a.lease)))
    ensures RecordsFollow(c, s, a, t, id)
  {
    hide TimedOut, RecordOf, LiveIds, ValidEndpointId;
  }

  lemma EnrolmentFollows(c: Config, s: State, a: Action, p: State, t: State, id: string)
    requires Enrols(c, s, a) && Swept(c, s, p, a.now)
    requires OneAdded(p, t, a.id, a.rec, Endpoint(a.id, a.token.value, a.secret.value, Some(a.ws), None, None, None, false))
    ensures RecordsFollow(c, s, a, t, id)
  {
    hide TimedOut, RecordOf, LiveIds, ValidEndpointId;
  }

  lemma RefusalFollows(c: Config, s: State, a: Action, p: State, t: State, id: string)
    requires AsksToRegister(s, a) || AsksToJoin(s, a)
    requires Swept(c, s, p, a.now)
    requires if a.RegisterMessage? then !Returns(c, s, a) && !Enrols(c, s, a) else !Joins(c, s, a)
    requires t.endpoints == p.endpoints && t.records == p.records
    ensures RecordsFollow(c, s, a, t, id)
  {
    hide TimedOut, LiveIds, ValidEndpointId;
  }

  lemma UnaskedFollows(c: Config, s: State, a: Action, t: State, id: string)
    requires if a.RegisterMessage? then !AsksToRegister(s, a) else a.JoinMessage? && !AsksToJoin(s, a)
    requires t.endpoints == s.endpoints && t.records == s.records
    ensures RecordsFollow(c, s, a, t, id)
  {
    hide TimedOut, LiveIds;
  }

  lemma CreateRecords(s: State, ws: Ws, id: string, token: string, secret: string, rec: Rec)
    requires Slots(s.sockets, s.endpoints, s.records) && ws in s.sockets && rec !in s.records
    ensures OneAdded(s, Create(s, ws, id, token, secret, rec), id, rec,
                     Endpoint(id, token, secret, Some(ws), None, None, None, false))
  {
    hide ValidEndpointId;
  }

  lemma JoinRecords(c: Config, s: State, a: Action, id: string)
    requires Slots(s.sockets, s.endpoints, s.records) && a.JoinMessage? && a.ws in s.sockets
    ensures RecordsFollow(c, s, a, Join(c, s, a.ws, a.now, a.id, a.token, a.lease), id)
  {
    hide Slots, Prune, Join, Seat, AsksToJoin, Joins, RecordsFollow, RecordOf, Swept, OneChanged;
    JoinIs(c, s, a);
    SweptBy(c, s, a.now);
    var p := Prune(c, s, a.now);
    if Joins(c, s, a) {
      SeatChanges(p, a.ws, a.id, a.lease);
      JoinFollows(c, s, a, p, Seat(p, a.ws, a.id, a.lease), id);
    } else if AsksToJoin(s, a) {
      RefusalFollows(c, s, a, p, Reject(p, a.ws), id);
    } else {
      UnaskedFollows(c, s, a, Reject(s, a.ws), id);
    }
  }

  lemma RevokeRecords(c: Config, s: State, a: Action, id: string)
    requires Slots(s.sockets, s.endpoints, s.records) && a.RevokeMessage? && a.ws in s.sockets
    ensures RecordsFollow(c, s, a, Revoke(s, a.ws, a.id, a.secret, a.ticket), id)
  {
    if a.id in s.endpoints {
      DistinctFrom(s, a.id);
    }
    hide Slots, ValidEndpointId, Shut, IsOpen;
  }

  lemma ClosedRecords(c: Config, s: State, a: Action, id: string)
    requires Slots(s.sockets, s.endpoints, s.records) && a.CloseEvent? && a.ws in s.sockets
    ensures RecordsFollow(c, s, a, Closed(s, a.ws, a.now), id)
  {
    if id in s.endpoints {
      ClosedRecord(s, a.ws, a.now, id);
    }
    hide Slots, RecordAt, Closed, ValidEndpointId;
    ClosedEndpoints(s, a.ws, a.now);
  }

  lemma ClosedRecord(s: State, ws: Ws, now: int, id: string)
    requires Slots(s.sockets, s.endpoints, s.records) && ws in s.sockets && id in s.endpoints
    ensures var t, e := Closed(s, ws, now), RecordOf(s, id);
      && id in t.endpoints
      && (e.web == Some(ws) ==> RecordOf(t, id) == e.(web := None, lease := None))
      && (e.desktop == Some(ws) && e.web != Some(ws) ==> RecordOf(t, id) == e.(desktop := None, offlineSince := Some(now)))
      && (e.desktop != Some(ws) && e.web != Some(ws) ==> RecordOf(t, id) == e)
  {
    SlotHolds(s, id);
    var of := s.sockets[ws].endpointId;
    if of.Some? && of.value in s.endpoints {
      DistinctFrom(s, of.value);
    }
    hide Slots, ValidEndpointId;
  }

  lemma ResumeRecords(c: Config, s: State, a: Action, id: string)
    requires StrictTotal(c.limits.before) && Inv(c, s) && Enabled(c, s, a) && a.RevokeResumes?
    ensures RecordsFollow(c, s, a, Resume(s, a.ticket), id)
  {
    SlotsOf(c, s);
    ResumeFacts(c, s, a.ticket);
    ResumeChanges(s, a.ticket);
    hide StrictTotal, Inv, Slots, Resume, EndpointOk, RecordsFollow;
    ResumeFollows(c, s, a, Resume(s, a.ticket), id);
  }

  lemma ResumeFollows(c: Config, s: State, a: Action, t: State, id: string)
    requires a.RevokeResumes? && a.ticket in s.pending && a.ticket in s.disk.settled
    requires var p := s.pending[a.ticket];
      if s.disk.settled[a.ticket]
      then t.endpoints == s.endpoints - {p.id} && forall k :: k in s.endpoints && k != p.id ==> RecordOf(t, k) == RecordOf(s, k)
      else p.id in s.endpoints && OneChanged(s, t, p.id, RecordOf(s, p.id).(revoking := false))
    ensures RecordsFollow(c, s, a, t, id)
  {
    hide RecordOf;
  }

  lemma ResumeChanges(s: State, ticket: nat)
    requires Slots(s.sockets, s.endpoints, s.records) && ticket in s.pending && ticket in s.disk.settled
    requires LiveAs(s, s.pending[ticket].id, s.pending[ticket].rec)
    ensures var t, id := Resume(s, ticket), s.pending[ticket].id;
      if s.disk.settled[ticket]
      then t.endpoints == s.endpoints - {id} && forall k :: k in s.endpoints && k != id ==> RecordOf(t, k) == RecordOf(s, k)
      else OneChanged(s, t, id, RecordOf(s, id).(revoking := false))
  {
    var id := s.pending[ticket].id;
    DistinctFrom(s, id);
    SlotHolds(s, id);
    hide Slots, Shut, ValidEndpointId;
  }

  lemma PruneRecords(c: Config, s: State, a: Action, id: string)
    requires Slots(s.sockets, s.endpoints, s.records) && a.Heartbeat?
    ensures RecordsFollow(c, s, a, Prune(c, s, a.now), id)
  {
    PruneIs(c, s, a.now);
    hide Slots, Prune, TimedOut, RecordOf;
  }

  /** So it is at every step of every run. */
  lemma Records(c: Config, states: seq<State>, actions: seq<Action>, n: nat, s: State, a: Action, t: State, id: string)
    requires StrictTotal(c.limits.before) && Does(c, states, actions, n, s, a, t)
    ensures RecordsFollow(c, s, a, t, id)
  {
    Applied(c, states, actions, n, s, a, t);
    SlotsOf(c, s);
    hide StrictTotal, Does, Inv, Slots, Register, Join, Revoke, Resume, Closed, Prune, RecordsFollow, Revocations.Next;
    match a
    case RegisterMessage(_, _, _, _, _, _, _) => RegisterRecords(c, s, a, id);
    case JoinMessage(_, _, _, _, _) => JoinRecords(c, s, a, id);
    case RevokeMessage(_, _, _, _) => RevokeRecords(c, s, a, id);
    case RevokeResumes(_) => ResumeRecords(c, s, a, id);
    case CloseEvent(_, _) => ClosedRecords(c, s, a, id);
    case Heartbeat(_) => PruneRecords(c, s, a, id);
    case _ => OtherRecords(c, s, a, id);
  }

  lemma OtherRecords(c: Config, s: State, a: Action, id: string)
    requires StrictTotal(c.limits.before) && Enabled(c, s, a)
    requires a.Connect? || a.Break? || a.ForwardMessage? || a.BadMessage? || a.Write? || a.Crash?
    ensures RecordsFollow(c, s, a, Next(c, s, a), id)
  {
    hide StrictTotal, Revocations.Next, Forward, Shut;
    if !a.Crash? {
      QuietStep(c, s, a);
    }
  }

  // ---- Sockets ----

  /** The sender still holds its slot of a live record; a web client also its lease. */
  predicate Sends(s: State, a: Action) {
    && a.ForwardMessage? && a.ws in s.sockets && s.sockets[a.ws].endpointId.Some?
    && s.sockets[a.ws].endpointId.value in s.endpoints
    && var k, e := s.sockets[a.ws], RecordOf(s, s.sockets[a.ws].endpointId.value);
    || (k.role == Web && e.web == Some(a.ws) && e.lease == k.leaseId)
    || (k.role == Desktop && e.desktop == Some(a.ws))
  }

  function Peer(s: State, a: Action): Option<Ws>
    requires Sends(s, a)
  {
    var e := RecordOf(s, s.sockets[a.ws].endpointId.value);
    if s.sockets[a.ws].role == Web then e.desktop else e.web
  }

  /** Its message goes to the peer: that is open and not being closed, the type is allowed, and a
      response of the desktop is not for an earlier lease. */
  predicate Passes(s: State, a: Action) {
    && Sends(s, a) && a.supported && Peer(s, a).Some? && Peer(s, a).value in s.sockets
    && s.sockets[Peer(s, a).value].open && !s.sockets[Peer(s, a).value].policyClosing
    && (s.sockets[a.ws].role == Desktop && a.tag.Some? ==>
         a.tag == RecordOf(s, s.sockets[a.ws].endpointId.value).lease)
  }

  /** What a socket becomes. */
  ghost function SocketAfter(c: Config, s: State, a: Action, w: Ws): Socket
    requires w in s.sockets
  {
    var k := s.sockets[w];
    match a
    case Break(ws, closing) => if ws == w then k.(open := false, policyClosing := k.policyClosing || closing) else k
    case CloseEvent(ws, _) => if ws == w then k.(gone := true, open := false) else k
    case RegisterMessage(ws, now, id, _, _, _, _) =>
      if ws == w && (Returns(c, s, a) || Enrols(c, s, a))
      then k.(role := Desktop, endpointId := Some(id), leaseId := None)
      else if ws == w || (AsksToRegister(s, a) && LeftBehind(c, s, w, now)) then Shutting(k)
      else if Returns(c, s, a) && RecordOf(s, id).desktop == Some(w) && k.open then Shutting(k)
      else k
    case JoinMessage(ws, now, id, _, lease) =>
      if ws == w && Joins(c, s, a)
      then k.(role := Web, endpointId := Some(id), leaseId := Some(lease))
      else if ws == w || (AsksToJoin(s, a) && LeftBehind(c, s, w, now)) then Shutting(k)
      else if Joins(c, s, a) && RecordOf(s, id).web == Some(w) && k.open then Shutting(k)
      else k
    case RevokeMessage(ws, _, _, _) =>
      if ws != w then k else if Revokes(s, a) then k.(revokePending := true) else Shutting(k)
    case RevokeResumes(ticket) =>
      if Resumes(s, a, false) && s.pending[ticket].ws == w then Shutting(k.(revokePending := false))
      else if Resumes(s, a, true) && (s.pending[ticket].ws == w || HeldBy(s, w, s.pending[ticket].id)) then Shutting(k)
      else k
    case ForwardMessage(ws, _, _, fits) =>
      if ws == w && !Sends(s, a) then Shutting(k)
      else if Passes(s, a) && !fits && Peer(s, a) == Some(w) then Shutting(k)
      else k
    case BadMessage(ws) => if ws == w then Shutting(k) else k
    case Heartbeat(now) => if LeftBehind(c, s, w, now) then Shutting(k) else k
    case _ => k
  }

  /** A socket comes by a connection, without a role, and goes only with the process. */
  ghost predicate SocketsFollow(c: Config, s: State, a: Action, t: State) {
    if a.Crash? then t.sockets == map[]
    else if a.Connect? then t.sockets == s.sockets[a.ws := Socket(Unknown, None, None, true, false, false, false)]
    else t.sockets.Keys == s.sockets.Keys && forall w :: w in s.sockets ==> t.sockets[w] == SocketAfter(c, s, a, w)
  }

  /** A socket without a role holds no slot, and a desktop no web slot. */
  lemma OnlyWebLeft(c: Config, s: State, w: Ws, now: int)
    requires Slots(s.sockets, s.endpoints, s.records) && LeftBehind(c, s, w, now)
    ensures w in s.sockets && s.sockets[w].role == Web
    ensures forall id :: id in s.endpoints && RecordOf(s, id).web == Some(w) ==> TimedOut(c, s, id, now)
  {
    var id :| TimedOut(c, s, id, now) && RecordOf(s, id).web == Some(w);
    SlotHolds(s, id);
    forall k | k in s.endpoints && RecordOf(s, k).web == Some(w)
      ensures k == id
    {
      SlotHolds(s, k);
    }
  }

  lemma SlotRoles(s: State, id: string)
    requires Slots(s.sockets, s.endpoints, s.records) && id in s.endpoints
    ensures var e := RecordOf(s, id);
      && (e.desktop.Some? ==> e.desktop.value in s.sockets && s.sockets[e.desktop.value].role == Desktop)
      && (e.web.Some? ==> e.web.value in s.sockets && s.sockets[e.web.value].role == Web)
  {
    SlotHolds(s, id);
  }

  lemma RegisterSockets(c: Config, s: State, a: Action, w: Ws)
    requires Slots(s.sockets, s.endpoints, s.records) && a.RegisterMessage? && a.ws in s.sockets && w in s.sockets
    ensures var t := Register(c, s, a.ws, a.now, a.id, a.token, a.secret, a.rec, a.admitted);
      t.sockets.Keys == s.sockets.Keys && t.sockets[w] == SocketAfter(c, s, a, w)
  {
    hide Slots, Prune, Register, Replace, Create, AsksToRegister, Returns, Enrols, LeftBehind, RecordOf, SocketAfter, Shut;
    RegisterIs(c, s, a);
    if Returns(c, s, a) {
      ReturnSockets(c, s, a, w);
    } else if Enrols(c, s, a) {
      EnrolmentSockets(c, s, a, w);
    } else {
      RefusalSockets(c, s, a, w);
    }
  }

  lemma ReturnSockets(c: Config, s: State, a: Action, w: Ws)
    requires Slots(s.sockets, s.endpoints, s.records) && a.RegisterMessage? && a.ws in s.sockets && w in s.sockets
    requires Returns(c, s, a)
    ensures var p := Prune(c, s, a.now);
      a.id in p.endpoints && a.ws in p.sockets && var t := Replace(p, a.ws, a.id);
      t.sockets.Keys == s.sockets.Keys && t.sockets[w] == SocketAfter(c, s, a, w)
  {
    var p := Prune(c, s, a.now);
    PruneIs(c, s, a.now);
    PruneShuts(c, s, a.now, w);
    SlotRoles(s, a.id);
    if LeftBehind(c, s, w, a.now) {
      OnlyWebLeft(c, s, w, a.now);
    }
    ReplaceSockets(p, a.ws, a.id, w);
    hide Slots, Prune, Replace, LeftBehind, TimedOut, RecordOf, LiveIds, ValidEndpointId, Enrols;
  }

  lemma ReplaceSockets(s: State, ws: Ws, id: string, w: Ws)
    requires ws in s.sockets && id in s.endpoints && w in s.sockets
    requires RecordOf(s, id).desktop.Some? ==> RecordOf(s, id).desktop.value in s.sockets
    ensures var t, k := Replace(s, ws, id), s.sockets[w];
      && t.sockets.Keys == s.sockets.Keys
      && t.sockets[w] == if w == ws then k.(role := Desktop, endpointId := Some(id), leaseId := None)
                         else if RecordOf(s, id).desktop == Some(w) && k.open then Shutting(k) else k
  {
    hide RecordOf;
  }

  lemma EnrolmentSockets(c: Config, s: State, a: Action, w: Ws)
    requires Slots(s.sockets, s.endpoints, s.records) && a.RegisterMessage? && a.ws in s.sockets && w in s.sockets
    requires Enrols(c, s, a) && !Returns(c, s, a)
    ensures var p := Prune(c, s, a.now);
      a.ws in p.sockets && var t := Create(p, a.ws, a.id, a.token.value, a.secret.value, a.rec);
      t.sockets.Keys == s.sockets.Keys && t.sockets[w] == SocketAfter(c, s, a, w)
  {
    PruneShuts(c, s, a.now, w);
    PruneShuts(c, s, a.now, a.ws);
    if LeftBehind(c, s, a.ws, a.now) {
      OnlyWebLeft(c, s, a.ws, a.now);
    }
    hide Slots, Prune, LeftBehind, TimedOut, RecordOf, LiveIds, ValidEndpointId, Returns, Live;
  }

  lemma RefusalSockets(c: Config, s: State, a: Action, w: Ws)
    requires Slots(s.sockets, s.endpoints, s.records) && a.RegisterMessage? && a.ws in s.sockets && w in s.sockets
    requires !Enrols(c, s, a) && !Returns(c, s, a)
    ensures var t := Reject(if AsksToRegister(s, a) then Prune(c, s, a.now) else s, a.ws);
      t.sockets.Keys == s.sockets.Keys && t.sockets[w] == SocketAfter(c, s, a, w)
  {
    PruneShuts(c, s, a.now, w);
    hide Slots, Prune, LeftBehind, AsksToRegister, Returns, Enrols;
  }

  lemma JoinSockets(c: Config, s: State, a: Action, w: Ws)
    requires Slots(s.sockets, s.endpoints, s.records) && a.JoinMessage? && a.ws in s.sockets && w in s.sockets
    ensures var t := Join(c, s, a.ws, a.now, a.id, a.token, a.lease);
      t.sockets.Keys == s.sockets.Keys && t.sockets[w] == SocketAfter(c, s, a, w)
  {
    hide Slots, Prune, Join, Seat, AsksToJoin, Joins, LeftBehind, RecordOf, SocketAfter, Shut;
    JoinIs(c, s, a);
    if Joins(c, s, a) {
      SeatedSockets(c, s, a, w);
    } else {
      NotSeatedSockets(c, s, a, w);
    }
  }

  lemma SeatedSockets(c: Config, s: State, a: Action, w: Ws)
    requires Slots(s.sockets, s.endpoints, s.records) && a.JoinMessage? && a.ws in s.sockets && w in s.sockets
    requires Joins(c, s, a)
    ensures var p := Prune(c, s, a.now);
      a.id in p.endpoints && a.ws in p.sockets && var t := Seat(p, a.ws, a.id, a.lease);
      t.sockets.Keys == s.sockets.Keys && t.sockets[w] == SocketAfter(c, s, a, w)
  {
    var p := Prune(c, s, a.now);
    PruneIs(c, s, a.now);
    PruneShuts(c, s, a.now, w);
    SlotRoles(s, a.id);
    if LeftBehind(c, s, w, a.now) {
      OnlyWebLeft(c, s, w, a.now);
    }
    SeatSockets(p, a.ws, a.id, a.lease, w);
    hide Slots, Prune, Seat, LeftBehind, TimedOut, RecordOf, ValidEndpointId;
  }

  lemma SeatSockets(s: State, ws: Ws, id: string, lease: Lease, w: Ws)
    requires ws in s.sockets && id in s.endpoints && w in s.sockets && RecordOf(s, id).web != Some(ws)
    requires RecordOf(s, id).web.Some? ==> RecordOf(s, id).web.value in s.sockets
    ensures var t, k := Seat(s, ws, id, lease), s.sockets[w];
      && t.sockets.Keys == s.sockets.Keys
      && t.sockets[w] == if w == ws then k.(role := Web, endpointId := Some(id), leaseId := Some(lease))
                         else if RecordOf(s, id).web == Some(w) && k.open then Shutting(k) else k
  {
    hide RecordOf;
  }

  lemma NotSeatedSockets(c: Config, s: State, a: Action, w: Ws)
    requires Slots(s.sockets, s.endpoints, s.records) && a.JoinMessage? && a.ws in s.sockets && w in s.sockets
    requires !Joins(c, s, a)
    ensures var t := Reject(if AsksToJoin(s, a) then Prune(c, s, a.now) else s, a.ws);
      t.sockets.Keys == s.sockets.Keys && t.sockets[w] == SocketAfter(c, s, a, w)
  {
    PruneShuts(c, s, a.now, w);
    hide Slots, Prune, LeftBehind, AsksToJoin, Joins;
  }

  lemma RevokeSockets(c: Config, s: State, a: Action, w: Ws)
    requires a.RevokeMessage? && a.ws in s.sockets && w in s.sockets
    ensures var t := Revoke(s, a.ws, a.id, a.secret, a.ticket);
      t.sockets.Keys == s.sockets.Keys && t.sockets[w] == SocketAfter(c, s, a, w)
  {
    hide ValidEndpointId, RecordOf;
  }

  lemma ResumeSockets(c: Config, s: State, a: Action, w: Ws)
    requires a.RevokeResumes? && a.ticket in s.pending && a.ticket in s.disk.settled && w in s.sockets
    requires var p := s.pending[a.ticket]; LiveAs(s, p.id, p.rec) && p.rec in s.records && s.records[p.rec].id == p.id
    ensures var t := Resume(s, a.ticket);
      t.sockets.Keys == s.sockets.Keys && t.sockets[w] == SocketAfter(c, s, a, w)
  {
    var p, e := s.pending[a.ticket], s.records[s.pending[a.ticket].rec];
    hide Shut;
    ShutIs(s.sockets, e.web, w);
    ShutIs(Shut(s.sockets, e.web), e.desktop, w);
    ShutIs(Shut(Shut(s.sockets, e.web), e.desktop), Some(p.ws), w);
    if p.ws in s.sockets {
      ShutIs(s.sockets[p.ws := s.sockets[p.ws].(revokePending := false)], Some(p.ws), w);
    } else {
      ShutIs(s.sockets, Some(p.ws), w);
    }
  }

  lemma ShutIs(sockets: map<Ws, Socket>, closed: Option<Ws>, w: Ws)
    ensures Shut(sockets, closed).Keys == sockets.Keys
    ensures w in sockets ==> Shut(sockets, closed)[w] == if closed == Some(w) then Shutting(sockets[w]) else sockets[w]
  {
  }

  /** The message as it is passed on: with the lease of the record, and the desktop's tag. */
  function Message(s: State, a: Action): Frame
    requires Passes(s, a)
  {
    var k, id := s.sockets[a.ws], s.sockets[a.ws].endpointId.value;
    var e, peer := RecordOf(s, id), Peer(s, a).value;
    if k.role == Web then Frame(a.ws, peer, a.ws, id, e.lease, None) else Frame(a.ws, peer, peer, id, e.lease, a.tag)
  }

  lemma ForwardMeans(s: State, a: Action)
    requires a.ForwardMessage? && a.ws in s.sockets
    ensures Forward(s, a.ws, a.supported, a.tag, a.fits) ==
      if !Sends(s, a) then Reject(s, a.ws)
      else if !Passes(s, a) then s
      else if !a.fits then Reject(s, Peer(s, a).value)
      else s.(delivered := s.delivered + [Message(s, a)])
  {
    hide RecordOf, Reject;
  }

  lemma ForwardSockets(c: Config, s: State, a: Action, w: Ws)
    requires a.ForwardMessage? && a.ws in s.sockets && w in s.sockets
    ensures var t := Forward(s, a.ws, a.supported, a.tag, a.fits);
      t.sockets.Keys == s.sockets.Keys && t.sockets[w] == SocketAfter(c, s, a, w)
  {
    ForwardMeans(s, a);
    hide RecordOf, Forward, Sends, Passes, Peer, Message;
    assert Passes(s, a) ==> Sends(s, a) by { PassesSends(s, a); }
  }

  lemma PassesSends(s: State, a: Action)
    ensures Passes(s, a) ==> Sends(s, a) && Peer(s, a).Some? && Peer(s, a).value in s.sockets
  {
  }

  lemma OtherSockets(c: Config, s: State, a: Action)
    requires StrictTotal(c.limits.before) && Enabled(c, s, a)
    requires a.Connect? || a.Break? || a.CloseEvent? || a.BadMessage? || a.Write? || a.Crash?
    ensures SocketsFollow(c, s, a, Next(c, s, a))
  {
    hide StrictTotal, Revocations.Next, Revocations.Enabled, RecordOf;
  }

  lemma SweptSockets(c: Config, s: State, a: Action, w: Ws)
    requires Slots(s.sockets, s.endpoints, s.records) && a.Heartbeat? && w in s.sockets
    ensures var t := Prune(c, s, a.now); t.sockets.Keys == s.sockets.Keys && t.sockets[w] == SocketAfter(c, s, a, w)
  {
    PruneShuts(c, s, a.now, w);
    hide Slots, Prune, LeftBehind;
  }

  lemma SocketFollows(c: Config, s: State, a: Action, w: Ws)
    requires StrictTotal(c.limits.before) && Inv(c, s) && Enabled(c, s, a) && w in s.sockets
    requires a.RegisterMessage? || a.JoinMessage? || a.RevokeMessage? || a.RevokeResumes? || a.ForwardMessage? || a.Heartbeat?
    ensures var t := Next(c, s, a); t.sockets.Keys == s.sockets.Keys && t.sockets[w] == SocketAfter(c, s, a, w)
  {
    hide StrictTotal, Inv, Slots, Register, Join, Revoke, Resume, Forward, Prune, SocketAfter, EndpointOk;
    hide Revocations.Enabled, Revocations.Next;
    SlotsOf(c, s);
    if a.RevokeResumes? {
      ResumeFacts(c, s, a.ticket);
    }
    match a
    case RegisterMessage(_, _, _, _, _, _, _) => RegisterSockets(c, s, a, w);
    case JoinMessage(_, _, _, _, _) => JoinSockets(c, s, a, w);
    case RevokeMessage(_, _, _, _) => RevokeSockets(c, s, a, w);
    case RevokeResumes(_) => ResumeSockets(c, s, a, w);
    case ForwardMessage(_, _, _, _) => ForwardSockets(c, s, a, w);
    case Heartbeat(_) => SweptSockets(c, s, a, w);
  }

  lemma ResumeStays(s: State, ticket: nat)
    requires ticket in s.pending && ticket in s.disk.settled
    ensures Resume(s, ticket).sockets.Keys == s.sockets.Keys
  {
  }

  lemma SocketsStay(c: Config, s: State, a: Action)
    requires StrictTotal(c.limits.before) && Inv(c, s) && Enabled(c, s, a)
    requires a.RegisterMessage? || a.JoinMessage? || a.RevokeMessage? || a.RevokeResumes? || a.ForwardMessage? || a.Heartbeat?
    ensures Next(c, s, a).sockets.Keys == s.sockets.Keys
  {
    if a.Heartbeat? {
      hide StrictTotal, Inv, RecordOf, Expired;
    } else if a.RevokeResumes? {
      hide StrictTotal, Inv;
      ResumeStays(s, a.ticket);
    } else {
      SocketFollows(c, s, a, a.ws);
      hide StrictTotal, Inv, SocketAfter, Next;
    }
  }

  /** So it is at every step of every run. */
  lemma Sockets(c: Config, states: seq<State>, actions: seq<Action>, n: nat, s: State, a: Action, t: State)
    requires StrictTotal(c.limits.before) && Does(c, states, actions, n, s, a, t)
    ensures SocketsFollow(c, s, a, t)
  {
    Applied(c, states, actions, n, s, a, t);
    hide StrictTotal, Does, Inv, Enabled, Next, SocketAfter;
    if a.Connect? || a.Break? || a.CloseEvent? || a.BadMessage? || a.Write? || a.Crash? {
      OtherSockets(c, s, a);
    } else {
      SocketsStay(c, s, a);
      forall w | w in s.sockets
        ensures t.sockets[w] == SocketAfter(c, s, a, w)
      {
        SocketFollows(c, s, a, w);
      }
    }
  }

  // ---- Messages, revocations and the chain of writes ----

  /** Exactly a message that passes and fits is added to what has been delivered; a revocation that
      is taken waits under its ticket and joins the chain, until it resumes. */
  predicate RestFollows(c: Config, s: State, a: Action, t: State) {
    && t.delivered == s.delivered + (if Passes(s, a) && a.fits then [Message(s, a)] else [])
    && t.pending == (
         if Revokes(s, a) then s.pending[a.ticket := Pending(a.ws, s.endpoints[a.id], a.id)]
         else if a.RevokeResumes? then s.pending - {a.ticket}
         else if a.Crash? then map[] else s.pending)
    && (Revokes(s, a) ==> t.disk == s.disk.(queue := s.disk.queue + [Revocations.Op(a.id, a.ticket)]))
    && (a.RevokeResumes? ==> t.disk == s.disk.(settled := s.disk.settled - {a.ticket}))
    && (!Revokes(s, a) && !a.RevokeResumes? && !a.Write? && !a.Crash? ==> t.disk == s.disk)
    && t.issued == (if Joins(c, s, a) then s.issued[a.lease := a.ws] else s.issued)
    && t.seen == (if a.Connect? then s.seen + {a.ws} else s.seen)
  }

  lemma RegisterRest(c: Config, s: State, a: Action)
    requires Slots(s.sockets, s.endpoints, s.records) && a.RegisterMessage? && a.ws in s.sockets
    ensures RestFollows(c, s, a, Register(c, s, a.ws, a.now, a.id, a.token, a.secret, a.rec, a.admitted))
  {
    RegisterSame(c, s, a);
    hide Slots, Register, RecordOf;
  }

  lemma RegisterSame(c: Config, s: State, a: Action)
    requires a.RegisterMessage? && a.ws in s.sockets
    ensures var t := Register(c, s, a.ws, a.now, a.id, a.token, a.secret, a.rec, a.admitted);
      && t.delivered == s.delivered && t.pending == s.pending && t.disk == s.disk
      && t.issued == s.issued && t.seen == s.seen
  {
    RegisterCases(c, s, a.ws, a.now, a.id, a.token, a.secret, a.rec, a.admitted);
    PruneFacts(c, s, a.now, a.ws);
    hide Prune, Register, RecordOf, Shut, IsOpen, SameSlot;
  }

  lemma JoinRest(c: Config, s: State, a: Action)
    requires Slots(s.sockets, s.endpoints, s.records) && a.JoinMessage? && a.ws in s.sockets
    ensures RestFollows(c, s, a, Join(c, s, a.ws, a.now, a.id, a.token, a.lease))
  {
    JoinIs(c, s, a);
    PruneFacts(c, s, a.now, a.ws);
    hide Slots, Prune, Join, RecordOf, Shut, IsOpen, Joins, SameSlot;
    assert Joins(c, s, a) ==> a.JoinMessage?;
  }

  lemma RevokeRest(c: Config, s: State, a: Action)
    requires a.RevokeMessage? && a.ws in s.sockets
    ensures RestFollows(c, s, a, Revoke(s, a.ws, a.id, a.secret, a.ticket))
  {
    hide RecordOf, Shut, ValidEndpointId;
  }

  lemma ForwardRest(c: Config, s: State, a: Action)
    requires a.ForwardMessage? && a.ws in s.sockets
    ensures RestFollows(c, s, a, Forward(s, a.ws, a.supported, a.tag, a.fits))
  {
    ForwardMeans(s, a);
    PassesSends(s, a);
    hide Forward, Passes, Sends, Peer, Message, Shut;
  }

  lemma ResumeRest(c: Config, s: State, a: Action)
    requires a.RevokeResumes? && a.ticket in s.pending && a.ticket in s.disk.settled
    ensures RestFollows(c, s, a, Resume(s, a.ticket))
  {
    ResumeSame(s, a.ticket);
    hide Resume, RecordAt;
  }

  lemma ResumeSame(s: State, ticket: nat)
    requires ticket in s.pending && ticket in s.disk.settled
    ensures var t := Resume(s, ticket);
      && t.delivered == s.delivered && t.pending == s.pending - {ticket} && t.issued == s.issued && t.seen == s.seen
      && t.disk == s.disk.(settled := s.disk.settled - {ticket})
  {
    hide Shut;
  }

  lemma OtherRest(c: Config, s: State, a: Action)
    requires StrictTotal(c.limits.before) && Enabled(c, s, a)
    requires !a.RegisterMessage? && !a.JoinMessage? && !a.RevokeMessage? && !a.ForwardMessage? && !a.RevokeResumes?
    ensures RestFollows(c, s, a, Next(c, s, a))
  {
    hide StrictTotal, Revocations.Next, Revocations.Enabled, RecordAt, Shut, ShutSlots, Expired;
  }

  /** So it is at every step of every run; a write step is one of the chain, and a crash its end. */
  lemma Rest(c: Config, states: seq<State>, actions: seq<Action>, n: nat, s: State, a: Action, t: State)
    requires StrictTotal(c.limits.before) && Does(c, states, actions, n, s, a, t)
    ensures RestFollows(c, s, a, t)
    ensures Enabled(c, s, a)
    ensures a.Write? ==> t.disk == Revocations.Next(c.limits, s.disk, a.step)
    ensures a.Crash? ==> t.disk == Revocations.Next(c.limits, s.disk, Revocations.Crash)
  {
    Applied(c, states, actions, n, s, a, t);
    SlotsOf(c, s);
    hide StrictTotal, Does, Inv, Slots, Register, Join, Revoke, Resume, Forward, RestFollows;
    hide Revocations.Next, Revocations.Enabled;
    match a
    case RegisterMessage(_, _, _, _, _, _, _) => RegisterRest(c, s, a);
    case JoinMessage(_, _, _, _, _) => JoinRest(c, s, a);
    case RevokeMessage(_, _, _, _) => RevokeRest(c, s, a);
    case RevokeResumes(_) => ResumeRest(c, s, a);
    case ForwardMessage(_, _, _, _) => ForwardRest(c, s, a);
    case _ => OtherRest(c, s, a);
  }

  /** Ids have 4 to 128 characters, each a letter, a digit, a low line or a hyphen; no other message
      of a kind that names one is looked at. */
  predicate IsId(id: string) {
    && 4 <= |id| && |id| <= 128
    && forall i :: 0 <= i < |id| ==>
         'a' <= id[i] <= 'z' || 'A' <= id[i] <= 'Z' || '0' <= id[i] <= '9' || id[i] == '_' || id[i] == '-'
  }

  lemma IdsAreValid(c: Config, states: seq<State>, actions: seq<Action>, n: nat, s: State, a: Action, t: State)
    requires StrictTotal(c.limits.before) && Does(c, states, actions, n, s, a, t)
    ensures forall id :: id in s.endpoints ==> IsId(id)
    ensures (a.RegisterMessage? || a.JoinMessage? || a.RevokeMessage?) && !IsId(a.id) ==>
      t.endpoints == s.endpoints && t.records == s.records && t.pending == s.pending
      && a.ws in t.sockets && !t.sockets[a.ws].open
  {
    Applied(c, states, actions, n, s, a, t);
    SlotsOf(c, s);
    hide StrictTotal, Does, Inv, RecordOf, Revocations.Enabled, Revocations.Next;
    assert forall id :: ValidEndpointId(id) <==> IsId(id);
  }

  // ---- Who holds a slot, who revokes ----

  /** A socket comes to hold the desktop slot of a record that was there before only by registering
      with the secret and the token of that record. */
  lemma DesktopNeedsSecret(c: Config, states: seq<State>, actions: seq<Action>, n: nat, s: State, a: Action, t: State,
                           id: string, ws: Ws)
    requires StrictTotal(c.limits.before) && Does(c, states, actions, n, s, a, t)
    requires id in s.endpoints && LiveAs(t, id, s.endpoints[id])
    requires RecordOf(t, id).desktop == Some(ws) && RecordOf(s, id).desktop != Some(ws)
    ensures a.RegisterMessage? && a.ws == ws && a.id == id
    ensures a.secret == Some(RecordOf(s, id).secret) && a.token == Some(RecordOf(s, id).token)
  {
    Records(c, states, actions, n, s, a, t, id);
    Rest(c, states, actions, n, s, a, t);
    hide StrictTotal, Does, RecordOf, LiveIds, ValidEndpointId, RestFollows;
  }

  /** And whoever does so without a role so far, for a valid id that is not revoked and whose record
      does not time out in that step, holds it; the desktop it replaces is closed. */
  lemma SecretRegainsSlot(c: Config, states: seq<State>, actions: seq<Action>, n: nat, s: State, a: Action, t: State)
    requires StrictTotal(c.limits.before) && Does(c, states, actions, n, s, a, t)
    requires a.RegisterMessage? && a.ws in s.sockets && s.sockets[a.ws].role == Unknown
    requires ValidEndpointId(a.id) && a.id !in s.disk.revoked && a.id in s.endpoints
    requires var e := RecordOf(s, a.id);
      && a.secret == Some(e.secret) && a.token == Some(e.token)
      && (e.revoking || e.offlineSince.None? || a.now - e.offlineSince.value < c.ttl)
    ensures var e := RecordOf(s, a.id);
      && LiveAs(t, a.id, s.endpoints[a.id])
      && RecordOf(t, a.id) == e.(desktop := Some(a.ws), offlineSince := None)
      && a.ws in t.sockets && t.sockets[a.ws] == s.sockets[a.ws].(role := Desktop, endpointId := Some(a.id), leaseId := None)
      && (e.desktop.Some? && e.desktop.value in t.sockets && e.desktop != Some(a.ws) ==> !t.sockets[e.desktop.value].open)
  {
    Records(c, states, actions, n, s, a, t, a.id);
    Sockets(c, states, actions, n, s, a, t);
    hide StrictTotal, Does, RecordOf, LiveIds, ValidEndpointId;
  }

  /** With any other pair it is closed, and the record stays as it was. */
  lemma WrongPairIsShut(c: Config, states: seq<State>, actions: seq<Action>, n: nat, s: State, a: Action, t: State)
    requires StrictTotal(c.limits.before) && Does(c, states, actions, n, s, a, t)
    requires a.RegisterMessage? && a.ws in s.sockets && a.id in s.endpoints && LiveAs(t, a.id, s.endpoints[a.id])
    requires a.secret != Some(RecordOf(s, a.id).secret) || a.token != Some(RecordOf(s, a.id).token)
    ensures RecordOf(t, a.id) == RecordOf(s, a.id)
    ensures a.ws in t.sockets && !t.sockets[a.ws].open && t.sockets[a.ws].role == s.sockets[a.ws].role
  {
    Records(c, states, actions, n, s, a, t, a.id);
    Sockets(c, states, actions, n, s, a, t);
    Rest(c, states, actions, n, s, a, t);
    hide StrictTotal, Does, RecordOf, LiveIds, ValidEndpointId, RestFollows;
  }

  /** A socket comes to hold a web slot only by joining with the token of the record. */
  lemma WebNeedsToken(c: Config, states: seq<State>, actions: seq<Action>, n: nat, s: State, a: Action, t: State,
                      id: string, ws: Ws)
    requires StrictTotal(c.limits.before) && Does(c, states, actions, n, s, a, t) && id in t.endpoints
    requires RecordOf(t, id).web == Some(ws) && !(LiveAs(s, id, t.endpoints[id]) && RecordOf(s, id).web == Some(ws))
    ensures a.JoinMessage? && a.ws == ws && a.id == id && id in s.endpoints && a.token == Some(RecordOf(s, id).token)
    ensures RecordOf(t, id).lease == Some(a.lease)
  {
    Records(c, states, actions, n, s, a, t, id);
    hide StrictTotal, Does, RecordOf, LiveIds, ValidEndpointId;
  }

  /** And whoever does so without a role so far, for a valid id whose record does not time out in
      that step, holds it, under the lease drawn for it; the client it replaces is closed. */
  lemma TokenTakesSlot(c: Config, states: seq<State>, actions: seq<Action>, n: nat, s: State, a: Action, t: State)
    requires StrictTotal(c.limits.before) && Does(c, states, actions, n, s, a, t)
    requires a.JoinMessage? && a.ws in s.sockets && s.sockets[a.ws].role == Unknown
    requires ValidEndpointId(a.id) && a.id in s.endpoints
    requires var e := RecordOf(s, a.id);
      a.token == Some(e.token) && (e.revoking || e.offlineSince.None? || a.now - e.offlineSince.value < c.ttl)
    ensures var e := RecordOf(s, a.id);
      && LiveAs(t, a.id, s.endpoints[a.id]) && RecordOf(t, a.id) == e.(web := Some(a.ws), lease := Some(a.lease))
      && a.ws in t.sockets && t.sockets[a.ws] == s.sockets[a.ws].(role := Web, endpointId := Some(a.id), leaseId := Some(a.lease))
      && (e.web.Some? && e.web.value in t.sockets && e.web != Some(a.ws) ==> !t.sockets[e.web.value].open)
  {
    Records(c, states, actions, n, s, a, t, a.id);
    Sockets(c, states, actions, n, s, a, t);
    hide StrictTotal, Does, RecordOf, LiveIds, ValidEndpointId;
  }

  /** The message names the secret of the record, or none and comes from a desktop of that id. */
  predicate MayAskToRevoke(s: State, a: Action)
    requires a.RevokeMessage? && a.ws in s.sockets && a.id in s.endpoints
  {
    || a.secret == Some(RecordOf(s, a.id).secret)
    || (a.secret.None? && s.sockets[a.ws].role == Desktop && s.sockets[a.ws].endpointId == Some(a.id))
  }

  /** A revocation begins only so, and with every message of that kind for a valid id that is live
      and not being revoked yet; any other socket that asks is closed. */
  lemma RevocationNeedsSecret(c: Config, states: seq<State>, actions: seq<Action>, n: nat, s: State, a: Action, t: State,
                              id: string)
    requires StrictTotal(c.limits.before) && Does(c, states, actions, n, s, a, t)
    requires id in s.endpoints && LiveAs(t, id, s.endpoints[id]) && !RecordOf(s, id).revoking
    ensures RecordOf(t, id).revoking <==>
      a.RevokeMessage? && a.id == id && a.ws in s.sockets && ValidEndpointId(id) && MayAskToRevoke(s, a)
    ensures RecordOf(t, id).revoking ==>
      t.pending == s.pending[a.ticket := Pending(a.ws, s.endpoints[id], id)]
      && t.disk.queue == s.disk.queue + [Revocations.Op(id, a.ticket)]
    ensures a.RevokeMessage? && a.id == id && a.ws in s.sockets && !RecordOf(t, id).revoking ==>
      a.ws in t.sockets && !t.sockets[a.ws].open && t.pending == s.pending
  {
    Records(c, states, actions, n, s, a, t, id);
    Sockets(c, states, actions, n, s, a, t);
    Rest(c, states, actions, n, s, a, t);
    hide StrictTotal, Does, RecordOf, LiveIds, ValidEndpointId;
  }

  /** A record keeps its id and its credentials as long as it lives. */
  lemma CredentialsStay(c: Config, states: seq<State>, actions: seq<Action>, n: nat, s: State, a: Action, t: State, id: string)
    requires StrictTotal(c.limits.before) && Does(c, states, actions, n, s, a, t)
    requires id in t.endpoints && LiveAs(s, id, t.endpoints[id])
    ensures var e, f := RecordOf(s, id), RecordOf(t, id); f.id == e.id && f.secret == e.secret && f.token == e.token
  {
    Records(c, states, actions, n, s, a, t, id);
    Applied(c, states, actions, n, s, a, t);
    LiveRecord(c, s, id);
    NewRecord(c, s, a);
    hide StrictTotal, Does, RecordOf, ValidEndpointId, Inv, Enabled, Next, RecordsFollow, EndpointOk;
    KeepsCredentials(c, s, a, t, id);
  }

  lemma KeepsCredentials(c: Config, s: State, a: Action, t: State, id: string)
    requires id in t.endpoints && LiveAs(s, id, t.endpoints[id]) && s.endpoints[id] in s.records
    requires RecordsFollow(c, s, a, t, id) && (Enrols(c, s, a) ==> a.RegisterMessage? && a.rec !in s.records)
    ensures var e, f := RecordOf(s, id), RecordOf(t, id); f.id == e.id && f.secret == e.secret && f.token == e.token
  {
    hide RecordOf, Enrols, Returns, Joins, Revokes, Goes;
  }

  lemma NewRecord(c: Config, s: State, a: Action)
    requires Enabled(c, s, a)
    ensures a.RegisterMessage? ==> a.rec !in s.records
    ensures Enrols(c, s, a) ==> a.RegisterMessage?
  {
    hide Revocations.Enabled, LiveIds;
  }

  /** In every run the desktop of a live record registered with its secret and its token, under its
      id, and has held the slot of that record since. */
  lemma {:induction false} DesktopOrigin(c: Config, states: seq<State>, actions: seq<Action>, n: nat, id: string, ws: Ws)
    returns (i: nat)
    requires StrictTotal(c.limits.before) && IsRun(c, states, actions) && n < |states|
    requires id in states[n].endpoints && RecordOf(states[n], id).desktop == Some(ws)
    ensures i < n && actions[i].RegisterMessage? && actions[i].ws == ws && actions[i].id == id
    ensures actions[i].secret == Some(RecordOf(states[n], id).secret) && actions[i].token == Some(RecordOf(states[n], id).token)
    ensures forall k :: i < k <= n ==> LiveAs(states[k], id, states[n].endpoints[id]) && RecordOf(states[k], id).desktop == Some(ws)
    decreases n
  {
    assert n > 0;
    var s, a, t := states[n - 1], actions[n - 1], states[n];
    assert Does(c, states, actions, n - 1, s, a, t);
    hide StrictTotal, IsRun, RecordOf, LiveIds, ValidEndpointId;
    Records(c, states, actions, n - 1, s, a, t, id);
    if LiveAs(s, id, t.endpoints[id]) {
      CredentialsStay(c, states, actions, n - 1, s, a, t, id);
    }
    if LiveAs(s, id, t.endpoints[id]) && RecordOf(s, id).desktop == Some(ws) {
      i := DesktopOrigin(c, states, actions, n - 1, id, ws);
    } else {
      i := n - 1;
    }
  }
}
