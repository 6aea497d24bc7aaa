/** `persistRevocation` as a state machine: the promise chain runs one write at a time,
    split where it awaits, and the process may die and restart between any two steps. */
module Revocations {
  import opened Orders
  import opened RelayState

  /** One call waiting in the chain; the ticket is the promise its caller awaits. */
  datatype Op = Op(id: string, ticket: nat)

  datatype File = Missing | Present(doc: Document)

  /** The write of the head of the chain: the snapshot it writes and the date it adds. */
  datatype Phase = Idle | Writing(next: Revoked, at: int) | Renamed(next: Revoked, at: int)

  /** `settled` holds promises whose caller has not resumed yet. `fulfilled` is history:
      the ids, with their dates, whose promise was ever fulfilled. */
  datatype Disk = Disk(
    file: File,
    up: bool,
    revoked: Revoked,
    queue: seq<Op>,
    phase: Phase,
    settled: map<nat, bool>,
    fulfilled: Revoked)

  datatype Action =
    | Submit(id: string, ticket: nat)
    | Begin(at: int)
    | FailBeforeRename
    | Rename
    | FailAfterRename
    | Commit
    | Resume(ticket: nat)
    | Crash
    | Boot

  function MapIn(f: File): Revoked {
    if f.Present? then MapOf(f.doc.entries) else map[]
  }

  ghost predicate Loadable(l: Limits, f: File) {
    f.Present? ==> Readable(l, f.doc)
  }

  ghost predicate Enabled(l: Limits, d: Disk, a: Action) {
    match a
    case Submit(id, ticket) => d.up && ValidEndpointId(id)
    case Begin(at) => d.up && d.phase.Idle? && d.queue != []
    case FailBeforeRename => d.up && d.phase.Writing? && d.queue != []
    case Rename => d.up && d.phase.Writing? && d.queue != []
    case FailAfterRename => d.up && d.phase.Renamed? && d.queue != []
    case Commit => d.up && d.phase.Renamed? && d.queue != []
    case Resume(ticket) => d.up && ticket in d.settled
    case Crash => d.up
    case Boot => !d.up && Loadable(l, d.file)
  }

  /** The head of the chain settles and the next call may begin. */
  function Settle(d: Disk, ok: bool): Disk
    requires d.queue != []
  {
    d.(queue := d.queue[1..], phase := Idle, settled := d.settled[d.queue[0].ticket := ok])
  }

  function Fulfil(d: Disk): Disk
    requires d.queue != [] && d.queue[0].id in d.revoked
  {
    Settle(d, true).(fulfilled := d.fulfilled[d.queue[0].id := d.revoked[d.queue[0].id]])
  }

  ghost function BeginWrite(l: Limits, d: Disk, at: int): Disk
    requires StrictTotal(l.before) && d.queue != []
  {
    var id := d.queue[0].id;
    var next := d.revoked[id := Iso(at)];
    if id in d.revoked then Fulfil(d)
    else if |d.revoked| >= l.maxRevoked then Settle(d, false)
    else if l.size(DocumentOf(l, next)) > l.maxBytes then Settle(d, false)
    else d.(phase := Writing(next, at))
  }

  ghost function Next(l: Limits, d: Disk, a: Action): Disk
    requires StrictTotal(l.before) && Enabled(l, d, a)
  {
    match a
    case Submit(id, ticket) => d.(queue := d.queue + [Op(id, ticket)])
    case Begin(at) => BeginWrite(l, d, at)
    case FailBeforeRename => Settle(d, false)
    case Rename => d.(file := Present(DocumentOf(l, d.phase.next)), phase := Renamed(d.phase.next, d.phase.at))
    case FailAfterRename => Settle(d, false)
    case Commit => Fulfil(d.(revoked := d.revoked[d.queue[0].id := Iso(d.phase.at)]))
    case Resume(ticket) => d.(settled := d.settled - {ticket})
    case Crash => d.(up := false, revoked := map[], queue := [], phase := Idle, settled := map[])
    case Boot => d.(up := true, revoked := MapIn(d.file))
  }

  // ---- The invariant ----

  predicate Within(a: Revoked, b: Revoked) {
    forall id :: id in a ==> id in b && b[id] == a[id]
  }

  /** The write under way adds the head of the chain to the map in memory. */
  ghost predicate NextExtends(l: Limits, d: Disk)
    requires StrictTotal(l.before) && !d.phase.Idle?
  {
    && d.queue != [] && d.queue[0].id !in d.revoked
    && d.phase.next == d.revoked[d.queue[0].id := Iso(d.phase.at)]
    && WellFormed(d.phase.next) && |d.phase.next| <= l.maxRevoked
    && l.size(DocumentOf(l, d.phase.next)) <= l.maxBytes
  }

  ghost predicate Inv(l: Limits, d: Disk)
    requires StrictTotal(l.before)
  {
    && WellFormed(d.revoked) && |d.revoked| <= l.maxRevoked
    && (forall op :: op in d.queue ==> ValidEndpointId(op.id))
    && (d.up ==> Loadable(l, d.file) && Within(d.revoked, MapIn(d.file)) && Within(d.fulfilled, d.revoked))
    && (d.phase.Idle? || d.up)
    && (d.fulfilled != map[] ==> Loadable(l, d.file))
    && Within(d.fulfilled, MapIn(d.file))
    && (!d.phase.Idle? ==> NextExtends(l, d))
    && (d.phase.Renamed? ==> d.file == Present(DocumentOf(l, d.phase.next)))
  }

  lemma SettleKeepsInv(l: Limits, d: Disk, ok: bool)
    requires StrictTotal(l.before) && Inv(l, d) && d.queue != []
    ensures Inv(l, Settle(d, ok))
  {
  }

  lemma FulfilKeepsInv(l: Limits, d: Disk)
    requires StrictTotal(l.before) && Inv(l, d) && d.up && d.queue != [] && d.queue[0].id in d.revoked
    ensures Inv(l, Fulfil(d))
  {
  }

  /** Once renamed, the file holds the snapshot, which still contains the map in memory. */
  lemma RenameKeepsInv(l: Limits, d: Disk)
    requires StrictTotal(l.before) && Inv(l, d) && Enabled(l, d, Rename)
    ensures Inv(l, Next(l, d, Rename)) && MapIn(Next(l, d, Rename).file) == d.phase.next
  {
    WrittenReadsBack(l, d);
    WithinSnapshot(l, d);
    hide StrictTotal, WellFormed, Readable, DocumentOf, Within, NextExtends, MapIn;
    StillExtends(l, d, Next(l, d, Rename));
  }

  lemma WrittenReadsBack(l: Limits, d: Disk)
    requires StrictTotal(l.before) && !d.phase.Idle? && NextExtends(l, d)
    ensures var f := Present(DocumentOf(l, d.phase.next));
      Loadable(l, f) && MapIn(f) == d.phase.next
  {
    hide StrictTotal, WellFormed, Readable;
    RoundTrip(l, d.phase.next);
  }

  lemma WithinSnapshot(l: Limits, d: Disk)
    requires StrictTotal(l.before) && !d.phase.Idle? && NextExtends(l, d) && Within(d.fulfilled, d.revoked)
    ensures Within(d.revoked, d.phase.next) && Within(d.fulfilled, d.phase.next)
  {
  }

  lemma StillExtends(l: Limits, d: Disk, e: Disk)
    requires StrictTotal(l.before) && !d.phase.Idle? && !e.phase.Idle? && NextExtends(l, d)
    requires e.queue == d.queue && e.revoked == d.revoked && e.phase.next == d.phase.next && e.phase.at == d.phase.at
    ensures NextExtends(l, e)
  {
  }

  lemma CommitKeepsInv(l: Limits, d: Disk)
    requires StrictTotal(l.before) && Inv(l, d) && Enabled(l, d, Commit)
    ensures Inv(l, Next(l, d, Commit))
  {
    CommittedInv(l, d);
    hide StrictTotal, Inv, DocumentOf;
    var e := d.(revoked := d.phase.next, phase := Idle);
    FulfilKeepsInv(l, e);
    assert Next(l, d, Commit) == Fulfil(e);
  }

  lemma CommittedInv(l: Limits, d: Disk)
    requires StrictTotal(l.before) && Inv(l, d) && Enabled(l, d, Commit)
    ensures d.phase.next == d.revoked[d.queue[0].id := Iso(d.phase.at)]
    ensures Inv(l, d.(revoked := d.phase.next, phase := Idle))
  {
    hide StrictTotal, Readable, ValidEndpointId, DocumentOf;
    RoundTrip(l, d.phase.next);
  }

  lemma BootKeepsInv(l: Limits, d: Disk)
    requires StrictTotal(l.before) && Inv(l, d) && Enabled(l, d, Boot)
    ensures Inv(l, Next(l, d, Boot))
  {
    hide StrictTotal, ValidEndpointId;
    if d.file.Present? {
      LoadedWellFormed(l, d.file.doc);
    }
  }

  lemma LoadedWellFormed(l: Limits, doc: Document)
    requires Readable(l, doc)
    ensures WellFormed(MapOf(doc.entries)) && |MapOf(doc.entries)| <= l.maxRevoked
  {
    hide ValidEndpointId;
    MapOfKeys(doc.entries);
    forall id | id in MapOf(doc.entries)
      ensures ValidEndpointId(id) && MapOf(doc.entries)[id].Iso?
    {
      var i :| 0 <= i < |doc.entries| && doc.entries[i].id == id;
      MapOfEntries(doc.entries, i);
    }
    MapOfSize(doc.entries);
  }

  lemma {:induction false} MapOfSize(es: seq<Entry>)
    ensures |MapOf(es)| <= |es|
    decreases |es|
  {
    if es != [] {
      MapOfSize(es[..|es| - 1]);
    }
  }

  lemma BeginKeepsInv(l: Limits, d: Disk, at: int)
    requires StrictTotal(l.before) && Inv(l, d) && Enabled(l, d, Begin(at))
    ensures Inv(l, Next(l, d, Begin(at)))
  {
    hide StrictTotal, Loadable, WellFormed, NextExtends, Within;
    var id := d.queue[0].id;
    if id in d.revoked {
      FulfilKeepsInv(l, d);
    } else if |d.revoked| >= l.maxRevoked || l.size(DocumentOf(l, d.revoked[id := Iso(at)])) > l.maxBytes {
      SettleKeepsInv(l, d, false);
    } else {
      assert d.queue[0] in d.queue;
      SnapshotExtends(l, d, at);
    }
  }

  lemma SnapshotExtends(l: Limits, d: Disk, at: int)
    requires StrictTotal(l.before) && d.queue != [] && WellFormed(d.revoked) && ValidEndpointId(d.queue[0].id)
    requires d.queue[0].id !in d.revoked && |d.revoked| < l.maxRevoked
    requires l.size(DocumentOf(l, d.revoked[d.queue[0].id := Iso(at)])) <= l.maxBytes
    ensures NextExtends(l, d.(phase := Writing(d.revoked[d.queue[0].id := Iso(at)], at)))
  {
    hide StrictTotal, DocumentOf, ValidEndpointId;
  }

  lemma NextKeepsInv(l: Limits, d: Disk, a: Action)
    requires StrictTotal(l.before) && Inv(l, d) && Enabled(l, d, a)
    ensures Inv(l, Next(l, d, a))
  {
    hide StrictTotal, WellFormed, Loadable, NextExtends;
    match a
    case Submit(id, ticket) => SubmitKeepsInv(l, d, id, ticket);
    case Begin(at) => BeginKeepsInv(l, d, at);
    case FailBeforeRename => HeadWaits(l, d); SettleKeepsInv(l, d, false);
    case FailAfterRename => HeadWaits(l, d); SettleKeepsInv(l, d, false);
    case Rename => RenameKeepsInv(l, d);
    case Commit => CommitKeepsInv(l, d);
    case Boot => BootKeepsInv(l, d);
    case Crash => CrashKeepsInv(l, d);
    case Resume(ticket) => ResumeKeepsInv(l, d, ticket);
  }

  lemma HeadWaits(l: Limits, d: Disk)
    requires StrictTotal(l.before) && Inv(l, d) && !d.phase.Idle?
    ensures d.queue != []
  {
  }

  lemma SubmitKeepsInv(l: Limits, d: Disk, id: string, ticket: nat)
    requires StrictTotal(l.before) && Inv(l, d) && Enabled(l, d, Submit(id, ticket))
    ensures Inv(l, Next(l, d, Submit(id, ticket)))
  {
  }

  lemma CrashKeepsInv(l: Limits, d: Disk)
    requires StrictTotal(l.before) && Inv(l, d) && d.up
    ensures Inv(l, Next(l, d, Crash))
  {
  }

  lemma ResumeKeepsInv(l: Limits, d: Disk, ticket: nat)
    requires StrictTotal(l.before) && Inv(l, d) && Enabled(l, d, Resume(ticket))
    ensures Inv(l, Next(l, d, Resume(ticket)))
  {
  }

  // ---- Runs ----

  /** A process that has not started yet, on whatever file it finds. */
  ghost predicate Fresh(d: Disk) {
    !d.up && d.revoked == map[] && d.queue == [] && d.phase.Idle? && d.settled == map[] && d.fulfilled == map[]
  }

  ghost predicate IsRun(l: Limits, states: seq<Disk>, actions: seq<Action>)
    requires StrictTotal(l.before)
  {
    && |states| == |actions| + 1 && Fresh(states[0])
    && forall i :: 0 <= i < |actions| ==> StepAt(l, states, actions, i)
  }

  ghost predicate StepAt(l: Limits, states: seq<Disk>, actions: seq<Action>, i: nat)
    requires StrictTotal(l.before) && |states| == |actions| + 1 && i < |actions|
  {
    Enabled(l, states[i], actions[i]) && states[i + 1] == Next(l, states[i], actions[i])
  }

  lemma {:induction false} RunKeepsInv(l: Limits, states: seq<Disk>, actions: seq<Action>, n: nat)
    requires StrictTotal(l.before) && IsRun(l, states, actions) && n < |states|
    ensures Inv(l, states[n])
  {
    if n == 0 {
      hide StrictTotal, WellFormed, Readable;
    } else {
      hide StrictTotal, Inv, Enabled, Next;
      RunKeepsInv(l, states, actions, n - 1);
      assert StepAt(l, states, actions, n - 1);
      NextKeepsInv(l, states[n - 1], actions[n - 1]);
    }
  }

  /** The id is in the file, and in memory while the process runs, under one date. */
  predicate Retained(d: Disk, id: string, at: Stamp) {
    && id in MapIn(d.file) && MapIn(d.file)[id] == at
    && (d.up ==> id in d.revoked && d.revoked[id] == at)
  }

  lemma NextRetains(l: Limits, d: Disk, a: Action, id: string, at: Stamp)
    requires StrictTotal(l.before) && Inv(l, d) && Enabled(l, d, a) && Retained(d, id, at)
    ensures Retained(Next(l, d, a), id, at)
  {
    if a.Rename? {
      RenameKeepsInv(l, d);
    }
    if !d.phase.Idle? {
      WritesNew(l, d);
    }
    hide StrictTotal, WellFormed, Loadable, MapIn, DocumentOf, NextExtends;
    match a
    case Begin(_) => BeginKeepsFile(l, d, a);
    case _ =>
  }

  lemma WritesNew(l: Limits, d: Disk)
    requires StrictTotal(l.before) && Inv(l, d) && !d.phase.Idle?
    ensures d.queue != [] && d.queue[0].id !in d.revoked
    ensures d.phase.next == d.revoked[d.queue[0].id := Iso(d.phase.at)]
  {
  }

  lemma BeginKeepsFile(l: Limits, d: Disk, a: Action)
    requires StrictTotal(l.before) && Enabled(l, d, a) && a.Begin?
    ensures var e := Next(l, d, a); e.file == d.file && e.revoked == d.revoked && e.up == d.up
  {
    hide StrictTotal, DocumentOf;
  }

  lemma {:induction false} RetainedForGood(l: Limits, states: seq<Disk>, actions: seq<Action>, n: nat, m: nat,
                                           id: string, at: Stamp)
    requires StrictTotal(l.before) && IsRun(l, states, actions) && n <= m < |states| && Retained(states[n], id, at)
    ensures Retained(states[m], id, at)
    decreases m
  {
    hide StrictTotal, Inv, Enabled, Next, Retained;
    if n < m {
      RetainedForGood(l, states, actions, n, m - 1, id, at);
      RunKeepsInv(l, states, actions, m - 1);
      assert StepAt(l, states, actions, m - 1);
      NextRetains(l, states[m - 1], actions[m - 1], id, at);
    }
  }

  /** A revocation whose promise was ever fulfilled is in the file, under the same date, at
      every later moment: through other writes, failed writes, crashes and restarts. */
  lemma RevocationIsDurable(l: Limits, states: seq<Disk>, actions: seq<Action>, n: nat, m: nat, id: string)
    requires StrictTotal(l.before) && IsRun(l, states, actions) && n <= m < |states|
    requires id in states[n].fulfilled
    ensures id in MapIn(states[m].file) && MapIn(states[m].file)[id] == states[n].fulfilled[id]
    ensures states[m].up ==> id in states[m].revoked
    ensures Loadable(l, states[m].file)
  {
    RunKeepsInv(l, states, actions, n);
    FulfilledRetained(l, states[n], id);
    RetainedForGood(l, states, actions, n, m, id, states[n].fulfilled[id]);
    FulfilledLoadable(l, states, actions, n, m, id);
  }

  lemma FulfilledRetained(l: Limits, d: Disk, id: string)
    requires StrictTotal(l.before) && Inv(l, d) && id in d.fulfilled
    ensures Retained(d, id, d.fulfilled[id])
  {
    hide StrictTotal, WellFormed, Loadable, NextExtends, MapIn;
  }

  lemma {:induction false} FulfilledLoadable(l: Limits, states: seq<Disk>, actions: seq<Action>, n: nat, m: nat, id: string)
    requires StrictTotal(l.before) && IsRun(l, states, actions) && n <= m < |states| && id in states[n].fulfilled
    ensures id in states[m].fulfilled && Loadable(l, states[m].file)
    decreases m
  {
    hide StrictTotal, Enabled, Next, WellFormed, Loadable, NextExtends;
    RunKeepsInv(l, states, actions, m);
    if n < m {
      FulfilledLoadable(l, states, actions, n, m - 1, id);
      assert StepAt(l, states, actions, m - 1);
      FulfilledGrows(l, states[m - 1], actions[m - 1]);
    }
  }

  /** History only grows. */
  lemma FulfilledGrows(l: Limits, d: Disk, a: Action)
    requires StrictTotal(l.before) && Enabled(l, d, a)
    ensures d.fulfilled.Keys <= Next(l, d, a).fulfilled.Keys
  {
    hide StrictTotal, DocumentOf, MapIn, Loadable, ValidEndpointId;
  }

  /** While the process runs, what it treats as revoked is in the file, within the cap. */
  lemma MemoryWithinFile(l: Limits, states: seq<Disk>, actions: seq<Action>, n: nat)
    requires StrictTotal(l.before) && IsRun(l, states, actions) && n < |states| && states[n].up
    ensures Within(states[n].revoked, MapIn(states[n].file)) && |states[n].revoked| <= l.maxRevoked
    ensures Loadable(l, states[n].file)
  {
    RunKeepsInv(l, states, actions, n);
    hide StrictTotal, IsRun, WellFormed, Loadable;
  }

  // ---- When a write begins, and what it comes to ----

  /** A call settles as soon as its turn comes exactly if there is nothing to write or no room:
      well if its id is revoked already, badly if a limit is reached. Otherwise it writes. */
  lemma BeginAnswers(l: Limits, d: Disk, at: int)
    requires StrictTotal(l.before) && Enabled(l, d, Begin(at))
    ensures var e, id := Next(l, d, Begin(at)), d.queue[0].id;
      && e.file == d.file && e.revoked == d.revoked
      && (e.phase.Idle? <==>
           id in d.revoked || |d.revoked| >= l.maxRevoked || l.size(DocumentOf(l, d.revoked[id := Iso(at)])) > l.maxBytes)
      && (e.phase.Idle? ==>
           e.queue == d.queue[1..] && e.settled == d.settled[d.queue[0].ticket := id in d.revoked])
  {
    hide StrictTotal, DocumentOf;
  }

  /** Within the limits a write that meets no failure leaves file and memory the same, with the
      new id under its date and no other change, and settles its ticket well. */
  lemma WriteSucceeds(l: Limits, d: Disk, at: int)
    requires StrictTotal(l.before) && Inv(l, d) && Enabled(l, d, Begin(at))
    requires d.queue[0].id !in d.revoked && |d.revoked| < l.maxRevoked
    requires l.size(DocumentOf(l, d.revoked[d.queue[0].id := Iso(at)])) <= l.maxBytes
    ensures var begun := Next(l, d, Begin(at));
      && Enabled(l, begun, Rename) && var renamed := Next(l, begun, Rename);
      && Enabled(l, renamed, Commit) && var e := Next(l, renamed, Commit);
      && e.revoked == d.revoked[d.queue[0].id := Iso(at)] && MapIn(e.file) == e.revoked
      && e.settled == d.settled[d.queue[0].ticket := true] && e.queue == d.queue[1..] && e.phase.Idle?
      && e.fulfilled == d.fulfilled[d.queue[0].id := Iso(at)]
  {
    BeginKeepsInv(l, d, at);
    RenameKeepsInv(l, Next(l, d, Begin(at)));
    hide StrictTotal, Inv, DocumentOf, MapIn;
  }

  // ---- What becomes of a revocation that failed ----

  /** The head of the chain settles as failed: refused at the start, or by a failing write. */
  ghost predicate Fails(l: Limits, d: Disk, a: Action)
    requires StrictTotal(l.before)
  {
    && Enabled(l, d, a) && (a.Begin? || a.FailBeforeRename? || a.FailAfterRename?)
    && d.queue != [] && Next(l, d, a) == Settle(d, false)
  }

  /** A revocation that failed is in the file exactly if the failure came after the rename, or
      the id was there already; memory never has it. */
  lemma FailedLingersExactly(l: Limits, d: Disk, a: Action)
    requires StrictTotal(l.before) && Inv(l, d) && Fails(l, d, a)
    ensures var e, id := Next(l, d, a), d.queue[0].id;
      && (id in MapIn(e.file) <==> a.FailAfterRename? || id in MapIn(d.file))
      && id !in e.revoked
  {
    if d.phase.Renamed? {
      RoundTrip(l, d.phase.next);
    }
    hide StrictTotal, WellFormed, Loadable, DocumentOf;
    if a.Begin? {
      FailedBegin(l, d, a.at);
    }
  }

  lemma FailedBegin(l: Limits, d: Disk, at: int)
    requires StrictTotal(l.before) && Fails(l, d, Begin(at))
    ensures d.queue[0].id !in d.revoked
  {
    FulfilIsNoFailure(d);
    hide StrictTotal, Fulfil, Settle;
  }

  lemma FulfilIsNoFailure(d: Disk)
    ensures d.queue != [] && d.queue[0].id in d.revoked ==> Fulfil(d) != Settle(d, false)
  {
    if d.queue != [] && d.queue[0].id in d.revoked {
      assert Fulfil(d).settled[d.queue[0].ticket];
      assert !Settle(d, false).settled[d.queue[0].ticket];
    }
  }

  /** The next rename keeps, besides its own id, exactly what memory has: it drops every other
      id that lingered. */
  lemma RenameKeepsExactly(l: Limits, d: Disk, id: string)
    requires StrictTotal(l.before) && Inv(l, d) && Enabled(l, d, Rename)
    ensures id in MapIn(Next(l, d, Rename).file) <==> id in d.revoked || id == d.queue[0].id
  {
    RenameKeepsInv(l, d);
    hide StrictTotal, WellFormed, Loadable, DocumentOf;
  }

  /** No other step changes the file. */
  lemma OnlyRenameWrites(l: Limits, d: Disk, a: Action)
    requires StrictTotal(l.before) && Enabled(l, d, a) && !a.Rename?
    ensures Next(l, d, a).file == d.file
  {
    hide StrictTotal;
  }

  /** A restart adopts exactly what the file has, and then it is revoked for good. */
  lemma RestartAdopts(l: Limits, states: seq<Disk>, actions: seq<Action>, n: nat, m: nat, id: string)
    requires StrictTotal(l.before) && IsRun(l, states, actions) && n < m < |states| && actions[n] == Boot
    ensures id in states[n + 1].revoked <==> id in MapIn(states[n].file)
    ensures id in MapIn(states[n].file) ==> Retained(states[m], id, MapIn(states[n].file)[id])
  {
    assert StepAt(l, states, actions, n);
    hide StrictTotal, Inv, MapIn;
    if id in MapIn(states[n].file) {
      RetainedForGood(l, states, actions, n + 1, m, id, MapIn(states[n].file)[id]);
    }
  }

  /** So a revocation reported as failed can take effect: a write that fails after its rename, a
      crash and a start, all of which can happen, leave it revoked. */
  lemma FailedMayTakeEffect(l: Limits, d: Disk)
    requires StrictTotal(l.before) && Inv(l, d) && Enabled(l, d, FailAfterRename)
    ensures var failed, id := Next(l, d, FailAfterRename), d.queue[0].id;
      && Fails(l, d, FailAfterRename) && Enabled(l, failed, Crash)
      && var crashed := Next(l, failed, Crash);
      && Enabled(l, crashed, Boot) && id in Next(l, crashed, Boot).revoked
  {
    hide StrictTotal, Inv, Loadable, MapIn, BeginWrite;
    RenamedFile(l, d);
    var failed := Next(l, d, FailAfterRename);
    assert failed.file == d.file && failed.up;
    var crashed := Next(l, failed, Crash);
    assert crashed.file == d.file && !crashed.up;
  }

  lemma RenamedFile(l: Limits, d: Disk)
    requires StrictTotal(l.before) && Inv(l, d) && d.phase.Renamed?
    ensures d.queue != [] && Loadable(l, d.file) && d.queue[0].id in MapIn(d.file)
  {
    RoundTrip(l, d.phase.next);
    hide StrictTotal, WellFormed, DocumentOf, Readable;
  }
}
