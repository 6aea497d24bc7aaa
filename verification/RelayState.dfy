/** The relay's durable list of revoked endpoints: its file, the queue of writes,
    and what crashes and failed writes can do to either. */
module RelayState {
  import opened Orders

  /** A stored `revoked_at`: a parseable date, or text that is not one. */
  datatype Stamp = Iso(ms: int) | Junk(text: string)

  datatype Entry = Entry(id: string, at: Stamp)

  /** The parsed JSON document in the state file. */
  datatype Document = Document(version: int, entries: seq<Entry>)

  datatype Result<+T> = Ok(value: T) | Err(error: string)

  /** The limits read from the environment, the byte length of a document, and the
      order `localeCompare` puts endpoint ids in. */
  datatype Limits = Limits(maxRevoked: nat, maxBytes: nat, size: Document -> nat, before: (string, string) -> bool)

  const VERSION := 1

  predicate IdChar(c: char) {
    ('A' <= c <= 'Z') || ('a' <= c <= 'z') || ('0' <= c <= '9') || c == '_' || c == '-'
  }

  predicate ValidEndpointId(id: string) {
    4 <= |id| <= 128 && forall i :: 0 <= i < |id| ==> IdChar(id[i])
  }

  type Revoked = map<string, Stamp>

  ghost predicate WellFormed(m: Revoked) {
    forall id :: id in m ==> ValidEndpointId(id) && m[id].Iso?
  }

  // ---- Writing and reading the document ----

  ghost function EntriesOf(l: Limits, m: Revoked): (es: seq<Entry>)
    requires StrictTotal(l.before)
    ensures |es| == |m|
  {
    var ids := SortOf(l.before, m.Keys);
    assert forall id :: id in ids <==> id in Elements(ids);
    seq(|ids|, i requires 0 <= i < |ids| => Entry(ids[i], m[ids[i]]))
  }

  ghost function DocumentOf(l: Limits, m: Revoked): Document
    requires StrictTotal(l.before)
  {
    Document(VERSION, EntriesOf(l, m))
  }

  /** Version 1, with every id once under its date, in the order of the comparison. */
  ghost predicate Lists(l: Limits, m: Revoked, d: Document) {
    && d.version == 1 && |d.entries| == |m|
    && (forall i :: 0 <= i < |d.entries| ==> d.entries[i].id in m && d.entries[i].at == m[d.entries[i].id])
    && (forall id :: id in m ==> exists i :: 0 <= i < |d.entries| && d.entries[i].id == id)
    && (forall i, j :: 0 <= i < j < |d.entries| ==> l.before(d.entries[i].id, d.entries[j].id))
  }

  lemma DocumentLists(l: Limits, m: Revoked)
    requires StrictTotal(l.before)
    ensures Lists(l, m, DocumentOf(l, m))
  {
    hide StrictTotal;
    var ids := SortOf(l.before, m.Keys);
    forall id | id in m
      ensures exists i :: 0 <= i < |DocumentOf(l, m).entries| && DocumentOf(l, m).entries[i].id == id
    {
      assert id in Elements(ids);
      var i :| 0 <= i < |ids| && ids[i] == id;
      assert DocumentOf(l, m).entries[i].id == id;
    }
  }

  method RelayStateContents(l: Limits, m: Revoked) returns (r: Result<Document>)
    requires StrictTotal(l.before)
    ensures r == if l.size(DocumentOf(l, m)) > l.maxBytes then Err("relay state exceeds MAX_RELAY_STATE_BYTES")
                 else Ok(DocumentOf(l, m))
    ensures r.Ok? ==> Lists(l, m, r.value)
  {
    hide StrictTotal, Sorted, Lists;
    DocumentLists(l, m);
    var ids := SortSet(l.before, m.Keys);
    assert forall id :: id in ids <==> id in Elements(ids);
    var entries := [];
    var i := 0;
    while i < |ids|
      invariant 0 <= i <= |ids| == |m|
      invariant entries == EntriesOf(l, m)[..i]
    {
      entries := entries + [Entry(ids[i], m[ids[i]])];
      i := i + 1;
    }
    assert entries == EntriesOf(l, m);
    var contents := Document(VERSION, entries);
    if l.size(contents) > l.maxBytes {
      return Err("relay state exceeds MAX_RELAY_STATE_BYTES");
    }
    return Ok(contents);
  }

  /** Every entry is well formed and no id comes twice. */
  ghost predicate EntriesReadable(es: seq<Entry>) {
    && (forall i :: 0 <= i < |es| ==> ValidEndpointId(es[i].id) && es[i].at.Iso?)
    && (forall i, j :: 0 <= i < j < |es| ==> es[i].id != es[j].id)
  }

  ghost predicate Readable(l: Limits, d: Document) {
    l.size(d) <= l.maxBytes && d.version == VERSION && |d.entries| <= l.maxRevoked && EntriesReadable(d.entries)
  }

  function MapOf(es: seq<Entry>): Revoked {
    if es == [] then map[] else MapOf(es[..|es| - 1])[es[|es| - 1].id := es[|es| - 1].at]
  }

  lemma {:induction false} MapOfKeys(es: seq<Entry>)
    ensures forall id :: id in MapOf(es) <==> exists i :: 0 <= i < |es| && es[i].id == id
    decreases |es|
  {
    if es != [] {
      var front := es[..|es| - 1];
      MapOfKeys(front);
      forall id
        ensures id in MapOf(es) <==> exists i :: 0 <= i < |es| && es[i].id == id
      {
        if i :| 0 <= i < |front| && front[i].id == id {
          assert es[i].id == id;
        }
        if i :| 0 <= i < |es| && es[i].id == id {
          assert i < |front| ==> front[i].id == id;
        }
      }
    }
  }

  /** What is found at the path of the state file: nothing, something that is no regular file
      or cannot be read, text that is no JSON object of the right shape, or a document. */
  datatype Stored = NoFile | NotRegular | Unreadable | Malformed(bytes: nat) | Parsed(doc: Document)

  function BytesOf(l: Limits, stored: Stored): nat {
    match stored
    case Malformed(bytes) => bytes
    case Parsed(doc) => l.size(doc)
    case _ => 0
  }

  /** `loadRelayState`: no file is an empty list; whatever else is not readable stops the start. */
  method LoadRelayState(l: Limits, stored: Stored) returns (r: Result<Revoked>)
    ensures r.Ok? <==> stored.NoFile? || (stored.Parsed? && Readable(l, stored.doc))
    ensures r.Ok? ==> r.value == if stored.Parsed? then MapOf(stored.doc.entries) else map[]
  {
    if stored.NoFile? {
      return Ok(map[]);
    }
    if stored.NotRegular? {
      return Err("relay state path is not a regular file");
    }
    if stored.Unreadable? {
      return Err("failed to load relay state");
    }
    if BytesOf(l, stored) > l.maxBytes {
      return Err("relay state exceeds MAX_RELAY_STATE_BYTES");
    }
    if stored.Malformed? || stored.doc.version != VERSION || |stored.doc.entries| > l.maxRevoked {
      return Err("unsupported or malformed state");
    }
    r := ReadEntries(stored.doc.entries);
  }

  method ReadEntries(entries: seq<Entry>) returns (r: Result<Revoked>)
    ensures r.Ok? <==> EntriesReadable(entries)
    ensures r.Ok? ==> r.value == MapOf(entries)
  {
    var revoked: Revoked := map[];
    var i := 0;
    while i < |entries|
      invariant 0 <= i <= |entries|
      invariant EntriesReadable(entries[..i]) && revoked == MapOf(entries[..i])
    {
      var entry := entries[i];
      MapOfKeys(entries[..i]);
      if !ValidEndpointId(entry.id) || !entry.at.Iso? || entry.id in revoked {
        RefusedEntry(entries, i);
        return Err("malformed revoked endpoint");
      }
      assert entries[..i + 1][..i] == entries[..i];
      revoked := revoked[entry.id := entry.at];
      i := i + 1;
    }
    assert entries[..i] == entries;
    return Ok(revoked);
  }

  lemma RefusedEntry(es: seq<Entry>, i: nat)
    requires i < |es|
    requires !ValidEndpointId(es[i].id) || !es[i].at.Iso? || es[i].id in MapOf(es[..i])
    ensures !EntriesReadable(es)
  {
    MapOfKeys(es[..i]);
    if es[i].id in MapOf(es[..i]) {
      var j :| 0 <= j < i && es[..i][j].id == es[i].id;
      assert es[j].id == es[i].id;
    }
  }

  /** The map a readable document stands for holds exactly its entries. */
  lemma {:induction false} MapOfEntries(es: seq<Entry>, i: nat)
    requires EntriesReadable(es) && i < |es|
    ensures es[i].id in MapOf(es) && MapOf(es)[es[i].id] == es[i].at
    decreases |es|
  {
    if i < |es| - 1 {
      MapOfEntries(es[..|es| - 1], i);
    }
  }

  lemma EntryAt(l: Limits, m: Revoked, i: nat)
    requires StrictTotal(l.before) && i < |m|
    ensures EntriesOf(l, m)[i].id in m && EntriesOf(l, m)[i].at == m[EntriesOf(l, m)[i].id]
    ensures forall j :: i < j < |m| ==> EntriesOf(l, m)[i].id != EntriesOf(l, m)[j].id
  {
  }

  lemma EntryFor(l: Limits, m: Revoked, id: string) returns (i: nat)
    requires StrictTotal(l.before) && id in m
    ensures i < |m| && EntriesOf(l, m)[i] == Entry(id, m[id])
  {
    var ids := SortOf(l.before, m.Keys);
    assert id in Elements(ids);
    i :| 0 <= i < |ids| && ids[i] == id;
  }

  lemma WrittenReadable(l: Limits, m: Revoked)
    requires StrictTotal(l.before) && WellFormed(m)
    ensures EntriesReadable(EntriesOf(l, m))
  {
  }

  /** Whatever was written under the cap reads back as the same map. */
  lemma RoundTrip(l: Limits, m: Revoked)
    requires StrictTotal(l.before) && WellFormed(m) && |m| <= l.maxRevoked
    requires l.size(DocumentOf(l, m)) <= l.maxBytes
    ensures Readable(l, DocumentOf(l, m)) && MapOf(DocumentOf(l, m).entries) == m
  {
    hide StrictTotal, EntriesOf, EntriesReadable;
    var es := EntriesOf(l, m);
    WrittenReadable(l, m);
    MapOfKeys(es);
    forall id | id in m
      ensures id in MapOf(es) && MapOf(es)[id] == m[id]
    {
      var i := EntryFor(l, m, id);
      MapOfEntries(es, i);
    }
    forall id | id in MapOf(es)
      ensures id in m
    {
      var i :| 0 <= i < |es| && es[i].id == id;
      EntryAt(l, m, i);
    }
  }
}
