/** What a client of the protocol can observe, over every fine-grained run. */
module Reads {
  import opened Base
  import opened Chunking
  import opened Tables
  import opened Protocol
  import opened Safety

  ghost function VisibleOf(files: map<Filename, FileRow>, current: map<Filename, int>,
      sessions: seq<Session>): map<Filename, Bytes> {
    map fn | fn in files && files[fn].status == Committed && fn in current && 0 <= current[fn] < |sessions|
      :: sessions[current[fn]].data
  }

  /** The files of the system as a reader sees them: committed names and the bytes written to them. */
  ghost function Visible(s: State): map<Filename, Bytes> {
    VisibleOf(s.db.files, s.current, s.sessions)
  }

  ghost predicate Complete(x: Reader) {
    forall i :: 0 <= i < |x.ids| ==> x.ids[i] in x.parts
  }

  /** The fetched parts joined in index order. */
  function Assemble(x: Reader): Bytes
    requires forall i :: 0 <= i < |x.ids| ==> x.ids[i] in x.parts
  {
    Concat(seq(|x.ids|, i requires 0 <= i < |x.ids| => x.parts[x.ids[i]]))
  }

  /** A read that has all its parts holds the bytes of exactly one create session of its name,
      whatever overwrites, deletes, heals and other writers did meanwhile. */
  lemma WholeFile(s: State, k: int)
    requires Inv(s) && k in s.readers && Complete(s.readers[k])
    ensures var x := s.readers[k];
      0 <= x.session < |s.sessions| && s.sessions[x.session].filename == x.filename &&
      Assemble(x) == s.sessions[x.session].data
  {
    var x := s.readers[k];
    var w := s.sessions[x.session];
    assert ReaderOk(x, s.sessions, s.content) && SessionOk(x.session, w, s.origin, s.content);
    var parts := seq(|x.ids|, i requires 0 <= i < |x.ids| => x.parts[x.ids[i]]);
    forall i | 0 <= i < |parts| ensures parts[i] == w.pieces[i] {
      assert parts[i] == s.content[w.ids[i]];
    }
    assert parts == w.pieces;
  }

  /** The bytes are those of one create session of the name. */
  ghost predicate WrittenAs(s: State, fn: Filename, data: Bytes) {
    exists w :: 0 <= w < |s.sessions| && s.sessions[w].filename == fn && s.sessions[w].data == data
  }

  lemma ReadsAreWhole(r: int, es: seq<Event>, s: State, k: int)
    requires Reachable(r, es, s) && k in s.readers && Complete(s.readers[k])
    ensures WrittenAs(s, s.readers[k].filename, Assemble(s.readers[k]))
  {
    ReachableInv(r, es, s);
    WholeFile(s, k);
  }

  // ---- a read answers with the value its name had when the read took its snapshot ----

  predicate Restarts(e: Event, k: int) {
    e.ByRead? && e.q.ReadStart? && e.q.reader == k
  }

  ghost predicate NotRestarted(k: int, es: seq<Event>) {
    forall i :: 0 <= i < |es| ==> !Restarts(es[i], k)
  }

  /** Reader `k` goes on with the session it started with. */
  ghost predicate SameReader(s: State, t: State, k: int) {
    && k in s.readers && k in t.readers && s.sessions <= t.sessions
    && t.readers[k].session == s.readers[k].session && t.readers[k].filename == s.readers[k].filename
  }

  lemma ClientReader(s: State, c: ClientStep, k: int)
    requires ClientEnabled(s, c) && k in s.readers
    ensures SameReader(s, ClientApply(s, c), k)
  {
    hide CreatePending, SplitChunks, DeleteMsgs, RowPairs, Pair, Mark, Layout, ReplicaRows;
    if !c.CreateFile? { ClientFrame(s, c); }
  }

  lemma ReadReader(s: State, q: ReadStep, k: int)
    requires ReadEnabled(s, q) && k in s.readers && !Restarts(ByRead(q), k)
    ensures SameReader(s, ReadApply(s, q), k)
  {
    hide IsSnapshot;
  }

  lemma StepReader(s: State, e: Event, k: int)
    requires Enabled(s, e) && k in s.readers && !Restarts(e, k)
    ensures SameReader(s, Apply(s, e), k)
  {
    hide ClientApply, DiskApply, DeleteApply, HealApply, ReadApply, ClientEnabled, DiskEnabled, DeleteEnabled;
    hide HealEnabled;
    hide ReadEnabled;
    match e
    case ByClient(c) => ClientReader(s, c, k);
    case ByDisk(v) => DiskFrame(s, v);
    case ByDelete(d) => DeleteFrame(s, d);
    case ByHeal(h) => HealFrame(s, h);
    case ByRead(q) => ReadReader(s, q, k);
    case NamingCrash =>
  }

  lemma {:induction false} ReaderStable(s: State, es: seq<Event>, k: int)
    requires Run(s, es) && k in s.readers && NotRestarted(k, es)
    ensures k in After(s, es).readers && s.sessions <= After(s, es).sessions
    ensures After(s, es).readers[k].session == s.readers[k].session
    ensures After(s, es).readers[k].filename == s.readers[k].filename
    decreases |es|
  {
    if es != [] {
      StepReader(s, es[0], k);
      assert NotRestarted(k, es[1..]) by {
        forall i | 0 <= i < |es[1..]| ensures !Restarts(es[1..][i], k) { assert es[1..][i] == es[i + 1]; }
      }
      ReaderStable(Apply(s, es[0]), es[1..], k);
    }
  }

  /** Linearisation: the complete read returns what the name held at its GetFile step. */
  lemma ReadReturnsSnapshotValue(s: State, k: int, fn: Filename, ids: seq<ChunkId>, es: seq<Event>)
    requires Inv(s) && ReadEnabled(s, ReadStart(k, fn, ids))
    requires Run(ReadApply(s, ReadStart(k, fn, ids)), es) && NotRestarted(k, es)
    ensures var t := After(ReadApply(s, ReadStart(k, fn, ids)), es);
      fn in Visible(s) && k in t.readers && (Complete(t.readers[k]) ==> Assemble(t.readers[k]) == Visible(s)[fn])
  {
    var s1 := ReadApply(s, ReadStart(k, fn, ids));
    ReadKeeps(s, ReadStart(k, fn, ids));
    RunKeeps(s1, es);
    ReaderStable(s1, es, k);
    if Complete(After(s1, es).readers[k]) {
      WholeFile(After(s1, es), k);
    }
  }

  /** `GetFileSize` answers from the file row with the length of those same bytes. */
  lemma SizeAgreesWithContent(r: int, es: seq<Event>, s: State, fn: Filename)
    requires Reachable(r, es, s) && fn in Visible(s)
    ensures s.db.files[fn].size == |Visible(s)[fn]|
    ensures s.db.files[fn].numChunks == NumChunksForSize(|Visible(s)[fn]|)
  {
    hide Reachable;
    ReachableInv(r, es, s);
    var w := s.sessions[s.current[fn]];
    assert FileOk(s.db, fn, w) && SessionOk(s.current[fn], w, s.origin, s.content);
    SplitCount(w.data);
  }

  // ---- metadata-first deletion ----

  lemma StepGone(s: State, e: Event, id: ChunkId)
    requires Inv(s) && Enabled(s, e) && Gone(id, s.db.chunks, s.content)
    ensures Gone(id, Apply(s, e).db.chunks, Apply(s, e).content)
  {
    hide DiskApply, HealApply, ReadApply, AfterCreate, CreatePending, SplitChunks, Layout, SessionsOk, FilesOk, DiskOk;
    hide PayloadsOk, LateDeletesOk, DeletersOk, ReadersOk, HealEnabled, DiskEnabled, ReadEnabled, PlacementOk;
    match e
    case ByClient(c) =>
      if c.CreateFile? {
        CreateDb(s, c.filename, c.data, c.ids, c.locs, c.now);
        CreateSessions(s, c.filename, c.data, c.ids, c.locs, c.now);
      } else {
        ClientFrame(s, c);
      }
    case ByDisk(v) => DiskFrame(s, v);
    case ByDelete(d) => DeleteFrame(s, d);
    case ByHeal(h) => HealFrame(s, h);
    case ByRead(q) => ReadFrame(s, q);
    case NamingCrash =>
  }

  lemma {:induction false} GoneForever(s: State, es: seq<Event>, id: ChunkId)
    requires Inv(s) && Run(s, es) && Gone(id, s.db.chunks, s.content)
    ensures Gone(id, After(s, es).db.chunks, After(s, es).content)
    decreases |es|
  {
    if es != [] {
      StepGone(s, es[0], id);
      StepKeeps(s, es[0]);
      GoneForever(Apply(s, es[0]), es[1..], id);
    }
  }

  /** Whenever DeleteFile or the pending cleanup is about to send DeleteChunk, the id has left the
      metadata, even if the name was overwritten between the handler's two statements. */
  lemma MetadataFirst(r: int, es: seq<Event>, s: State, h: int, id: ChunkId, a: Address)
    requires Reachable(r, es, s) && DeleteEnabled(s, SendDelete(h, id, a))
    ensures Gone(id, s.db.chunks, s.content)
  {
    ReachableInv(r, es, s);
    assert DeleterOk(s.deleters[h], s.db.chunks, s.content);
  }

  /** And it never returns, whatever happens afterwards. */
  lemma NeverBack(r: int, es: seq<Event>, s: State, id: ChunkId, later: seq<Event>, t: State)
    requires Reachable(r, es, s) && Gone(id, s.db.chunks, s.content) && Run(s, later) && t == After(s, later)
    ensures id !in t.db.chunks
  {
    hide Reachable, Inv;
    ReachableInv(r, es, s);
    GoneForever(s, later, id);
  }

  // ---- the two SELECTs of get_file ----

  ghost predicate OfSession(t: State, fn: Filename, ids: seq<ChunkId>) {
    exists w :: 0 <= w < |t.sessions| && t.sessions[w].filename == fn && t.sessions[w].ids == ids
  }

  lemma LaterSelect(t: State, fn: Filename, ids: seq<ChunkId>)
    requires Inv(t) && IsSnapshot(t.db, fn, ids)
    ensures fn !in t.db.files ==> ids == []
    ensures fn in t.db.files ==> OfSession(t, fn, ids)
  {
    if ids != [] {
      assert t.db.chunks[ids[0]].filename == fn;
    }
    if fn in t.db.files {
      var w := t.current[fn];
      assert FileOk(t.db, fn, t.sessions[w]) && SessionOk(w, t.sessions[w], t.origin, t.content);
      SnapshotIsSession(t.db, fn, t.sessions[w], ids);
    }
  }

  /** `get_file` when its second SELECT sees the state `t`, later than the one the file row came from:
      reading those ids gives one whole session of the name, or nothing at all. */
  lemma TwoSelects(r: int, es: seq<Event>, t: State, fn: Filename, ids: seq<ChunkId>)
    requires Reachable(r, es, t) && IsSnapshot(t.db, fn, ids)
    ensures fn !in t.db.files ==> ids == []
    ensures fn in t.db.files ==> OfSession(t, fn, ids)
  {
    hide Inv, Reachable, OfSession, IsSnapshot;
    ReachableInv(r, es, t);
    LaterSelect(t, fn, ids);
  }

  ghost predicate SomeEmpty(t: State, fn: Filename) {
    exists w :: 0 <= w < |t.sessions| && t.sessions[w].filename == fn && t.sessions[w].data == []
  }

  lemma LaterSelectExact(t: State, fn: Filename, ids: seq<ChunkId>)
    requires Inv(t) && IsSnapshot(t.db, fn, ids)
    ensures OfSession(t, fn, ids) <==> fn in t.db.files || SomeEmpty(t, fn)
  {
    LaterSelect(t, fn, ids);
    forall w | 0 <= w < |t.sessions| ensures t.sessions[w].ids == [] <==> t.sessions[w].data == [] {
      assert SessionOk(w, t.sessions[w], t.origin, t.content);
      SplitCount(t.sessions[w].data);
    }
  }

  /** So the unsynchronised pair of SELECTs answers with the bytes of some session of the name
      exactly when the name still exists at the second SELECT or some session of it was empty. */
  lemma TwoSelectsExact(r: int, es: seq<Event>, t: State, fn: Filename, ids: seq<ChunkId>)
    requires Reachable(r, es, t) && IsSnapshot(t.db, fn, ids)
    ensures OfSession(t, fn, ids) <==> fn in t.db.files || SomeEmpty(t, fn)
  {
    hide Inv, Reachable, OfSession, SomeEmpty, IsSnapshot;
    ReachableInv(r, es, t);
    LaterSelectExact(t, fn, ids);
  }

  // ---- the store's structural invariant, reached through the protocol ----

  lemma InvWf(s: State)
    requires Inv(s)
    ensures Wf(s.db)
  {
    forall fn | fn in s.db.files ensures AllIndices(s.db, fn) {
      var x := s.sessions[s.current[fn]];
      assert FileOk(s.db, fn, x);
      forall i | 0 <= i < s.db.files[fn].numChunks ensures HasIndex(s.db, fn, i) {
        assert s.db.chunks[x.ids[i]] == ChunkRow(fn, i);
      }
    }
    forall id | id in s.db.chunks
      ensures s.db.chunks[id].filename in s.current
      ensures var x := s.sessions[s.current[s.db.chunks[id].filename]];
        0 <= s.db.chunks[id].idx < |x.ids| && x.ids[s.db.chunks[id].idx] == id
        && s.db.files[s.db.chunks[id].filename].numChunks == |x.ids|
    {
      var fn := s.db.chunks[id].filename;
      assert FileOk(s.db, fn, s.sessions[s.current[fn]]);
    }
  }
}
