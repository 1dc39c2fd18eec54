/** What every interleaving keeps, with any number of concurrent clients, handlers and scrubs. */
module Safety {
  import opened Base
  import opened Chunking
  import opened Tables
  import opened Protocol

  type ContentMap = map<ChunkId, Bytes>

  // ---- the invariant ----

  ghost predicate SessionOk(w: int, x: Session, origin: map<ChunkId, int>, content: ContentMap) {
    && x.pieces == SplitChunks(x.data) && |x.ids| == |x.pieces| && Distinct(x.ids)
    && forall k :: 0 <= k < |x.ids| ==>
         && x.ids[k] in origin && origin[x.ids[k]] == w
         && x.ids[k] in content && content[x.ids[k]] == x.pieces[k]
  }

  ghost predicate SessionsOk(sessions: seq<Session>, origin: map<ChunkId, int>, content: ContentMap) {
    forall w :: 0 <= w < |sessions| ==> SessionOk(w, sessions[w], origin, content)
  }

  /** The chunk rows under a name are the chunks of one session, each at its place in the file. */
  ghost predicate FileOk(db: Db, fn: Filename, x: Session) {
    && fn in db.files && x.filename == fn
    && db.files[fn].size == |x.data| && db.files[fn].numChunks == |x.ids|
    && (forall k :: 0 <= k < |x.ids| ==> x.ids[k] in db.chunks && db.chunks[x.ids[k]] == ChunkRow(fn, k))
    && (forall id :: id in db.chunks && db.chunks[id].filename == fn ==> id in x.ids)
  }

  ghost predicate FilesOk(db: Db, current: map<Filename, int>, sessions: seq<Session>) {
    && current.Keys == db.files.Keys
    && ForeignKeys(db)
    && forall fn :: fn in current ==> 0 <= current[fn] < |sessions| && FileOk(db, fn, sessions[current[fn]])
  }

  /** Chunk content never changes: a disk copy or a payload in flight is the writer's piece. */
  ghost predicate DiskOk(disk: map<(Address, ChunkId), Bytes>, content: ContentMap) {
    forall k :: k in disk ==> k.1 in content && disk[k] == content[k.1]
  }

  ghost predicate PayloadsOk(msgs: set<Msg>, content: ContentMap) {
    forall m :: m in msgs && (m.Store? || m.CopyData?) ==> m.id in content && m.data == content[m.id]
  }

  /** The id was used once and its row is gone; since ids are fresh it stays gone. */
  ghost predicate Gone(id: ChunkId, chunks: map<ChunkId, ChunkRow>, content: ContentMap) {
    id in content && id !in chunks
  }

  ghost predicate LateDeletesOk(msgs: set<Msg>, chunks: map<ChunkId, ChunkRow>, content: ContentMap) {
    forall m :: m in msgs && m.Delete? && !m.early ==> Gone(m.id, chunks, content)
  }

  ghost predicate DeleterOk(d: Deleter, chunks: map<ChunkId, ChunkRow>, content: ContentMap) {
    forall p :: p in d.pairs ==>
      && p.0 in content && (d.dropped ==> p.0 !in chunks)
      && (p.0 in chunks ==> chunks[p.0].filename == d.filename)
  }

  ghost predicate DeletersOk(deleters: map<int, Deleter>, chunks: map<ChunkId, ChunkRow>, content: ContentMap) {
    forall h :: h in deleters ==> DeleterOk(deleters[h], chunks, content)
  }

  ghost predicate ReaderOk(x: Reader, sessions: seq<Session>, content: ContentMap) {
    && 0 <= x.session < |sessions| && sessions[x.session].filename == x.filename
    && x.ids == sessions[x.session].ids
    && forall id :: id in x.parts ==> id in content && x.parts[id] == content[id]
  }

  ghost predicate ReadersOk(readers: map<int, Reader>, sessions: seq<Session>, content: ContentMap) {
    forall k :: k in readers ==> ReaderOk(readers[k], sessions, content)
  }

  ghost predicate Inv(s: State) {
    && SessionsOk(s.sessions, s.origin, s.content)
    && FilesOk(s.db, s.current, s.sessions)
    && DiskOk(s.disk, s.content)
    && PayloadsOk(s.msgs, s.content)
    && LateDeletesOk(s.msgs, s.db.chunks, s.content)
    && DeletersOk(s.deleters, s.db.chunks, s.content)
    && ReadersOk(s.readers, s.sessions, s.content)
  }

  // ---- facts about one state ----

  lemma RowsAreUsed(s: State, id: ChunkId)
    requires SessionsOk(s.sessions, s.origin, s.content) && FilesOk(s.db, s.current, s.sessions) && id in s.db.chunks
    ensures id in s.content && id in s.origin && s.db.chunks[id].filename in s.current
    ensures s.origin[id] == s.current[s.db.chunks[id].filename]
  {
    var fn := s.db.chunks[id].filename;
    assert FileOk(s.db, fn, s.sessions[s.current[fn]]);
    assert SessionOk(s.current[fn], s.sessions[s.current[fn]], s.origin, s.content);
  }

  lemma {:induction false} AscendingFrom(db: Db, ids: seq<ChunkId>, i: nat)
    requires i < |ids|
    requires forall k :: 0 <= k < |ids| ==> ids[k] in db.chunks && db.chunks[ids[k]].idx >= 0
    requires forall j, k :: 0 <= j < k < |ids| ==> db.chunks[ids[j]].idx < db.chunks[ids[k]].idx
    ensures db.chunks[ids[i]].idx >= i
  {
    if i > 0 { AscendingFrom(db, ids, i - 1); }
  }

  lemma {:induction false} SnapshotAt(db: Db, fn: Filename, x: Session, ids: seq<ChunkId>, i: nat)
    requires FileOk(db, fn, x) && Distinct(x.ids) && IsSnapshot(db, fn, ids) && i < |x.ids|
    requires forall k :: 0 <= k < |ids| ==> db.chunks[ids[k]].idx >= k
    ensures i < |ids| && ids[i] == x.ids[i]
  {
    assert x.ids[i] in ids;
    var j :| 0 <= j < |ids| && ids[j] == x.ids[i];
    if j < i {
      SnapshotAt(db, fn, x, ids, j);
    }
  }

  /** A snapshot of the rows is the session's id list: strictly ascending indices that cover 0..n-1. */
  lemma SnapshotIsSession(db: Db, fn: Filename, x: Session, ids: seq<ChunkId>)
    requires FileOk(db, fn, x) && Distinct(x.ids) && IsSnapshot(db, fn, ids)
    ensures ids == x.ids
  {
    forall i | 0 <= i < |ids|
      ensures db.chunks[ids[i]].idx >= i && db.chunks[ids[i]].idx < |x.ids|
    {
      assert ids[i] in x.ids;
      forall k | 0 <= k < |ids| ensures db.chunks[ids[k]].idx >= 0 { assert ids[k] in x.ids; }
      AscendingFrom(db, ids, i);
    }
    forall i | 0 <= i < |x.ids| ensures i < |ids| && ids[i] == x.ids[i] {
      SnapshotAt(db, fn, x, ids, i);
    }
    if |ids| > 0 {
      assert |ids| - 1 <= db.chunks[ids[|ids| - 1]].idx < |x.ids|;
    }
    if |ids| < |x.ids| {
      SnapshotAt(db, fn, x, ids, |ids|);
    }
  }

  lemma InitInv(r: int)
    ensures Inv(Init(r))
  {}

  // ---- CreateFile ----

  lemma AppendSession(sessions: seq<Session>, origin: map<ChunkId, int>, content: ContentMap,
                      x: Session, origin': map<ChunkId, int>, content': ContentMap)
    requires SessionsOk(sessions, origin, content)
    requires forall id :: id in content ==> id in content' && content'[id] == content[id]
    requires forall id :: id in content && id in origin ==> id in origin' && origin'[id] == origin[id]
    requires SessionOk(|sessions|, x, origin', content')
    ensures SessionsOk(sessions + [x], origin', content')
  {
    forall w | 0 <= w < |sessions + [x]| ensures SessionOk(w, (sessions + [x])[w], origin', content') {
      if w < |sessions| {
        assert SessionOk(w, sessions[w], origin, content);
      }
    }
  }

  lemma NewSession(s: State, fn: Filename, data: Bytes, ids: seq<ChunkId>, locs: seq<seq<Address>>, now: real)
    requires |ids| == |locs| == |SplitChunks(data)| && Distinct(ids)
    requires forall i :: 0 <= i < |ids| ==> ids[i] !in s.content
    ensures var t := AfterCreate(s, fn, data, ids, locs, now);
      && t.sessions == s.sessions + [Session(fn, data, SplitChunks(data), ids, ReplicaRows(Layout(ids, locs)))]
      && SessionOk(|s.sessions|, t.sessions[|s.sessions|], t.origin, t.content)
  {
    hide SplitChunks, CreatePending, DeleteMsgs, RowPairs, Layout, ReplicaRows, Pair, Mark;
  }

  lemma HistoryGrows(s: State, fn: Filename, data: Bytes, ids: seq<ChunkId>, locs: seq<seq<Address>>, now: real)
    requires |ids| == |locs| == |SplitChunks(data)| && Distinct(ids)
    requires forall i :: 0 <= i < |ids| ==> ids[i] !in s.content
    ensures ContentGrows(s, AfterCreate(s, fn, data, ids, locs, now))
    ensures OriginGrows(s, AfterCreate(s, fn, data, ids, locs, now))
  {
    hide SplitChunks, CreatePending, DeleteMsgs, RowPairs, Layout, ReplicaRows, Pair, Mark;
  }

  lemma CreateSessions(s: State, fn: Filename, data: Bytes, ids: seq<ChunkId>, locs: seq<seq<Address>>, now: real)
    requires SessionsOk(s.sessions, s.origin, s.content)
    requires |ids| == |locs| == |SplitChunks(data)| && Distinct(ids)
    requires forall i :: 0 <= i < |ids| ==> ids[i] !in s.content
    ensures var t := AfterCreate(s, fn, data, ids, locs, now);
            SessionsOk(t.sessions, t.origin, t.content) && ContentGrows(s, t)
  {
    hide SessionsOk, SessionOk, AfterCreate;
    var t := AfterCreate(s, fn, data, ids, locs, now);
    NewSession(s, fn, data, ids, locs, now);
    HistoryGrows(s, fn, data, ids, locs, now);
    AppendSession(s.sessions, s.origin, s.content, t.sessions[|s.sessions|], t.origin, t.content);
  }

  ghost predicate OriginGrows(s: State, t: State) {
    forall id :: id in s.content && id in s.origin ==> id in t.origin && t.origin[id] == s.origin[id]
  }

  ghost predicate ContentGrows(s: State, t: State) {
    forall id :: id in s.content ==> id in t.content && t.content[id] == s.content[id]
  }

  ghost predicate RowsAfterCreate(db: Db, e: Db, fn: Filename, ids: seq<ChunkId>) {
    && ForeignKeys(e)
    && (forall k :: 0 <= k < |ids| ==> ids[k] in e.chunks && e.chunks[ids[k]] == ChunkRow(fn, k))
    && (forall id :: id in e.chunks && id !in ids ==>
          id in db.chunks && db.chunks[id].filename != fn && e.chunks[id] == db.chunks[id])
    && (forall id :: id in db.chunks && db.chunks[id].filename != fn ==>
          id in e.chunks && e.chunks[id] == db.chunks[id])
  }

  lemma LayoutIds(ids: seq<ChunkId>, locs: seq<seq<Address>>)
    requires |ids| == |locs|
    ensures forall id :: id in Ids(Layout(ids, locs)) <==> id in ids
  {
    var chunks := Layout(ids, locs);
    forall id | id in ids ensures id in Ids(chunks) {
      var i :| 0 <= i < |ids| && ids[i] == id;
      assert chunks[i] in chunks && chunks[i].chunkId == id;
    }
  }

  lemma CreateRows(db: Db, fn: Filename, size: int, ids: seq<ChunkId>, locs: seq<seq<Address>>, now: real)
    requires |ids| == |locs| && Distinct(ids) && ForeignKeys(db)
    requires forall k :: 0 <= k < |ids| ==> ids[k] !in db.chunks
    ensures RowsAfterCreate(db, CreatePending(db, fn, size, |ids|, Layout(ids, locs), now), fn, ids)
  {
    var chunks := Layout(ids, locs);
    LayoutIds(ids, locs);
    CreatePendingRows(db, fn, size, |ids|, chunks, now);
    CreatePendingFk(db, fn, size, |ids|, chunks, now);
    NewRowsLayout(db, CreatePending(db, fn, size, |ids|, chunks, now), fn, ids, chunks);
  }

  lemma NewRowsLayout(db: Db, e: Db, fn: Filename, ids: seq<ChunkId>, chunks: seq<ChunkMeta>)
    requires NewRows(db, e, fn, chunks) && ForeignKeys(e) && |chunks| == |ids|
    requires forall i :: 0 <= i < |ids| ==> chunks[i].chunkId == ids[i] && chunks[i].index == i
    requires forall id :: id in Ids(chunks) <==> id in ids
    ensures RowsAfterCreate(db, e, fn, ids)
  {}

  lemma OtherFile(db: Db, e: Db, fn: Filename, y: Session, g: Filename, ids: seq<ChunkId>)
    requires FileOk(db, fn, y) && fn in e.files && e.files[fn] == db.files[fn] && fn != g
    requires RowsAfterCreate(db, e, g, ids)
    ensures FileOk(e, fn, y)
  {}

  lemma CreateFiles(db: Db, e: Db, current: map<Filename, int>, sessions: seq<Session>, x: Session)
    requires FilesOk(db, current, sessions)
    requires RowsAfterCreate(db, e, x.filename, x.ids)
    requires e.files.Keys == db.files.Keys + {x.filename}
    requires e.files[x.filename].size == |x.data| && e.files[x.filename].numChunks == |x.ids|
    requires forall fn :: fn in db.files && fn != x.filename ==> e.files[fn] == db.files[fn]
    ensures FilesOk(e, current[x.filename := |sessions|], sessions + [x])
  {
    var all := sessions + [x];
    var cur := current[x.filename := |sessions|];
    assert FileOk(e, x.filename, x);
    forall fn | fn in cur ensures 0 <= cur[fn] < |all| && FileOk(e, fn, all[cur[fn]]) {
      if fn != x.filename {
        OtherFile(db, e, fn, sessions[current[fn]], x.filename, x.ids);
      }
    }
  }

  lemma CreateDb(s: State, fn: Filename, data: Bytes, ids: seq<ChunkId>, locs: seq<seq<Address>>, now: real)
    requires SessionsOk(s.sessions, s.origin, s.content) && FilesOk(s.db, s.current, s.sessions)
    requires |ids| == |locs| == |SplitChunks(data)| && Distinct(ids)
    requires forall i :: 0 <= i < |ids| ==> ids[i] !in s.content
    ensures var t := AfterCreate(s, fn, data, ids, locs, now);
            FilesOk(t.db, t.current, t.sessions) && RowsAfterCreate(s.db, t.db, fn, ids)
    ensures forall id :: id in s.db.chunks ==> id in s.content
  {
    hide SplitChunks, DeleteMsgs, RowPairs, Pair, Mark, Layout, ReplicaRows;
    var x := Session(fn, data, SplitChunks(data), ids, ReplicaRows(Layout(ids, locs)));
    forall id | id in s.db.chunks ensures id in s.content && id !in ids { RowsAreUsed(s, id); }
    CreateRows(s.db, fn, |data|, ids, locs, now);
    CreateFiles(s.db, CreatePending(s.db, fn, |data|, |ids|, Layout(ids, locs), now), s.current, s.sessions, x);
  }

  lemma CreateKeeps(s: State, fn: Filename, data: Bytes, ids: seq<ChunkId>, locs: seq<seq<Address>>, now: real)
    requires Inv(s)
    requires |ids| == |locs| == |SplitChunks(data)| && Distinct(ids)
    requires forall i :: 0 <= i < |ids| ==> ids[i] !in s.content
    ensures Inv(AfterCreate(s, fn, data, ids, locs, now))
  {
    CreateSessions(s, fn, data, ids, locs, now);
    CreateDb(s, fn, data, ids, locs, now);
    CreateOthers(s, AfterCreate(s, fn, data, ids, locs, now), fn, ids);
  }

  lemma CreateDeletes(s: State, t: State, fn: Filename, ids: seq<ChunkId>)
    requires LateDeletesOk(s.msgs, s.db.chunks, s.content) && DeletersOk(s.deleters, s.db.chunks, s.content)
    requires ContentGrows(s, t) && RowsAfterCreate(s.db, t.db, fn, ids)
    requires forall id :: id in s.db.chunks ==> id in s.content
    requires forall i :: 0 <= i < |ids| ==> ids[i] !in s.content
    requires t.deleters == s.deleters && t.msgs == s.msgs + DeleteMsgs(RowPairs(s.db, fn), false)
    ensures LateDeletesOk(t.msgs, t.db.chunks, t.content) && DeletersOk(t.deleters, t.db.chunks, t.content)
  {
    forall h | h in t.deleters ensures DeleterOk(t.deleters[h], t.db.chunks, t.content) {
      assert DeleterOk(s.deleters[h], s.db.chunks, s.content);
    }
  }

  lemma CreateReaders(readers: map<int, Reader>, sessions: seq<Session>, sessions': seq<Session>, s: State, t: State)
    requires ReadersOk(readers, sessions, s.content) && ContentGrows(s, t) && sessions <= sessions'
    ensures ReadersOk(readers, sessions', t.content)
  {
    forall k | k in readers ensures ReaderOk(readers[k], sessions', t.content) {
      assert ReaderOk(readers[k], sessions, s.content);
    }
  }

  lemma CreateOthers(s: State, t: State, fn: Filename, ids: seq<ChunkId>)
    requires Inv(s) && ContentGrows(s, t) && RowsAfterCreate(s.db, t.db, fn, ids)
    requires forall id :: id in s.db.chunks ==> id in s.content
    requires forall i :: 0 <= i < |ids| ==> ids[i] !in s.content
    requires t.disk == s.disk && t.deleters == s.deleters && t.readers == s.readers
    requires s.sessions <= t.sessions && t.msgs == s.msgs + DeleteMsgs(RowPairs(s.db, fn), false)
    ensures DiskOk(t.disk, t.content) && PayloadsOk(t.msgs, t.content) && LateDeletesOk(t.msgs, t.db.chunks, t.content)
    ensures DeletersOk(t.deleters, t.db.chunks, t.content) && ReadersOk(t.readers, t.sessions, t.content)
  {
    hide SessionsOk, FilesOk, LateDeletesOk, DeletersOk, ReadersOk, RowsAfterCreate, RowPairs;
    CreateDeletes(s, t, fn, ids);
    CreateReaders(s.readers, s.sessions, t.sessions, s, t);
  }

  // ---- the other steps that change rows ----

  lemma DropFiles(db: Db, current: map<Filename, int>, sessions: seq<Session>, fn: Filename)
    requires FilesOk(db, current, sessions)
    ensures FilesOk(DropFile(db, fn), current - {fn}, sessions)
  {
    var e := DropFile(db, fn);
    forall g | g in current - {fn} ensures FileOk(e, g, sessions[current[g]]) {
      assert FileOk(db, g, sessions[current[g]]);
    }
  }

  /** `e` differs from `db` in statuses, times and replica rows only. */
  ghost predicate SameRows(db: Db, e: Db) {
    && e.chunks == db.chunks && e.files.Keys == db.files.Keys
    && (forall fn :: fn in db.files ==>
          e.files[fn].size == db.files[fn].size && e.files[fn].numChunks == db.files[fn].numChunks)
    && (forall p :: p in e.replicas ==> p.0 in e.chunks)
  }

  lemma SameRowsFiles(db: Db, e: Db, current: map<Filename, int>, sessions: seq<Session>)
    requires FilesOk(db, current, sessions) && SameRows(db, e)
    ensures FilesOk(e, current, sessions)
  {
    forall g | g in current ensures FileOk(e, g, sessions[current[g]]) {
      assert FileOk(db, g, sessions[current[g]]);
    }
  }

  lemma WritesSameRows(db: Db, fn: Filename, id: ChunkId, a: Address)
    requires ForeignKeys(db)
    ensures SameRows(db, Tables.CommitFile(db, fn)) && SameRows(db, RemoveReplica(db, id, a))
    ensures id in db.chunks ==> SameRows(db, AddReplica(db, id, a).value)
  {}

  lemma FewerRowsDeletes(s: State, chunks: map<ChunkId, ChunkRow>)
    requires LateDeletesOk(s.msgs, s.db.chunks, s.content) && DeletersOk(s.deleters, s.db.chunks, s.content)
    requires forall id :: id in chunks ==> id in s.db.chunks && chunks[id] == s.db.chunks[id]
    ensures LateDeletesOk(s.msgs, chunks, s.content) && DeletersOk(s.deleters, chunks, s.content)
  {
    forall h | h in s.deleters ensures DeleterOk(s.deleters[h], chunks, s.content) {
      assert DeleterOk(s.deleters[h], s.db.chunks, s.content);
    }
  }

  lemma DropKeeps(s: State, h: int)
    requires Inv(s) && h in s.deleters
    ensures Inv(AfterDrop(s, h))
  {
    var t := AfterDrop(s, h);
    DropFiles(s.db, s.current, s.sessions, s.deleters[h].filename);
    FewerRowsDeletes(s, t.db.chunks);
    assert DeleterOk(s.deleters[h], s.db.chunks, s.content);
    forall g | g in t.deleters ensures DeleterOk(t.deleters[g], t.db.chunks, t.content) {
      assert DeleterOk(s.deleters[g], t.db.chunks, s.content);
    }
  }

  lemma BeginDeleteKeeps(s: State, h: int, fn: Filename, gc: bool)
    requires Inv(s)
    ensures DeletersOk(s.deleters[h := Deleter(fn, gc, RowPairs(s.db, fn), false)], s.db.chunks, s.content)
  {
    hide DiskOk, PayloadsOk, LateDeletesOk, ReadersOk, SessionsOk, FilesOk;
    forall id | id in s.db.chunks ensures id in s.content { RowsAreUsed(s, id); }
    NewDeleterOk(s.db, fn, gc, s.content);
  }

  lemma NewDeleterOk(db: Db, fn: Filename, gc: bool, content: ContentMap)
    requires forall id :: id in db.chunks ==> id in content
    ensures DeleterOk(Deleter(fn, gc, RowPairs(db, fn), false), db.chunks, content)
  {}

  lemma ReadStartKeeps(s: State, k: int, fn: Filename, ids: seq<ChunkId>)
    requires Inv(s) && fn in s.current && IsSnapshot(s.db, fn, ids)
    ensures ReadersOk(s.readers[k := Reader(fn, s.current[fn], ids, map[])], s.sessions, s.content)
  {
    var w := s.current[fn];
    assert SessionOk(w, s.sessions[w], s.origin, s.content);
    SnapshotIsSession(s.db, fn, s.sessions[w], ids);
  }

  lemma TablesKeep(s: State, db: Db, open: set<int>, healer: HealState)
    requires Inv(s) && SameRows(s.db, db)
    ensures Inv(s.(db := db, open := open, healer := healer))
  {
    SameRowsFiles(s.db, db, s.current, s.sessions);
  }

  lemma InvFk(s: State)
    requires Inv(s)
    ensures ForeignKeys(s.db) && SameRows(s.db, s.db)
  {}

  lemma AddKeeps(s: State)
    requires Inv(s) && s.healer.Pass? && s.healer.phase.Copying? && s.healer.phase.id in s.healer.view
    ensures Inv(AfterAdd(s))
  {
    hide Inv, SameRows, ForeignKeys;
    var id, target := s.healer.phase.id, s.healer.phase.target;
    InvFk(s);
    if id in s.db.chunks {
      WritesSameRows(s.db, Filename(""), id, target);
      TablesKeep(s, AddReplica(s.db, id, target).value, s.open, AfterAdd(s).healer);
    } else {
      TablesKeep(s, s.db, s.open, Idle);
    }
  }

  lemma RemoveKeeps(s: State, stale: Address)
    requires Inv(s) && s.healer.Pass? && s.healer.phase.Gap? && s.healer.phase.id in s.healer.view
    ensures Inv(AfterRemove(s, stale))
  {
    hide Inv, SameRows, ForeignKeys;
    InvFk(s);
    WritesSameRows(s.db, Filename(""), s.healer.phase.id, stale);
    TablesKeep(s, RemoveReplica(s.db, s.healer.phase.id, stale), s.open, AfterRemove(s, stale).healer);
  }

  lemma CommitKeeps(s: State, fn: Filename, open: set<int>)
    requires Inv(s)
    ensures Inv(s.(db := Tables.CommitFile(s.db, fn), open := open))
  {
    hide Inv, SameRows, ForeignKeys;
    InvFk(s);
    WritesSameRows(s.db, fn, ChunkId(""), Address(""));
    TablesKeep(s, Tables.CommitFile(s.db, fn), open, s.healer);
  }

  lemma SendOk(s: State, more: set<Msg>)
    requires Inv(s)
    requires forall m :: m in more && (m.Store? || m.CopyData?) ==> m.id in s.content && m.data == s.content[m.id]
    requires forall m :: m in more && m.Delete? && !m.early ==> Gone(m.id, s.db.chunks, s.content)
    ensures PayloadsOk(s.msgs + more, s.content) && LateDeletesOk(s.msgs + more, s.db.chunks, s.content)
  {}

  lemma PutOk(s: State, a: Address, id: ChunkId, data: Bytes)
    requires Inv(s) && (Store(a, id, data) in s.msgs || CopyData(a, id, data) in s.msgs)
    ensures DiskOk(s.disk[(a, id) := data], s.content)
  {}

  lemma ClientKeeps(s: State, c: ClientStep)
    requires Inv(s) && ClientEnabled(s, c)
    ensures Inv(ClientApply(s, c))
  {
    match c
    case CreateFile(fn, data, ids, locs, now) => CreateKeeps(s, fn, data, ids, locs, now);
    case BeginOverwrite(fn) => SendOk(s, DeleteMsgs(RowPairs(s.db, fn), true));
    case SendStore(w, id, a) => SendOk(s, {Store(a, id, s.content[id])});
    case Commit(w) => CommitKeeps(s, s.sessions[w].filename, s.open - {w});
    case Abandon(w) =>
  }

  lemma DiskKeeps(s: State, v: DiskStep)
    requires Inv(s) && DiskEnabled(s, v)
    ensures Inv(DiskApply(s, v))
  {
    match v
    case DeliverStore(a, id, data) => PutOk(s, a, id, data); SendOk(s, {Stored(a, id)});
    case CopyStore(target, id, data) => PutOk(s, target, id, data); SendOk(s, {Stored(target, id)});
    case DeliverDelete(a, id, early) => assert DiskOk(s.disk - {(a, id)}, s.content);
    case ScrubRead(a) =>
    case ScrubApply(a) => assert DiskOk(DiskApply(s, v).disk, s.content);
    case CopyRead(target, id, source) => SendOk(s, {CopyData(target, id, s.disk[(source, id)])});
  }

  lemma DeleteKeeps(s: State, d: DeleteStep)
    requires Inv(s) && DeleteEnabled(s, d)
    ensures Inv(DeleteApply(s, d))
  {
    match d
    case BeginDelete(h, fn, gc) => BeginDeleteKeeps(s, h, fn, gc);
    case DropMetadata(h) => DropKeeps(s, h);
    case SendDelete(h, id, a) =>
      assert DeleterOk(s.deleters[h], s.db.chunks, s.content);
      SendOk(s, {Delete(a, id, false)});
  }

  lemma HealKeeps(s: State, h: HealStep)
    requires Inv(s) && HealEnabled(s, h)
    ensures Inv(HealApply(s, h))
  {
    match h
    case Scan(live) =>
    case SendCopy(id, source, target) => SendOk(s, {Replicate(target, id, source)});
    case CopyFailed =>
    case Add => AddKeeps(s);
    case Remove(stale) => RemoveKeeps(s, stale);
    case EndPass =>
  }

  lemma ReadKeeps(s: State, q: ReadStep)
    requires Inv(s) && ReadEnabled(s, q)
    ensures Inv(ReadApply(s, q))
  {
    match q
    case ReadStart(k, fn, ids) => ReadStartKeeps(s, k, fn, ids);
    case ReadFetch(k, a, id) => assert ReaderOk(s.readers[k], s.sessions, s.content);
  }

  lemma CrashKeeps(s: State)
    requires Inv(s)
    ensures Inv(AfterNamingCrash(s))
  {}

  lemma StepKeeps(s: State, e: Event)
    requires Inv(s) && Enabled(s, e)
    ensures Inv(Apply(s, e))
  {
    hide Inv, ClientApply, DiskApply, DeleteApply, HealApply, ReadApply, AfterNamingCrash;
    match e
    case ByClient(c) => ClientKeeps(s, c);
    case ByDisk(v) => DiskKeeps(s, v);
    case ByDelete(d) => DeleteKeeps(s, d);
    case ByHeal(h) => HealKeeps(s, h);
    case ByRead(q) => ReadKeeps(s, q);
    case NamingCrash => CrashKeeps(s);
  }

  lemma {:induction false} RunKeeps(s: State, es: seq<Event>)
    requires Inv(s) && Run(s, es)
    ensures Inv(After(s, es))
    decreases |es|
  {
    hide Inv, Enabled, Apply;
    if es != [] {
      StepKeeps(s, es[0]);
      RunKeeps(Apply(s, es[0]), es[1..]);
    }
  }

  // ---- content only grows ----

  lemma StepContent(s: State, e: Event)
    requires Inv(s) && Enabled(s, e)
    ensures ContentGrows(s, Apply(s, e))
  {
    hide Inv, ClientApply, DiskApply, DeleteApply, HealApply, ReadApply;
    match e
    case ByClient(c) => ClientContent(s, c);
    case ByDisk(v) => DiskFrame(s, v);
    case ByDelete(d) => DeleteFrame(s, d);
    case ByHeal(h) => HealFrame(s, h);
    case ByRead(q) => ReadFrame(s, q);
    case NamingCrash =>
  }

  lemma ClientContent(s: State, c: ClientStep)
    requires Inv(s) && ClientEnabled(s, c)
    ensures ContentGrows(s, ClientApply(s, c))
  {
    hide AfterCreate, FilesOk, DiskOk, PayloadsOk, LateDeletesOk, DeletersOk, ReadersOk, SessionsOk, PlacementOk;
    if c.CreateFile? {
      CreateSessions(s, c.filename, c.data, c.ids, c.locs, c.now);
    } else {
      ClientFrame(s, c);
    }
  }

  lemma {:induction false} RunContent(s: State, es: seq<Event>)
    requires Inv(s) && Run(s, es)
    ensures ContentGrows(s, After(s, es))
    decreases |es|
  {
    hide Inv, Enabled, Apply;
    if es != [] {
      StepContent(s, es[0]);
      StepKeeps(s, es[0]);
      RunContent(Apply(s, es[0]), es[1..]);
    }
  }

  /** The end of a run from the empty system, whatever the interleaving. */
  ghost predicate Reachable(r: int, es: seq<Event>, s: State) {
    Path(Init(r), es, s)
  }

  lemma ReachableInv(r: int, es: seq<Event>, s: State)
    requires Reachable(r, es, s)
    ensures Inv(s)
  {
    hide Inv;
    InitInv(r);
    RunKeeps(Init(r), es);
  }
}
