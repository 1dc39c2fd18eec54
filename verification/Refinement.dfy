/** Disciplined runs simulate a plain map from names to bytes. */
module Refinement {
  import opened Base
  import opened Chunking
  import opened Tables
  import opened Protocol
  import opened Safety
  import opened Reads
  import opened Replication
  import opened Discipline

  // ---- the specification: a map ----

  datatype Op = Stutter | Put(fn: Filename, data: Bytes) | Forget(fn: Filename)

  function MapStep(m: map<Filename, Bytes>, op: Op): map<Filename, Bytes> {
    match op
    case Stutter => m
    case Put(fn, data) => m[fn := data]
    case Forget(fn) => m - {fn}
  }

  function Replay(m: map<Filename, Bytes>, ops: seq<Op>): map<Filename, Bytes>
    decreases |ops|
  {
    if ops == [] then m else Replay(MapStep(m, ops[0]), ops[1..])
  }

  /** An accepted CreateFile takes the name away, CommitFile binds it to the committing writer's
      bytes unless the name was deleted meanwhile, DeleteFile takes it away; nothing else is visible. */
  ghost function OpOf(s: State, e: Event): Op
    requires Enabled(s, e)
  {
    match e
    case ByClient(CreateFile(fn, _, _, _, _)) => Forget(fn)
    case ByClient(Commit(w)) => CommitOp(s, w)
    case ByDelete(DropMetadata(h)) => if s.deleters[h].gc then Stutter else Forget(s.deleters[h].filename)
    case _ => Stutter
  }

  ghost function Ops(s: State, es: seq<Event>): seq<Op>
    requires Run(s, es)
    decreases |es|
  {
    if es == [] then [] else [OpOf(s, es[0])] + Ops(Apply(s, es[0]), es[1..])
  }

  // ---- simulation ----

  /** What a reader sees depends only on the file rows, the owning sessions and their bytes. */
  lemma SameVisible(s: State, t: State)
    requires t.db.files == s.db.files && t.current == s.current && t.sessions == s.sessions
    ensures Visible(t) == Visible(s)
  {}

  ghost predicate Ranges(files: map<Filename, FileRow>, current: map<Filename, int>, sessions: seq<Session>) {
    current.Keys == files.Keys && forall fn :: fn in current ==> 0 <= current[fn] < |sessions|
  }

  lemma PendingInvisible(files: map<Filename, FileRow>, current: map<Filename, int>, sessions: seq<Session>,
      fn: Filename, row: FileRow, x: Session)
    requires Ranges(files, current, sessions) && row.status == Pending
    ensures VisibleOf((files - {fn})[fn := row], current[fn := |sessions|], sessions + [x])
        == VisibleOf(files, current, sessions) - {fn}
  {}

  lemma CommittedVisible(files: map<Filename, FileRow>, current: map<Filename, int>, sessions: seq<Session>,
      fn: Filename)
    requires Ranges(files, current, sessions) && fn in files
    ensures VisibleOf(files[fn := files[fn].(status := Committed)], current, sessions)
      == VisibleOf(files, current, sessions)[fn := sessions[current[fn]].data]
  {}

  lemma DroppedInvisible(files: map<Filename, FileRow>, current: map<Filename, int>, sessions: seq<Session>,
      fn: Filename)
    ensures VisibleOf(files - {fn}, current - {fn}, sessions) == VisibleOf(files, current, sessions) - {fn}
  {}

  lemma GoodRanges(s: State)
    requires FilesOk(s.db, s.current, s.sessions)
    ensures Ranges(s.db.files, s.current, s.sessions)
  {}

  lemma CreateRefines(s: State, fn: Filename, data: Bytes, ids: seq<ChunkId>, locs: seq<seq<Address>>, now: real)
    requires FilesOk(s.db, s.current, s.sessions) && CreateOk(s, data, ids, locs)
    ensures Visible(AfterCreate(s, fn, data, ids, locs, now)) == Visible(s) - {fn}
  {
    hide FilesOk, VisibleOf, SplitChunks, DeleteMsgs, RowPairs, Layout, ReplicaRows, Pair, Mark, Ranges;
    GoodRanges(s);
    var x := AfterCreate(s, fn, data, ids, locs, now).sessions[|s.sessions|];
    PendingInvisible(s.db.files, s.current, s.sessions, fn, FileRow(|data|, |ids|, Pending, now), x);
  }

  lemma CommitRefines(s: State, w: int)
    requires FilesOk(s.db, s.current, s.sessions) && OpenOk(s.open, s.sessions, s.current) && w in s.open
    requires 0 <= w < |s.sessions|
    ensures Visible(s.(db := CommitFile(s.db, s.sessions[w].filename), open := s.open - {w}))
      == MapStep(Visible(s), CommitOp(s, w))
  {
    hide FilesOk, VisibleOf;
    GoodRanges(s);
    var fn := s.sessions[w].filename;
    if fn in s.db.files {
      CommittedVisible(s.db.files, s.current, s.sessions, fn);
    }
  }

  ghost function CommitOp(s: State, w: int): Op
    requires 0 <= w < |s.sessions|
  {
    if s.sessions[w].filename in s.db.files then Put(s.sessions[w].filename, s.sessions[w].data) else Stutter
  }

  lemma DropRefines(s: State, h: int)
    requires FilesOk(s.db, s.current, s.sessions) && h in s.deleters && DropSafe(s, s.deleters[h])
    ensures Visible(AfterDrop(s, h)) == if s.deleters[h].gc then Visible(s) else Visible(s) - {s.deleters[h].filename}
  {
    hide FilesOk, VisibleOf;
    DroppedInvisible(s.db.files, s.current, s.sessions, s.deleters[h].filename);
    if s.deleters[h].gc {
      PendingNotVisible(s, s.deleters[h].filename);
    }
  }

  lemma PendingNotVisible(s: State, fn: Filename)
    requires fn in s.db.files ==> s.db.files[fn].status == Pending
    ensures Visible(s) - {fn} == Visible(s)
  {}

  lemma ClientRefines(s: State, c: ClientStep)
    requires Good(s) && ClientEnabled(s, c)
    ensures Visible(ClientApply(s, c)) == MapStep(Visible(s), OpOf(s, ByClient(c)))
  {
    hide Visible, FilesOk, SessionsOk, DiskOk, RowsKept, RowsPlanned, ViewOk, AtLeast, OpenOk;
    match c
    case CreateFile(fn, data, ids, locs, now) => CreateRefines(s, fn, data, ids, locs, now);
    case Commit(w) => OpenFacts(s); CommitRefines(s, w);
    case BeginOverwrite(fn) => SameVisible(s, ClientApply(s, c));
    case SendStore(w, id, a) => SameVisible(s, ClientApply(s, c));
    case Abandon(w) => SameVisible(s, ClientApply(s, c));
  }

  lemma OpenFacts(s: State)
    requires OpenOk(s.open, s.sessions, s.current)
    ensures forall w :: w in s.open ==> 0 <= w < |s.sessions|
  {}

  lemma DeleteRefines(s: State, d: DeleteStep)
    requires Good(s) && DeleteEnabled(s, d) && Disciplined(s, ByDelete(d))
    ensures Visible(DeleteApply(s, d)) == MapStep(Visible(s), OpOf(s, ByDelete(d)))
  {
    hide Visible, FilesOk, SessionsOk, DiskOk, RowsKept, RowsPlanned, ViewOk, AtLeast, OpenOk;
    match d
    case DropMetadata(h) => DropRefines(s, h);
    case BeginDelete(h, fn, gc) => SameVisible(s, DeleteApply(s, d));
    case SendDelete(h, id, a) => SameVisible(s, DeleteApply(s, d));
  }

  lemma StepRefines(s: State, e: Event)
    requires Good(s) && Enabled(s, e) && Disciplined(s, e)
    ensures Visible(Apply(s, e)) == MapStep(Visible(s), OpOf(s, e))
  {
    hide Visible, Good, ClientApply, DiskApply, DeleteApply, HealApply, ReadApply;
    match e
    case ByClient(c) => ClientRefines(s, c);
    case ByDelete(d) => DeleteRefines(s, d);
    case ByDisk(v) => DiskFrame(s, v); SameVisible(s, Apply(s, e));
    case ByHeal(h) => HealFrame(s, h); SameVisible(s, Apply(s, e));
    case ByRead(q) => ReadFrame(s, q); SameVisible(s, Apply(s, e));
    case NamingCrash => SameVisible(s, Apply(s, e));
  }

  /** Every disciplined run, seen through `Visible`, is a run of the plain map. */
  lemma {:induction false} RunRefines(s: State, es: seq<Event>)
    requires Good(s) && DRun(s, es)
    ensures Run(s, es) && Visible(After(s, es)) == Replay(Visible(s), Ops(s, es))
    decreases |es|
  {
    DRunKeeps(s, es);
    if es != [] {
      DRunKeeps(s, [es[0]]);
      StepRefines(s, es[0]);
      GoodStep(s, es[0]);
      RunRefines(Apply(s, es[0]), es[1..]);
    }
  }

  lemma GoodStep(s: State, e: Event)
    requires Good(s) && Enabled(s, e) && Disciplined(s, e)
    ensures Good(Apply(s, e))
  {
    hide Inv, CountInv, DInv, Enabled, Apply, Disciplined, StopsInGap, ExactKept;
    StepKeeps(s, e);
    StepCounts(s, e);
    StepDisciplined(s, e);
  }

  lemma InitGood(r: int)
    ensures Good(Init(r)) && Visible(Init(r)) == map[]
  {
    InitInv(r);
  }

  /** From the empty system: a reader that starts after any disciplined history and completes gets
      what the plain map says, whatever happens while it fetches. */
  lemma ReadsAnswerFromMap(r: int, es: seq<Event>, s: State, k: int, fn: Filename, ids: seq<ChunkId>,
      later: seq<Event>, t: State)
    requires Reached(r, es, s) && ReadEnabled(s, ReadStart(k, fn, ids)) && NotRestarted(k, later)
    requires Run(ReadApply(s, ReadStart(k, fn, ids)), later) && t == After(ReadApply(s, ReadStart(k, fn, ids)), later)
    ensures var m := Replay(map[], Ops(Init(r), es));
      fn in m && k in t.readers && (Complete(t.readers[k]) ==> Assemble(t.readers[k]) == m[fn])
  {
    hide ReadEnabled, Visible, Inv, CountInv, DInv, Complete;
    InitGood(r);
    RunRefines(Init(r), es);
    DRunKeeps(Init(r), es);
    ReadReturnsSnapshotValue(s, k, fn, ids, later);
  }
}
