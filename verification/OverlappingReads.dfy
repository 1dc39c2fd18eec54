/** A read that overlaps with healing, scrubs and writes of other names still completes. */
module OverlappingReads {
  import opened Base
  import opened Tables
  import opened Protocol
  import opened Safety
  import opened Reads
  import opened Replication
  import opened RowSteps
  import opened Discipline
  import opened Refinement
  import opened Repairs
  import opened HealRuns
  import opened Fetch
  import opened NamingServer
  import opened FaultTolerance

  // ---- what happens during the read ----

  /** The step overwrites or deletes the file. */
  ghost predicate Replaces(s: State, e: Event, fn: Filename)
    requires Enabled(s, e)
  {
    match e
    case ByClient(CreateFile(g, _, _, _, _)) => g == fn
    case ByDelete(DropMetadata(h)) => s.deleters[h].filename == fn
    case _ => false
  }

  /** A disciplined run that neither overwrites nor deletes the file. */
  ghost predicate Undisturbed(s: State, es: seq<Event>, fn: Filename)
    decreases |es|
  {
    es == [] || (Enabled(s, es[0]) && Disciplined(s, es[0]) && !Replaces(s, es[0], fn)
                 && Undisturbed(Apply(s, es[0]), es[1..], fn))
  }

  /** A scrub of the server whose expected set lacks the chunk. */
  ghost predicate Purges(s: State, e: Event, a: Address, id: ChunkId) {
    e == ByDisk(ScrubApply(a)) && a in s.scrubs && id !in s.scrubs[a]
  }

  ghost predicate Purged(s: State, es: seq<Event>, a: Address, id: ChunkId)
    requires Run(s, es)
    decreases |es|
  {
    es != [] && (Purges(s, es[0], a, id) || Purged(Apply(s, es[0]), es[1..], a, id))
  }

  /** The healing pass takes the address off the record of the chunk. */
  ghost predicate Retires(s: State, e: Event, a: Address, id: ChunkId) {
    e == ByHeal(Remove(a)) && s.healer.Pass? && s.healer.phase == Gap(id)
  }

  ghost predicate Retired(s: State, es: seq<Event>, a: Address, id: ChunkId)
    requires Run(s, es)
    decreases |es|
  {
    es != [] && (Retires(s, es[0], a, id) || Retired(Apply(s, es[0]), es[1..], a, id))
  }

  ghost predicate HeldThroughout(s: State, es: seq<Event>, a: Address, id: ChunkId)
    requires Run(s, es)
    decreases |es|
  {
    (a, id) in s.disk && (es == [] || HeldThroughout(Apply(s, es[0]), es[1..], a, id))
  }

  /** A server that is up answers, at whatever moment it is asked, for what it holds all the time. */
  ghost predicate UpAnswersDuring(answer: Answers, s: State, es: seq<Event>, down: set<Address>)
    requires Run(s, es)
  {
    forall a, id :: a !in down && HeldThroughout(s, es, a, id) ==> answer(a, id).Some?
  }

  // ---- a copy stays ----

  ghost predicate ChunkOf(db: Db, fn: Filename, id: ChunkId) {
    id in db.chunks && db.chunks[id].filename == fn
  }

  lemma CreateSpares(s: State, c: ClientStep, fn: Filename, id: ChunkId)
    requires Used(s.db, s.content) && ClientEnabled(s, c) && c.CreateFile? && c.filename != fn && ChunkOf(s.db, fn, id)
    ensures ChunkOf(ClientApply(s, c).db, fn, id)
  {
    hide CreatePending, PlacementOk, RowsAfterCreate, ForeignKeys, ClientApply, ClientEnabled;
    CreateFacts(s, c);
    CreateRows(s.db, c.filename, |c.data|, c.ids, c.locs, c.now);
    RowSpared(s.db, ClientApply(s, c).db, c.filename, c.ids, id);
  }

  lemma RowSpared(db: Db, e: Db, g: Filename, ids: seq<ChunkId>, id: ChunkId)
    requires RowsAfterCreate(db, e, g, ids) && id in db.chunks && db.chunks[id].filename != g
    ensures id in e.chunks && e.chunks[id] == db.chunks[id]
  {}

  lemma DropSpares(s: State, d: DeleteStep, fn: Filename, id: ChunkId)
    requires DeleteEnabled(s, d) && !Replaces(s, ByDelete(d), fn) && ChunkOf(s.db, fn, id)
    ensures ChunkOf(DeleteApply(s, d).db, fn, id)
  {}

  lemma ClientSpares(s: State, c: ClientStep, fn: Filename, id: ChunkId)
    requires Used(s.db, s.content) && ClientEnabled(s, c) && !Replaces(s, ByClient(c), fn) && ChunkOf(s.db, fn, id)
    ensures ChunkOf(ClientApply(s, c).db, fn, id)
  {
    hide Used, ClientApply, ClientEnabled;
    if c.CreateFile? { CreateSpares(s, c, fn, id); } else { ClientFrame(s, c); }
  }

  /** The chunks of a file stay while nobody overwrites or deletes it. */
  lemma ChunkStays(s: State, e: Event, fn: Filename, id: ChunkId)
    requires Used(s.db, s.content) && Enabled(s, e) && !Replaces(s, e, fn) && ChunkOf(s.db, fn, id)
    ensures ChunkOf(Apply(s, e).db, fn, id)
  {
    hide Used, ClientApply, DiskApply, DeleteApply, HealApply, ReadApply;
    match e
    case ByClient(c) => ClientSpares(s, c, fn, id);
    case ByDisk(v) => DiskFrame(s, v);
    case ByDelete(d) => DropSpares(s, d, fn, id);
    case ByHeal(h) => HealFrame(s, h);
    case ByRead(q) => ReadFrame(s, q);
    case NamingCrash =>
  }

  lemma DiskKeepsCopy(s: State, v: DiskStep, a: Address, id: ChunkId)
    requires DiskEnabled(s, v) && (a, id) in s.disk
    requires v.DeliverDelete? ==> v.id != id
    ensures (a, id) in DiskApply(s, v).disk <==> !Purges(s, ByDisk(v), a, id)
  {
    match v
    case DeliverStore(b, x, data) =>
    case DeliverDelete(b, x, early) =>
    case ScrubRead(b) =>
    case ScrubApply(b) =>
    case CopyRead(target, x, source) =>
    case CopyStore(target, x, data) =>
  }

  /** No delete of a chunk in the tables is on its way. */
  ghost predicate DeletesGone(s: State) {
    forall m :: m in s.msgs && m.Delete? ==> m.id !in s.db.chunks
  }

  lemma GoodDeletes(s: State)
    requires Good(s)
    ensures DeletesGone(s)
  {
    forall m | m in s.msgs && m.Delete? ensures m.id !in s.db.chunks {
      assert Gone(m.id, s.db.chunks, s.content);
    }
  }

  /** A copy of a chunk in the tables leaves a disk by a scrub only. */
  lemma StepKeepsCopy(s: State, e: Event, a: Address, id: ChunkId)
    requires DeletesGone(s) && Enabled(s, e) && (a, id) in s.disk && id in s.db.chunks
    ensures (a, id) in Apply(s, e).disk <==> !Purges(s, e, a, id)
  {
    hide ClientApply, DiskApply, DeleteApply, HealApply, ReadApply, AfterCreate;
    match e
    case ByClient(c) => ClientDisk(s, c);
    case ByDisk(v) => DiskKeepsCopy(s, v, a, id);
    case ByDelete(d) => DeleteFrame(s, d);
    case ByHeal(h) => HealFrame(s, h);
    case ByRead(q) => ReadFrame(s, q);
    case NamingCrash =>
  }

  lemma ClientDisk(s: State, c: ClientStep)
    requires ClientEnabled(s, c)
    ensures ClientApply(s, c).disk == s.disk
  {}

  lemma {:induction false} HoldsAlong(s: State, es: seq<Event>, fn: Filename, a: Address, id: ChunkId)
    requires Good(s) && Run(s, es) && Undisturbed(s, es, fn) && (a, id) in s.disk && ChunkOf(s.db, fn, id)
    ensures HeldThroughout(s, es, a, id) <==> !Purged(s, es, a, id)
    decreases |es|
  {
    hide Good, Used, DeletesGone, Enabled, Disciplined, Apply, Replaces, Purges;
    if es != [] {
      GoodUsed(s);
      GoodDeletes(s);
      ChunkStays(s, es[0], fn, id);
      StepKeepsCopy(s, es[0], a, id);
      if !Purges(s, es[0], a, id) {
        GoodStep(s, es[0]);
        HoldsAlong(Apply(s, es[0]), es[1..], fn, a, id);
      } else {
        NotHeld(Apply(s, es[0]), es[1..], a, id);
      }
    }
  }

  /** While nobody overwrites or deletes the file, a copy of one of its chunks is on its disk in every
      state of the run if and only if no scrub took it. */
  lemma RunHolds(r: int, run: seq<Event>, s: State, es: seq<Event>, fn: Filename, a: Address, id: ChunkId)
    requires Reached(r, run, s) && Run(s, es) && Undisturbed(s, es, fn) && (a, id) in s.disk && ChunkOf(s.db, fn, id)
    ensures HeldThroughout(s, es, a, id) <==> !Purged(s, es, a, id)
  {
    hide Reached, Good, Run, Undisturbed, HeldThroughout, Purged;
    ReachedGood(r, run, s);
    HoldsAlong(s, es, fn, a, id);
  }

  lemma NotHeld(s: State, es: seq<Event>, a: Address, id: ChunkId)
    requires Run(s, es) && (a, id) !in s.disk
    ensures !HeldThroughout(s, es, a, id)
  {
    hide Enabled, Apply;
  }

  lemma GoodUsed(s: State)
    requires Good(s)
    ensures Used(s.db, s.content) && DInv(s)
  {
    hide DInv, CountInv;
    ChunksUsed(s);
  }

  // ---- what scrubs take ----

  /** The chunk belongs to the committed file and is recorded at the address. */
  ghost predicate OnRecord(db: Db, fn: Filename, id: ChunkId, a: Address) {
    ChunkOf(db, fn, id) && CommittedChunk(db, id) && a in Replicas(db, id)
  }

  lemma StepKeepsRow(s: State, e: Event, fn: Filename, id: ChunkId, a: Address)
    requires Used(s.db, s.content)
    requires Enabled(s, e) && !Replaces(s, e, fn) && OnRecord(s.db, fn, id, a) && !Retires(s, e, a, id)
    ensures OnRecord(Apply(s, e).db, fn, id, a)
  {
    hide Used, Apply, ClientEnabled, DiskEnabled, DeleteEnabled, ReadEnabled, Replicas, CommittedChunk;
    ChunkStays(s, e, fn, id);
    StepCarries(s, e, id);
  }

  lemma NotPurgedOnRecord(s: State, e: Event, fn: Filename, id: ChunkId, a: Address)
    requires DInv(s) && Enabled(s, e) && Disciplined(s, e) && OnRecord(s.db, fn, id, a)
    ensures !Purges(s, e, a, id)
  {
    assert RowKept(s.db, (id, a), s.disk, s.msgs);
  }

  lemma {:induction false} PurgedLater(s: State, es: seq<Event>, fn: Filename, a: Address, id: ChunkId)
    requires Good(s) && Run(s, es) && Undisturbed(s, es, fn) && OnRecord(s.db, fn, id, a) && Purged(s, es, a, id)
    ensures Retired(s, es, a, id)
    decreases |es|
  {
    hide Good, Used, DInv, Enabled, Disciplined, Apply, Replaces, Purges, Retires, OnRecord;
    GoodUsed(s);
    NotPurgedOnRecord(s, es[0], fn, id, a);
    if !Retires(s, es[0], a, id) {
      StepKeepsRow(s, es[0], fn, id, a);
      GoodStep(s, es[0]);
      PurgedLater(Apply(s, es[0]), es[1..], fn, a, id);
    }
  }

  /** A scrub takes a copy that was recorded when the read began only after healing retired its row. */
  lemma PurgedWhenRetired(r: int, run: seq<Event>, s: State, es: seq<Event>, fn: Filename, a: Address, id: ChunkId)
    requires Reached(r, run, s) && Run(s, es) && Undisturbed(s, es, fn)
    requires OnRecord(s.db, fn, id, a) && Purged(s, es, a, id)
    ensures Retired(s, es, a, id)
  {
    hide Reached, Good, Run, Undisturbed, Purged, Retired, OnRecord;
    ReachedGood(r, run, s);
    PurgedLater(s, es, fn, a, id);
  }

  // ---- the read ----

  /** The listed location is out of reach: its server is down, or a scrub took the copy during the read. */
  ghost predicate Lost(s: State, es: seq<Event>, down: set<Address>, a: Address, id: ChunkId)
    requires Run(s, es)
  {
    a in down || Purged(s, es, a, id)
  }

  ghost predicate SomeLeft(s: State, es: seq<Event>, down: set<Address>, p: Placement)
    requires Run(s, es)
  {
    exists a :: a in p.locations && !Lost(s, es, down, a, p.chunkId)
  }

  ghost predicate ReadsWhole(s: State, fn: Filename, ps: seq<Placement>, answer: Answers) {
    fn in Visible(s) && Fetched(ps, answer).Some? && Concat(Fetched(ps, answer).value) == Visible(s)[fn]
  }

  /** What servers may answer during the run: the bytes of the chunk or none, and when they are up and
      hold it all the time, the bytes. */
  ghost predicate AnswersDuring(answer: Answers, s: State, es: seq<Event>, down: set<Address>)
    requires Run(s, es)
  {
    Honest(answer, After(s, es).content) && UpAnswersDuring(answer, s, es, down)
  }

  lemma PlacedRows(s: State, fn: Filename, ps: seq<Placement>, i: nat)
    requires Good(s) && fn in Visible(s) && PlacementsOf(s.db, fn, ps) && i < |ps|
    ensures forall a :: a in ps[i].locations ==>
      OnRecord(s.db, fn, ps[i].chunkId, a) && (a, ps[i].chunkId) in s.disk
    ensures |Elems(ps[i].locations)| >= s.r && ps[i].chunkId in s.content
  {
    hide Inv, DInv, Visible;
    PlacedSession(s, fn, ps);
    assert IdList(ps)[i] == ps[i].chunkId;
    forall a | a in ps[i].locations ensures OnRecord(s.db, fn, ps[i].chunkId, a) && (a, ps[i].chunkId) in s.disk {
      assert a in Elems(ps[i].locations);
      assert (ps[i].chunkId, a) in s.db.replicas;
      GoodDisk(s, ps[i].chunkId, a);
    }
  }

  lemma AnsweredDuring(s: State, es: seq<Event>, fn: Filename, ps: seq<Placement>, down: set<Address>, answer: Answers)
    requires Good(s) && Run(s, es) && Undisturbed(s, es, fn) && fn in Visible(s) && PlacementsOf(s.db, fn, ps)
    requires UpAnswersDuring(answer, s, es, down) && forall i :: 0 <= i < |ps| ==> SomeLeft(s, es, down, ps[i])
    ensures Answered(ps, answer)
  {
    hide Good, Undisturbed, Visible, FirstAnswer, PlacementsOf, Purged, HeldThroughout;
    forall i | 0 <= i < |ps| ensures FirstAnswer(ps[i].locations, answer, ps[i].chunkId).Some? {
      PlacedRows(s, fn, ps, i);
      assert SomeLeft(s, es, down, ps[i]);
      var a :| a in ps[i].locations && !Lost(s, es, down, a, ps[i].chunkId);
      HoldsAlong(s, es, fn, a, ps[i].chunkId);
      assert answer(a, ps[i].chunkId).Some?;
    }
  }

  lemma JoinedLater(s: State, t: State, fn: Filename, ps: seq<Placement>, answer: Answers)
    requires Inv(s) && fn in Visible(s) && PlacementsOf(s.db, fn, ps) && ContentGrows(s, t)
    requires Honest(answer, t.content) && Answered(ps, answer)
    ensures ReadsWhole(s, fn, ps, answer)
  {
    PlacedSession(s, fn, ps);
    SortSorted(ps);
    Joined(ps, answer, t.content, s.sessions[s.current[fn]].pieces);
  }

  /** Servers that answer only for what they must. */
  ghost function Minimal(s: State, es: seq<Event>, down: set<Address>): Answers
    requires Run(s, es)
  {
    var content := After(s, es).content;
    (a, id) =>
      if a !in down && HeldThroughout(s, es, a, id) && id in content then Some(content[id]) else None
  }

  lemma MinimalIsAllowed(s: State, es: seq<Event>, down: set<Address>)
    requires Inv(s) && Run(s, es)
    ensures AnswersDuring(Minimal(s, es, down), s, es, down)
  {
    hide Run, Enabled, Apply;
    RunContent(s, es);
    forall a, id | HeldThroughout(s, es, a, id) ensures id in After(s, es).content {
      HeldUsed(s, id, a);
    }
  }

  lemma HeldUsed(s: State, id: ChunkId, a: Address)
    requires Inv(s) && (a, id) in s.disk
    ensures id in s.content
  {}

  lemma MinimalSilent(s: State, es: seq<Event>, fn: Filename, ps: seq<Placement>, down: set<Address>, i: nat)
    requires Good(s) && Run(s, es) && Undisturbed(s, es, fn) && fn in Visible(s) && PlacementsOf(s.db, fn, ps)
    requires i < |ps| && !SomeLeft(s, es, down, ps[i])
    ensures Fetched(ps, Minimal(s, es, down)).None?
  {
    hide Good, Undisturbed, Visible, PlacementsOf, Purged, HeldThroughout, Run;
    var answer := Minimal(s, es, down);
    PlacedRows(s, fn, ps, i);
    forall a | a in ps[i].locations ensures answer(a, ps[i].chunkId).None? {
      assert Lost(s, es, down, a, ps[i].chunkId);
      HoldsAlong(s, es, fn, a, ps[i].chunkId);
    }
    assert !Answered(ps, answer);
    SortedAnswered(ps, answer);
  }

  /** From GetFile in a reachable state on, while nobody overwrites or deletes the file: the read loop
      is sure to complete with the bytes committed at its GetFile, whatever writers, scrubs and healing
      do meanwhile, if and only if each chunk keeps a listed location that is up and not scrubbed. */
  lemma OverlapExactly(r: int, run: seq<Event>, s: State, es: seq<Event>, fn: Filename, ps: seq<Placement>,
      down: set<Address>)
    requires Reached(r, run, s) && fn in Visible(s) && PlacementsOf(s.db, fn, ps)
    requires Run(s, es) && Undisturbed(s, es, fn)
    ensures (forall answer :: AnswersDuring(answer, s, es, down) ==> ReadsWhole(s, fn, ps, answer))
      <==> forall i :: 0 <= i < |ps| ==> SomeLeft(s, es, down, ps[i])
  {
    hide Reached, Undisturbed, UpAnswersDuring, PlacementsOf, Visible, Run, Answered, Fetched, Inv, Honest, SomeLeft;
    hide CountInv, DInv;
    ReachedGood(r, run, s);
    if forall i :: 0 <= i < |ps| ==> SomeLeft(s, es, down, ps[i]) {
      forall answer | AnswersDuring(answer, s, es, down) ensures ReadsWhole(s, fn, ps, answer) {
        AnsweredDuring(s, es, fn, ps, down, answer);
        RunContent(s, es);
        JoinedLater(s, After(s, es), fn, ps, answer);
      }
    } else {
      var i :| 0 <= i < |ps| && !SomeLeft(s, es, down, ps[i]);
      MinimalIsAllowed(s, es, down);
      MinimalSilent(s, es, fn, ps, down, i);
      assert !ReadsWhole(s, fn, ps, Minimal(s, es, down));
    }
  }

  lemma FewLost(s: State, es: seq<Event>, down: set<Address>, p: Placement)
    requires Run(s, es) && |Elems(p.locations)| > |set a | a in p.locations && Lost(s, es, down, a, p.chunkId)|
    ensures SomeLeft(s, es, down, p)
  {
    hide Lost;
    var lost := set a | a in p.locations && Lost(s, es, down, a, p.chunkId);
    if Elems(p.locations) <= lost {
      SubsetSize(Elems(p.locations), lost);
    } else {
      var a :| a in Elems(p.locations) && a !in lost;
    }
  }

  /** So it completes while fewer than R listed holders of each chunk are down or scrubbed. */
  lemma OverlappingRead(r: int, run: seq<Event>, s: State, es: seq<Event>, fn: Filename, ps: seq<Placement>,
      down: set<Address>, answer: Answers)
    requires Reached(r, run, s) && fn in Visible(s) && PlacementsOf(s.db, fn, ps)
    requires Run(s, es) && Undisturbed(s, es, fn) && AnswersDuring(answer, s, es, down)
    requires forall p :: p in ps ==> |set a | a in p.locations && Lost(s, es, down, a, p.chunkId)| < r
    ensures ReadsWhole(s, fn, ps, answer)
  {
    hide Reached, Good, Undisturbed, AnswersDuring, PlacementsOf, Visible, Run, ReadsWhole, Lost;
    ReachedGood(r, run, s);
    forall i | 0 <= i < |ps| ensures SomeLeft(s, es, down, ps[i]) {
      PlacedRows(s, fn, ps, i);
      assert ps[i] in ps;
      FewLost(s, es, down, ps[i]);
    }
    OverlapExactly(r, run, s, es, fn, ps, down);
  }

  // ---- a read during a whole pass ----

  /** Steps of the healing pass and of the disks. */
  ghost predicate Background(es: seq<Event>) {
    forall i :: 0 <= i < |es| ==> es[i].ByHeal? || es[i].ByDisk?
  }

  lemma {:induction false} BackgroundUndisturbed(s: State, es: seq<Event>, fn: Filename)
    requires DRun(s, es) && Background(es)
    ensures Undisturbed(s, es, fn)
    decreases |es|
  {
    hide Enabled, Disciplined, Apply;
    if es != [] {
      assert forall i :: 0 <= i < |es[1..]| ==> es[1..][i] == es[i + 1];
      BackgroundUndisturbed(Apply(s, es[0]), es[1..], fn);
    }
  }

  lemma {:induction false} TraceBackground(content: ContentMap, xs: seq<Repair>)
    ensures Background(TraceEvents(content, xs))
  {
    if xs != [] {
      TraceBackground(content, xs[1..]);
      assert Background(RepairEvents(content, xs[0]));
    }
  }

  /** A whole healing pass may go on during a read: without scrubs, and with fewer than R servers down,
      the read completes, although the pass retires replicas the reader was given. */
  lemma ReadDuringPass(r: int, run: seq<Event>, s: State, live: set<Address>, xs: seq<Repair>, fn: Filename,
      ps: seq<Placement>, down: set<Address>, answer: Answers)
    requires Reached(r, run, s) && s.healer.Idle? && |live| >= r && ValidTrace(s.db, r, live, xs)
    requires fn in Visible(s) && PlacementsOf(s.db, fn, ps) && |down| < r
    requires var es := PassEvents(s.content, live, xs); Run(s, es) ==> AnswersDuring(answer, s, es, down)
    ensures var es := PassEvents(s.content, live, xs); Run(s, es) && Undisturbed(s, es, fn)
    ensures ReadsWhole(s, fn, ps, answer)
  {
    hide Reached, AnswersDuring, PlacementsOf, Visible, Run, After, ReadsWhole, Purged, TraceEvents, ValidTrace;
    var es := PassEvents(s.content, live, xs);
    var t := PassRuns(r, run, s, live, xs);
    TraceBackground(s.content, xs);
    BackgroundUndisturbed(s, es, fn);
    NoScrubs(s.content, live, xs);
    forall a, id ensures !Purged(s, es, a, id) { UnscrubbedKept(s, es, a, id); }
    forall p | p in ps ensures |set a | a in p.locations && Lost(s, es, down, a, p.chunkId)| < r {
      var lost := set a | a in p.locations && Lost(s, es, down, a, p.chunkId);
      SubsetSize(lost, down);
    }
    OverlappingRead(r, run, s, es, fn, ps, down, answer);
  }

  ghost predicate Unscrubbed(es: seq<Event>) {
    forall i :: 0 <= i < |es| ==> es[i].ByDisk? ==> !es[i].v.ScrubApply?
  }

  lemma {:induction false} TraceUnscrubbed(content: ContentMap, xs: seq<Repair>)
    ensures Unscrubbed(TraceEvents(content, xs))
  {
    if xs != [] {
      TraceUnscrubbed(content, xs[1..]);
      assert Unscrubbed(RepairEvents(content, xs[0]));
    }
  }

  lemma NoScrubs(content: ContentMap, live: set<Address>, xs: seq<Repair>)
    ensures Unscrubbed(PassEvents(content, live, xs))
  {
    TraceUnscrubbed(content, xs);
  }

  lemma {:induction false} UnscrubbedKept(s: State, es: seq<Event>, a: Address, id: ChunkId)
    requires Run(s, es) && Unscrubbed(es)
    ensures !Purged(s, es, a, id)
    decreases |es|
  {
    hide Enabled, Apply;
    if es != [] {
      assert forall i :: 0 <= i < |es[1..]| ==> es[1..][i] == es[i + 1];
      UnscrubbedKept(Apply(s, es[0]), es[1..], a, id);
    }
  }
}
