# Verification model of the replicated file store

The system is a small GFS: clients split a file into 1 KB chunks, a naming server places each chunk on R
storage servers and keeps the file/chunk/replica tables, clients write the chunks and then commit, reads
fall back from replica to replica, and a background pass copies chunks off servers that died.

No single function shows that a file stays readable, whole and R-way replicated; the argument is about
the three programs together. The project has two layers.

**The protocol.** `Protocol` is a state machine in which every SQL statement and every RPC delivery is a
step of its own: client writes, DeleteFile handlers and the pending cleanup, the healing pass with its
gap between `add_replica` and `remove_replica`, readers, orphan scrubs, naming-server crashes. Messages
are never consumed, so they may be lost, delayed, reordered and delivered twice. `Safety`, `Reads`,
`Replication`, `RowSteps` and `PassSteps` prove what holds in *every* interleaving. `Discipline` adds
the assumptions that the code itself relies on and proves the disk invariant, the refinement to a plain
map (`Refinement`), healing passes as runs (`HealRuns`), completed writes and reads (`Progress`), what
deletes and scrubs take off the disks (`Orphans`), reads that overlap with everything else
(`OverlappingReads`) and fault tolerance (`FaultTolerance`), also over whole histories in which servers
fail, come back and fail again (`Histories`). `Assumptions` shows, from every reachable state, a run
that breaks each assumption and the guarantee with it, and the exact condition under which the code
keeps it.

**The programs.** `Tables`/`MetadataStore`, `Repairs`/`Healer`, `Registry`, `NamingServer`, `Chunking`,
`Upload`, `Fetch` and `StorageServer` model the Python code in its own form: classes whose methods update
fields, loops with invariants, each proved against a specification function about which the lemmas are
stated. `NamingServer.CreateIsStep`, `Orphans.DeleteRuns`, `Orphans.CleanupRuns`,
`Upload.CommitAfterAllStored`, `HealRuns.PassRuns` and `FaultTolerance.ReadSucceeds` tie them to the protocol.

The assumptions of a disciplined run (`Discipline.Disciplined`):

- one write session in flight per name, since CommitFile carries only the filename;
- CreateFile's deletes of the old chunks start together with the metadata swap;
- the pending cleanup does not remove a name that committed after it was listed;
- a scrub is not applied when the expected set it read lacks an acknowledged copy that is recorded there
  by now, or a repair copy that is stored there and about to be recorded.

In all runs chunk ids are fresh (`uuid4`), `get_file` sees one state of the tables (what happens otherwise
is `Reads.TwoSelectsExact`), and a server that comes back has its disk intact.

Where the documentation and the code differ, the code is followed: `docs/ARCHITECTURE.md:23` says
DeleteFile deletes the replicas and then the metadata, and `gfs/naming_server/metadata.py:355-357` says
the same of the cleanup, but both drop the metadata first; `docs/testing-plan.md:130` calls a repeated
delete a no-op, but the handler answers "file not found"; `gfs/client/client.py:129` says a failed upload
cancels the others, but the pool waits for all of them.

Verify with `dafny verify dfyconfig.toml --resource-limit 2000000 --verification-time-limit 0`.

## Model

| member | source | states |
|---|---|---|
| Refinement.RunRefines | gfs/naming_server/server.py:212-324 | every disciplined fine-grained run, seen through the committed names and their bytes, is a run of a plain map: accepted create removes the name, commit binds it to that writer's bytes, delete removes it; heal, cleanup, scrub, crash, reads and message traffic stutter |
| Refinement.StepRefines | gfs/naming_server/server.py:212-313 | the one-step simulation behind it, for each kind of step |
| Refinement.ReadsAnswerFromMap | gfs/client/client.py:137-146 | a read that starts after any disciplined history and completes returns what the plain map holds at its GetFile, whatever runs meanwhile |
| Progress.ReadCompletes | gfs/client/client.py:137-196 | a read that starts while each of its chunks is held by some server that is up completes by fetching from such servers only, with the bytes its name had when it started |
| Progress.ReadStarts | gfs/naming_server/metadata.py:181-209 | a read can start if and only if its name is committed, and only with the id list of the session that owns the name |
| Progress.ReadDespiteLosses | gfs/client/client.py:148-196 | in every reachable state and with any R-1 servers down every committed file can be read to its end from the others |
| Reads.ReadsAreWhole | gfs/client/client.py:137-196 | in every interleaving, concurrent writers of the name included, a read that has all its parts equals the bytes of exactly one create session of that name |
| Reads.ReadReturnsSnapshotValue | gfs/client/client.py:137-196 | linearisation: a complete read returns the value its name had when the read took its snapshot |
| Reads.SizeAgreesWithContent | gfs/naming_server/server.py:316-324 | the size and chunk count answered from metadata are those of the bytes a reader gets |
| Reads.MetadataFirst | gfs/naming_server/server.py:288-306 | in every interleaving, whenever DeleteFile or the cleanup is about to send DeleteChunk for an id, the id has left the tables, even if the name was overwritten between the two statements |
| Reads.NeverBack | gfs/naming_server/metadata.py:150-155 | such an id never returns to the tables, whatever happens afterwards |
| Reads.TwoSelects | gfs/naming_server/metadata.py:181-209 | with the second SELECT on a later state, the ids read are one whole session's, or none at all if the name is gone |
| Reads.TwoSelectsExact | gfs/naming_server/metadata.py:181-209 | the unsynchronised pair of SELECTs answers with some session of the name if and only if the name still exists at the second SELECT or some session of it was empty |
| Reads.InvWf | gfs/naming_server/metadata.py:45-71 | every state any run reaches has well-formed tables: foreign keys hold and each file's indices are exactly 0..num_chunks-1, once each |
| Safety.StepKeeps | gfs/storage_server/server.py:68-214 | every step of every interleaving keeps: all copies of a chunk id, on disk or in flight, are the writer's piece; the rows under a name are one session's; late deletes concern only ids that are gone |
| Safety.SnapshotIsSession | gfs/naming_server/metadata.py:193-209 | rows read in strictly ascending index order are exactly the id list of the session that owns the name |
| Discipline.StepDisciplined | gfs/client/client.py:104-135 | upload-all-then-commit, heal, metadata-first delete, overwrite and scrub each keep the relation between recorded replicas, acknowledgements and disks |
| Discipline.DiskInvariant | gfs/naming_server/server.py:185-197 | every recorded replica of a committed chunk is on that server's disk with the writer's bytes |
| Discipline.DRunKeeps | gfs/naming_server/server.py:130-149 | all invariants hold at the end of every disciplined run |
| RowSteps.ExactCount | gfs/naming_server/server.py:174-197 | in every reachable state a chunk has exactly R replica rows, one more while the pass is between its add and its remove, and one more for each time a pass was ever stopped, or the naming server crashed, in the gap of that chunk |
| RowSteps.AtLeastR | gfs/naming_server/server.py:174-197 | every chunk row has at least R distinct replica addresses in every reachable state, naming-server crashes between add and remove included |
| RowSteps.ExactlyR | gfs/naming_server/server.py:174-197 | the count is exactly R, plus one for the chunk in the gap, if and only if no pass was ever stopped in the gap of this chunk |
| Replication.RepairFindsStale | gfs/naming_server/server.py:193-197 | the guard `if stale_locations` is always true on a recorded repair of a chunk that still exists |
| Replication.StepCounts | gfs/naming_server/metadata.py:157-178 | every step of every interleaving keeps the lower bound, and the exact count unless it stops a pass in its gap |
| Assumptions.GapCrash | gfs/naming_server/server.py:189-197 | from every reachable state with a committed chunk that has a live and a dead replica, a run of the pass that a crash ends in the gap leaves R+1 rows and no pass in progress; `RowSteps.ExactlyR` is the exact condition |
| Repairs.TraceDeficit | gfs/naming_server/server.py:171-202 | under any copy failures the number of repairs equals the drop in the total deficit of chunks with a live source |
| Repairs.TraceBounds | gfs/naming_server/server.py:171-202 | no pass drops a live address, lowers a live count, or lifts one above max(before, R); a chunk without live source stays without |
| Repairs.TraceCounts | gfs/naming_server/server.py:193-197 | from at least R rows, a pass never changes the number of rows of a chunk and every repair retires a dead one |
| Repairs.Converges | gfs/naming_server/server.py:151-202 | a full pass from exactly R rows with R live servers and a live source per chunk ends with R rows per chunk, all live |
| Repairs.PassExists | gfs/naming_server/server.py:171-202 | for every state of the tables and every live set of at least R servers there is a pass that settles every chunk with a live source |
| Repairs.ShortCircuitSound | gfs/naming_server/server.py:162-169 | given at least R rows per chunk, all known addresses live means that no chunk is under-replicated |
| Repairs.ShortCircuitNeedsCount | gfs/naming_server/server.py:162-169 | without that bound the skip can hide a repair, on a well-formed store |
| Healer.HealOnce | gfs/naming_server/server.py:151-202 | the pass performs a sequence of valid repairs, returns the drop in the total deficit, returns 0 on too few servers or on the short-circuit, settles every chunk it could, and converges when no copy fails |
| Healer.HealChunk | gfs/naming_server/server.py:174-201 | the inner loop over one chunk: each recorded copy is a valid repair that succeeded, taken from the first live location of the chunk, and the chunk ends with R live rows or with every other live server having refused |
| Healer.RecordCopy | gfs/naming_server/server.py:188-197 | one recorded copy is one repair; when the chunk is gone the insert is refused and the tables stay as they are |
| Healer.SecondPassIdle | gfs/naming_server/server.py:168-169 | after a converged pass the known addresses are all live and the query finds nothing, so a second pass returns 0 |
| HealRuns.PassRuns | gfs/naming_server/server.py:151-202 | any valid sequence of repairs from a reachable state with no pass in progress is one disciplined fine-grained pass with real copies, invisible to readers |
| HealRuns.FailedCopyRuns | gfs/naming_server/server.py:185-201 | a copy that fails leaves tables and disks alone and the pass goes on with the same selection |
| HealRuns.ReachableShortCircuit | gfs/naming_server/server.py:162-169 | in every reachable state the short-circuit hides no repair |
| HealRuns.ReachableHealable | gfs/naming_server/server.py:151-202 | in a reachable state at rest in which no pass was ever stopped in a gap, the hypothesis under which a pass without failures converges holds if and only if every committed chunk has a live replica |
| FaultTolerance.AnyFewFail | gfs/client/client.py:148-196 | after any disciplined run, with any R-1 servers down, the read loop on GetFile's placements returns every committed file with the bytes the plain map has |
| Histories.Alternation | gfs/naming_server/server.py:151-202 | for any number of rounds in which servers fail and a pass runs among all other steps, with lost servers coming back in between, every committed file none of whose chunks is exposed reads back byte for byte whichever further R-1 servers are down; exposed are exactly the chunks a pass left short |
| PassSteps.PassFollows | gfs/naming_server/server.py:171-202 | in every interleaving, while a pass goes on, a chunk it selected that had a live copy loses dead rows and gains live ones only, and every other chunk of the tables keeps its rows |
| Histories.PassRestoresExactly | gfs/naming_server/server.py:171-202 | however far a pass comes, whichever steps of others fall between its scan and its end and however it ends, a chunk has R replicas beside all lost servers if and only if it was committed at the scan and has R live copies, or was pending and not short: the pass looks at committed chunks only (gfs/naming_server/metadata.py:313) |
| Histories.FullPassExactly | gfs/naming_server/server.py:174-202 | after an outage of up to R-1 servers, a pass that works through its selection leaves short exactly the exposed committed chunks without a live copy and the pending ones that were short before |
| Histories.PendingThroughPass | gfs/naming_server/metadata.py:300-324 | from every reachable state: a server that acknowledged an upload fails, the pass skips the pending file, the file commits, and the loss of R-1 more servers makes it unreadable |
| Histories.TolerantExactly | gfs/client/client.py:148-196 | a committed file survives the loss of any further R-1 servers if and only if each of its chunks has R recorded replicas beside the servers lost already |
| Histories.OutageKeeps | gfs/naming_server/server.py:171-202 | an outage with its pass, among any other disciplined steps that place nothing on lost servers, is a disciplined run after which a chunk counts as exposed if and only if it has fewer than R replicas beside the lost servers, those created meanwhile included |
| Histories.ComebackKeeps | gfs/storage_server/server.py:271-295 | servers that come back with their disks count again, and no chunk gets exposed |
| Histories.OutageExists | gfs/naming_server/server.py:151-202 | every history can go on: after a failure of more servers that leaves R live a full pass exists, one that touches committed chunks only |
| Histories.EnduredRobust | gfs/naming_server/server.py:151-202 | every history is a disciplined run, after which each chunk that is not exposed has R replicas beside the servers lost |
| FaultTolerance.StepEnough | gfs/naming_server/server.py:185-256 | every step that places nothing on lost servers keeps R rows beside them for every chunk that had them |
| FaultTolerance.ReadSucceeds | gfs/client/client.py:148-196 | a committed file reads back whole as long as each chunk has one recorded replica up |
| FaultTolerance.ReadIsWholeOrError | gfs/client/client.py:148-196 | in every interleaving and whatever servers answer or not, the read loop gives the whole file or an error |
| OverlappingReads.OverlapExactly | gfs/client/client.py:137-196 | a read that overlaps with healing, scrubs and writes of other names is sure to complete with the bytes committed at its GetFile if and only if each chunk keeps a listed location that is up and whose copy no scrub took |
| OverlappingReads.OverlappingRead | gfs/client/client.py:137-196 | so it completes while fewer than R listed holders of each chunk are down or scrubbed |
| OverlappingReads.ReadDuringPass | gfs/naming_server/server.py:171-202 | a whole healing pass may go on during a read, although it retires replicas the reader was given: with fewer than R servers down and no scrub the read completes |
| OverlappingReads.RunHolds | gfs/storage_server/server.py:186-265 | while nobody overwrites or deletes the file, a copy of one of its chunks is on its disk in every state of the run if and only if no scrub took it |
| OverlappingReads.PurgedWhenRetired | gfs/naming_server/server.py:193-197 | a scrub takes a copy that was recorded when the read began only after healing retired its row |
| Progress.WriteCompletes | gfs/client/client.py:81-135 | from every reachable state a client whose servers answer can finish its write by a disciplined run, after which the name holds its bytes and nothing else changed for readers |
| Progress.ClosedForGood | gfs/naming_server/server.py:263-269 | in every interleaving a session that committed or gave up never commits again |
| Progress.RetryCompletes | gfs/client/client.py:122-135 | a client that gave up its upload can write the name again, and the abandoned session never commits |
| Orphans.ScrubCollects | gfs/storage_server/server.py:246-265 | a scrub in one go removes exactly what its server holds without a replica row, and nothing elsewhere; it keeps to the assumptions if and only if no repair copy there waits to be recorded |
| Orphans.DeleteRuns | gfs/naming_server/server.py:288-313 | from every reachable state a DeleteFile that runs to its end drops the rows and then takes exactly the copies of its fan-out off the disks |
| Orphans.CleanupRuns | gfs/naming_server/server.py:135-147 | so does the pending cleanup for a file its query lists, and no reader sees a difference |
| Orphans.CrashOrphans | gfs/naming_server/server.py:288-313 | when the naming server dies between the two, the copies stay and no handler is left to delete them; the next scrub of each server takes its part |
| Assumptions.TwoWriters | gfs/naming_server/server.py:263-269 | from every reachable state two writers of one name reach a committed file no server holds a chunk of |
| Assumptions.CommitExact | gfs/naming_server/server.py:263-269 | in every interleaving a commit publishes the chunks of the session that commits if and only if that session still owns the name, or neither it nor the owner has chunks |
| Assumptions.CommitKeepsRowsExactly | gfs/naming_server/server.py:263-269 | in every interleaving a commit keeps recorded, acknowledged and stored copies consistent if and only if every replica row under the name is acknowledged, whoever wrote it |
| Assumptions.EarlyDeletes | gfs/naming_server/server.py:228-248 | deletes that start before the metadata swap can remove every copy of a chunk of a file that stays committed |
| Assumptions.DeleteExact | gfs/storage_server/server.py:186-199 | delivering a delete keeps those consistent if and only if it takes neither an acknowledged copy that is recorded nor a repair copy about to be recorded |
| Assumptions.ScrubExact | gfs/storage_server/server.py:250-259 | a scrub keeps the disk invariant if and only if the expected set it read has every acknowledged copy recorded there by now, of pending files too, and the repair copy that is stored there and about to be recorded |
| Assumptions.CopySurvives | gfs/storage_server/server.py:250-259 | one recorded copy of a committed chunk survives a scrub if and only if its id was in the expected set read before |
| Assumptions.ScrubRace | gfs/storage_server/server.py:246-259 | a write completed between the two halves of a scrub loses its copy there |
| Assumptions.RepairScrubRace | gfs/naming_server/server.py:188-189 | a scrub of the target between ReplicateChunk and `add_replica` takes the new copy away and the row is recorded all the same: a committed chunk then has a recorded replica that its server lacks |
| Assumptions.CleanupRace | gfs/naming_server/server.py:137-139 | a file that commits after the cleanup listed it is removed although nobody deleted it |
| Assumptions.CleanupExact | gfs/naming_server/server.py:137-139 | in every interleaving the cleanup's delete is invisible to readers if and only if the file it listed has not committed since |
| Assumptions.TornSelects | gfs/naming_server/metadata.py:181-209 | a delete between the two SELECTs shows an empty file under a name no writer wrote empty |
| Fetch.FetchChunksBatched | gfs/client/client.py:148-196 | the loop returns, per chunk in index order, the answer of the first listed location that has one; it fails exactly when some chunk is silent at all its locations (ids distinct), naming those chunks; the servers asked for a chunk are exactly those all of whose predecessors in its list were silent, each asked once; it needs no more rounds than the longest location list |
| Fetch.FirstAnswerIs | gfs/client/client.py:164-170 | the answer used for a chunk is that of a location before which all listed ones are silent |
| Fetch.Round | gfs/client/client.py:158-191 | one round of requests keeps the loop invariant and lowers the number of untried (chunk, location) pairs, or there is nobody left to ask |
| Fetch.SortAscending | gfs/client/client.py:145-146 | the placements are reordered into ascending index order |
| Upload.Create | gfs/client/client.py:81-135 | CommitFile is called exactly when every batch of every server was acknowledged, and then each planned copy was sent exactly once; on any failure none was sent twice; no batch exceeds 1024 |
| Upload.Group | gfs/client/client.py:94-99 | the grouping loop gives each server its writes in plan order and has no empty entry |
| Upload.UploadTo | gfs/client/client.py:104-120 | one server gets its writes in consecutive batches up to the first that is not acknowledged |
| Upload.UploadAll | gfs/client/client.py:122-129 | over all servers, what was sent is at most the plan, and all of it exactly when everything was acknowledged |
| Upload.PlanIsLayout | gfs/client/client.py:94-99 | the plan holds each (address, chunk, payload) exactly once, R times n in all, and its pairs are the replica rows recorded at create |
| Upload.CommitAfterAllStored | gfs/client/client.py:104-135 | when every batch of the plan is acknowledged, and servers acknowledge only what they stored, the protocol's commit step is enabled |
| Upload.AckedAllStored | gfs/client/client.py:104-129 | every batch acknowledged means every planned copy stored |
| Upload.StoredAcks | gfs/storage_server/server.py:103-139 | once every planned copy is stored no acknowledgement is premature |
| Upload.AcceptedPlan | gfs/client/client.py:81-99 | the placements of an accepted create fit the pieces of the data |
| Chunking.NumChunksForSize | gfs/config.py:20-24 | the least number of 1024-byte chunks that hold the size, 0 for sizes up to 0 |
| Chunking.Slices | gfs/client/client.py:76-78 | the slices join to the input and all but the last are full |
| Chunking.SplitCount | gfs/client/client.py:76-87 | the client's piece count is the number of chunks for its size |
| Chunking.SplitUnique | gfs/client/client.py:76-78 | any cut into full pieces and a non-empty last one is the client's cut |
| NamingServer.NamingServer.CreateFile | gfs/naming_server/server.py:212-261 | accepted if and only if enough servers are live at the first check and at each pick, with heartbeats and other handlers' picks in between; then the tables are swapped in one transaction with R distinct servers live at that pick per chunk, a well-formed store stays well formed, and the cleanup finds the new file stale exactly for cutoffs after its creation; a rejected create leaves the tables alone, yet has started to delete the old chunks exactly when the first check passed, a later pick fell short and the name had replicas |
| NamingServer.CreateIsStep | gfs/naming_server/server.py:228-260 | an accepted create is the protocol's create step, its started deletes being the messages of that step |
| NamingServer.NamingServer.GetFile | gfs/naming_server/server.py:272-285 | answers for committed names only, with a snapshot of the rows in index order and every recorded address, live ones first |
| NamingServer.LiveFirstOrder | gfs/naming_server/server.py:445-449 | a permutation of the locations with no dead server before a live one |
| NamingServer.LiveFirstStable | gfs/naming_server/server.py:445-449 | the live ones and the others each stay in their order |
| NamingServer.NamingServer.DeleteFile | gfs/naming_server/server.py:288-313 | drops the tables' rows first and then fans out to every replica row the file had; an unknown name changes nothing |
| NamingServer.NamingServer.CleanupPass | gfs/naming_server/server.py:135-147 | removes the files that have been pending for longer than the maximal age, all of them and nothing else, before deleting exactly their replicas |
| NamingServer.CommittedNotStale | gfs/naming_server/metadata.py:358-365 | the query of the cleanup never lists a committed file, however old |
| NamingServer.NamingServer.Heal | gfs/naming_server/server.py:155-202 | the pass as the server runs it, on a pick of all live servers: the returned count is the drop in the deficit, 0 on too few servers or the short-circuit, every chunk settled that could be, converged when no copy fails |
| Registry.StorageRegistry.Pick | gfs/naming_server/server.py:57-65 | the next `count` servers of the sorted live list, wrapping around; the cursor advances unless nobody is live |
| Registry.StorageRegistry.LiveServers | gfs/naming_server/server.py:49-55 | exactly the servers heard from within the last 15 seconds, each once |
| Registry.StorageRegistry.MarkAlive | gfs/naming_server/server.py:41-43 | the server counts as live for the next 15 seconds, not later unless it is heard from again, and nobody else is affected |
| Registry.StorageRegistry.MarkDead | gfs/naming_server/server.py:45-47 | the server leaves the live set at every moment until it is heard from again, and nobody else is affected |
| Registry.PickIs | gfs/naming_server/server.py:57-65 | a pick is min(count, N) distinct live servers, those within `count` places after the cursor |
| Registry.PickOrder | gfs/naming_server/server.py:62-65 | they come in the order of the sorted list from the cursor on, around its end |
| Registry.SortOfSet | gfs/naming_server/server.py:62 | the sorted list depends only on which servers are live |
| Registry.TextLeqIs | gfs/naming_server/server.py:62 | the order of the sort is that of the first differing character, a proper prefix first |
| Registry.HeardLast | gfs/naming_server/server.py:41-43 | of several heartbeats of one server the last one counts |
| Registry.HeardNot | gfs/naming_server/server.py:41-43 | the heartbeats of other servers change nothing for a server |
| Registry.FullTurn | gfs/naming_server/server.py:244-253 | any N consecutive picks over a fixed live set, wherever the cursor stands, give every server exactly R chunks |
| Registry.Balanced | gfs/naming_server/server.py:244-253 | after any number of consecutive picks two servers' loads differ by at most min(R, N-R) |
| Registry.BalancedTight | gfs/naming_server/server.py:244-253 | that bound is reached |
| Tables.WritesKeepWf | gfs/naming_server/metadata.py:119-178 | every history of create, commit, delete, add and remove keeps foreign keys and the indices 0..num_chunks-1, once each |
| Tables.LegalExtends | gfs/naming_server/metadata.py:119-178 | such a history can go on with any write, except a create under ids in use |
| Tables.CreatePendingWf | gfs/naming_server/metadata.py:119-138 | an overwrite with its cascade leaves a well-formed store |
| Tables.DropFileWf | gfs/naming_server/metadata.py:150-155 | a cascading delete leaves a well-formed store without a chunk of the file |
| MetadataStore.Store.CreatePending | gfs/naming_server/metadata.py:119-138 | the row-by-row inserts amount to the one atomic replacement of the file, its chunks and their replicas; the new row is pending and carries the time of its creation |
| MetadataStore.Store.AddReplica | gfs/naming_server/metadata.py:157-167 | True for a new row, False for one already there, an error for a deleted chunk; only the first changes the tables, so never a dangling row |
| MetadataStore.Store.GetFile | gfs/naming_server/metadata.py:181-209 | the LEFT JOIN fold equals the nested lookup, chunks without replicas kept, in strictly increasing index order |
| MetadataStore.FoldRows | gfs/naming_server/metadata.py:201-244 | the row loop over any legal answer computes the nested per-chunk lookup, without duplicates |
| MetadataStore.SnapshotIds | gfs/naming_server/metadata.py:193-209 | on a well-formed store the list has index i at place i, and all of them |
| MetadataStore.RoundTripIff | gfs/naming_server/metadata.py:309-323 | GROUP_CONCAT then split(",") gives the addresses back if and only if none contains a comma and they are not just one empty address |
| MetadataStore.UnderReplicatedChunks | gfs/naming_server/metadata.py:300-324 | from the groups that pass the HAVING clause over any legal join to exactly the under-replicated chunks with all their known addresses |
| MetadataStore.GroupsSelect | gfs/naming_server/metadata.py:270-317 | the grouped query selects exactly the committed chunks with fewer than R live replicas, once each, with their index and all their recorded addresses; so counting the groups counts those chunks |
| MetadataStore.GroupsAnswered | gfs/naming_server/metadata.py:300-317 | the grouped query has an answer for every state of the tables |
| MetadataStore.JoinAnswered | gfs/naming_server/metadata.py:193-199 | so has the join, and one in index order |
| MetadataStore.TablesStayClean | gfs/naming_server/metadata.py:119-178 | tables written with host:port addresses only hold such addresses, as the split of GROUP_CONCAT needs |
| MetadataStore.HavingIsLiveCount | gfs/naming_server/metadata.py:270-298 | the SUM of the HAVING clause over the joined rows is the number of live replicas |
| MetadataStore.FilterAgrees | gfs/naming_server/metadata.py:284-324 | filtering the full list by live count selects the same chunks, and as many, as the aggregate queries |
| MetadataStore.Store.KnownReplicaAddresses | gfs/naming_server/metadata.py:326-336 | an address is known if and only if some committed chunk has a replica there |
| MetadataStore.Store.ListChunkIdsFor | gfs/naming_server/metadata.py:345-352 | the expected set of a scrub: exactly the ids with a replica row at the address, of pending files too |
| StorageServer.CountersEqualDisk | gfs/storage_server/server.py:47-58 | after any serial sequence of stores, batches, replications, deletes and scrubs the counters equal the number and summed size of the chunks held, if and only if no scrub was cut short after removing something since the last that completed |
| StorageServer.SerialExtends | gfs/storage_server/server.py:68-214 | such a sequence can go on with any call, whatever the server did before |
| StorageServer.ScrubCounted | gfs/storage_server/server.py:255-265 | a scrub leaves right counters right exactly when it finishes or removes nothing |
| StorageServer.BatchWrites | gfs/storage_server/server.py:103-139 | a batch leaves under each id the payload it names last, duplicates included |
| StorageServer.BatchSpares | gfs/storage_server/server.py:103-139 | and under every other id what was there before |
| StorageServer.StorageServicer.StoreChunks | gfs/storage_server/server.py:103-139 | a batch has the effect of its single stores in order, up to the first chunk that cannot be written |
| StorageServer.StorageServicer.StoreChunk | gfs/storage_server/server.py:68-101 | stores or, on an I/O error, changes nothing, with the incremental counter update |
| StorageServer.StorageServicer.GetChunks | gfs/storage_server/server.py:157-184 | each id asked for is answered with its bytes or reported missing, never both |
| StorageServer.StorageServicer.DeleteChunk | gfs/storage_server/server.py:186-199 | afterwards the chunk is not held, every other one is as before, and the counters lost one chunk and its size if it was held |
| StorageServer.StorageServicer.ReplicateChunk | gfs/storage_server/server.py:201-214 | succeeds if and only if the source is in reach and holds the chunk and the write works; then both servers hold the same bytes |
| StorageServer.StorageServicer.CleanupOrphans | gfs/storage_server/server.py:250-265 | removes unexpected chunks in order and keeps all others; when it finishes, what is held is what was held and expected, and the counters are read anew; right counters stay right exactly when it finishes or removes nothing |
| StorageServer.ScanDisk | gfs/storage_server/server.py:47-57 | the start-up scan counts and sums the files held |

## Left out

- Two writers of one name, and a disk that is lost and comes back under the same address: the disk invariant is not claimed for them, because the code does not promise it (`Assumptions.TwoWriters`). Whole-or-error reads are claimed for two writers too.
- Assumptions.EarlyDeletes: the order in which CreateFile starts its deletes is a step of the protocol, but disciplined runs exclude it; they take the deletes together with the metadata swap.
- Histories.Alternation: a server that holds a committed chunk and is not live when a pass begins counts as failed; one that fails during the pass counts with the next outage.
- StorageServer.CountersEqualDisk: serial runs only; the size check and the counter update of two concurrent stores of one id are not one critical section.
- MetadataStore.Store.CreatePending: a constraint violation in the middle of the transaction is not modelled, because ids are fresh.
- Fetch.FetchChunksBatched: servers are asked in order rather than by a thread pool; each (server, chunk) pair has one answer, which loses nothing because none is asked twice.
- Healer.HealOnce: runs against a store nobody else writes during the pass, so no insert is refused; concurrent writers are covered by the protocol's healing steps, where a refused `add_replica` ends the pass.
- Healer.HealChunk: the same assumption, for one chunk's turn.
- NamingServer.NamingServer.Heal: the same assumption, for the whole pass.
- The SQLite engine, its file, WAL mode, indexes and the `created_at` migration: statements are atomic and a query's answer is any legal order of its rows.
- gRPC channels, timeouts, message sizes and retries: a call succeeds, fails, or takes effect and loses its reply.
- Threads, locks and wall-clock waiting: interleaved steps in the protocol; clock readings are parameters of the handlers.
- Listing and counting queries for display, metrics, logging, the command line, the simulation script and deployment files: no property of the stored files depends on them.
- Chunking.NumChunksForSize: integer arithmetic; the source divides floats by 1024, which is exact below 2 to the 53rd bytes.
