# Verified model of a cryptographic migration platform

The repository is a set of small services: agents that collect evidence, a gateway that queues scan jobs, a
dependency graph, risk scoring, migration planning, an approval workflow, and document search. This project
models the parts with a real algorithm or protocol and proves what they are for.

| file | what it models |
|---|---|
| `scan_jobs.dfy`, `scan_workers.dfy`, `scan_order.dfy` | the scan job table, any number of workers and cancels on it as a transition system, and first in, first out |
| `graph_engine.dfy`, `graph_paths.dfy`, `trust_chain.dfy` | backward search and issuer walk over a graph snapshot |
| `graph_projection.dfy`, `graph_snapshots.dfy`, `graph_composition.dfy`, `graph_answers.dfy`, `graph_contents.dfy` | building a snapshot from payloads, checking it, what it holds, and what the queries answer on it |
| `ike_format.dfy`, `ike_scanner.dfy`, `ike_exchange.dfy`, `ike_bytes.dfy` | the IKE_SA_INIT exchange of RFC 7296 |
| `ssh_format.dfy`, `ssh_scanner.dfy`, `ssh_bytes.dfy` | the first SSH packet of RFC 4253 and its SSH_MSG_KEXINIT |
| `risk_engine.dfy`, `risk_shares.dfy`, `planner.dfy`, `plan_items.dfy`, `plan_waves.dfy`, `plan_pipeline.dfy`, `plan_escalation.dfy` | scoring, planning, and the report's second wave function |
| `doc_chunks.dfy`, `chunk_packing.dfy`, `document_index.dfy` | paragraphs, greedy chunks, BM25 |
| `workflow_store.dfy`, `workflow_repository.dfy`, `workflow_runs.dfy`, `workflow_lifecycle.dfy` | tasks, approvals, cleanup |
| `file_discovery.dfy` | the bounded search of directory trees |
| `wrappers.dfy`, `stable_sort.dfy`, `dictionaries.dfy`, `big_endian.dfy` | shared: options and results, stable sorting, ordered dictionaries, byte order |

How things are represented:

- A database table is a sequence of rows; each connection block is one atomic step. In `scan_workers.dfy` steps
  of all participants interleave freely; the workflow store is run sequentially.
- A fresh uuid is the number of rows created before. Clocks, random bytes, the text of digests, rounding, the
  logarithm, path arithmetic and classifiers are parameters, so what is proved holds for all of them.
- Python floats are reals. Rounding is any monotone function that stays within 0.005 and keeps 0, 5, 50 and 100.
- Edge ids of the graph are the triple of their parts; node ids keep their text.
- Raw evidence payloads of the risk engine are represented by the sets of signals that are on.
- The searches for certificate files and for configuration files run the same code around different classifiers;
  `file_discovery.dfy` is that code for any classifier of paths.
- Query tokens are listed in the order in which Python happens to iterate their set; the ranking method is proved
  for every such order, and scores do not depend on it.
- Sorting routines of the languages and `ORDER BY` are one verified stable sort; the workflow cleanup is proved
  for every order a database may answer equal times in.

Where the code and what is said about it differ, the code is modelled:

- `cancel_job` promises that a terminal job cannot be cancelled, but writes without a guard after its read
  (`services/api-gateway/scan_jobs.py:259-269`): see `ScanWorkers.RacingCancelOverwritesSuccess` and, for exactly
  when a finished job stays finished, `ScanWorkers.FinishedIsFinalIff`.
- The message type of a notify payload is looked for behind the SPI (`agents/network-scanner/internal/scanner/ipsec.go:358-362`);
  section 3.10 of RFC 7296 puts it in front: see `IkeScanner.NotifyReadCorrectlyIff`.
- The report says that its Windows wave agrees with the planner's (`tools/report/build_operator_report.py:23-27`);
  it does exactly without dependencies and vendor blocks: see `PlanPipeline.ReportAgreesIff`.
- The loader accepts edges given with `source` and `target`, which the queries then ignore: see
  `GraphSnapshots.LoadedEdgeIsIndexedIff` and `GraphSnapshots.LoaderAcceptsIgnoredEdge`.
- Task creation tells a missing action from an empty one, cleanup does not: see `WorkflowRuns.CleanupDeletesIff`
  and `WorkflowRuns.CleanupDeletesWhatCreationKeepsApart`.
- A task can be set to approved without a decision: see `WorkflowRuns.BypassLeavesNoRecord` and
  `WorkflowRuns.ApprovedMeansRecordedIff`.
- The plan keeps one risk per asset by normalized score but orders and places by priority, so a new signal can move
  an asset to a later wave: see `PlanEscalation.EscalationCanMoveLater` and `PlanEscalation.AssetMovesLaterIff`.

## Model

| member | source | states |
|---|---|---|
| ScanJobs.ScanJobRepository.CreateJob | services/api-gateway/scan_jobs.py:127-157 | A created job gets a new id and is inserted as queued with the time of the call, no retries and no times of its own; every other row is untouched. |
| ScanJobs.ScanJobRepository.GetJob | services/api-gateway/scan_jobs.py:159-162 | The row with that id, or nothing. |
| ScanJobs.ScanJobRepository.MarkRunning | services/api-gateway/scan_jobs.py:195-208 | Reports whether the job was queued; only then does it become running, started at the time given; nothing else changes. |
| ScanJobs.ScanJobRepository.MarkFinished | services/api-gateway/scan_jobs.py:210-217 | Writes the outcome only over a running job; the log line is appended either way. |
| ScanJobs.ScanJobRepository.ClaimNextQueuedJob | services/api-gateway/scan_jobs.py:219-232 | Without competitors it claims an oldest queued job, and nothing exactly when none is queued. |
| ScanJobs.ScanJobRepository.RecordFailureAndMaybeRetry | services/api-gateway/scan_jobs.py:234-257 | Requeues while the new count is within the limit, otherwise fails the job; a missing job changes nothing; the answer says which. |
| ScanJobs.ScanJobRepository.CancelJob | services/api-gateway/scan_jobs.py:259-272 | Succeeds exactly on queued and running jobs and then leaves the job cancelled; otherwise nothing changes. |
| ScanJobs.SelectOldestIsAnAnswer | services/api-gateway/scan_jobs.py:225-227 | Ordering the queued ids by creation time and taking ten is an answer the claim query may give; it is empty exactly when nothing is queued. |
| ScanWorkers.TargetRow | services/api-gateway/scan_jobs.py:195-272 | Every way in which one step of any participant can change a row, with its retry count. |
| ScanWorkers.StepKeepsInv | services/api-gateway/worker.py:33-52 | The invariant of the whole system survives every step of every worker, creation and cancel. |
| ScanWorkers.MutualExclusion | services/api-gateway/worker.py:33-52 | In every interleaving no job is held by two workers, and a held job is running or has been cancelled, never queued. |
| ScanWorkers.StartBudget | services/api-gateway/scan_jobs.py:234-257 | With a fixed limit a job starts at most limit + 1 times; starts equal the retry count when queued or failed and one more when running or succeeded. |
| ScanWorkers.NoLostRetry | services/api-gateway/scan_jobs.py:238-254 | The retry count read in one block and written in the next never loses an update: the write adds exactly one, or matches no row. |
| ScanWorkers.CancelledIsAbsorbing | services/api-gateway/scan_jobs.py:195-272 | A cancelled job stays cancelled in every run. |
| ScanWorkers.FinishedIsFinalIff | services/api-gateway/scan_jobs.py:259-269 | From any state of the system: a succeeded or failed job keeps its status in every run if and only if no cancel that has read it still has to write. |
| ScanWorkers.PendingCancelHasRead | services/api-gateway/scan_jobs.py:262-264 | Such a pending cancel goes back to a moment of the run at which it read the job as queued or running. |
| ScanWorkers.ChangeBudget | services/api-gateway/scan_jobs.py:195-272 | With cancels as one step a job changes its status at most 2 * (limit + 1) times in every run. |
| ScanWorkers.ChangeBudgetWithRaces | services/api-gateway/scan_jobs.py:259-272 | With cancels in two steps at most one change is added, and then the job ends cancelled. |
| ScanWorkers.RacingCancelOverwritesSuccess | services/api-gateway/scan_jobs.py:259-272 | A concrete run in which a cancel overwrites a job that has already succeeded. |
| ScanWorkers.ProgressDecreases | services/api-gateway/worker.py:33-52 | Every step of a worker or pending cancel lowers a measure over all interleavings. |
| ScanWorkers.EveryRunEnds | services/api-gateway/worker.py:33-52 | Once no more work arrives, a run is no longer than the measure of its first state. |
| ScanWorkers.StuckMeansDrained | services/api-gateway/worker.py:33-37 | Where nothing can move, all workers are idle, no cancel is pending and the queue is empty. |
| ScanWorkers.RunScanJob | services/api-gateway/main.py:320-348 | Loads the input, then finishes or records the failure; a missing job changes nothing. |
| ScanWorkers.PollOnce | services/api-gateway/worker.py:33-52 | One round of the real poll loop is a run of the transition system, so every statement about runs covers it. |
| ScanOrder.RowsAreTheCreations | services/api-gateway/scan_jobs.py:127-157 | After any run the table holds one row per creation call, in that order, each with the time of its call. |
| ScanOrder.FirstCreatedFirstTried | services/api-gateway/scan_jobs.py:219-232 | In any reachable state the first job a worker tries is a queued one whose creation call has the least time among the queued ones. |
| ScanOrder.ClaimFirstCreated | services/api-gateway/scan_jobs.py:219-232 | First in, first out on the repository itself: a claim never returns a job while one created earlier is queued. |
| GraphEngine.BuildIndex | services/graph-service/app/graph_engine.py:22-33 | Each node is indexed with exactly its outgoing and incoming edges, in order; edges without an end are dropped. |
| GraphEngine.BlastRadius | services/graph-service/app/graph_engine.py:89-117 | Exactly the nodes other than the start whose shortest backward path over allowed edge types has a length from 1 to the limit, once each, with that length, by depth and id; the depth-lowering branch is never taken. |
| GraphEngine.IndexedAtItsEnds | services/graph-service/app/graph_engine.py:24-31 | An edge is listed under a node exactly when it leaves or enters it and has both ends. |
| GraphPaths.DistanceIff | services/graph-service/app/graph_engine.py:89-111 | The distance of a node is the number of edges of a shortest path of listed edges to the start, spelled out edge by edge, with the type filter and the depth limit. |
| StringOrder.StrLeIff | services/graph-service/app/graph_engine.py:116 | Ids are ordered by their characters at the first difference, a beginning before the whole. |
| TrustChains.TrustChain | services/graph-service/app/graph_engine.py:200-216 | A chain without repeats whose steps are first SIGNED_BY edges and that stops only at a node without issuer or with a listed one; it ends on cyclic graphs too. |
| TrustChains.IssuerIsFirst | services/graph-service/app/graph_engine.py:200-216 | The issuer of a node is the target of the first complete SIGNED_BY edge out of it, in snapshot order. |
| TrustChains.TrustChainIsUnique | services/graph-service/app/graph_engine.py:200-216 | The graph and the start determine the chain. |
| TrustChains.ChainFromMember | services/graph-service/app/graph_engine.py:200-216 | From a member the chain is the rest of the chain if it ends at a root, otherwise once around the cycle. |
| GraphProjection.HostEndsAmong | tools/graph_projection/project_stage2_fixtures.py:63-111 | Every edge a host payload gives rise to has both ends among the nodes it gives rise to. |
| GraphProjection.NetworkEndsAmong | tools/graph_projection/project_stage2_fixtures.py:114-213 | The same for a network payload. |
| GraphSnapshots.Projection.ProjectHost | tools/graph_projection/project_stage2_fixtures.py:63-111 | Fills the two dictionaries with the nodes and edges of the host payload and keeps a sound graph sound. |
| GraphSnapshots.Projection.ProjectNetwork | tools/graph_projection/project_stage2_fixtures.py:114-213 | The same for the network payload, the issuer edges following the chain with equal neighbours skipped. |
| GraphSnapshots.Validate | tools/graph_projection/project_stage2_fixtures.py:220-234 | Passes exactly the snapshots with distinct node and edge ids, known edge ends and confidences from 0 to 1. |
| GraphSnapshots.LoadGraphSnapshot | tools/graph_projection/graph_snapshot_loader.py:74-96 | Accepts exactly the well-formed node and edge lists; a reported duplicate really occurs twice. |
| GraphSnapshots.SoundGraphPasses | tools/graph_projection/graph_snapshot_loader.py:74-96 | Every sound graph passes both checks. |
| GraphSnapshots.BuildSnapshot | tools/graph_projection/project_stage2_fixtures.py:63-234 | For every host and network payload the projected snapshot passes validation and loading. |
| GraphSnapshots.LoadedEdgeIsIndexedIff | tools/graph_projection/graph_snapshot_loader.py:88-94 | An edge of an accepted snapshot is in the index of the whole snapshot exactly when it was given with from and to, and then at both its ends. |
| GraphSnapshots.LoaderAcceptsIgnoredEdge | tools/graph_projection/graph_snapshot_loader.py:88-94 | A snapshot with an edge given as source and target that loads and whose index is empty. |
| GraphComposition.ProjectedShape | tools/graph_projection/project_stage2_fixtures.py:114-213 | What the queries can see of a projected snapshot: the certificate path, the service using its leaf, the asset running the service. |
| GraphComposition.TrustChainOfProjection | tools/graph_projection/project_stage2_fixtures.py:196-213 | The trust chain from the leaf of a projected graph is the certificate path if and only if that path has no repeats. |
| GraphComposition.PathOfDistinctChain | tools/graph_projection/project_stage2_fixtures.py:206-213 | With distinct fingerprints and the leaf at most first in the chain, the path is the leaf followed by the chain in order. |
| GraphComposition.BlastRadiusOfProjection | tools/graph_projection/project_stage2_fixtures.py:114-213 | Backwards from the last certificate, each earlier one is at its distance in the chain, the service one further, the named asset one after that, and nothing else is reached. |
| GraphAnswers.ProjectAndQuery | tools/graph_projection/project_stage2_fixtures.py:144-213 | On the fields of the payload: the leaf is named by the first of four fingerprints that is there; with distinct fingerprints the chain is the leaf and then every chain entry that has a fingerprint, in order; backwards come the earlier certificates, the service and the named asset at their exact distances, and nothing else. |
| GraphAnswers.ChainIdsAreEntries | tools/graph_projection/project_stage2_fixtures.py:196-205 | The chain ids are those of all entries with a non-empty fingerprint, in order, and of no others. |
| GraphAnswers.SnapshotNodeIff | tools/graph_projection/project_stage2_fixtures.py:63-205 | The snapshot has exactly the nodes that the fields of the two payloads call for. |
| GraphAnswers.SnapshotEdgeIff | tools/graph_projection/project_stage2_fixtures.py:63-213 | And exactly the edges: packages, files and findings of the host, the service and its findings, and the issuer edges between neighbours of the certificate path. |
| GraphAnswers.WeakFindingIff | tools/graph_projection/project_stage2_fixtures.py:150-191 | There is a weak-key finding exactly for a known key size below 2048, a size of zero in the first place counting as missing. |
| GraphAnswers.BreakableIff | tools/graph_projection/project_stage2_fixtures.py:166-171 | A key is quantum-vulnerable exactly when its algorithm, in either place and any case, mentions RSA, DSA, DH, EC or ED25519. |
| GraphContents.SnapshotNodeSays | tools/graph_projection/project_stage2_fixtures.py:63-205 | Every node has the type, caption, source and confidence its payload gives it; where both payloads have a node of one id the network payload counts. |
| GraphContents.SnapshotEdgeSays | tools/graph_projection/project_stage2_fixtures.py:63-213 | Edges inferred from paths have confidence 0.7, service findings 0.9, all others 1, with the source of their payload. |
| IkeFormat.TransformsReadBack | agents/network-scanner/internal/scanner/ipsec.go:161-174 | Any list of encoded transforms is read back as their types and ids, whatever bytes follow. |
| IkeFormat.ProposalReadBack | agents/network-scanner/internal/scanner/ipsec.go:320-348 | The body of an SA payload gives back the transforms its first proposal was built from. |
| IkeFormat.ChainReadBack | agents/network-scanner/internal/scanner/ipsec.go:281-304 | A payload chain is taken apart into its payloads, whatever bytes follow it. |
| IkeFormat.WalkedBytesAreTheChain | agents/network-scanner/internal/scanner/ipsec.go:285-304 | Conversely, the bytes a walk has passed over are the encoding of what it found, and it stops only at the end, a cut-off header or a malformed payload. |
| IkeScanner.LastTransformWins | agents/network-scanner/internal/scanner/ipsec.go:335-344 | Assigning names transform by transform leaves, for each type, the name of the last transform of that type. |
| IkeScanner.ApplySelectedTransforms | agents/network-scanner/internal/scanner/ipsec.go:320-348 | On every byte string the result record changes by exactly the transforms found; the other fields stay. |
| IkeScanner.NotifyReadCorrectlyIff | agents/network-scanner/internal/scanner/ipsec.go:354-363 | For a given SPI size every notify message is read correctly if and only if the size is zero. |
| IkeScanner.NotifyReadAt | agents/network-scanner/internal/scanner/ipsec.go:358-362 | What is read instead: the two bytes that lie the SPI size further on. |
| IkeScanner.ParseIKESAInitResponse | agents/network-scanner/internal/scanner/ipsec.go:261-315 | Total on all byte strings: too short, wrong SPI, wrong exchange and a clear response bit are refused in that order, each exactly when its bytes say so; otherwise it succeeds exactly when no payload is malformed, reports the last transform of each type, and a rejection exactly when no encryption was selected and a notify could be read, naming the first. |
| IkeScanner.ResponseBit | agents/network-scanner/internal/scanner/ipsec.go:273-275 | Whatever the two bits above and the five below, bit 0x20 of the flags decides whether a message is a response. |
| IkeScanner.VersionOf | agents/network-scanner/internal/scanner/ipsec.go:277-279 | The version byte is reported as its upper four bits, a dot and its lower four bits. |
| IkeScanner.DecimalReadsBack | agents/network-scanner/internal/scanner/ipsec.go:365-370 | Numbers are written so that their decimal digits read back as the number. |
| IkeScanner.UnknownIdsDiffer | agents/network-scanner/internal/scanner/ipsec.go:365-370 | Ids without a name are still told apart from each other. |
| IkeExchange.BuildIKESAInitRequest | agents/network-scanner/internal/scanner/ipsec.go:191-248 | The request is the header followed by the chain of SA, KE and nonce payloads. |
| IkeExchange.RequestIsWellFormed | agents/network-scanner/internal/scanner/ipsec.go:191-248 | That request is 420 bytes long and says so, is read back without rest, offers the nine transforms, and is not taken for a response. |
| IkeBytes.RequestInBytes | agents/network-scanner/internal/scanner/ipsec.go:191-248 | Every byte of the request, from the header with its flags and length to the key length attributes 256 and 128 of the nine transforms, the group of the key exchange and the nonce. |
| IkeExchange.ResponseReadBack | agents/network-scanner/internal/scanner/ipsec.go:261-348 | Any proposals with up to 255 transforms among any other payloads under a header echoing the SPI are read back. |
| IkeExchange.NotificationsReadBack | agents/network-scanner/internal/scanner/ipsec.go:297-300 | Notifies built as section 3.10 of RFC 7296 says, without an SPI, give back their message types in order. |
| IkeExchange.ParseEncodedResponse | agents/network-scanner/internal/scanner/ipsec.go:261-348 | Parsing such a response succeeds and reports, per type, the name of the last transform; without a selected encryption it reports the first message type notified. |
| IkeBytes.SelectionIsReported | agents/network-scanner/internal/scanner/ipsec.go:261-348 | Bytes in, names out: an answer with flags 0x20 that selects AES-CBC, HMAC-SHA2-256, HMAC-SHA2-256-128 and the 2048-bit group is accepted and reported as those, version 2.0. |
| IkeBytes.RefusalIsReported | agents/network-scanner/internal/scanner/ipsec.go:306-312 | An answer that only carries notify 14 is reported as NO_PROPOSAL_CHOSEN. |
| SshScanner.Reader.ReadFull | agents/network-scanner/internal/scanner/ssh.go:116-129 | All requested bytes, or an error with the stream used up. |
| SshScanner.ReadSSHBinaryPacket | agents/network-scanner/internal/scanner/ssh.go:115-141 | Result and rest of the stream are those of the specification, in every error case too. |
| SshScanner.PacketRoundTrip | agents/network-scanner/internal/scanner/ssh.go:115-141 | A packet framed as in section 6 of RFC 4253 is read back and the bytes behind it are still there. |
| SshScanner.StandardPacketRoundTrip | agents/network-scanner/internal/scanner/ssh.go:115-141 | Every non-empty payload with room for padding has a frame of a length divisible by eight with at least four bytes of padding, and is read back from it. |
| SshScanner.PacketReadIff | agents/network-scanner/internal/scanner/ssh.go:115-141 | Reading succeeds only on such packets, padding of 0 to 255 bytes being let through. |
| SshBytes.ImplausibleIff | agents/network-scanner/internal/scanner/ssh.go:121-124 | The length field, most significant byte first, is refused exactly when it is zero or above 262144. |
| SshFormat.NameListReadBackIff | agents/network-scanner/internal/scanner/ssh.go:197-200 | Comma-free names come back from a name-list if and only if they are not the single empty name. |
| SshFormat.NamesInAreCanonical | agents/network-scanner/internal/scanner/ssh.go:194-200 | Splitting any body and joining the pieces gives the body back. |
| SshScanner.ReadNameListRoundTrip | agents/network-scanner/internal/scanner/ssh.go:185-201 | An encoded name-list is read back wherever it starts, with the offset just behind it. |
| SshScanner.ReadNameListInverse | agents/network-scanner/internal/scanner/ssh.go:185-201 | Whatever is read is the encoding of the result, and the new offset is in bounds and at least four further on. |
| SshScanner.ParseKexInit | agents/network-scanner/internal/scanner/ssh.go:154-181 | The loop over ten name-lists computes the specified result on every payload; a wrong first byte and a short cookie are refused exactly when they occur. |
| SshScanner.KexInitRoundTrip | agents/network-scanner/internal/scanner/ssh.go:154-181 | Ten encodable name-lists parse to the first six, whatever bytes follow. |
| SshScanner.KexInitParsesIff | agents/network-scanner/internal/scanner/ssh.go:154-181 | Exactly the encodings of ten name-lists are accepted. |
| SshScanner.OffersIff | agents/network-scanner/internal/scanner/ssh.go:115-201 | What a server offers in its first packet is what is reported, and nothing else is. |
| SshBytes.OfferIsReported | agents/network-scanner/internal/scanner/ssh.go:115-201 | Bytes in, names out: a whole first packet with single-letter names in its ten lists, and the six lists reported for it. |
| SshScanner.ReadKexInit | agents/network-scanner/internal/scanner/ssh.go:72-82 | Packet and message together, on the stream: the offer, the six lists and the bytes left over determine each other. |
| RiskEngine.CalculateStage2Adjustment | services/risk-engine/app/main.py:287-314 | Circumstances and the weights of the signals that are on, never below zero. |
| RiskEngine.ScoreRequest | services/risk-engine/app/main.py:457-483 | The published record: each number is the rounded one of the specification and in its range, the rating follows the final score in bands of one point, and the rest is passed through. |
| RiskEngine.BaseScoreIsAMean | services/risk-engine/app/main.py:317-325 | The base score never leaves the interval its factors lie in. |
| RiskEngine.ScoresAreInRange | services/risk-engine/app/main.py:457-483 | Base score in 0 to 5; normalized score, confidence and dimensions in 0 to 100. |
| RiskEngine.ScoringIsMonotone | services/risk-engine/app/main.py:287-467 | Turning signals on never lowers the final or normalized score, the rating, the confidence or a dimension. |
| RiskEngine.StrongEvidenceSaturates | services/risk-engine/app/main.py:28-51 | A single evidence signal of weight 5.1 or more makes the normalized score 100 and the rating critical, whatever the rest says. |
| RiskShares.CircumstancesMove | services/risk-engine/app/main.py:287-314 | A blocked vendor, more dependencies or a harvest-now note never lower the final score; a noted plan never raises it. |
| RiskShares.CircumstancesAdd | services/risk-engine/app/main.py:287-303 | Without a noted plan they are worth exactly 0.20, 0.15 from the tenth dependency on, and 0.10. |
| RiskShares.PlanTakesATenth | services/risk-engine/app/main.py:299-314 | A noted plan takes a tenth off, as far as there is an adjustment to take it from. |
| RiskShares.EvidenceAddsItsWeight | services/risk-engine/app/main.py:304-308 | Turning on an evidence signal adds exactly its weight to the final score. |
| RiskShares.WindowsSignalAddsItsWeight | services/risk-engine/app/main.py:309-312 | The same for the Windows signals. |
| RiskShares.FactorShares | services/risk-engine/app/main.py:317-325 | How much of a change in each of the six factors reaches the base score. |
| RiskShares.ScenariosEscalate | services/risk-engine/app/main.py:18-26 | The scenarios are ordered from the public timeline, which leaves the base score as it is, to harvesting under way. |
| RiskShares.EvidenceMovesExposure | services/risk-engine/app/main.py:358-432 | What each evidence signal adds to the exposure before the limit of 100. |
| RiskShares.EvidenceMovesUrgency | services/risk-engine/app/main.py:358-432 | The same for the urgency. |
| RiskShares.EvidenceMovesComplexity | services/risk-engine/app/main.py:358-432 | The same for the migration complexity. |
| RiskShares.WindowsSignalMoves | services/risk-engine/app/main.py:358-432 | What each Windows signal adds to all four dimensions. |
| RiskShares.DimensionsStart | services/risk-engine/app/main.py:358-432 | Where the dimensions start from without any signal. |
| RiskShares.ConfidenceShares | services/risk-engine/app/main.py:332-355 | Confidence starts at 50; each source of evidence adds ten points, a certificate chain and notes five each. |
| Planner.PriorityScore | services/planner-service/app/planner.py:126-146 | Whatever is missing or out of range in asset and risk, the priority lies in 0 to 100. |
| Planner.CapReasonIff | services/planner-service/app/planner.py:215-259 | The reasons contain a cap reason exactly for private key files, a weak public key or a high Windows signal. |
| Planner.DedupedHoldsTheBest | services/planner-service/app/planner.py:36-42 | The dictionary holds, for every name that occurs, the first of its highest-scoring risks. |
| PlanItems.ItemIsFaithful | services/planner-service/app/planner.py:52-73 | Every item on the fields: the asset found is the last of its name; its vendor flag and dependency count override the ones of the risk, a count that is no number or negative being zero; priority and reasons are those the fields give. |
| PlanItems.VendorAndDependencies | services/planner-service/app/planner.py:126-146 | Before the limits, with all else equal, a blocked vendor is worth exactly 8 points and each dependency up to the tenth 1.5. |
| PlanItems.BlockedVendorAddsEight | services/planner-service/app/planner.py:126-146 | So on planned items a blocked vendor means eight points more, as far as the limits leave room, and never less. |
| PlanItems.ReasonsApply | services/planner-service/app/planner.py:215-259 | Each of the 24 reasons is given exactly when its condition on the fields holds. |
| PlanWaves.KeepHighest | services/planner-service/app/planner.py:36-42 | The loop over the risks builds that dictionary. |
| PlanWaves.WaveLists.Place | services/planner-service/app/planner.py:75-81 | Items go to the list of their score, behind those already there. |
| PlanWaves.WaveLists.EnforceStage2WaveCaps | services/planner-service/app/planner.py:294-310 | Capped items leave the third list for the end of the second, in order; the rest stays. |
| PlanWaves.CapsKeepOrder | services/planner-service/app/planner.py:294-310 | On ordered items that appending leaves each list holding exactly the items of its final wave, in order. |
| PlanWaves.BuildPlan | services/planner-service/app/planner.py:33-101 | The three waves and the summary counts are those of the ordered, deduplicated risks; every item in them says of its asset what the fields say, stands for a risk that no other of its asset outscores, and each wave is ordered by priority, then blocked vendors first, then dependency count. |
| PlanWaves.OneRiskPerAsset | services/planner-service/app/planner.py:36-50 | One planned item per asset name that occurs, for the first of its highest-scoring risks. |
| PlanWaves.WavesAreSound | services/planner-service/app/planner.py:52-101 | Each item in exactly one wave, counts adding up, all waves non-increasing in the ordering tuple, nothing with a cap reason in the third. |
| PlanPipeline.MoreSignalsNeverLater | services/planner-service/app/planner.py:126-146 | For one scored risk by itself: more signals never mean a lower priority or a later wave for its item. |
| PlanPipeline.FreshPriority | services/planner-service/app/planner.py:126-146 | From the published scores of a risk to its priority: every number and signal with its share. |
| PlanEscalation.AssetMovesLaterIff | services/planner-service/app/planner.py:36-101 | In the whole plan, turning on signals in one risk moves an asset to a later wave if and only if that risk comes to be kept instead of the one kept so far and is in a later wave than that. |
| PlanEscalation.KeptRiskNeverLater | services/planner-service/app/planner.py:36-101 | If the risk is the kept one already, no asset of the plan moves to a later wave. |
| PlanEscalation.OnlyOfItsName | services/planner-service/app/planner.py:36-42 | The only risk of a name is the kept one. |
| PlanEscalation.EscalationCanMoveLater | services/planner-service/app/planner.py:36-42 | A plan in which an asset moves from wave 1 to wave 2 because a signal is turned on in a risk that was not kept. |
| PlanPipeline.FreshRisksNeedNoCap | services/planner-service/app/planner.py:294-310 | A freshly scored risk with a cap reason is in wave 1 anyway; the caps matter for persisted risks only. |
| PlanPipeline.AssignWindowsHostWave | tools/report/build_operator_report.py:113-133 | The wave of the view, from 1 to 3. |
| PlanPipeline.PlannerNeverLaterThanReport | tools/report/build_operator_report.py:113-133 | For a persisted risk without overrides the planner is never later than the report, and equal without dependencies and vendor block. |
| PlanPipeline.ReportAgreesIff | tools/report/build_operator_report.py:113-133 | Planner and report agree on all scores and signals if and only if there are no dependencies and the vendor is not blocked. |
| PlanPipeline.ReportIsLater | tools/report/build_operator_report.py:113-133 | The input on which they differ: score 44, no signals, one dependency or a blocked vendor. |
| DocChunks.ParagraphsAreParagraphs | agents/doc-ingestion/ingest.py:40 | Every paragraph is non-empty, stripped and free of blank lines. |
| DocChunks.ParagraphsOfJoin | agents/doc-ingestion/ingest.py:40 | Joining paragraphs with blank lines and splitting again gives the same paragraphs. |
| DocChunks.ParagraphsOfText | agents/doc-ingestion/ingest.py:40 | The paragraphs of any text are its stretches between blank lines without the spaces around them, blank stretches left out; the stretches joined give the text back. |
| ChunkPacking.ChunkText | agents/doc-ingestion/ingest.py:37-52 | The chunks are the joined groups of a contiguous split into permitted chunks in which no group could have taken the next paragraph. |
| ChunkPacking.PackingIsOptimal | agents/doc-ingestion/ingest.py:43-51 | No contiguous split into single paragraphs or chunks within the limit has fewer chunks. |
| ChunkPacking.ChunkingIsOptimal | agents/doc-ingestion/ingest.py:37-52 | So the number of chunks is the smallest possible. |
| ChunkPacking.SameChunks | agents/doc-ingestion/ingest.py:37-52 | Any chunks of the joined chunks are those chunks again, and joining them gives the joined paragraphs. |
| ChunkPacking.PackingIsUnique | agents/doc-ingestion/ingest.py:43-51 | There is only one such packing of given paragraphs. |
| ChunkPacking.JoinOfChunks | agents/doc-ingestion/ingest.py:42-51 | Joining the chunks with blank lines gives the joined paragraphs. |
| ChunkPacking.Rechunk | agents/doc-ingestion/ingest.py:37-52 | Chunking the joined chunks gives the same chunks. |
| DocumentIndex.DocFreq | services/retrieval-service/app/document_index.py:133-137 | The document frequency of a term never exceeds the number of chunks. |
| DocumentIndex.Denominator | services/retrieval-service/app/document_index.py:151-152 | The denominator is larger than the term count, so it is positive. |
| DocumentIndex.IdfIsPositive | services/retrieval-service/app/document_index.py:139-142 | Every idf is positive. |
| DocumentIndex.DocFreqCountsHolders | services/retrieval-service/app/document_index.py:133-137 | The document frequency is the number of chunks that hold the term. |
| DocumentIndex.IdfOfHolders | services/retrieval-service/app/document_index.py:139-142 | The idf of a term in terms of the number of chunks and of those that hold it. |
| DocumentIndex.RarerTermWeighsMore | services/retrieval-service/app/document_index.py:139-142 | For every increasing logarithm a term in fewer chunks has the strictly larger idf. |
| DocumentIndex.AverageIsMean | services/retrieval-service/app/document_index.py:130-131 | The average length times the number of chunks is the sum of their lengths. |
| DocumentIndex.ScoreOfToken | services/retrieval-service/app/document_index.py:144-153 | What one token adds to a score, cleared of the fraction, with 1.5 and 0.75 in place. |
| DocumentIndex.BetterChunksScoreHigher | services/retrieval-service/app/document_index.py:144-153 | A chunk that is no longer and holds every token at least as often never scores lower, and strictly higher when it holds one more often or is shorter. |
| DocumentIndex.RarerTokenScoresHigher | services/retrieval-service/app/document_index.py:139-153 | Of two chunks of equal length with one query token each, equally often, the one with the rarer token scores strictly higher. |
| DocumentIndex.CountDocuments | services/retrieval-service/app/document_index.py:133-137 | The nested loops count, per query token, the chunks that hold it. |
| DocumentIndex.ScoreChunk | services/retrieval-service/app/document_index.py:145-153 | The inner loop computes the score of the specification. |
| DocumentIndex.Bm25Rank | services/retrieval-service/app/document_index.py:121-158 | The ranking: exactly the chunks that share a token with the query, by descending score; of two chunks of one length with one token each the rarer token comes first, and so does a chunk that is no longer and holds every token at least as often. |
| DocumentIndex.ScoreBounds | services/retrieval-service/app/document_index.py:144-155 | A score is positive exactly for a shared token and strictly below the sum of idf * (k1 + 1). |
| DocumentIndex.RankingIsExact | services/retrieval-service/app/document_index.py:144-158 | Exactly the chunks sharing a token, each with its score, highest first, ties in input order. |
| DocumentIndex.IterationOrderDoesNotMatter | services/retrieval-service/app/document_index.py:147-153 | The order in which the token set is iterated does not change a score. |
| DocumentIndex.RoundedStaysDescending | services/retrieval-service/app/document_index.py:185-195 | The rounded scores of the search results are still in order. |
| WorkflowRepositories.WorkflowRepository.CreateTask | services/workflow-service/app/repository.py:104-135 | Returns a newest existing task that agrees in asset, wave and optional action, or inserts a draft with the payload and the time given. |
| WorkflowRepositories.WorkflowRepository.UpdateTaskStatus | services/workflow-service/app/repository.py:158-170 | Nothing for a missing task, an error and no change for a forbidden transition, otherwise exactly the status changes. |
| WorkflowRepositories.WorkflowRepository.CreateApproval | services/workflow-service/app/repository.py:172-195 | Records a decision and moves the task on, or refuses a task that is not pending or an approver who requested it. |
| WorkflowRepositories.WorkflowRepository.CleanupDuplicateTasks | services/workflow-service/app/repository.py:209-243 | Deletes the repeats and their approvals and returns the true numbers of deleted rows. |
| WorkflowRuns.EveryRunIsSound | services/workflow-service/app/repository.py:104-195 | Over every run: no two tasks share asset, wave and action; decisions are about existing tasks and by non-requesters; rejections, then at most one approval. |
| WorkflowRuns.CompletedIsFinal | services/workflow-service/app/repository.py:147-156 | A completed task stays as it is for as long as it exists. |
| WorkflowLifecycles.StepMoves | services/workflow-service/app/repository.py:104-243 | Whatever is done, a task that is still there has kept everything but its status, and that has stayed or made one of six moves. |
| WorkflowLifecycles.EveryMoveIsPossible | services/workflow-service/app/repository.py:147-170 | And each of the six moves can be made. |
| WorkflowLifecycles.RejectedReturnsThroughDraft | services/workflow-service/app/repository.py:147-156 | In any run a rejected task that is pending at the end has been a draft in between. |
| WorkflowLifecycles.WholeLifeIsPossible | services/workflow-service/app/repository.py:104-195 | A run through rejection, revision, approval and work to completion, and what it leaves. |
| WorkflowRuns.StepRecordedIff | services/workflow-service/app/repository.py:158-195 | A step leaves an approved task without an approval on record if and only if it is a generic status change that approves a pending task. |
| WorkflowRuns.ApprovedMeansRecordedIff | services/workflow-service/app/repository.py:158-195 | Over every run: approved tasks have an approval on record at every moment if and only if no step is such a change. |
| WorkflowRuns.BypassLeavesNoRecord | services/workflow-service/app/main.py:46-52 | A concrete run of the generic status route that approves a task nobody decided on. |
| WorkflowRuns.CleanupKeepsTheNewest | services/workflow-service/app/repository.py:209-243 | Exactly one task per coalesced key is kept, a newest one, with exactly the approvals of the kept tasks. |
| WorkflowRuns.CleanupIsIdempotent | services/workflow-service/app/repository.py:209-243 | Cleaning up twice is cleaning up once, however the database orders equal times. |
| WorkflowRuns.CleanupDeletesIff | services/workflow-service/app/repository.py:95-98 | On reachable states cleanup deletes something if and only if a task exists both without an action and with an empty one. |
| WorkflowRuns.CleanupDeletesWhatCreationKeepsApart | services/workflow-service/app/repository.py:104-107 | A run of two creations that reaches such a state; every cleanup then leaves one task. |
| FileDiscovery.Discovery.AddFile | agents/linux-host-agent/internal/collector/collector.go:342-359 | Adds a classified file under its cleaned path unless that is there already, and keeps the counters true. |
| FileDiscovery.Discovery.Walk | agents/linux-host-agent/internal/collector/collector.go:377-403 | The callback: depth limit, unreadable directories, and the limit that ends the walk. |
| FileDiscovery.Discovery.DiscoverInPaths | agents/linux-host-agent/internal/collector/collector.go:333-412 | The whole search: the first classified files up to the limit, sorted, counters equal to per-type numbers, and all errors when the limit was not reached. |
| FileDiscovery.FilesUnderIff | agents/linux-host-agent/internal/collector/collector.go:385-397 | The walk comes across exactly the files that at most three steps through readable directories lead to. |
| FileDiscovery.ReportIsExact | agents/linux-host-agent/internal/collector/collector.go:333-412 | At most the limit, strictly ordered by distinct cleaned paths, each classified where first seen; below the limit nothing classified is missing. |
| FileDiscovery.SearchIff | agents/linux-host-agent/internal/collector/collector.go:358-406 | Over all locations: which files are come across, and which directories and locations are complained about; a missing location is not. |

## Left out

- HTTP routes, clients, proxying, sessions, password hashing, enrolment, audit records and the web interface: plumbing and library calls.
- Sockets, timeouts, TLS and X.509 inspection, subprocesses, PDF extraction: the model starts from bytes, strings and trees.
- Schema creation and migrations; SQL text is modelled by what the statements do.
- ScanWorkers.EveryRunEnds: bounds runs without new jobs and without new cancel requests; with an endless supply of either no bound exists.
- ScanWorkers.StartBudget: assumes one retry limit that is not negative and is the same for all workers.
- `neighbors` and `evidence_path` of the graph service: lookups over the same index.
- The warnings and the descriptive properties of projected nodes and edges, and the snapshot's header fields.
- GraphSnapshots.BuildSnapshot: upper-casing of key algorithms covers ASCII letters only.
- The SSH identification banner and its line limit, and the messages of errors.
- IkeExchange.BuildIKESAInitRequest: failures of the random source are not modelled; the random bytes are arguments.
- How the risk engine reads signals out of payloads, notes and certificate dates: the sets of signals are the input.
- Non-numeric scores: a score that Python could not compare or convert is represented as missing.
- `recommend_action`, ratings, scenarios and versions copied into plan items: text without influence on the order.
- The other views and sections of the operator report.
- `_stem`, `_tokenize` and the synonym table: tokens are given.
- DocumentIndex.ScoreBounds: over the reals; rounding errors of floating point are not modelled.
- Workflow titles, priorities and descriptions, which no operation reads, and listing in order of time.
- WorkflowRuns.EveryRunIsSound: speaks of sequential runs; two creations at once could both find no existing task.
- The file name classifiers of the collector, symbolic links, and a location that changes between stat and walk.
- FileDiscovery.Discovery.DiscoverInPaths: which errors are listed is stated for searches that end below the limit.
- `scan_scope.py`, `local_url_validation.py`, the narrators, redaction and fingerprint tables: library calls, tables and templates.
