# OpenRTL: verified models of its state machines, protocols and codecs

OpenRTL runs language-model experts and EDA tools over hardware designs. Under that glue sit
components whose correctness is a matter of proof: cycle-accurate stream blocks and a waveform
monitor that judges them, an append-only session history with a portable backup, three protocols
that must survive a process dying between any two steps, and codecs that promise to lose nothing.
This project models those components in Dafny and proves what they are for.

`dafny verify dfyconfig.toml` checks everything.

## How it is organised

**Streams and the monitor.** `SyncFifo` and `SkidBuffer` are the two reference models, as classes
with one method per clock edge. `SyncFifoRtl` is the register-level ring (two pointers, a counter,
explicit register widths, any depth from two up) and refines `SyncFifo`. `ComposedStream` wires FIFO
into skid buffer. `FifoMonitor` is the waveform analysis: a loop over sampled edges with a shadow
queue. `MonitorReference` proves the monitor sound and complete against the reference model,
`MonitorRtl` that it never accuses the ring, `MonitorWindows` what the report window does,
`FifoRepair` that repair proposals partition the findings and show all of them, and `MonitorRepair`
that analysis, proposal and focus compose (`MonitorFaults` says which wire each finding names and
what value it expects, `RepairMeaning` what each change of a proposal holds): a report with findings
is refused a repair only when it names no RTL source. A trace is a sequence of sampled edges: values
just before the edge, values at it, and a timestamp.

**Processes that may die.** `ContainerOwnership` (simulation and clean-up against a container
daemon), `RuntimeReceipt` (select, self-test, recover) and `WheelInstall` (lock, recheck, rename)
are transition systems in which a process may stop between any two steps, calls may take effect
without being answered, and processes interleave; each also has the procedure itself as a class
whose methods take the failures as parameters. An intent file may be torn by the death of its
writer, and a create whose client is gone may still be carried out by the daemon later.
`ContainerRuns`, `RuntimeReadiness` and `WheelProgress` prove the other half: what each protocol can
still reach, and exactly when. `ExportWriter` is the marker protocol for new export directories,
with a budget of file-system effects after which the process dies.

**Durable history.** `SessionStore` is the snapshot, event and blob tables with optimistic
concurrency; `SessionSaves` says which saves succeed and what they leave. `Portable` validates a set
of portable records, `PortableBackup` collects them from a session, `PortableRestore` reads a
portable directory and rebuilds a session from it. `PortableRuns` says which retained runs can be
exported, `PortableDirectory` joins the marker protocol of `ExportWriter` to the reader, and
`PortableMeaning` and `PortableAcceptance` say entry by entry what accepted records, directories and
exports are.

**Bounded trees and codecs.** `BoundedTrace` is the budgeted walk over a trace payload and
`TraceStore` the table it feeds; `TraceWalks` says what the walk keeps, `TraceRuns` what a run of
calls leaves. `SpecificationTransport` and `SpecificationCodec` are the wire form of specifications,
`ManifestTransport` that of manifests.

`Outcomes`, `Numerals`, `Sequences`, `Blobs` and `JsonValues` are shared vocabulary. A raised error
is an `Err` with the source's code. A SHA-256 digest is an injective function of the bytes; domain
validators, text formats and the text scrubber are parameters.

## What the proofs found

Six statements one would expect are false of the code. Each comes with the input that breaks it and
with the exact condition under which it holds.

- *A pending self-test can be recovered.* It can if and only if its run directory holds a complete
  intent (`RuntimeReceipt.PendingNeedsIntent`). A process that dies before it opens the intent, or
  between opening and writing it, leaves a receipt that no later run of commands ever changes
  (`RuntimeReceipt.StuckIsReachable`): without the file recovery does not start, over a torn one it
  starts and fails every time.
- *Clean-up that returns leaves nothing for good.* Decided when it begins: it does, however it
  returns, if and only if none of the operation's creates is still in flight in the daemon
  (`ContainerOwnership.AbandonIsFinalIff`); a run where one is
  (`ContainerOwnership.LateCreateOutlivesAbandon`).
- *A trace record that was written can be read.* Where the library's redaction has nothing left to
  do, the redacted payload decides, for every scrubber (`BoundedTrace.StoredTreeIff`,
  `TraceStore.RereadIff`): the node budget must last, or the node that exhausts it must lie under
  the greatest key met at every level; and every text met must be scrubbed for good, without newly
  outgrowing its limit. Keys added out of order break the first (`TraceStore.OutOfOrderIsRefused`),
  a secret inside a private-key header the second (`TraceStore.HeaderSecretIsRefused`). An oversized
  record is readable exactly when its preview scrubs to itself.
- *A session with checked records exports.* A run staged through a workload transport records two
  intent fields more than validation accepts: among sessions that kept the intents their
  simulations wrote, those export whose retained runs were all staged directly
  (`PortableRuns.ExportsIffDirect`); a session and two disks, one exported and one refused
  (`PortableRuns.StagedRunIsRefused`).
- *An exportable session is exported.* The export takes no lock and reads the session twice; it is
  refused if and only if a writer commits in between (`PortableBackup.ExportsIffUntouched`), which
  a change of detail in a new session already does (`PortableBackup.FreshExportCanBeRefused`).
- *A saved session resolves every digest.* Only if the update carries over digests that resolve
  already, which the store does not check (`SessionStore.SaveResolvesIff`); an approval followed by
  a file nobody supplied (`SessionStore.SaveCanDangle`).

The fallback interval for finding anchors (`fifo_debug.py`, lines 91-93) is unreachable
(`MonitorWindows.AnchorIsSound`), and the comparison of collected with expected files can never
refuse an export (`PortableBackup.CollectedIsExpected`).

## Model

| member | source | states |
|---|---|---|
| SyncFifo.SyncFifoModel.Create | examples/fifo/model.py:21-27 | refuses exactly a width below one or a depth below two, otherwise starts empty |
| SyncFifo.SyncFifoModel.Cycle | examples/fifo/model.py:29-59 | one edge in place: queue and every reported value equal the specified step, bounds kept |
| SyncFifo.StepFits | examples/fifo/model.py:37-49 | no edge outgrows the depth or the word width |
| SyncFifo.FirstInFirstOut | examples/fifo/model.py:40-49 | over every run, accepted words are the delivered ones followed by the queue, within depth |
| SkidBuffer.SkidBufferModel.Create | examples/skid_buffer/model.py:21-27 | refuses exactly a width below one, otherwise starts empty |
| SkidBuffer.SkidBufferModel.Cycle | examples/skid_buffer/model.py:29-64 | refuses exactly a word outside the width, before any change; otherwise state and report equal the specified step |
| SkidBuffer.StreamLaw | examples/skid_buffer/model.py:39-55 | over every run since reset, accepted inputs are delivered outputs plus the retained word if occupied |
| SkidBuffer.ShowsOldestWord | examples/skid_buffer/model.py:39-64 | what the buffer shows on any edge: the oldest word, ready unless a stalled word is in the way, and whether a word stays |
| SkidBuffer.StalledOutputHolds | examples/skid_buffer/model.py:40-47 | a stalled output keeps valid and data until taken, whatever is offered |
| SkidBuffer.TransparentAtFullRate | examples/skid_buffer/model.py:39-55 | with the consumer always ready, every offered word is accepted and leaves on its own edge |
| ComposedStream.Clock | examples/composed_stream/rtl/fifo_skid_stream.sv:28-39 | clocking the two models over the shared link computes the composed step |
| ComposedStream.StepMovesWords | examples/composed_stream/dv/test_composed_stream.py:41-58 | an edge removes at most the oldest retained word, shows it, and appends at most the accepted one |
| ComposedStream.StreamSafety | examples/composed_stream/dv/test_composed_stream.py:43-59 | in every run since reset, accepted is delivered, then skid word, then FIFO contents; occupancy is their difference and at most depth + 1 |
| ComposedStream.StalledOutputHolds | examples/composed_stream/dv/test_composed_stream.py:41-54 | a stalled composed output holds its word until taken |
| ComposedStream.ExactCapacity | tools/composed_package_case.py:95-102 | with the consumer stalled from reset, exactly depth + 1 words are accepted and all later ones refused |
| ComposedStream.OneMoreOffer | examples/composed_stream/dv/test_composed_stream.py:65-69 | while filling, the next word is accepted if and only if at most depth words were offered |
| ComposedStream.DrainStep | examples/composed_stream/dv/test_composed_stream.py:88-90 | a draining edge delivers the oldest word if and only if something is retained |
| ComposedStream.ExactDrain | examples/composed_stream/dv/test_composed_stream.py:88-90 | from any state one word leaves per ready edge in order and the stream is empty after exactly its occupancy |
| ComposedStream.FullRate | examples/composed_stream/dv/test_composed_stream.py:70-72 | with the consumer ready, every offered word is accepted in every reachable state |
| SyncFifoRtl.ContentsByModulo | examples/fifo/rtl/sync_fifo.sv:41-41 | word k of the queue sits at read pointer + k modulo depth |
| SyncFifoRtl.BumpIsModular | examples/fifo/rtl/sync_fifo.sv:75-78 | the wrap at the last cell is stepping modulo the depth in a register of that width, for every depth |
| SyncFifoRtl.CounterNeverWraps | examples/fifo/rtl/sync_fifo.sv:80-84 | the level register is wide enough that counting never wraps |
| SyncFifoRtl.MovedShiftsContents | examples/fifo/rtl/sync_fifo.sv:73-84 | a transfer removes the oldest word and appends the written one, keeping the ring well formed |
| SyncFifoRtl.RingRefinesQueue | examples/fifo/rtl/sync_fifo.sv:37-86 | the ring shows the reference model's outputs and represents its next queue on every edge |
| SyncFifoRtl.ResetEmpties | examples/fifo/rtl/sync_fifo.sv:68-71 | reset empties the ring from any register values |
| SyncFifoRtl.RunRefines | examples/fifo/rtl/sync_fifo.sv:67-86 | refinement over every sequence of valid, ready and reset inputs |
| FifoMonitor.CheckHandshakes | src/openrtl/adapters/fifo_debug.py:164-195 | reports exactly the handshake disagreements, in order |
| FifoMonitor.CheckReadiness | src/openrtl/adapters/fifo_debug.py:197-228 | reports exactly the backpressure and read-valid disagreements |
| FifoMonitor.CheckLevel | src/openrtl/adapters/fifo_debug.py:230-272 | reports the level exactly when it is not the level before plus accepted writes minus accepted reads |
| FifoMonitor.CheckStatus | src/openrtl/adapters/fifo_debug.py:273-294 | reports exactly the flags that disagree with the level after the edge |
| FifoMonitor.CheckPointers | src/openrtl/adapters/fifo_debug.py:295-322 | reports exactly the pointers that do not step modulo the depth on acceptance |
| FifoMonitor.ShadowTransfer | src/openrtl/adapters/fifo_debug.py:324-361 | pops and compares, appends, and learns an empty queue, as the monitor's specification says |
| FifoMonitor.CheckEdge | src/openrtl/adapters/fifo_debug.py:160-361 | one whole edge: its violations in report order and the shadow queue after it |
| FifoMonitor.FirstUnknownFinds | src/openrtl/adapters/fifo_debug.py:542-545 | no signal is named if and only if every edge has known values |
| FifoMonitor.UpToKeepsThrough | src/openrtl/adapters/fifo_debug.py:57-61 | on a trace in time order the examined edges are exactly those not later than the window's end |
| MonitorFaults.AnalysedIff | src/openrtl/adapters/fifo_debug.py:36-75 | exactly which requests and traces are analysed |
| FifoMonitor.OneMoreEdge | src/openrtl/adapters/fifo_debug.py:113-400 | a further edge only appends its own findings and its own observation |
| FifoMonitor.Replay | src/openrtl/adapters/fifo_debug.py:113-400 | the loop yields the specified findings and observations, or names the first unknown signal |
| FifoMonitor.Analyze | src/openrtl/adapters/fifo_debug.py:22-424 | names the first failed check, or returns exactly the specified report |
| MonitorReference.SilentIffNoViolation | src/openrtl/adapters/fifo_debug.py:160-361 | an edge raises nothing if and only if wires, level, flags and data agree |
| MonitorFaults.FindingsNameFaults | src/openrtl/adapters/fifo_debug.py:164-358 | over every edge and shadow queue, a violation of a kind is raised if and only if its wire disagrees; it shows the sampled value and names the clause |
| MonitorFaults.ExpectedIsModels | src/openrtl/adapters/fifo_debug.py:164-358 | while the monitor holds the model's queue, every violation expects the value the model gives for its wire, as far as the wires it starts from are right |
| MonitorFaults.ResetExpects | src/openrtl/adapters/fifo_debug.py:230-294 | in reset, level and flag violations expect what the model shows in reset |
| MonitorFaults.PointersAreRings | src/openrtl/adapters/fifo_debug.py:230-322 | pointer violations expect what the ring's registers hold after the edge |
| MonitorFaults.EveryFindingIsAFault | src/openrtl/adapters/fifo_debug.py:77-111 | every finding of a report is about a wire that was wrong at an edge of the window, with its sampled value and the wire among its signals |
| MonitorFaults.EveryFaultIsFound | src/openrtl/adapters/fifo_debug.py:77-111 | every wire wrong at an edge of the window has its finding |
| MonitorFaults.ShadowHoldsTheRest | src/openrtl/adapters/fifo_debug.py:324-358 | whatever was found, the shadow queue holds the words written and not yet read since it was known empty, in order |
| MonitorFaults.KnowsFrom | src/openrtl/adapters/fifo_debug.py:160-361 | the queue becomes known exactly in reset or where the level is seen to be zero |
| MonitorReference.OneEdge | src/openrtl/adapters/fifo_debug.py:160-361 | an edge raises nothing if and only if it is the model's step, and then the shadow queue is the model's queue |
| MonitorReference.SilentIffModelRun | src/openrtl/adapters/fifo_debug.py:113-361 | sound and complete: a held trace from reset is silent if and only if every edge is a step of the reference model and its wires (ready, valid, internal acceptance, pointers) are consistent |
| MonitorReference.NoFindingsIffQuiet | src/openrtl/adapters/fifo_debug.py:77-111 | a whole-trace window reports nothing if and only if no edge raised anything |
| MonitorReference.ReportIffModelRun | src/openrtl/adapters/fifo_debug.py:22-424 | the report of a whole held trace from reset is empty if and only if every edge is a model step with consistent wires |
| MonitorReference.KnownLength | src/openrtl/adapters/fifo_debug.py:160-162 | in a silent trace a known queue is as long as the level, and reset or drained means known empty |
| MonitorReference.SoundAfterDrain | src/openrtl/adapters/fifo_debug.py:359-361 | a silent trace that starts anywhere is a model run from its first reset or drained edge on |
| MonitorReference.NarrationIsTrue | src/openrtl/adapters/fifo_debug.py:552-601 | the event named for a silent edge describes its level change truthfully |
| MonitorFaults.ObservationsAreEdges | src/openrtl/adapters/fifo_debug.py:363-400 | one observation for each edge of the window, in order, with its values and the event its handshakes say |
| MonitorRtl.TransferIsSilent | src/openrtl/adapters/fifo_debug.py:164-358 | an edge of the ring out of reset raises nothing and keeps the monitor's knowledge right |
| MonitorRtl.ResetIsSilent | src/openrtl/adapters/fifo_debug.py:230-235 | a reset edge from any register values raises nothing |
| MonitorRtl.NoFalseFindings | src/openrtl/adapters/fifo_debug.py:113-361 | every run of the ring, for every depth and input sequence, is silent to the end |
| MonitorRtl.RingIsNeverReported | src/openrtl/adapters/fifo_debug.py:22-424 | for every recorded run of the ring and every window the analysis accepts, the report has no finding |
| MonitorWindows.FindingsAreRendered | src/openrtl/adapters/fifo_debug.py:77-111 | windowed findings are a rendering of a window-free replay |
| MonitorWindows.WindowIndependence | src/openrtl/adapters/fifo_debug.py:87-88 | a later start reports exactly the later findings of the whole trace |
| MonitorWindows.EndOnlyAppends | src/openrtl/adapters/fifo_debug.py:57-71 | a later end keeps the earlier findings as a prefix |
| MonitorWindows.AnchorIsSound | src/openrtl/adapters/fifo_debug.py:89-110 | an anchor is a non-empty interval inside the window around its marker, and the fallback is never taken |
| MonitorFaults.AnchorShowsNeighbourhood | src/openrtl/adapters/fifo_debug.py:89-110 | an anchor shows exactly the times of the window at most one time unit from its edge |
| MonitorWindows.EveryAnchorIsSound | src/openrtl/domain/evidence.py:53-66 | every finding of a report passes the anchor's own checks |
| FifoRepair.CategoryIsKind | src/openrtl/adapters/fifo_repair.py:183-191 | the category parsed from an identity is the kind it was built with |
| FifoRepair.FindingIdInjective | src/openrtl/adapters/fifo_debug.py:96-96 | equal identities mean equal kind and time |
| FifoRepair.GroupByCategory | src/openrtl/adapters/fifo_repair.py:84-90 | groups in first-appearance order, each with its findings in order; refuses exactly an unparsable identity |
| FifoRepair.BuildChanges | src/openrtl/adapters/fifo_repair.py:92-115 | one change per category with its findings, requirements and anchors; notes whether all were known |
| FifoRepair.Propose | src/openrtl/adapters/fifo_repair.py:77-128 | succeeds exactly for parsable, non-empty findings with source anchors, with the specified changes and confidence |
| FifoRepair.ChangesPartition | src/openrtl/adapters/fifo_repair.py:92-115 | the changes name every finding identity exactly as often as the report does |
| FifoRepair.ProposalAlwaysCovers | src/openrtl/application/repairs.py:135-158 | every proposal passes the checks that bind it to its report |
| FifoRepair.FocusShowsEverything | src/openrtl/adapters/fifo_repair.py:131-180 | the focus contains every anchor, marker and signal and stays inside the report window |
| FifoRepair.EdgeKindsAscend | src/openrtl/adapters/fifo_debug.py:164-356 | the findings of one edge have strictly ascending kinds, so no kind repeats |
| FifoRepair.FindingIdsUnique | src/openrtl/application/debugging.py:139-140 | no report repeats a finding identity |
| FifoRepair.ReportParses | src/openrtl/adapters/fifo_repair.py:183-191 | every identity the monitor makes has a category |
| FifoRepair.ReportIsCovered | src/openrtl/application/repairs.py:135-158 | the proposal for a monitor report covers each finding exactly once |
| RepairMeaning.KindPointsAt | src/openrtl/adapters/fifo_repair.py:194-206 | a wrong combinational wire points at the first three source anchors, anything wrong in the registers at the last two |
| RepairMeaning.EveryChangeIsForAKind | src/openrtl/adapters/fifo_repair.py:92-115 | every change holds exactly the findings of one kind, their requirements and anchors, and that kind's source anchors |
| RepairMeaning.EveryKindHasAChange | src/openrtl/adapters/fifo_repair.py:84-115 | every kind that was found has its change |
| RepairMeaning.FocusFrames | src/openrtl/adapters/fifo_repair.py:131-176 | the focus reaches half the least distance of two observed edges beyond the outermost anchors, cut to the window |
| RepairMeaning.FocusShowsNothingElse | src/openrtl/adapters/fifo_repair.py:151-178 | its signals are the causal ones and those of the findings, each once, its markers those of the findings |
| MonitorRepair.ReportedEdges | src/openrtl/adapters/fifo_debug.py:57-75 | a request that is not refused gives a non-empty window and known edges inside it, with different times |
| MonitorRepair.ReportIsKnown | src/openrtl/adapters/fifo_repair.py:92-118 | every category of a monitor report has a repair strategy |
| MonitorRepair.ProposalRepairs | src/openrtl/adapters/fifo_repair.py:77-128 | for every accepted request and trace the proposal covers each finding exactly once, with known categories only |
| MonitorRepair.FocusShowsReport | src/openrtl/adapters/fifo_repair.py:131-180 | for every report with findings a focus exists and shows all of them |
| MonitorRepair.AnalyzeAndRepair | src/openrtl/adapters/fifo_repair.py:77-200 | analysis, proposal and focus in one go: a report with findings is repaired, with confidence 90, full coverage and a focus that shows all, if and only if it has a source anchor |
| ContainerOwnership.StepKeepsInv | src/openrtl/adapters/design_simulation.py:208-396 | every step, also a death or an unanswered call, keeps: labelled containers have a recorded intent and a reserved name |
| ContainerOwnership.RunKeepsInv | src/openrtl/adapters/design_simulation.py:208-396 | the same after every run of interleaved operations |
| ContainerOwnership.OwnershipIsRecorded | src/openrtl/adapters/design_simulation.py:208-218 | a labelled container belongs to an operation with a complete intent naming it |
| ContainerOwnership.AbandonLeavesNone | src/openrtl/adapters/design_simulation.py:376-396 | when clean-up returned that began with no create in flight, or a simulation finished, no container and no create of the operation is left |
| ContainerOwnership.OthersAreNeverTouched | src/openrtl/adapters/design_simulation.py:387-394 | no step removes or changes a container of anyone else |
| ContainerOwnership.RepeatIsHarmless | src/openrtl/adapters/design_simulation.py:377-384 | cleaning up an operation with nothing left changes no container |
| ContainerOwnership.GoneForGood | src/openrtl/adapters/design_simulation.py:349-396 | with no container left and no create in flight, no later step of a run brings a container of the operation back |
| ContainerOwnership.LandingAppears | src/openrtl/adapters/design_simulation.py:241-243 | from every reachable state with a create in flight, some continuation brings its container into being |
| ContainerOwnership.RunKeepsQuiet | src/openrtl/adapters/design_simulation.py:349-396 | whatever happens during a clean-up, what was true of creates in flight when it began is what it returns over |
| ContainerOwnership.CleanUpReturns | src/openrtl/adapters/design_simulation.py:376-396 | from every state a clean-up under way can still return, leaving no container and every create that was in flight |
| ContainerOwnership.AbandonIsFinalIff | src/openrtl/adapters/design_simulation.py:349-396 | in every reachable state where clean-up may begin: every clean-up begun there that returns leaves no container for good if and only if no create is in flight there |
| ContainerOwnership.LateCreateOutlivesAbandon | src/openrtl/adapters/design_simulation.py:349-396 | a run where clean-up returns over a create in flight, whose container then appears |
| ContainerOwnership.OwnedIsReserved | src/openrtl/adapters/design_simulation.py:211-214 | the invariant gives clean-up its starting condition |
| ContainerRuns.SimulationCanFinish | src/openrtl/adapters/design_simulation.py:208-311 | from every reachable state with a new operation and free names, a simulation can go on to its end over a container that carried its name, image and label |
| ContainerRuns.QueryOutcome | src/openrtl/adapters/design_simulation.py:377-394 | a query goes on over nobody, removes the operation's own container, and stops over anyone else's |
| ContainerOwnership.Daemon.ReleaseName | src/openrtl/adapters/design_simulation.py:377-394 | frees one reserved name without touching others; succeeds whenever calls are answered and identities match |
| ContainerOwnership.Daemon.AbandonOperation | src/openrtl/adapters/design_simulation.py:349-396 | removes exactly the operation's containers, refuses a wrong intent before any call, succeeds whenever calls are answered and identities match |
| ContainerOwnership.Daemon.RunContainer | src/openrtl/adapters/design_simulation.py:241-247 | leaves at most its own named container behind, and none when the id was received and removal was answered, also after a failed start |
| RuntimeReceipt.StepKeepsInv | src/openrtl/runtime_cli.py:206-291 | every step of select, self-test and recover, also a raise or a death, keeps the receipt invariant |
| RuntimeReceipt.RunKeepsInv | src/openrtl/runtime_cli.py:206-291 | the same after every run |
| RuntimeReceipt.UnresolvedIsNamed | src/openrtl/runtime_cli.py:206-211 | at most one attempt is unresolved; the receipt names it with the selected profile, and nothing new can start |
| RuntimeReceipt.RecoveryReopens | src/openrtl/runtime_cli.py:270-291 | over a complete intent, recovery with the recorded transport resolves the attempt and lets select in again |
| RuntimeReceipt.PendingNeedsIntent | src/openrtl/runtime_cli.py:285-290 | some continuation recovers a pending receipt if and only if its intent is complete; otherwise no continuation changes it |
| RuntimeReceipt.DiedBeforeIntent | src/openrtl/runtime_cli.py:248-254 | a run that leaves "running" without an intent |
| RuntimeReceipt.DiedWritingIntent | src/openrtl/adapters/design_simulation.py:216-219 | a run that leaves "running" with a torn intent, over which recovery still starts |
| RuntimeReceipt.StuckIsReachable | src/openrtl/runtime_cli.py:248-254 | for every profile both states are reachable, with a receipt no continuation changes |
| RuntimeReceipt.ReadyWasVerified | src/openrtl/runtime_cli.py:147-176 | a profile is ready only if exactly it and this transport completed a verified passing run, whenever its files were read |
| RuntimeReadiness.ReadyIff | src/openrtl/runtime_cli.py:147-176 | whenever its files were read in a run, a profile is ready if and only if the receipt passed for it and this transport and its report still stands |
| RuntimeReadiness.CleanTestMakesReady | src/openrtl/runtime_cli.py:224-267 | from every state in which a self-test may start, a clean one leaves the profile ready |
| RuntimeReadiness.ReadyIsReachable | src/openrtl/runtime_cli.py:214-267 | for every profile and transport a run from the beginning ends ready |
| RuntimeReadiness.ReadyUntilReselected | src/openrtl/runtime_cli.py:147-176 | in every reachable state a passing receipt keeps its profile ready, for its transport only, until another profile is selected |
| RuntimeReadiness.CommandsStartIff | src/openrtl/runtime_cli.py:206-290 | exactly when select, self-test and recovery may start |
| RuntimeReadiness.OnlyEffectiveSavesWrite | src/openrtl/runtime_cli.py:206-291 | the two files change only in a save that takes effect, one at a time |
| RuntimeReceipt.StateDirectory.SelfTest | src/openrtl/runtime_cli.py:224-267 | what the receipt holds after success, failure, or a death at any save; every call is a run of the transition system over the same files |
| RuntimeReceipt.StateDirectory.FinishTest | src/openrtl/runtime_cli.py:249-267 | the part from the simulation on: passing receipt exactly over verified evidence, otherwise needs-recovery |
| WheelInstall.StepKeepsInv | tools/bootstrap_openrtl.py:238-285 | every step of every process keeps the installation invariant |
| WheelInstall.InstallIsSafe | tools/bootstrap_openrtl.py:223-285 | in every run at most one process is past the lock, the destination is untouched or exactly the pinned bytes, and a returned path holds them |
| WheelInstall.InstalledStays | tools/bootstrap_openrtl.py:275-277 | present bytes never change again |
| WheelProgress.CanInstall | tools/bootstrap_openrtl.py:238-277 | from every reachable state with nothing installed and a free lock, a new process can install the pinned bytes and return |
| WheelProgress.InstalledIsFound | tools/bootstrap_openrtl.py:223-243 | once installed, every new process returns at its first look and changes nothing |
| WheelProgress.RefusedIff | tools/bootstrap_openrtl.py:223-268 | a look, a lock attempt and a fetch raise exactly over other bytes, a held lock, and unpinned data |
| WheelProgress.OnlyDeathsLeaveFiles | tools/bootstrap_openrtl.py:280-285 | in a run without deaths every temporary file belongs to the lock holder |
| WheelProgress.GoneHoldsNoLock | tools/bootstrap_openrtl.py:280-285 | no process that is gone holds the lock |
| WheelInstall.Directory.CachedWheel | tools/bootstrap_openrtl.py:223-235 | nothing, the pinned bytes, or a refusal, each exactly when it applies |
| WheelInstall.Directory.InstallWheel | tools/bootstrap_openrtl.py:238-285 | succeeds exactly when the bytes are there or can be put there; success means the pinned bytes, a death leaves only its temporary file |
| ExportWriter.AcceptedIsComplete | src/openrtl/adapters/design_portable.py:143-146 | whatever a reader accepts holds every planned file and the manifest with their exact bytes |
| ExportWriter.PartsConcat | src/openrtl/adapters/design_export.py:110-116 | the components of a path are those before a slash and those after it |
| ExportWriter.PartsOfComponent | src/openrtl/adapters/design_export.py:110-116 | without a slash a path is one component, or none if empty or a dot |
| ExportWriter.AchievableIsPlaceable | src/openrtl/adapters/design_export.py:130-133 | names that keep apart can be laid out in any order beside the marker |
| ExportWriter.Target.CreateFile | src/openrtl/adapters/design_export.py:121-125 | exclusive creation: an existing entry raises and is kept |
| ExportWriter.Target.Write | src/openrtl/adapters/design_export.py:110-128 | writes one file below new or existing directories, never changing an earlier entry; raises only for a bad or occupied path |
| ExportWriter.Target.WriteAll | src/openrtl/adapters/design_export.py:131-132 | every planned file is in place with the marker still present |
| ExportWriter.Target.WriteExport | src/openrtl/adapters/design_export.py:94-137 | whenever it stops, the directory is empty, marked or complete; an existing destination is unaltered; an achievable plan completes whenever the process lives long enough, and nothing else is written |
| SessionStore.SaveAppends | src/openrtl/adapters/design_session_store.py:132-179 | a successful save appends one snapshot and its event and keeps every earlier row and blob |
| SessionSaves.SavedRows | src/openrtl/adapters/design_session_store.py:151-174 | the rows a save adds: the updated state with the supplied files and import rows, one revision on, and its event; every other field as updated |
| SessionSaves.SnapshotIsUnique | src/openrtl/adapters/design_session_store.py:151-167 | that describes one snapshot only |
| SessionSaves.ItemsAreAdded | src/openrtl/adapters/design_session_store.py:152-165 | when the item loop succeeds, and which files, import rows and blobs it leaves |
| SessionSaves.SaveSucceedsIff | src/openrtl/adapters/design_session_store.py:147-167 | exactly which updates are saved |
| SessionSaves.UpgradeKeepsTheRest | src/openrtl/adapters/design_session_store.py:93-107 | an upgrade changes nothing but schema, added fields and revision |
| SessionSaves.OwnsWhatIsActive | src/openrtl/adapters/design_session_store.py:175-178 | a writer owns only the active operation, owns the one it started, and gives up the one that ended |
| SessionStore.NoCollision | src/openrtl/adapters/design_session_store.py:171-174 | with a contiguous history the insertions never collide |
| SessionStore.PerformKeeps | src/openrtl/adapters/design_session_store.py:93-179 | any call, succeeding or failing, only appends to the history |
| SessionStore.HistoryInvariant | src/openrtl/adapters/design_session_store.py:93-179 | after any sequence of calls revisions run from zero, event k pairs with snapshot k, blobs are filed under their digest, earlier history is a prefix |
| SessionStore.NoLostUpdate | src/openrtl/adapters/design_session_store.py:149-150 | of two writers that read the same snapshot the second fails, whatever happened in between |
| SessionStore.RereadIffUntouched | src/openrtl/adapters/design_session_store.py:126-179 | over any calls in between, a later read returns the same snapshot if and only if none of them committed |
| SessionStore.ItemsResolve | src/openrtl/adapters/design_session_store.py:152-165 | exactly which blobs exist and where each file digest comes from after the items are added |
| SessionStore.SaveResolvesIff | src/openrtl/adapters/design_session_store.py:151-174 | a save keeps every digest resolvable if and only if the digests it carries over resolve or are supplied |
| SessionStore.UnbackedImportDangles | src/openrtl/adapters/design_session_store.py:151-174 | under all rules, an accepted save carrying over an import whose bytes are in no blob leaves a digest without bytes |
| SessionStore.SaveCanDangle | src/openrtl/adapters/design_session_store.py:151-174 | two saves of a new session, an approval and a file nobody supplied, that succeed and leave a digest without bytes |
| SessionStore.RunResolves | src/openrtl/adapters/design_session_store.py:93-179 | over every run of such saves, upgrades and failing calls, every digest of every snapshot resolves |
| SessionStore.DesignSessionStore.InsertItems | src/openrtl/adapters/design_session_store.py:152-165 | the loop over files and imports adds exactly the specified blobs and references |
| SessionStore.DesignSessionStore.SaveSnapshot | src/openrtl/adapters/design_session_store.py:132-179 | the transaction succeeds exactly when specified and rolls everything back otherwise; owned operations follow |
| Portable.PlanPinsFiles | src/openrtl/adapters/design_portable.py:135-140 | equal plans cover equal files, byte for byte |
| Portable.RunMaterial | src/openrtl/adapters/design_portable.py:37-67 | accepts exactly a fully bound run and returns the paths its report calls for |
| Portable.CheckReferences | src/openrtl/adapters/design_portable.py:83-90 | accepts exactly references whose bytes are present and match, and collects their paths |
| Portable.ValidateRecords | src/openrtl/adapters/design_portable.py:70-96 | accepts exactly a gap-free, current, resting history whose file set is the one it references |
| PortableMeaning.RunCheckedIff | src/openrtl/adapters/design_portable.py:37-67 | what an accepted run is, file by file |
| PortableMeaning.EvidenceIsPinned | src/openrtl/adapters/design_portable.py:54-63 | two file sets accepted for one snapshot hold the same runner and evidence, byte for byte |
| PortableMeaning.TimesMatterIffPassed | src/openrtl/adapters/design_portable.py:64-66 | a passing run needs its times, a failing one is accepted whatever they are |
| PortableMeaning.RecordsAcceptedIff | src/openrtl/adapters/design_portable.py:70-96 | exactly which records are accepted, entry by entry |
| PortableMeaning.HistoryPinsBytes | src/openrtl/adapters/design_portable.py:70-96 | two file sets accepted for one history have the same files, blobs and evidence bytes |
| PortableAcceptance.PlanSays | src/openrtl/adapters/design_portable.py:135-140 | a plan names exactly these files with digests and lengths, this state and this revision |
| PortableBackup.CollectedIsExpected | src/openrtl/adapters/design_portable.py:113-127 | what is collected is always exactly the set validation expects |
| PortableBackup.Contents | src/openrtl/adapters/design_session_store.py:181-190 | reads exactly the referenced blobs, refusing missing, oversized or changed ones |
| PortableBackup.AddBlobs | src/openrtl/adapters/design_portable.py:115-116 | files every content under its own digest and keeps what was collected |
| PortableBackup.AddRun | src/openrtl/adapters/design_portable.py:118-125 | copies the eight files of a run, each once |
| PortableBackup.LatestIsGreatestKey | src/openrtl/adapters/design_session_store.py:126-130 | the latest snapshot is the last one in key order |
| PortableBackup.PortableMaterial | src/openrtl/adapters/design_portable.py:99-132 | exports exactly the sessions described by its condition that no writer changes before the second read, with the expected files, the latest state and their plan |
| PortableAcceptance.ExportableIff | src/openrtl/adapters/design_portable.py:99-132 | exactly which sessions export which files, in terms of their rows, blobs, runs and bounds |
| PortableBackup.ExportsIffUntouched | src/openrtl/adapters/design_portable.py:128-130 | the second read agrees with the first if and only if no call in between committed |
| PortableBackup.WriteInBetweenRefuses | src/openrtl/adapters/design_portable.py:128-130 | every save that succeeds between the two reads makes them differ |
| PortableBackup.FreshExportCanBeRefused | src/openrtl/adapters/design_portable.py:128-130 | a change of detail in a new exportable session is such a save |
| PortableBackup.FreshSessionExports | src/openrtl/adapters/design_portable.py:99-132 | a session just created exports if and only if its snapshot is valid, current and fits |
| PortableRestore.PortableInput | src/openrtl/adapters/design_portable.py:143-172 | accepts exactly a complete directory that matches its plan and holds valid records |
| PortableAcceptance.AcceptedIff | src/openrtl/adapters/design_portable.py:143-172 | exactly which directories are accepted, in terms of marker, rows, bytes, records and plan |
| PortableRestore.ExportReadsBack | src/openrtl/adapters/design_portable.py:143-172 | an exported directory is accepted and yields the exported files and history |
| PortableRestore.ReviewedPlanPins | src/openrtl/adapters/design_portable.py:184-189 | two directories accepted under one plan hold the same files and history |
| PortableRestore.RestoredMaterial | src/openrtl/adapters/design_portable.py:195-217 | restores exactly checked material whose bumped state is valid, into the specified tables |
| PortableRestore.RestoredIsSound | src/openrtl/adapters/design_portable.py:206-213 | restored tables are contiguous, content-addressed and resolve every digest |
| PortableRestore.RestoreKeepsHistory | src/openrtl/adapters/design_portable.py:200-212 | the restored history is the original plus one snapshot equal to the last except for revision, and one receipt |
| PortableRestore.RestoredMaterialAgrees | src/openrtl/adapters/design_portable.py:113-125 | a restored session collects the same files except for its longer records |
| PortableRestore.RestoredExportsAgain | src/openrtl/adapters/design_portable.py:99-132 | a restored session exports again, old history as prefix, if and only if one more revision fits the bounds |
| PortableRuns.ExportsIffIntentsBind | src/openrtl/adapters/design_portable.py:49-53 | of two disks that differ in intents only, where one exports the other does if and only if every retained run's intent binds its report |
| PortableRuns.ExportsIffDirect | src/openrtl/adapters/design_portable.py:49-53 | with the intents the simulations wrote, that is if and only if every retained run was staged without a transport |
| PortableRuns.RetainedRunBinds | src/openrtl/adapters/design_portable.py:49-53 | in every session that exports, every retained run has the plain intent |
| PortableRuns.TwinIsSaved | src/openrtl/adapters/design_session_store.py:132-174 | the session of the next row is what one save makes of a new session |
| PortableRuns.StagedRunIsRefused | src/openrtl/adapters/design_portable.py:49-53 | the export of one session succeeds from the disk of a direct run and fails from that of the same run staged |
| PortableDirectory.ReadsOnlyComplete | src/openrtl/adapters/design_portable.py:143-172 | whenever the writer stopped, a directory the reader accepts holds the exported plan and exactly the exported files |
| PortableDirectory.CompleteReadsBack | src/openrtl/adapters/design_portable.py:143-172 | a directory written to the end is accepted with the exported files and history |
| BoundedTrace.CutKeepsWhatFits | src/openrtl/adapters/design_trace_store.py:62-66 | cutting keeps a text if and only if it fits the byte budget |
| BoundedTrace.CanonSorts | src/openrtl/domain/design_session.py:39-41 | storing sorts every object by key and changes no sorted tree |
| TraceWalks.BeforeIff | src/openrtl/domain/design_session.py:39-41 | keys are stored by their characters, a prefix first |
| BoundedTrace.Produced | src/openrtl/adapters/design_trace_store.py:38-68 | a walk's output is tidy, counts what was visited, keeps key order, and ends in the marker when the budget ran out |
| TraceWalks.SucceedsIffRecordable | src/openrtl/adapters/design_trace_store.py:38-68 | the walk succeeds exactly if every key and value it meets can be recorded |
| TraceWalks.WithinBoundsAllIsKept | src/openrtl/adapters/design_trace_store.py:38-68 | within the bounds nothing changes but scrubbed texts and redacted secrets |
| TraceWalks.WalkPrunes | src/openrtl/adapters/design_trace_store.py:38-68 | for every payload the output is a pruned copy, each part cleaned and in its own place |
| BoundedTrace.Flagged | src/openrtl/adapters/design_trace_store.py:41-66 | truncation is reported if and only if the payload has too many nodes, is too deep, or meets a text too long |
| BoundedTrace.Carried | src/openrtl/adapters/design_trace_store.py:61-67 | the texts of the output have a property if and only if the cleaned forms of the texts met have it |
| BoundedTrace.Again | src/openrtl/adapters/design_trace_store.py:38-68 | within budget a tidy tree is a fixed point; one node beyond, exactly when it ends in the marker |
| BoundedTrace.CanonKeeps | src/openrtl/adapters/design_trace_store.py:168-171 | sorting keys keeps tidiness, node count and depth |
| BoundedTrace.StoredEnd | src/openrtl/adapters/design_trace_store.py:44-59 | the stored tree ends in the marker if and only if the payload's cut falls under the greatest key met at every level |
| BoundedTrace.StoredTreeIff | src/openrtl/adapters/design_trace_store.py:168-172 | the exact condition on the payload under which a second walk returns the stored tree and reports no new truncation, for every scrubber |
| BoundedTrace.SortedIsFixed | src/openrtl/adapters/design_trace_store.py:168-172 | visited in stored key order, the output is a fixed point if and only if every text met is scrubbed for good |
| TraceStore.Cleaner.CleanValue | src/openrtl/adapters/design_trace_store.py:38-68 | the recursive walk with shared counters computes the specified value, visits and truncation |
| TraceStore.Cleaner.CleanArray | src/openrtl/adapters/design_trace_store.py:53-59 | the loop over list elements, with its early stop |
| TraceStore.Cleaner.CleanObject | src/openrtl/adapters/design_trace_store.py:44-52 | the loop over object fields, redacting secret keys without visiting their child |
| TraceStore.BoundedPayload | src/openrtl/adapters/design_trace_store.py:34-75 | the bounded payload or its preview, with the truncation flag |
| TraceStore.RereadIff | src/openrtl/adapters/design_trace_store.py:168-172 | exactly which payloads a reader accepts after recording, for every scrubber, where redaction leaves the stored tree alone |
| TraceStore.OutOfOrderIsRefused | src/openrtl/adapters/design_trace_store.py:168-172 | a short field before a long list under a smaller key is recorded and never read |
| TraceStore.UnsteadyIsRefused | src/openrtl/adapters/design_trace_store.py:168-172 | under every scrubber, a text that scrubs differently the second time is recorded and never read |
| TraceStore.HeaderSecretIsRefused | src/openrtl/adapters/design_trace_store.py:25-31 | a secret inside a private-key header is such a text for every scrubber that handles it as the two patterns do |
| TraceStore.RunKeepsLimits | src/openrtl/adapters/design_trace_store.py:126-137 | over every run the table stays within its limits and every row comes from a recorded call |
| TraceStore.WrittenReads | src/openrtl/adapters/design_trace_store.py:159-172 | a written row that redaction leaves alone is readable if and only if its redacted payload is repeatable |
| TraceStore.RunReads | src/openrtl/adapters/design_trace_store.py:139-177 | if every recorded payload is repeatable and stays redacted, every row of every run is readable |
| TraceStore.DesignTraceStore.Record | src/openrtl/adapters/design_trace_store.py:116-137 | appends the bounded row, counts an omission at the limits, or refuses and changes nothing |
| TraceRuns.RecordedOrCounted | src/openrtl/adapters/design_trace_store.py:116-137 | on every table an accepted call is one more row if there is room, otherwise counted; a refused one has no effect |
| TraceRuns.NothingIsLost | src/openrtl/adapters/design_trace_store.py:126-137 | over every run rows and omissions add up to the accepted calls, and the rows stand in call order |
| TraceRuns.AllKeptWithRoom | src/openrtl/adapters/design_trace_store.py:126-137 | as long as there is room every accepted call is kept |
| TraceRuns.RowHoldsThePayload | src/openrtl/adapters/design_trace_store.py:69-75 | a row of a payload within the bounds holds all of it, scrubbed and redacted |
| TraceRuns.OversizedIsPreviewed | src/openrtl/adapters/design_trace_store.py:71-75 | an oversized payload becomes a preview of the longest prefix that fits |
| TraceRuns.SelectsItsRows | src/openrtl/adapters/design_trace_store.py:154-158 | a query selects every row of its operations, once, in table order |
| TraceRuns.ReadableIffRewritten | src/openrtl/adapters/design_trace_store.py:159-172 | a reader accepts a stored row if and only if recording its payload would write it again |
| TraceStore.CheckRow | src/openrtl/adapters/design_trace_store.py:159-172 | accepts exactly the readable rows |
| TraceStore.ReadRows | src/openrtl/adapters/design_trace_store.py:157-177 | the loop over selected rows returns all of them, or stops at one that is not readable |
| TraceStore.DesignTraceStore.Records | src/openrtl/adapters/design_trace_store.py:139-177 | returns exactly the selected rows if and only if all of them are readable; the size limits never refuse |
| SpecificationTransport.RecordsIff | src/openrtl/adapters/design_specification_transport.py:109-121 | rows become records if and only if all are well shaped and no identifier repeats, each under its identifier |
| SpecificationTransport.RecordsReturn | src/openrtl/adapters/design_specification_transport.py:86-95 | decoded records encode back to the same records |
| SpecificationTransport.RowsReturn | src/openrtl/adapters/design_specification_transport.py:86-95 | complete rows come back as a permutation in fixed order, unchanged if and only if in that order; incomplete ones are refused |
| SpecificationTransport.UntouchedIff | src/openrtl/adapters/design_specification_transport.py:107-121 | encoding leaves a block unchanged if and only if it holds no unambiguous row list |
| SpecificationTransport.BlockReturns | src/openrtl/adapters/design_specification_transport.py:86-95 | a decoded block encodes back to itself |
| SpecificationTransport.BlockRoundTrip | src/openrtl/adapters/design_specification_transport.py:86-121 | an encoded block decodes if and only if it was presentable, with its rows in fixed order and nothing else changed |
| SpecificationTransport.WireReturns | src/openrtl/adapters/design_specification_transport.py:79-121 | encoding a decoded specification gives back the wire form |
| SpecificationTransport.EncodesOnce | src/openrtl/adapters/design_specification_transport.py:99-121 | encoding is idempotent on every value |
| SpecificationTransport.SavedReturnsIff | src/openrtl/adapters/design_specification_transport.py:68-121 | a saved specification survives the round trip if and only if it names its module once and its blocks are presentable |
| SpecificationTransport.SavedRoundTrip | src/openrtl/adapters/design_specification_transport.py:68-121 | the round trip changes nothing but the order of complete inventories |
| SpecificationCodec.EncodeRows | src/openrtl/adapters/design_specification_transport.py:109-121 | the row loop, with its break, yields the specified records or none |
| SpecificationCodec.DecodeRecords | src/openrtl/adapters/design_specification_transport.py:87-95 | decodes exactly complete, well-shaped records, in fixed order |
| SpecificationCodec.EncodeSpecification | src/openrtl/adapters/design_specification_transport.py:99-121 | the loop over inventories equals the encoding of each block |
| SpecificationCodec.DecodeModuleName | src/openrtl/adapters/design_specification_transport.py:68-76 | accepts exactly the explicit name alone and renames it |
| SpecificationCodec.DecodeSpecification | src/openrtl/adapters/design_specification_transport.py:79-96 | decodes exactly the decodable specifications, block by block |
| SpecificationCodec.DecodeOutput | src/openrtl/adapters/design_specification_transport.py:79-96 | a missing or null specification is kept; any other is decoded or refused |
| SpecificationCodec.BothNamesSurvive | src/openrtl/adapters/design_specification_transport.py:100-104 | contradictory names both survive encoding with their values and are refused by decoding |
| SpecificationCodec.ContextOnce | src/openrtl/adapters/design_specification_transport.py:124-136 | presenting a context is idempotent and changes only the specification and the correction |
| SpecificationCodec.ContextPresents | src/openrtl/adapters/design_specification_transport.py:124-136 | saved and rejected specifications are encoded, feedback speaks of the wire name, and nothing else changes |
| SpecificationInventories.ShapeIsWellFormed | src/openrtl/adapters/design_specification_transport.py:19-24 | the inventories in use meet the condition of every result above |
| ManifestTransport.ConvertEntries | src/openrtl/adapters/design_manifest_transport.py:45-54 | converts exactly lists of at most 64 well-formed entries, in order |
| ManifestTransport.DecodeManifest | src/openrtl/adapters/design_manifest_transport.py:57-79 | decodes one unambiguous spelling or returns the manifest unchanged |
| ManifestTransport.EncodeManifest | src/openrtl/adapters/design_manifest_transport.py:82-93 | encodes saved names as paths or returns the manifest unchanged |
| ManifestTransport.EntryNames | src/openrtl/adapters/design_manifest_transport.py:45-54 | exactly which entries name a module |
| ManifestTransport.DecodeMeans | src/openrtl/adapters/design_manifest_transport.py:57-79 | a manifest that spells a list of modules decodes to their names, any other is unchanged |
| ManifestTransport.EncodeMeans | src/openrtl/adapters/design_manifest_transport.py:82-93 | a saved list of modules is encoded as their paths, any other manifest is unchanged |
| ManifestTransport.NamesReturn | src/openrtl/adapters/design_manifest_transport.py:45-54 | bare names come back from their paths in order, with duplicates |
| ManifestTransport.DecodeAfterEncode | src/openrtl/adapters/design_manifest_transport.py:57-93 | on every manifest, encoding first does not change what decoding gives |
| ManifestTransport.EncodeAfterDecode | src/openrtl/adapters/design_manifest_transport.py:57-93 | on every manifest, decoding first does not change what encoding gives |
| ManifestTransport.DecodeOnce | src/openrtl/adapters/design_manifest_transport.py:57-79 | decoding is idempotent |
| ManifestTransport.DecodeKeepsIff | src/openrtl/adapters/design_manifest_transport.py:64-79 | exactly the manifests decoding leaves alone |
| ManifestTransport.RoundTripIff | src/openrtl/adapters/design_manifest_transport.py:57-93 | the round trip is the identity if and only if the names are bare already or the manifest does not decode |

## Left out

- VCD parsing and `inspect_vcd`: a trace starts as sampled edges, each with known values or naming an unknown signal.
- Summary and next-action texts, source anchors and trace digests of the monitor's report: carried as data or omitted; no check depends on them.
- MonitorReference.SilentIffModelRun: under reset the model reports no handshake, so only the level and flags after a reset edge are compared with it.
- SpecificationTransport: the JSON schema transformation (`transport_schema`) and the stage predicate; field-by-field rewriting without a law of its own.
- ManifestTransport: `manifest_transport_schema` and `manifest_transport_context`, which apply the modelled encoder at fixed places of a context.
- Digests: SHA-256 is an injective constructor, so collisions do not occur; the collision check of the store is modelled and can then never fire.
- Domain validators (`validate_state`, `event`, `source_path`, `text`), canonical JSON text and byte totals: predicates and functions given as parameters. The total size of collected files is checked once, after the collection, instead of after every snapshot.
- SessionStore: the engineering fields of a snapshot are one opaque value, the fields of an event, with the digests a save puts into them, another, and their checks one predicate; SQLite is a pair of tables with atomic commit. A started operation is required to name its active operation, which the source indexes.
- Portable and PortableBackup: exports and validators report a refusal's first cause per step, not per field, so some error codes are merged.
- TraceStore.RereadIff: the library's redaction is a parameter applied before every walk, of which only is assumed that a mapping stays a mapping; the condition is stated for stored trees it leaves alone. Its key order is the order of the redacted payload's fields.
- TraceStore: of the text format and the fixed words it is assumed that canonical text does not depend on key order, that a preview fits a record, and that the marker and the words of a preview pass the scrubber; of the scrubber nothing else. `HeaderSecretIsRefused` states the two relevant matches of the patterns in use; regular expressions themselves are not modelled.
- MonitorRepair: the trace is in time order, as the parser delivers it.
- ContainerOwnership.Daemon: its methods carry out every call that takes effect at once; late creates are in the transition system.
- PortableBackup.PortableMaterial: the collection is one read transaction, so writers appear only between it and the second read; file reads of runs are of one disk. That the canonical text of these records reads back is a fact of the format and required.
- PortableDirectory: paths and manifest text are a layout that is injective on the files of the plan and a codec that reads this plan back.
- ContainerOwnership: container contents, evidence collection, copying to a remote workload, and the runtime identity checks; a start either succeeds or raises.
- RuntimeReceipt: the daemon inspection of a selection and the re-reads after verification; profile, receipt and report may be read at different moments instead.
- WheelInstall: downloading, file modes and ownership checks; a process either has bytes that verify or it raises.
- ExportWriter: symbolic links, directory descriptors and durability across power loss; a death happens between two file-system effects.
- Lima transport, HTTP interface, provider calls, package and release tooling: input and output plumbing.
