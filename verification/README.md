# CubeCOS driver: a verified model of its hard core

The driver installs a fleet of bare-metal nodes and turns them into a cluster. It talks to the nodes over
HTTP, which may lose anything, and through the event log (SEL) of each node's BMC, which is small, can be
wiped and can lose an acknowledgement. This project models the parts of the driver and of its agents whose
correctness is not obvious from reading one function, and proves what they promise.

## What is modelled

* **The zero-touch deploy protocol.** `Sel` is the event log as both ends read and write it (IPMI v2.0,
  sections 31 and 32.2). `GateWriter` is the driver's write path to one BMC, with a fault script around every
  call. `Deploy` says what each critical section of the driver does to a deploy and `DeployTheorems` what that
  brings about: when a manual step opens, the master-first handoff, the set-ready go, the answers to the agents.
  `Orchestrator` has the live objects, updated in place, and proves every method against those functions.
  `Protocol` puts driver, logs, agents and network together as a transition system; `ProtocolSafety` proves one
  inductive invariant over it, event by event, and `ProtocolTheorems` states what follows for every run.
  `ProtocolProgress` and `ProtocolFinish` prove the other side: every deploy with gates can be finished.
  `Healing` connects the reconciler to the write path. `InstallerAgent` and `LocalApply` are the two phases of
  the agent.
* **The enterprise run manager.** `RunManager` is the manager as a transition system over its maps, with runs
  known by identity and the calls in flight beside them; `RunSafety` proves its invariant and `RunTheorems` what
  operators rely on, `RunProgress` what an undisturbed run comes to. `RunLimits` shows that the uses the invariant rests on are exactly those that keep it, and
  what the others break; `RunClosing` tells which clients can still be closed, `RunCancels` which runs hear a
  Cancel. `RunObjects` is a run's record updated in place, with the automatic runner's loop. `RunPlans` builds
  the plans.
* **Smaller cores.** `Pxe` and `PxeFlip` (arming and restoring the boot menu) and `PxeText` (the same on the text
  of grub.cfg), `MgmtCidr` (cluster validation
  and the disjoint service range), `NodeDraft`, `NodeEffects`, `NodeEdits` and `VlanLabel` (the interface
  editor and its VLAN labels), `Inventory` (which machine plays which node), `AdvisorAddrs` (suggested and accepted addresses),
  `Decimal` (numbers in text).

Nothing is assumed about delivery in the protocol: messages and gate writes ever issued stay available for
ever, so they may be lost, repeated, delayed and reordered. A log may lose any record or be wiped at any time.

## Findings

* `Observe` returns nothing once its anchor record is gone from the log, although its comment says it falls
  back to the whole log. The model follows the code (`Sel.LostAnchorHidesEverything`, on a log with a status in
  `Sel.LostAnchorHidesAStatus`); it matters exactly if the log holds a status (`Sel.LostAnchorMatters`).
* In automatic mode there is no restore barrier: a node restores although no node, itself included, has passed
  within the skew limit (`ProtocolTheorems.AutomaticRestoresEarly`). Of the launches with gates exactly the manual
  ones have it (`ProtocolTheorems.BarrierIffManual`).
* An error folded in before other progress is forgotten, after it it stays: whether the order of two merges
  matters is settled by `Deploy.MergesCommute`.
* A Cancel that meets a cancelled Next between giving up its claim and ending the run closes the client twice
  (`RunLimits.SecondCancelClosesTwice`, reached by `RunLimits.ExposureIsReachable`). That moment is the only one
  in which a Cancel after launch does harm, however often it is repeated (`RunLimits.CancelIsSafe`).
* A launch can lose its reservation while dialling, to an App-Framework removal (`RunLimits.LaunchCanLoseItsKey`),
  and still stores its client under the key. If the module was launched again meanwhile, that run's next step is
  taken over the late launch's client (`RunLimits.LateLaunchTakesOver`). Storing it is harmless exactly if no
  launched run is running under the key and no automatic runner is still on the run that holds it
  (`RunLimits.PublishIsSafe`).
* Such a removal also takes the key from a manual run that waits for its next step
  (`RunClosing.RunCanBeStranded`); its client then stays open as long as the driver runs
  (`RunClosing.StrandedForGood`). A running run nobody is at work on can still be closed if and only if it holds
  its key (`RunClosing.ClosableIfHeld`).
* A manual run relaunched between an automatic run's failure and its cleanup inherits that run's cancel entry
  (`RunCancels.RunsCanBeDeaf`): no Cancel on its key reaches it (`RunCancels.DeafToCancel`, `RunCancels.DeafStays`).
  Exactly when one does is `RunCancels.CancelReaches`.
* The service-range check compares base addresses only: exact for nested masks and for no others
  (`MgmtCidr.ExactIffComparable`), so a mask with a gap slips through (`MgmtCidr.ScatteredMaskSlipsThrough`).
* A service range written in IPv4-mapped IPv6 notation is accepted without being compared with any IPv4 network
  (`MgmtCidr.MappedIsUnchecked`); the promise holds of exactly the ranges in dotted notation
  (`MgmtCidr.KeptIffDotted`).
* A flip's restore brings the old default back only if that names a menu entry (`PxeFlip.DefaultComesBack`).
* A VLAN whose tag is not stored, as any reloaded from the server, gets the label `<bond>.undefined` when its bond
  is renamed and loses its tag (`NodeDraft.RenameLosesTag`). A rename keeps the tag a label is read as if and only
  if that is the stored tag, 0 standing for none (`NodeDraft.RenameKeepsTag`).

## Model

| member | source | states |
|---|---|---|
| Sel.GatesPresent | internal/orchestrator/sel.go:89-105 | the driver's reader finds exactly the stages whose go record the log holds |
| Sel.SelGatePresent | cmd/phone-home-agent/preflight.go:312-347 | the agent's reader, which stops at the first match, agrees with the driver's on every log and stage |
| Sel.AddSel | cmd/phone-home-agent/preflight.go:291-308 | the byte buffer the agent fills is phase, result and the first four detail bytes, zero padded |
| Sel.StatusRoundTrip | internal/orchestrator/sel.go:285-300 | whatever phase, result and detail the agent reports, the driver reads that phase and that result by name, none for a word without a code, and the detail cut to four bytes |
| Sel.ProgressIsRead | internal/orchestrator/sel.go:303-330 | restoring, restore-done, rebooted, applying, applied and done with result ok confirm the states restoring, rebooting, waiting, applying, done and done |
| Sel.ErrorIsRead | internal/orchestrator/sel.go:303-330 | an error result fails the node whatever phase it comes with |
| Sel.TheRestIsRead | internal/orchestrator/sel.go:303-330 | of the other results no phase confirms a state if and only if it is preflight, the gate's or one without a code; an error phase fails the node |
| Sel.AgentNeverWritesGate | cmd/phone-home-agent/preflight.go:291-308 | of all words the agent can write, only gate/go would read as an authorisation |
| Sel.GateIsNoStatus | internal/orchestrator/sel.go:303-330 | a go record, whatever its stage byte, never advances or fails a node |
| Sel.Observe | internal/orchestrator/sel.go:229-262 | the one-pass observer returns exactly the last actionable status after the anchor |
| Sel.Freshness | internal/orchestrator/sel.go:264-281 | with distinct handles, what is observed after the anchor is what would be observed of the new records alone, whatever the log held before |
| Sel.TrailingNoiseMasksNothing | internal/orchestrator/sel.go:229-262 | gate and endpoint records behind a status never mask it |
| Sel.LostAnchorHidesEverything | internal/orchestrator/sel.go:246-254 | once the anchor's record is gone nothing is observed, status or not |
| Sel.LostAnchorHidesAStatus | internal/orchestrator/sel.go:246-254 | a log with a reported restore of which nothing is observed, its anchor being gone |
| Sel.LostAnchorMatters | internal/orchestrator/sel.go:229-262 | with the anchor gone, the observer agrees with one that reads the whole log if and only if no record is a status |
| Sel.EndpointRoundTrip | internal/orchestrator/sel.go:401-418 | an endpoint decodes to the address and port encoded, and an unset address to none |
| Deploy.MergeNeverRegresses | internal/orchestrator/sel.go:353-391 | an out-of-band merge keeps the state, fails the node or moves it strictly forward, and never touches a done node |
| Deploy.MergesCommute | internal/orchestrator/sel.go:353-391 | two merges give the same record in either order, unless one is an error, the other progress short of done, and the node is not done |
| Deploy.DoneStaysDone | internal/orchestrator/manager.go:1109-1179 | of all handlers only an agent's own preflight report, state report or apply failure takes a node out of done |
| Deploy.OnlyForward | internal/orchestrator/manager.go:1147-1179 | failures, rekicks and the agent's own word apart, no handler takes a node back along the pipeline, and imaging progress or a boot error never overwrites what the agent reported |
| Deploy.LedgerHasItsOwnSections | internal/orchestrator/manager.go:596-613 | a handler leaves ledger, acknowledgements and anchor alone; a grant adds its stage at the end, once, and changes nothing else |
| DeployTheorems.MasterHandsOver | internal/orchestrator/manager.go:831-851 | the master's completion gives every other node, and nobody else, its apply go and issues the write of exactly that ledger, if the deploy is automatic and does not hold its peers; in any other case nothing happens |
| DeployTheorems.SetReadyIsDue | internal/orchestrator/manager.go:385-410 | an automatic deploy gives its master, and only it, the set-ready go exactly when every node is done |
| DeployTheorems.CompletionSetsOff | internal/orchestrator/manager.go:822-851 | a completion report makes its node done, lets every peer go if it is the master's, tells the master to make the cluster ready if it is the last, and changes nothing else |
| DeployTheorems.ReleaseLetsGo | internal/orchestrator/manager.go:553-584 | the operator's release gives that node its apply go and issues the write, whatever the others do |
| DeployTheorems.CanAdvanceMeans | internal/orchestrator/manager.go:1619-1671 | the barrier is open exactly if every report is in order at step 1, every node rebooting or further at step 2, checked in or further at step 3, the master done at step 4, every node done at step 5 |
| DeployTheorems.NextOpens | internal/orchestrator/manager.go:1578-1671 | the operator's Next moves a manual deploy on, by one, exactly if every node has what the step waits for, named state by state, and gives the new step's nodes its stage; otherwise it does nothing |
| DeployTheorems.HeldForTheMaster | internal/orchestrator/manager.go:1677-1699 | a node that checks in is held exactly while it is not the master and the master is not done |
| DeployTheorems.GreenLightIsGiven | internal/orchestrator/manager.go:1509-1540 | the first green light is given exactly when every report is in order and the restore step open; its node is shown restoring only once its go was read back |
| DeployTheorems.TriggerIsGiven | internal/orchestrator/manager.go:356-379 | the polled trigger is given exactly on request, once every node is done, and not before a manual deploy's last step |
| DeployTheorems.ApplyMayProceed | internal/orchestrator/manager.go:1558-1571 | an apply may proceed in a manual deploy from the node's own step on, otherwise always |
| DeployTheorems.AppliedRecordCompletes | internal/orchestrator/sel.go:353-391 | an applied or done record merged into a node makes it done, and raises the completion flag unless it was done before |
| DeployTheorems.ErrorRecordFails | internal/orchestrator/sel.go:353-391 | an error record fails its node unless it is done, and completes nothing |
| DeployTheorems.ReadyRecordSettles | internal/orchestrator/sel.go:353-391 | the master's set-ready result becomes the cluster's; another node's is ignored |
| DeployTheorems.PipelineIsWalked | internal/orchestrator/manager.go:1313-1452 | the handlers of an undisturbed deploy take a node through every state of the pipeline, out of band and in band |
| DeployTheorems.ImagingStopsAtTheAgent | internal/orchestrator/manager.go:1147-1193 | imaging progress and boot errors change a node exactly in the seven states before its agent reports |
| DeployTheorems.RekickClosesTheBarrier | internal/orchestrator/manager.go:1466-1492 | a rekick is taken exactly before the restore, raises the node's counter and closes the restore step until it reports anew |
| DeployTheorems.CancelStopsTheRest | internal/orchestrator/manager.go:1013-1036 | a cancelled deploy fails exactly what is not done, and re-asserts no gate of what it failed |
| DeployTheorems.StartOpens | internal/orchestrator/manager.go:857-953 | an automatic deploy with gates opens with restore and reboot for every node and apply for the master, one write of the whole ledger to each; any other authorises nothing |
| GateWriter.IpmiWriteGate | internal/orchestrator/sel.go:116-177 | the writer's loops take device and result where the attempt-by-attempt specification says, under every fault script |
| GateWriter.WriteGateSound | internal/orchestrator/sel.go:107-177 | success is reported only when the log then shows every requested stage, under arbitrary faults and interference |
| GateWriter.WriteGateConverges | internal/orchestrator/sel.go:107-177 | on a quiet device that can hold the stages, with time for two retries, the write succeeds within three reads from any log, wiping a full one, and keeps every other record if there was room |
| GateWriter.PassThroughWipe | internal/orchestrator/sel.go:144-170 | a pass that does not fit wipes once and leaves one record for each stage of a tail of the missing ones |
| GateWriter.WritersStayWithin | internal/orchestrator/sel.go:116-195 | gate writes, endpoint stamps and wipes, whatever fails and whoever else writes authorised records, leave no stage outside the authorised set |
| GateWriter.IpmiClearSel | internal/orchestrator/sel.go:181-195 | the wipe takes the device where reserve and clear say, or leaves it on a fault |
| GateWriter.ClearSelEmpties | internal/orchestrator/sel.go:181-195 | the deploy-start wipe succeeds exactly if its three calls go through, and then leaves nothing in the log |
| GateWriter.IpmiWriteEndpoint | internal/orchestrator/sel.go:436-459 | the endpoint stamp adds one record, wiping once when the log is full and adding again |
| GateWriter.EndpointStamps | internal/orchestrator/sel.go:401-459 | a stamp that reports success is the log's newest record and reads back as the address; on a quiet device it succeeds, keeping the log if there is room and rewriting a full one |
| Orchestrator.NodeDeploy.AtRisk | internal/orchestrator/manager.go:701-714 | the scan for an unacknowledged gate decides exactly whether a gate is still at risk |
| Orchestrator.Manager.AuthorizeGates | internal/orchestrator/manager.go:596-613 | the stage enters the ledgers of the targets that lack it, at their end, and no other record changes |
| Orchestrator.Manager.FlushGates | internal/orchestrator/manager.go:628-653 | one background write for each target with a ledger, carrying all of it |
| Orchestrator.Manager.Next | internal/orchestrator/manager.go:1578-1616 | the live manager moves its step and ledgers as `Deploy.AdvanceStep` does, which `DeployTheorems.NextOpens` settles by name |
| Orchestrator.Manager.MayAdvance | internal/orchestrator/manager.go:1619-1637 | the loops over the fleet decide the barrier, which is the one `DeployTheorems.CanAdvanceMeans` names state by state |
| Orchestrator.Manager.Applied | internal/orchestrator/manager.go:822-851 | the live manager marks the node, hands over and considers set-ready, in this order; what that brings about is `DeployTheorems.CompletionSetsOff` |
| Orchestrator.Manager.MaybeAutoSetReady | internal/orchestrator/manager.go:385-394 | in automatic mode set-ready is granted to the master exactly when every node is done |
| Orchestrator.Manager.GetSetReady | internal/orchestrator/manager.go:356-379 | the polled trigger is on only with the operator's request, every node done and, in manual mode, the last step reached |
| Orchestrator.Manager.AnswerCheckIn | internal/orchestrator/manager.go:1677-1699 | a node is held exactly if it is not the master and the master is not done |
| Orchestrator.Manager.GreenLightOne | internal/orchestrator/manager.go:1509-1540 | the barrier opens only on a ready fabric and, in manual mode, past the first step; the node moves on only if its restore go is confirmed |
| Orchestrator.Manager.MergeStatus | internal/orchestrator/sel.go:353-391 | a status is merged into its node, a set-ready result into the cluster, and a merge that completes the node is told apart |
| Orchestrator.Manager.GatesToRecheck | internal/orchestrator/manager.go:665-685 | the reconciler's snapshot is the ledger of every node at risk and no other |
| Orchestrator.Manager.Release | internal/orchestrator/manager.go:553-584 | an operator's release grants apply to that node alone |
| Orchestrator.StartDeploy | internal/orchestrator/manager.go:857-953 | a deploy starts with fresh records and, in automatic mode, with restore and reboot granted to all and apply to the master |
| ProtocolSafety.RunKeeps | internal/orchestrator/manager.go:596-851 | every run keeps the invariant: ledgers justified, logs within ledgers, states earned, records and messages backed, barriers met |
| ProtocolSafety.StepKeeps | internal/orchestrator/manager.go:1578-1699 | so does every single event of driver, channel and agents |
| ProtocolTheorems.MasterFirst | internal/orchestrator/manager.go:822-851 | no peer begins its apply before the master's agent has finished its own, in either mode and on either route, unless the operator released that peer |
| ProtocolTheorems.SetReadyLast | cmd/phone-home-agent/main.go:659-676 | whoever runs set_ready, every agent has finished its apply, with or without releases |
| ProtocolTheorems.SetReadyGoOnlyOnMaster | internal/orchestrator/manager.go:381-410 | a set-ready go is readable only on the master, and only when the fleet has applied |
| ProtocolTheorems.SetReadyGrantedWhenAllDone | internal/orchestrator/manager.go:385-410 | stage 4 enters only the master's ledger, at a moment when every node is done |
| ProtocolTheorems.ManualLedgerExact | internal/orchestrator/manager.go:1578-1616 | in a manual deploy without releases a ledger is exactly what the step and the node's role fix |
| ProtocolTheorems.ManualStepRises | internal/orchestrator/manager.go:1578-1637 | the step changes only by the operator, by one, up to 6, through its barrier |
| ProtocolTheorems.RestoreBarrier | internal/orchestrator/manager.go:1505-1540 | in a manual deploy no agent restores before every node passed preflight with its skew inside the limit |
| ProtocolTheorems.RebootBarrier | internal/orchestrator/manager.go:1619-1646 | in a manual deploy no agent leaves the installer before every disk is imaged, unless its own power is cut once its disk is |
| ProtocolTheorems.StepMeansProgress | internal/orchestrator/manager.go:1619-1646 | what the step counter says, the whole fleet has physically done |
| ProtocolTheorems.AutomaticRestoresEarly | internal/orchestrator/manager.go:945-952 | in automatic mode any node can restore although no node has passed within the limit |
| ProtocolTheorems.BarrierIffManual | internal/orchestrator/manager.go:945-952 | of the launches with gates, exactly the manual ones hold every restore back until every node has passed, in every run |
| ProtocolTheorems.NoUnauthorisedGo | internal/orchestrator/manager.go:598-659 | a log never shows a stage outside its ledger, ledgers have no repetitions, acknowledgements are within them |
| ProtocolTheorems.LedgerOnlyGrows | internal/orchestrator/manager.go:598-613 | a ledger is only ever extended at its end |
| ProtocolTheorems.StateIsEarned | internal/orchestrator/model.go:209-231 | a node shown as imaged, booted or done has been imaged, booted, applied |
| ProtocolFinish.EveryLaunchCanFinish | internal/orchestrator/manager.go:822-953 | from every launch with gates there is a run without a release by hand in which every node applies, the master makes the cluster ready, and a manual deploy reaches its last step; only held peers use the network |
| ProtocolFinish.FinishedWithinLimit | internal/orchestrator/manager.go:1660-1671 | a manual deploy whose skew limit is negative is never finished, in any run |
| ProtocolFinish.CanFinishIff | internal/orchestrator/manager.go:1578-1671 | a launch with gates can be finished without releases if and only if it is automatic or its limit is not negative, and the driver's configuration makes every limit positive |
| Healing.ReconcileGates | internal/orchestrator/manager.go:665-698 | the reconciler's loop over the BMCs has the effect of one pass, acknowledging only writes that read back |
| Healing.PassHeals | internal/orchestrator/manager.go:665-730 | a pass over quiet BMCs leaves every at-risk node's ledger readable and acknowledged, and skips a node exactly when it has no gates, is in error, or is done with nothing outstanding |
| Healing.HealedStaysQuiet | internal/orchestrator/manager.go:696-714 | after it a finished node is not touched again |
| Healing.EveryRunHeals | internal/orchestrator/manager.go:661-714 | at any point of any run a pass makes each at-risk node's log show exactly its ledger |
| InstallerAgent.RunPreflight | internal/agent/preflight.go:70-265 | the agent is cleared at the first round that passes, meets the restore gate and brings no rekick, and checks in once more for each rise of the counter |
| InstallerAgent.BaselineIsMaximum | internal/agent/preflight.go:78-244 | the baseline is the largest counter value it was ever told |
| InstallerAgent.NoSpuriousReruns | internal/agent/preflight.go:234-244 | it re-runs no more often than the counter rose |
| InstallerAgent.ClearedOnNewestConfig | internal/agent/preflight.go:234-260 | it restores only on a configuration checked in after every rekick it had heard of |
| InstallerAgent.ClearedMeans | internal/agent/preflight.go:184-260 | a round clears exactly if in it every link is up, every ping answered, the restore gate open and no rekick brought, on a topology that came up after the last check-in |
| InstallerAgent.WaitSelGate | cmd/phone-home-agent/preflight.go:350-362 | the wait ends at the first poll that finds the go, and not before |
| InstallerAgent.WaitApplyGate | internal/agent/agent.go:266-282 | the in-band wait ends at the first answer without hold, unless the node became configured |
| InstallerAgent.RunInBand | internal/agent/agent.go:140-224 | the in-band agent begins its apply exactly if the gating checks passed and an answer let it go, and reports accordingly |
| LocalApply.Node.RunLocalApply | cmd/phone-home-agent/main.go:554-651 | one boot takes counter, markers and log where `LocalApply.BootOnce` says; why it ends as it does is `LocalApply.BootsEndBecause` |
| LocalApply.BootsEndBecause | cmd/phone-home-agent/main.go:279-300 | each of a boot's seven endings, exactly: it succeeds if and only if neither marker is on disk, the gate is open, the power stays, and hex_config exits cleanly with its markers stamped, or otherwise, not asking for a reboot, with the node configured |
| LocalApply.WhatTheDiskKeeps | cmd/phone-home-agent/main.go:616-638 | the terminal marker is written exactly when the node is given up and the write lands, the counter raised exactly when it goes on to reboot |
| LocalApply.RecordsTell | cmd/phone-home-agent/main.go:582-651 | an applied record is tried exactly on success, an error exactly when the node is given up |
| LocalApply.BoundedApply | cmd/phone-home-agent/main.go:188-205 | before a final outcome the apply runs at most four times and reboots at most three, power cuts and lost writes counted apart |
| LocalApply.RebootsBounded | cmd/phone-home-agent/main.go:207-215 | over a whole life of boots, from any counter file, reboots never exceed the room the counter leaves plus lost counter writes |
| LocalApply.AlwaysAskingIsGivenUp | cmd/phone-home-agent/main.go:616-638 | a module that always asks for a reboot gets exactly that many and is then given up for good |
| LocalApply.RebootsOnlyWhenClean | cmd/phone-home-agent/main.go:284-296 | a boot ends in a reboot exactly when the reboot bit is set, the failure bit clear and room left |
| LocalApply.NeverAppliesAgain | cmd/phone-home-agent/main.go:571-577 | once the terminal or the configured marker is on disk no later boot applies or changes the disk |
| RunPlans.BuildPlan | internal/enterprise/plan.go:83-284 | a plan is not empty and has no completing step but a last one, which only the App-Framework's own install lacks |
| RunPlans.BuildUninstallPlan | internal/enterprise/plan.go:293-363 | every uninstall ends with its one completing step |
| RunSafety.HistoryKeeps | internal/enterprise/manager.go:172-464 | every orderly history keeps the run manager's invariant: one call to a run, one Next to a key, entries that belong to the holder |
| RunSafety.EndQuietFits | internal/enterprise/manager.go:409-464 | however a step ends, the run is left consistent, a completing step being the last |
| RunSafety.LandedFits | internal/enterprise/manager.go:277-300 | however a Next lands, cancelled or not, the run is left in order |
| RunTheorems.RunConsistency | internal/enterprise/manager.go:247-464 | steps before the current one are over and those after it pending; a run that succeeded has every step over; a run that is over has none active |
| RunTheorems.RestartIsConsistent | internal/enterprise/manager.go:64-80 | a record reloaded after a crash at any moment of an orderly history is consistent, does not run and has no active step |
| RunTheorems.RestartTellsWhatHappened | internal/enterprise/manager.go:64-80 | every stored record comes back and no other: a run that was over exactly as it ended, one that was running as failed with its active step errored; host, operation, mode, plan and position are as stored, and nobody works on any |
| RunTheorems.ChangesAreSaved | internal/enterprise/manager.go:210-464 | what a section that moves a run on changes in its record is on disk when it ends |
| RunTheorems.CascadeTakesDependents | internal/enterprise/manager.go:472-485 | removing the App-Framework takes along, in memory and on disk, exactly the other modules' records of its cluster or its host |
| RunProgress.EveryLaunchLands | internal/enterprise/manager.go:172-369 | on a free key a launch that is not disturbed, automatic or manual, ends succeeded if no step fails and else broken at the first that does, with every step's record as it went, saved, its client closed once and the key's entries gone |
| RunTheorems.ClosedExactlyOnce | internal/enterprise/manager.go:1249-1298 | no client is closed twice or while a call works on its run, and afterwards it has been closed exactly if the run is over or was never launched |
| RunTheorems.LateTailTouchesNothing | internal/enterprise/manager.go:1249-1298 | a cleanup or rollback that comes after the key has passed on prunes nothing and closes no client but its own |
| RunTheorems.OwnClientOnly | internal/enterprise/manager.go:266-277 | whoever works on a run does so with that run's client and plan |
| RunLimits.OrderlyIsExact | internal/enterprise/manager.go:172-464 | from a manager in order an event leaves it in order if and only if it is an orderly one |
| RunLimits.PublishIsSafe | internal/enterprise/manager.go:210-229 | storing a dialled client keeps the manager in order if and only if the launch holds the key, or no launched run is running under it and no automatic runner depends on the cancel entry it overwrites |
| RunLimits.CancelIsSafe | internal/enterprise/manager.go:308-332 | a Cancel that ends a run itself keeps the manager in order if and only if no Next stands between giving up its claim and ending that run |
| RunLimits.PoliteCallersAreOrderly | internal/enterprise/manager.go:244-332 | Next calls one at a time, and one Cancel to a run, both after launch has returned, are orderly |
| RunLimits.SecondCancelClosesTwice | internal/enterprise/manager.go:279-332 | a Cancel in that moment closes the client twice |
| RunLimits.ExposureIsReachable | internal/enterprise/manager.go:279-298 | the moment is reached by orderly use |
| RunLimits.LaunchCanLoseItsKey | internal/enterprise/manager.go:472-485 | an orderly history takes the key from a launch that is still dialling |
| RunLimits.LateLaunchTakesOver | internal/enterprise/manager.go:210-229 | after a relaunch the late launch may not publish; if it does, the new run's next step is taken over the old launch's client |
| RunClosing.RunCanBeStranded | internal/enterprise/manager.go:472-485 | an orderly history takes the key from a manual run that waits for its next step |
| RunClosing.StrandedForGood | internal/enterprise/manager.go:1278-1298 | no orderly way on without a crash ever closes such a run's client |
| RunClosing.ClosableIfHeld | internal/enterprise/manager.go:247-332 | a running run nobody is at work on can still be closed if and only if it holds its key |
| RunClosing.BusyIsOwned | internal/enterprise/manager.go:273-279 | a claimed step always has its Next in flight |
| RunCancels.CancelReaches | internal/enterprise/manager.go:308-332 | a Cancel gets through to a running manual run if and only if its key has no cancel entry and no other run's Next has the step claimed |
| RunCancels.AutomaticHears | internal/enterprise/manager.go:308-315 | a running automatic run's context is cancelled by every Cancel on its key |
| RunCancels.WordEndsTheRun | internal/enterprise/manager.go:279-298 | a Cancel that met a step under way ends the run when the step lands |
| RunCancels.WordStays | internal/enterprise/manager.go:279-332 | until then the word is kept, whatever else happens, while the run holds its key |
| RunCancels.RunsCanBeDeaf | internal/enterprise/manager.go:1278-1298 | a manual run relaunched before a failed automatic run cleaned up keeps that run's cancel entry |
| RunCancels.DeafToCancel | internal/enterprise/manager.go:308-315 | a Cancel on the key neither touches such a run nor leaves word for its Next |
| RunCancels.DeafStays | internal/enterprise/manager.go:1278-1298 | and that stays so while the run is running under its key |
| RunObjects.Install.RunAll | internal/enterprise/manager.go:335-369 | alone with its run the automatic runner always lands it, and lands it done exactly if no step failed and no cancellation came in time |
| RunObjects.Install.Terminate | internal/enterprise/manager.go:1263-1274 | the run lands in the given state and every active step, and no other, is flagged |
| Pxe.WithArgsReads | internal/pxe/pxe.go:134-193 | arguments without a marker read back trimmed, and nothing around the segment changes |
| Pxe.ArgsComeBack | internal/pxe/pxe.go:154-193 | trimmed arguments read back as written if and only if they hold no marker |
| PxeFlip.Root.Flip | internal/pxe/flipper.go:39-94 | a flip arms the target and holds the lock, or leaves the lock as it was and one of the undone stages |
| PxeFlip.Restore.Run | internal/pxe/flipper.go:83-93 | the restore undoes once; a second call changes nothing |
| PxeFlip.EveryStageUndone | internal/pxe/flipper.go:55-69 | from every stage of a flip the undo leads to the same file |
| PxeFlip.FlipThenRestore | internal/pxe/flipper.go:31-94 | default, timeout, entries and every entry's arguments end up as before, whether the flip succeeded and was restored or failed part-way |
| PxeFlip.ArmedOnlyTheTarget | internal/pxe/flipper.go:70-82 | while armed the target is the default with those arguments and timeout 0, and no other line differs |
| PxeFlip.TidyingChangesNothing | internal/pxe/pxe.go:173-193 | writing a target's own arguments back changes no setting if and only if they hold no marker |
| PxeFlip.UnarmableUndone | internal/pxe/flipper.go:70-76 | a target without a segment fails the flip and gives back the very file |
| PxeFlip.DefaultComesBack | internal/pxe/flipper.go:55-60 | the old default is restored if and only if it was left alone or names an entry |
| PxeText.DefaultWritten | internal/pxe/pxe.go:78-100 | the default written into a line is the default read back, whatever form the old value had |
| PxeText.TimeoutBack | internal/pxe/pxe.go:102-137 | writing a line's old timeout back gives the very line |
| PxeText.QuotedIsName | internal/pxe/pxe.go:143-151 | where only its name is quoted, a line is found by exactly that name |
| PxeText.ArmRefines | internal/pxe/pxe.go:173-193 | rewriting the found line's segment in the text is the edit of that entry in the file as read |
| PxeText.TextFlipRestores | internal/pxe/flipper.go:31-94 | on the text of grub.cfg, every setting reads as before after a restore and after a flip failed at any step |
| PxeText.OtherLinesAsBefore | internal/pxe/flipper.go:31-94 | and no line but the default's and the target's differs by a character |
| MgmtCidr.Validate | internal/model/model.go:174-231 | a cluster is accepted exactly if names, roles, references, control functions and service range are in order |
| MgmtCidr.AcceptedNode | internal/model/model.go:99-110 | a node is in order exactly if it has a name and a role, its management and storage interfaces resolve, where it computes its provider and overlay ones too, and its storage backend if one is named |
| MgmtCidr.AcceptedIsControlled | internal/model/model.go:112-229 | every accepted cluster has a node of a role with control function |
| MgmtCidr.ValidateMgmtCidr | internal/model/model.go:236-296 | the range is accepted exactly if it is absent or a /8 or /16, in dotted or mapped notation, whose comparisons as that block all come out clear |
| MgmtCidr.BasesDecide | internal/model/model.go:250-255 | for nested masks, comparing the two bases decides whether the blocks share an address |
| MgmtCidr.ExactIffComparable | internal/model/model.go:250-255 | the comparison is exact for all addresses under two masks if and only if the masks nest |
| MgmtCidr.DisjointServiceRange | internal/model/model.go:236-296 | with contiguous masks all comparisons are clear if and only if no address lies both in the range and in a network the cluster uses |
| MgmtCidr.AcceptedIsDisjoint | internal/model/model.go:230-296 | so an accepted cluster's range in dotted notation shares no address with any of its networks |
| MgmtCidr.ScatteredMaskSlipsThrough | internal/model/model.go:265-268 | an accepted cluster with a gapped mask whose interface has an address of the range |
| MgmtCidr.MappedIsUnchecked | internal/model/model.go:241-255 | an accepted cluster on top of its own service range, which is written in mapped notation |
| MgmtCidr.KeptIffDotted | internal/model/model.go:241-296 | the promise holds of all accepted clusters with a given range if and only if that is in dotted notation |
| NodeDraft.RemoveIFs | web/src/components/wizards/node/nodeDraft.ts:62-90 | the growing set of what goes is the cascade over bonds, then VLANs |
| NodeDraft.RemovalKeeps | web/src/components/wizards/node/nodeDraft.ts:59-90 | removal with its cascade keeps the draft well formed |
| NodeEffects.RemovalIsExact | web/src/components/wizards/node/nodeDraft.ts:59-90 | exactly what is named goes, with the bonds none of whose slaves stays and the VLANs on anything that goes; the rest stays as it was, but for lost masters and slaves |
| NodeDraft.BondKeeps | web/src/components/wizards/node/nodeDraft.ts:94-120 | bonding free interfaces under a fresh id keeps it |
| NodeDraft.BondNeedsBondable | web/src/components/wizards/node/nodeDraft.ts:94-120 | and nothing else does |
| NodeEffects.BondingTakes | web/src/components/wizards/node/nodeDraft.ts:94-120 | bonding changes its slaves, drops the VLANs on them, adds the bond, and changes nothing else |
| NodeEffects.FirstFreeName | web/src/components/wizards/node/nodeDraft.ts:92-101 | a bond is called by the first free name of the pool, and by another only if all are taken |
| NodeEffects.SlavesAreNoChoice | web/src/components/wizards/node/nodeDraft.ts:28-40 | a bonded interface can be selected for no role |
| NodeEffects.NewBondIsAChoice | web/src/components/wizards/node/nodeDraft.ts:28-40 | a new bond can be selected for every role but management and the default route, which need an address |
| NodeDraft.AddKeeps | web/src/components/wizards/node/nodeDraft.ts:158-174 | growing a bond keeps it, whatever is asked for |
| NodeEffects.AddingTakes | web/src/components/wizards/node/nodeDraft.ts:158-174 | a bond grows exactly if it exists and the interface is free, and then nothing but what it takes changes |
| NodeDraft.FieldEditsKeep | web/src/components/wizards/node/nodeDraft.ts:176-205 | so does any edit of fields that tie nothing |
| NodeDraft.CreateVlan | web/src/components/wizards/node/nodeDraft.ts:124-144 | the search ends, on the smallest unused tag, at most one past the number of VLANs |
| NodeDraft.VlanKeeps | web/src/components/wizards/node/nodeDraft.ts:124-144 | a VLAN on an offered parent keeps the draft well formed |
| NodeDraft.EditsKeepLabels | web/src/components/wizards/node/nodeDraft.ts:176-205 | an edit leaves every label readable as its stored tag if and only if no VLAN is renamed outright to a label that is not |
| NodeDraft.RenameLosesTag | web/src/components/wizards/node/nodeDraft.ts:193-202 | a VLAN labelled data.100 without a stored tag reads as no tag once its bond is renamed |
| NodeDraft.RenameKeepsTag | web/src/components/wizards/node/nodeDraft.ts:193-202 | a bond rename keeps the tag a label reads as if and only if it is the stored one, 0 for none |
| NodeDraft.RetagKeepsLabels | web/src/components/wizards/node/nodeDraft.ts:146-156 | a new tag is read back from the new label |
| NodeDraft.ResizeInitIFs | web/src/components/wizards/node/nodeDraft.ts:42-57 | resizing appends numbered interfaces or removes from the end with the cascade, within 1 to 100 |
| NodeDraft.PruneRoleSettings | web/src/components/wizards/node/nodeDraft.ts:209-226 | exactly the role's selections that are still valid survive |
| NodeDraft.PrunedIsValid | web/src/components/wizards/node/nodeDraft.ts:209-226 | what survives names an existing selectable interface, what is dropped did not |
| NodeDraft.PruneDefaultIF | web/src/components/wizards/node/nodeDraft.ts:228-232 | the default survives exactly if it is selectable |
| NodeDraft.BindKeeps | web/src/pages/cluster/assign/snapshotTopology.ts:80-101 | binding a port keeps the draft well formed and every VLAN's tag |
| NodeEffects.BindRenames | web/src/pages/cluster/assign/snapshotTopology.ts:80-101 | the interface is named by the port's number counted from one, the labels of VLANs on it that began with the old name follow, and nothing else changes |
| NodeEdits.SessionsKeep | web/src/components/wizards/node/nodeDraft.ts:42-205 | any session of allowed edits keeps the draft well formed and every tagged VLAN labelled with its tag |
| NodeEdits.SteadyEditsReadOn | web/src/components/wizards/node/nodeDraft.ts:122-205 | an edit leaves the VLANs without a stored tag reading as they did if and only if it renames none of them or their bonds to another tag, and clears no stored tag |
| NodeEdits.TagsReadOn | web/src/components/wizards/node/nodeDraft.ts:42-205 | so through any session of such edits a VLAN reloaded without a stored tag reads as its old one |
| VlanLabel.LabelParsesBack | internal/generator/preflight.go:42-54 | a label written for a tag is read back as that tag |
| VlanLabel.RelabelKeepsTag | internal/generator/preflight.go:42-54 | swapping what stands before a dot keeps the tag |
| Inventory.Store.Assign | internal/inventory/store.go:205-253 | the other holders are stripped, the target bound; a failed write leaves some stripped and the target as it was |
| Inventory.Store.RemoveAssignments | internal/inventory/store.go:279-292 | the in-place filter keeps the other bindings in order and says whether any went |
| Inventory.Store.UnassignCluster | internal/inventory/store.go:296-331 | every readable record loses exactly the cluster's bindings |
| Inventory.AssignBindsExactlyOne | internal/inventory/store.go:205-253 | afterwards the target alone plays the node with that disk, and every other binding is as it was |
| Inventory.OneMachinePerNode | internal/inventory/store.go:205-331 | any sequence of operations, each of which may fail at any of its writes, keeps one machine, and one entry of it, to a node |
| Inventory.FailedAssignKeeps | internal/inventory/store.go:214-237 | so does an assignment that fails half-way |
| Inventory.OnlyWhatIsAsked | internal/inventory/store.go:268-331 | an operation takes away exactly what it is asked to, adds exactly what it assigns, and does nothing without a readable record, in records of either form |
| AdvisorAddrs.CheckAdvisorAddrs | internal/enterprise/manager.go:742-769 | exactly the well-formed, non-overlapping address sets are accepted |
| AdvisorAddrs.SuggestAddrs | internal/enterprise/manager.go:1476-1504 | what is in use stays, what is missing comes from the free addresses in order |
| AdvisorAddrs.SuggestThenCheck | internal/enterprise/manager.go:1476-1504 | a suggestion passes the check exactly when the addresses in use would |
| AdvisorAddrs.EnoughIsFilled | internal/enterprise/manager.go:1476-1504 | given enough free addresses both balancers get one and the pool as many as asked for, and what is free is what nobody has |
| Decimal.ItoaRoundTrip | cmd/phone-home-agent/main.go:207-215 | an integer written in decimal reads back as itself within 64 bits |

## Left out

* Side conditions of the deploy protocol: one generation from Start on; the start-time wipe left no go record
  and anchors were taken after it; the master is among the nodes; the driver does not restart; record handles
  are distinct and not zero. Late goroutines of an older generation write by cluster id and are out of scope.
* Orchestrator.Manager.Set: the state a handler sets is modelled; lights, phases, messages, error codes, time
  stamps and persistence are not.
* Protocol: a log's capacity and the wrap of 16-bit handles are not limits there, since any record may be lost
  anyway; `GateWriter` models capacity.
* ProtocolTheorems.RebootBarrier: a node whose power is cut in the installer may come up from its disk once that
  is imaged, whatever the driver authorised; the barrier is stated for the others.
* Healing.ReconcileGates: other critical sections that run between the writes of a pass are not interleaved in
  this method; they are in `Protocol`, where every job stays available.
* Orchestrator.Manager.GetSetReady: the request reloaded from disk after a restart is not modelled, nor the
  answer given when no deploy is in memory.
* The branches for an empty master name, and ReleaseNode for a node outside the deploy's record.
* The whole-cluster reachability check, inspect boots, imaging by polling, boot-device and power commands.
* InstallerAgent.RunPreflight: topology set-up, probes, snapshot pre-fetch and reports' texts are inputs or left out.
* LocalApply.Node.RunLocalApply: waiting for the boot bootstrap, state markers of older images, the repair
  opt-out and the air-gap simulation are left out; so is set_ready itself, whose gate is in `Protocol`.
* RunManager on values: the manager's maps are values, not objects, so aliasing between them is not modelled;
  run identities stand for record addresses. `RunObjects` has the record that is updated in place.
* RunManager: step output, durations and remote commands are left out.
* PxeFlip.Root.Flip: works on grub.cfg as its readers take it; `PxeText` shows the same edits on its text, line by
  line. There the blank lines that the default's pattern swallows in front of it are not modelled, nor a `set` and
  its key on two lines; only menu entries name a kernel, and only their names are quoted; names and arguments are
  free of `$`. The writes of an undo are taken to succeed; reads do not fail.
* Stealing a stale PXE lock, and two drivers flipping at once.
* MgmtCidr.Validate: texts are taken as parsed addresses, and of an IPv6 address only its first sixteen bits.
* Inventory: discovery results, credentials and encryption.
* AdvisorAddrs: what counts as an IP address is a parameter.
* ProtocolFinish.EveryLaunchCanFinish: says that a run exists, not that every fair schedule finishes: agents fail,
  operators wait and power is cut. It is about launches with a gate writer.
* RunProgress.EveryLaunchLands: likewise one history, in which nobody else acts on the key.
* React pages, API handlers, JSON and zip encoding, signatures, wall-clock timing.
