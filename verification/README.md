# golang-ep: a verified model

golang-ep is an HTCondor execution point: a startd that hands out slots under claims, survives
restarts, and starters that run jobs and stay reachable by shadows. This project models its hard
core in Dafny and proves what it promises: one invariant of the event loop under arbitrary stale
and duplicated events, conservation of a partitionable slot's resources, write-behind persistence
and re-adoption, the reconnect handoff, ownership of passed connections, the durable control relay,
the starter's order of reports, and three sequential algorithms.

`dafny verify dfyconfig.toml` checks everything.

## How it is organised

| file | what it holds |
|---|---|
| Basics.dfy | options, duplicate-free lists |
| Slots.dfy | resources, claims, slots and their names as values |
| CoreModel.dfy | the startd core as a state machine: `Step` takes one event, emits store operations and a reply |
| CoreInvariant.dfy | the joint invariant `Inv` and its preservation by every event |
| StepShapes.dfy | every step has one of five shapes; later files argue by shape |
| Firm.dfy | what every event of every run keeps, failed mints included |
| Allocator.dfy | conservation in the partitionable-slot allocator |
| Runs.dfy | safety of whole runs: claim ids, match timers, activation generations |
| Effects.dfy | what each event does, told from outside its handler |
| Replies.dfy | the answers to schedds are true of the state they leave; sandboxes; the vacate channel |
| Persister.dfy | the coalescing persister, interleaved with the loop step by step |
| Schedules.dfy | drained schedules that exist for any operations |
| Images.dfy | what the loop asks to be stored describes the claimed slots it has |
| Stored.dfy | what can be in the store at any moment: records a next life can place |
| Adoption.dfy, Restart.dfy, Lives.dfy | boot, re-adoption, the restart theorems, any number of lives |
| Limits.dfy | concrete runs showing that the hypotheses are needed |
| StartdObject.dfy | the core in the program's own form: slot objects, lists, index, updated in place; `Handle` refines `Step`, `DoAdopt` refines `Adopt` |
| Locate.dfy | CA_LOCATE_STARTER |
| Reconnect.dfy | the CA_RECONNECT_JOB handoff, any number of handlers |
| SyscallOwnership.dfy, Relay.dfy | process-mode transport: the passed connection, the durable relay |
| StarterRun.dfy | one starter run as a trace |
| ArgsV2.dfy, AdWire.dfy, OutputPlan.dfy | the V2-raw tokenizer, SECRET_MARKER framing, the output plan |

The environment is part of the events and actions: the clock, whether minting succeeds, whether
Requirements evaluate to true, whether a process or a sandbox could be made, which of several ready
channel operations is taken. Nothing is assumed about their order. Claim ids are pairs of birthdate
and sequence number (or any foreign text); `issued` and the other fields marked as history record
what happened and are never read by a handler.

## Main theorems

- `CoreInvariant.StepKeepsInv`, `Runs.RunKeepsInv`: the joint invariant under any events, with its exact condition; `Runs.RunKeepsFirm`: the part that holds in every state of every run.
- `Allocator.StepConserves`, `Runs.RunConserves`: conservation, with its exact condition.
- `Runs.IdsNeverMove`, `Runs.RetiredStaysRetired`, `Runs.DelayedTimeout`, `Runs.TimeoutHitsItsOwnMatch`, `Runs.EscalationHitsItsOwnActivation`: claim ids, match timers and vacate escalations over whole runs.
- `Persister.CommitsFollowPuts`, `Persister.NoLostWakeup`, `Persister.DrainedStore`: the persister under every interleaving.
- `Images.StepKeepsImage`, `Lives.RestartReproducesIff`, `Lives.RebirthReproduces`, `Lives.EveryRestartReproduces`, `Lives.EveryLifeIsSound`: persistence and restart, exactly when it reproduces the claimed state, and exactly when it leaves a sound core.
- `StartdObject.Startd.Handle`, `StartdObject.Startd.DoAdopt`, `StartdObject.Serve`: the program's own objects and loops refine the state machine, event by event and over a whole life.
- `Replies.RequestReplyIsTrue` with `Replies.AcceptedIff`, `Replies.ActivateAcceptedIff`, and the lemmas of Effects: what every event does and every command answers, without naming a handler.
- `Reconnect.ReplyBeforeSyscalls`, `Reconnect.ExactlyOneReport`, `Reconnect.OneCurrentStream`, `Reconnect.AdoptedIff`: the reconnect handoff with any number of handlers.
- `SyscallOwnership.ClosedExactlyOnce`, `SyscallOwnership.NotClosedInFlight`, `Relay.RunReadsAPrefix`, `Relay.EachOutboundOnce`, `Relay.WrittenIffCurrent`: process-mode transport.
- `StarterRun.Run`, `Locate.LocateStarter` with `Locate.OneAnswer`, `ArgsV2.SplitV2Raw` with `ArgsV2.ReadsBack`, `AdWire.GetClassAd` with `AdWire.FramedAdReadsBack`, `OutputPlan.BuildOutputPlan` with `OutputPlan.DefaultPlanReproduces`.

## What the code does not promise

Six natural statements are false of the code. Each has a concrete run in Limits.dfy and the exact
condition under which it does hold.

- The joint invariant survives a step exactly when the step does not release a claimed configured
  slot while minting its next claim fails (`StepKeepsInv`, `MintFailureStrandsAClaim`): the slot is
  then Unclaimed under a claim still marked claimed. Registry, ids, child lists and conservation
  survive even that (`RunKeepsFirm`, `RunConserves`).
- Resources are conserved exactly when a destroyed slot's share is not cut off by Restore's clamp,
  that is, when its siblings own no negative amount (`StepConserves`, `ClampMeansNegativeSiblings`,
  `NegativeRequestBreaksConservation`); requests that ask for nothing negative never get there.
- After the final drain the store says what the loop meant, exactly for the names whose last operation
  was not a deletion that overtook a record of theirs still pending or in flight; otherwise the restart
  brings a destroyed slot back (`DrainedStore`, `RebirthReproduces`, `DeletedRecordComesBack`).
- A restart from an up-to-date store reproduces the claims exactly when the sessions that can be
  imported are those of the claimed slots; a dynamic slot whose session is gone is rebuilt with its
  share but without its claim (`RestartReproduces`, `FailedImportLosesAClaim`). The theorems go on from
  there: a core that has lost claims is restarted like any other.
- Re-adoption leaves a core with the invariant exactly when nothing it acts on has changed its kind
  since it was recorded (`AdoptIsSoundIff`, `EveryLifeIsSound`, `ChangedKindBreaksInv`).
- A match timeout belongs to the match it finds exactly when no step in between reset the slot
  without minting a fresh id (`TimeoutHitsItsOwnMatch`, `TimeoutMeetsALaterMatch`).

The comment on unclaimSlot says that a slot keeps its claim if minting fails; the model follows the
code, where that claim also keeps its claimed state.

## Model

| member | source | states |
|---|---|---|
| CoreInvariant.StepKeepsInv | internal/startd/startd.go:527-573 | any event, stale or duplicate, keeps the joint invariant (registry, ids, child index, slot/claim/starter/keepalive/timer agreement, generations, wait channels) if and only if it does not release a claimed configured slot with a failing mint |
| CoreInvariant.JointState | internal/startd/claim.go:394-460 | State/Activity agree with the claim; a starter only on a Busy slot; keepalive loops on exactly the claimed slots, each with the current claim's id and schedd; a match timer only for the id the slot is Matched under |
| CoreInvariant.FindIsUnique | internal/startd/claim.go:666-673 | the lookup finds a slot if and only if that slot holds the id, so there is one possible answer |
| CoreInvariant.MatchInfoKeeps | internal/startd/claim.go:290-315 | MATCH_INFO keeps the invariant |
| CoreInvariant.MatchTimeoutKeeps | internal/startd/claim.go:353-371 | a match timeout keeps the invariant, whether or not minting succeeds |
| CoreInvariant.RequestClaimKeeps | internal/startd/claim.go:394-460 | REQUEST_CLAIM keeps the invariant on every path |
| CoreInvariant.CarveKeepsStructure | internal/startd/claim.go:501-516 | carving keeps registry, ids and child lists exact |
| CoreInvariant.DestroyKeepsStructure | internal/startd/claim.go:629-650 | destroying a dynamic slot keeps registry, ids and child lists exact |
| CoreInvariant.ReleaseKeeps | internal/startd/claim.go:605-622 | releasing a slot keeps the invariant if and only if no claimed configured slot is left without a new claim |
| CoreInvariant.ActivateKeeps | internal/startd/activate.go:333-458 | ACTIVATE_CLAIM keeps the invariant, refused half-way or not |
| CoreInvariant.StarterExitedKeeps | internal/startd/activate.go:756-795 | an exit, also a stale one, keeps the invariant and closes no wait channel twice |
| CoreInvariant.AdoptFailedKeeps | internal/startd/adopt.go:200-238 | a failed redial keeps the invariant if and only if it strands no claim |
| CoreInvariant.DeactivateKeeps | internal/startd/activate.go:841-864 | DEACTIVATE keeps the invariant |
| CoreInvariant.HelloKeeps | internal/startd/activate.go:667-687 | a Hello keeps the invariant |
| StepShapes.StepHasShape | internal/startd/startd.go:527-573 | every step edits one slot, resets one, reissues one, carves one or destroys one, and nothing else changes |
| Firmness.StepKeepsFirm | internal/startd/startd.go:527-573 | any event at all, a release whose mint fails included, keeps registry, ids and child index exact, slots sane and generations distinct |
| Allocator.StepConserves | internal/slot/slot.go:304-331 | remainder plus carved shares stay the full allocation in Cpus, memory and disk if and only if the step does not restore into the clamp |
| Allocator.ClampMeansNegativeSiblings | internal/slot/slot.go:316-331 | the clamp cuts something off exactly when the other dynamic slots own a negative amount together |
| Allocator.CarveConserves | internal/startd/claim.go:501-516 | carving conserves whatever is asked for |
| Allocator.DestroyConserves | internal/startd/claim.go:629-650 | destroying conserves if and only if the clamp does not fire |
| Allocator.StepKeepsShares | internal/startd/claim.go:567-588 | with no negative memory or disk asked for, the clamp never fires, resources are conserved and no share goes negative, however overdrawn a p-slot is |
| Allocator.StepKeepsRemainders | internal/startd/claim.go:488-493 | a p-slot that is not overdrawn never becomes so |
| Allocator.RemainderWithinBounds | internal/slot/slot.go:298-331 | the remainder never exceeds the full allocation, and is not negative exactly when the shares fit into it |
| Runs.RunKeepsInv | internal/startd/startd.go:527-573 | over a whole run the invariant holds in every state if and only if no step strands a claim |
| Runs.RunKeepsFirm | internal/startd/startd.go:527-573 | registry, ids, child index, sanity and generations in every state of every run, failed mints included |
| Runs.RunConserves | internal/startd/claim.go:469-544 | every state of every run conserves and the clamp never fires, from any start with non-negative shares |
| Runs.RunWithinBounds | internal/slot/slot.go:298-331 | without an overdrawn start every remainder stays between nothing and its full allocation |
| Runs.IdsNeverMove | internal/startd/claim.go:377-389 | a claim id held by one slot is never held by another, at any two moments of a run |
| Runs.RetiredStaysRetired | internal/startd/claim.go:666-673 | an issued id no slot holds is never held again; REQUEST and ACTIVATE with it are refused and change nothing |
| Runs.HeldThroughout | internal/startd/claim.go:377-389 | a slot holding an id at two moments held it all the time between |
| Runs.DelayedTimeout | internal/startd/claim.go:319-371 | a timer firing any time after its match changes a slot only while that slot is unclaimed and Matched under the timer's own id, and without a reset in between it is still the match that armed it |
| Runs.TimeoutHitsItsOwnMatch | internal/startd/claim.go:319-371 | a delayed timeout that still finds its id Matched has seen one single match, if and only if no step between reset the slot without a mint |
| Runs.GenerationIsOneRun | internal/startd/activate.go:384-392 | the same generation under a name at two moments is one activation running all the time between |
| Runs.EscalationHitsItsOwnActivation | internal/startd/activate.go:875-925 | an escalation finds the very activation whose soft vacate armed it, or changes nothing |
| Runs.StraysOnlyComeFromAdoption | internal/startd/adopt.go:131-157 | in a run that strands no claim, a Busy slot without a starter has been one, under the same claim, since the run began |
| Effects.UnknownIdDoesNothing | internal/startd/claim.go:666-673 | a command presenting an id no slot holds changes nothing and is answered so |
| Effects.MatchInfoMatches | internal/startd/claim.go:290-315 | MATCH_INFO matches the unclaimed, Unclaimed slot holding the id, arms its timer under that id and saves it; any other is left alone |
| Effects.TimeoutUnmatches | internal/startd/claim.go:353-389 | the timeout of the match the slot is in sends it back to Unclaimed under a never-seen id if one can be minted; any other timeout changes no slot |
| Effects.ReleaseEventsRelease | internal/startd/claim.go:590-650 | a release ends timer, keepalives and starter of the slot; a dynamic one is gone, its share back with the p-slot up to the full allocation, its record deleted; another one is Unclaimed again and saved |
| Effects.KeepaliveExtends | internal/claim/claim.go:336-356 | a keepalive sets the lease of a claimed slot to the missed-keepalive count times the interval from now, with the defaults for non-positive values, and nothing else |
| Effects.ReportsAreKept | internal/startd/activate.go:726-750 | update and final report are kept with the claim of a claimed slot |
| Effects.ExitIdles | internal/startd/activate.go:756-795 | a starter's exit leaves its slot idle under the same claim with its final report, saved, and lets exactly its stashed reply go; a stale exit changes no slot |
| Effects.RedialFailureRecovers | internal/startd/adopt.go:200-238 | a failed redial idles the claim with the exit marker's report if there is one, and releases the slot otherwise |
| Effects.HelloIsRecorded | internal/startd/activate.go:667-687 | a Hello leaves the address and pid given on record, and saves them exactly if they are news |
| Effects.VacateIsOffered | internal/startd/activate.go:872-912 | a vacate, soft or hard, leaves its own message in an empty channel and nothing in a full one |
| Effects.EscalationAndTaking | internal/startd/activate.go:914-925 | an escalation offers a hard vacate to its own generation only; the supervisor empties the channel |
| Effects.RecordReadsBack | internal/startd/startd.go:305-351 | the record of a claimed slot gives back the very claim, lease included, when it is re-adopted |
| Replies.RequestReplyIsTrue | internal/startd/claim.go:394-544 | an accepted REQUEST_CLAIM leaves a slot claimed for that schedd under the id named, with a full lease; a carved one has exactly the memory, disk and Cpus wanted (one Cpu at least), taken from the p-slot, whose own id is the leftover; nothing else changes; a refused one leaves slots, leases and starters alone and stores nothing |
| Replies.AcceptedIff | internal/startd/claim.go:394-500 | it is accepted if and only if the id's slot is unclaimed and willing, and a p-slot has at least one Cpu and the wanted Cpus, memory and disk left and can mint |
| Replies.ActivateAcceptedIff | internal/startd/activate.go:333-458 | ACTIVATE_CLAIM is accepted if and only if the slot holding the id is Claimed/Idle, the job has a universe and satisfies Requirements, and directory, sandbox and process could be had; then the job runs there, in the next sandbox, with the linkage of its process, and nothing else changes |
| Replies.ActivateReplyIsTrue | internal/startd/activate.go:333-458 | accepted means running; refused leaves slots, leases and starters alone |
| Replies.RequestCounts | internal/startd/claim.go:485-506 | a request uses up a claim serial exactly if it gets as far as minting, failing or not, and a slot number exactly if it carves |
| Replies.ActivateCounts | internal/startd/activate.go:368-392 | an activation takes the next sandbox number once the job is acceptable and a generation once the sandbox is made, also if the spawn fails |
| Replies.DeactivateCounts | internal/startd/activate.go:841-864 | a wait channel is made exactly for a reply that is stashed |
| Replies.DeactivateReplyIsTrue | internal/startd/activate.go:841-864 | known exactly for an id some slot holds, closing exactly for an unknown one; a stashed reply waits on an open channel for that slot's running starter; nothing else changes |
| Replies.HardVacateArrivesIff | internal/startd/activate.go:875-925 | a hard vacate or an escalation reaches the starter if and only if no soft vacate is still waiting in its one-place channel; no other slot notices |
| Replies.RunKeepsSandboxes | internal/startd/activate.go:373-380 | no two running jobs of one startd process ever share a sandbox |
| Persister.CommitsFollowPuts | internal/startd/startd.go:386-435 | under every interleaving, commits of one slot follow the order of its puts |
| Persister.NoLostWakeup | internal/startd/startd.go:386-407 | a non-empty pending map has a wake token, a sender about to leave one or a writer about to look |
| Persister.LogIsSchedule | internal/startd/startd.go:386-435 | what has been committed is what the successful commits of the schedule took from their batches, in that order |
| Persister.DrainedStore | internal/startd/startd.go:396-440 | after the last drain, unless the commit of its last record failed, the store says about a slot what the loop last asked for, if and only if the last operation of the schedule on it was not a deletion made while a record of it was pending or in flight; otherwise the record is back |
| Persister.HistoryIsSchedule | internal/startd/startd.go:386-440 | which deletions overtook a record and which commits were lost, read off the actions of the schedule |
| Persister.EveryInterleaving | internal/startd/startd.go:358-440 | the persister's invariant in every state of every schedule |
| Persister.PendingRecords.Put | internal/startd/startd.go:386-394 | the latest record per slot is pending |
| Persister.PendingRecords.Flush | internal/startd/startd.go:409-421 | in whatever order the batch is walked, the store ends up overlaid with all of it and nothing is pending |
| Images.StepRecorded | internal/startd/startd.go:305-351 | a step that changes what would be recorded about a slot saves that slot |
| Images.StepKeepsImage | internal/startd/startd.go:305-351 | what a step saves and deletes keeps the table a description of the claimed slots, each up to date, and of the carved slots with their kinds and shares, claims lost at start-up included |
| Stored.RunOpsFit | internal/startd/startd.go:305-351 | everything a fair run asks to store is a record the next life can place, and only dynamic slots are deleted |
| Stored.ScheduleFits | internal/startd/startd.go:386-435 | so is everything pending, in flight or written, at any moment of any interleaving, whatever commits fail |
| Schedules.LazyDrain | internal/startd/startd.go:396-440 | every sequence of store operations has a drained schedule in which no commit is lost and exactly the overtaken deletions are undone |
| Schedules.EveryStateDrains | internal/startd/startd.go:386-440 | at every moment of every schedule the work that is left can be finished and written out |
| Adoption.BootKeeps | internal/startd/startd.go:180-230 | a booted core has the invariant, conserves, has the configured slots fully available, and knows the ids of earlier lives |
| Adoption.BootPrimes | internal/startd/claim.go:106-119 | every configured slot is booted Unclaimed under a minted claim of its own, unless its minting failed |
| Adoption.ReconstructedKeeps | internal/startd/adopt.go:175-193 | rebuilding a dynamic slot keeps registry, ids and coherence |
| Adoption.ReconstructedConserves | internal/startd/adopt.go:183-186 | rebuilding a dynamic slot conserves its parent's resources |
| Adoption.InstalledKeeps | internal/startd/adopt.go:104-157 | installing a recorded claim keeps registry, ids, coherence and generations |
| Restart.AdoptOneKeeps | internal/startd/adopt.go:59-158 | one more record, whatever its slot and session: dropped if its place is gone, rebuilt with the recorded kind and share if dynamic, claimed exactly if importable; the others stay as they are |
| Restart.AdoptAllKeeps | internal/startd/adopt.go:55-158 | the same for any list of records in any order and any sessions failing to import |
| Restart.RefreshedIsRebuilt | internal/startd/adopt.go:159-163 | after the child lists are rebuilt the full invariant holds |
| Restart.InvMeansSafe | internal/startd/adopt.go:66-157 | whatever adoption does to slots that changed their kind shows in the end and breaks the invariant |
| Restart.ImagesDetermine | internal/startd/adopt.go:49-54 | two cores with the same slots, the same claimed names and one stored table agree on every claim, carved slot (claimed or not), amount carved, child-id set and starter linkage |
| Lives.StepKeepsSys | internal/startd/startd.go:305-351 | the invariant of core and intended table together survives every fair event |
| Lives.AdoptRebuilds | internal/startd/adopt.go:55-193 | any configuration that keeps the kind of what adoption acts on, any shares, any sessions failing, any order: dynamic slots rebuilt with the recorded kind and share, claims restored exactly where importable, records of missing slots dropped, invariant and conservation hold |
| Lives.AdoptIsSound | internal/startd/adopt.go:175-193 | the adopted core with what is left of the store is sound, so every run theorem applies to it |
| Lives.AdoptIsSoundIff | internal/startd/adopt.go:59-157 | the adopted core is sound if and only if no record adoption acts on belongs to a slot, or a parent, that has changed its kind |
| Lives.AdoptedStrays | internal/startd/adopt.go:131-157 | after re-adoption a slot is Busy without a starter if and only if its restored record was Busy and named no socket to redial |
| Lives.StraysAreOnRecord | internal/startd/adopt.go:131-157 | at any moment of the run after a re-adoption, a Busy slot without a starter was such a record, and still holds its claim id |
| Lives.RestartReproducesIff | internal/startd/adopt.go:55-193 | for any sound core, whatever claims it lost before, and any store it may have written, the restart reproduces the claimed slots (id, state, activity, schedd, user, resources, redialled starters), the carved slots, the amounts carved and the child ids if and only if the store, as far as adoption acts on it, describes the core |
| Lives.RestartReproduces | internal/startd/adopt.go:87-101 | with an up-to-date store, if and only if the recorded sessions that can be imported are those of the claimed slots; the system invariant holds again in every case |
| Lives.NothingLost | internal/startd/adopt.go:87-101 | for a core that has lost no claim that means: every recorded session can be imported |
| Lives.DrainRestores | internal/startd/claim.go:629-633 | a store drained without a lost commit describes the core if and only if no deletion overtook a record and the sessions that can be imported are those of the claimed slots |
| Lives.RebirthReproduces | internal/startd/startd.go:472-488 | run, stop, drain under any interleaving, boot, re-adopt: the next life starts from the claimed state if and only if the store describes it, and when that is; it starts with the system invariant in every case, sessions that could not be imported included |
| Lives.EveryRestartReproduces | cmd/startd/main.go:185-197 | the same over any number of restarts with the same slots, whatever sessions could not be imported in any of them, whatever commits were lost and records raised |
| Lives.EveryLifeIsSound | cmd/startd/main.go:185-197 | over any number of restarts with slots added, removed, resized or changed in kind and sessions failing to import, every life starts sound if and only if no reboot changed the kind of a slot adoption acted on; then every state of every life has the invariant and conserves |
| Lives.RaisedIsClaimed | internal/startd/adopt.go:66-101 | a record that outlived its deletion brings the destroyed slot back, with its old claim exactly if the session can be imported |
| Lives.FirstBoot | internal/startd/claim.go:106-119 | a first boot with an empty store satisfies the system invariant |
| Limits.MintFailureStrandsAClaim | internal/startd/claim.go:377-389 | from a boot, a claim request and a release whose mint fails leave the slot Unclaimed under a claim still claimed, and break the joint invariant |
| Limits.NegativeRequestBreaksConservation | internal/startd/claim.go:567-588 | from a boot, a request for -5 of memory, one for 5 and the release of the second slot break conservation |
| Limits.DeletedRecordComesBack | internal/startd/claim.go:629-633 | from a boot, a carve and a release while the record is pending, and the next life that claims the destroyed slot again |
| Limits.TimeoutMeetsALaterMatch | internal/startd/claim.go:353-389 | from a boot: a match, a release whose mint fails, a second match under the same id, and the timeout of the first match ends the second |
| Limits.FailedImportLosesAClaim | internal/startd/adopt.go:66-101 | from a boot, a carve, a clean drain, and a next life that rebuilds the slot without its claim because the session cannot be imported |
| Limits.ChangedKindBreaksInv | internal/startd/adopt.go:79-129 | a claimed static slot, reconfigured as a p-slot: re-adoption claims the p-slot and the invariant is gone |
| StartdObject.LiveSlot.Carve | internal/slot/slot.go:306-312 | the object's value after Carve |
| StartdObject.LiveSlot.Restore | internal/slot/slot.go:316-331 | adding back and clamping, field by field, is the clamped sum |
| StartdObject.LiveSlot.SetClaimState | internal/slot/slot.go:695-699 | claim, state, activity and time change together |
| StartdObject.LiveSlot.AcceptClaim | internal/slot/slot.go:706-715 | the claim is accepted and the slot Claimed/Idle, with the lease from the keepalive interval |
| StartdObject.Startd.Configure | internal/startd/startd.go:180-230 | building and priming the objects gives the booted core |
| StartdObject.Startd.FindSlotByClaimID | internal/startd/claim.go:666-673 | the loop finds the object of the slot the model finds |
| StartdObject.Startd.PersistSlot | internal/startd/startd.go:305-351 | the record of the slot's current value is asked for, none without a claim |
| StartdObject.Startd.RefreshPSlotChildren | internal/startd/claim.go:548-560 | the loop recomputes the child list from the live dynamic slots |
| StartdObject.Startd.AddDSlot | internal/startd/startd.go:252-257 | index and list gain the slot |
| StartdObject.Startd.RemoveDSlot | internal/startd/startd.go:261-271 | index and list lose exactly that slot |
| StartdObject.Startd.DoMatchInfo | internal/startd/claim.go:290-315 | refines the model's MATCH_INFO step |
| StartdObject.Startd.DoMatchTimeout | internal/startd/claim.go:353-371 | refines the model's timeout step |
| StartdObject.Startd.DoRequestClaim | internal/startd/claim.go:394-460 | refines the model's REQUEST_CLAIM step, reply included |
| StartdObject.Startd.DoRequestClaimPSlot | internal/startd/claim.go:469-544 | refines the model's carve, with the store operations in order |
| StartdObject.Startd.ReleaseSlot | internal/startd/claim.go:605-622 | refines the model's release |
| StartdObject.Startd.DestroyDSlot | internal/startd/claim.go:629-650 | refines the model's destroy |
| StartdObject.Startd.DoActivateClaim | internal/startd/activate.go:333-458 | refines the model's ACTIVATE_CLAIM step |
| StartdObject.Startd.DoStarterExited | internal/startd/activate.go:756-785 | refines the model's exit step |
| StartdObject.Startd.DoStarterHello | internal/startd/activate.go:667-687 | refines the model's Hello step |
| StartdObject.Startd.DoAdoptFailed | internal/startd/adopt.go:200-238 | refines the model's failed-redial step |
| StartdObject.Startd.DoDeactivate | internal/startd/activate.go:841-864 | refines the model's DEACTIVATE step |
| StartdObject.Startd.DoVacate | internal/startd/activate.go:875-894 | refines the model's vacate step |
| StartdObject.Startd.DoVacateEscalate | internal/startd/activate.go:914-925 | refines the model's escalation step |
| StartdObject.Startd.Handle | internal/startd/startd.go:527-573 | on objects updated in place, handling an event does to their value, the store operations and the reply exactly what the state machine's step does |
| StartdObject.Startd.Run | internal/startd/startd.go:490-525 | the objects' event loop over any events is a run of the state machine, with its store operations and replies, and keeps registry, ids, child index, sanity and generations |
| StartdObject.Startd.ReconstructDSlot | internal/startd/adopt.go:175-193 | refines the model's rebuilding of a dynamic slot |
| StartdObject.Startd.RefreshAll | internal/startd/adopt.go:159-163 | whatever order the touched p-slots come in, the outcome is the same |
| StartdObject.Startd.DoAdopt | internal/startd/adopt.go:55-168 | on objects, re-adoption computes the model's adopted core and deletions |
| StartdObject.AdoptsSoundly | internal/startd/adopt.go:169-193 | a list of records an earlier life may have written never clashes on the way, and is adopted into a core with the invariant |
| StartdObject.Serve | cmd/startd/main.go:185-197 | a whole life of the objects, boot, re-adoption and any events, is a run of the state machine from the adopted core; the joint invariant holds throughout if and only if no step strands a claim |
| Locate.LocateStarter | internal/startd/activate.go:695-724 | whatever the iteration order: a live match wins, every match gives the same answer, and an answer belongs to the presented claim id and GlobalJobId |
| Locate.RunAllOwn | internal/startd/startd.go:305-351 | every id any run ever asks to store was issued to the slot it is stored under |
| Locate.StoreOwnsItsIds | internal/persist/store.go:238-272 | so no claim id is stored twice, at any moment of any interleaving |
| Locate.OneAnswer | internal/startd/activate.go:695-724 | between any two events of any run, with the writer anywhere in its work, at most one live activation and one stored record match a query |
| Locate.HelloIsFound | internal/startd/activate.go:667-724 | after a Hello with an address, a query for the claim finds that starter and no other, if it names no job or this one |
| Reconnect.ReplyBeforeSyscalls | internal/starter/starter.go:60-83 | on every handed-off stream the whole Success reply comes before any syscall, and the current stream's handler is done with it |
| Reconnect.ExactlyOneReport | internal/starter/command_server.go:223-254 | an offered handoff gets exactly one replied value by the time its handler returns; ack and replied sends never block |
| Reconnect.OneCurrentStream | internal/starter/starter.go:492-521 | one stream is current and open until Run ends; replaced and abandoned ones are closed by the time the loop goes on, and all of them at the end |
| Reconnect.AdoptedIff | internal/starter/starter.go:60-83 | a handoff has been adopted if and only if Run, waiting for it, was told its reply is complete; the current stream is that of the last such step, the ACTIVATE connection if there was none |
| Reconnect.SuccessIffWritten | internal/starter/command_server.go:223-254 | a handler reports success if and only if it wrote its reply to the end without an error |
| Reconnect.SyscallsGoToCurrent | internal/starter/starter.go:492-521 | the syscalls on a handed-off stream are exactly those Run made while it was current |
| Reconnect.RefusedIff | internal/starter/command_server.go:183-222 | a shadow is refused if and only if another handoff was waiting in the channel when it came |
| Reconnect.HandlersGoOn | internal/starter/command_server.go:183-254 | every handler goes on from its own last step of the schedule |
| Reconnect.RunGoesOn | internal/starter/starter.go:492-521 | so does Run, and a reported outcome is taken once |
| Reconnect.DeclinedIsClosed | internal/starter/command_server.go:183-222 | the connection of a handler that never offered is open until the server closes it |
| Reconnect.HandlersCanReturn | internal/starter/command_server.go:183-254 | once the context ends every handler can go on to return, and one that handed nothing over has its connection closed |
| Reconnect.HandoffSucceeds | internal/starter/starter.go:492-521 | for any length of reply there is a schedule in which a shadow takes over: reply, then syscalls, the old connection closed |
| Reconnect.EveryInterleaving | internal/starter/command_server.go:183-254 | the protocol's invariant in every state of every schedule of any number of handlers |
| SyscallOwnership.ClosedAtMostOnce | internal/starter/transport_unix.go:192-291 | nothing but the accepted connection is closed, and that at most once |
| SyscallOwnership.NotClosedInFlight | internal/starter/transport_unix.go:211-254 | after a successful send the copy is held open until a Release takes it or a Close marks the transport closed, whatever no-op Releases came before |
| SyscallOwnership.ClosedExactlyOnce | internal/starter/transport_unix.go:269-291 | closed transport, calls returned: closed exactly once, if and only if no FinishActivation of the schedule looked for the control stream before Connect |
| SyscallOwnership.LostMeansNotConnected | internal/starter/transport_unix.go:226-229 | it is lost only in the check for a control stream that is not there yet |
| SyscallOwnership.NotConnectedMeansLost | internal/starter/transport_unix.go:226-229 | and such a check loses it for good |
| SyscallOwnership.ConnectedClosesExactlyOnce | internal/starter/transport_unix.go:192-291 | with Connect first, exactly once |
| SyscallOwnership.PassNeverBlocks | internal/starter/transport_unix.go:203-208 | the send made under the lock always has room |
| SyscallOwnership.FlagsFollowCalls | internal/starter/transport_unix.go:192-291 | the first connection passed to an open transport and no other is accepted; connected, closed, sent and handed off are what the calls of the schedule made them |
| SyscallOwnership.CallsGoOn | internal/starter/transport_unix.go:192-291 | every call goes on from its own last step of the schedule |
| SyscallOwnership.FinishHandsOff | internal/starter/transport_unix.go:211-254 | a FinishActivation whose announcement and send succeed goes on to keep the copy, and on an open transport that is the accepted connection |
| SyscallOwnership.PassCanSucceed | internal/starter/transport_unix.go:192-254 | there is a schedule in which any connection is passed, sent and handed off |
| Relay.RunReadsAPrefix | internal/starter/transport_unix.go:400-485 | over any losses and redials Run reads a prefix of all connections' messages in order without SyscallConnFollows; only the one being written may be missing while the relay runs |
| Relay.EachOutboundOnce | internal/starter/transport_unix.go:492-509 | an outbound message is written, in full or in part, to at most one connection, at most once, in order |
| Relay.WrittenIffCurrent | internal/starter/transport_unix.go:492-509 | once the pump is done with a message, a connection was looked for exactly once, and the message was tried if and only if one was current then, on that one |
| Relay.CurrentIsServed | internal/starter/transport_unix.go:400-485 | until Close the connection outbound messages go to is the one being read, the last one accepted |
| Relay.StepsComeTo | internal/starter/transport_unix.go:400-490 | the reader goes on from its own last step; stop flag, listener, pipe and connection are what Close and a failed accept made them |
| Relay.NobodyIsStuck | internal/starter/transport_unix.go:400-490 | a reader with a message in hand can always go on, and Close can run whenever it is called |
| Relay.AnythingCanBeRead | internal/starter/transport_unix.go:400-461 | any control messages can come through to Run |
| Relay.AnythingCanBeWritten | internal/starter/transport_unix.go:492-509 | any number of Run's messages can be written |
| Relay.RedialCanSucceed | internal/starter/transport_unix.go:430-461 | a lost connection can be replaced, and the new one becomes current |
| Relay.PipeOutlivesConnections | internal/starter/transport_unix.go:400-461 | without Close and without a failed re-accept Run's pipe stays open and the relay goes on |
| StarterRun.Run | internal/starter/starter.go:158-575 | the syscalls and control messages of every run are exactly those the world calls for, in order; every path after the syscall connection is received finalizes once, last, on the current socket; job_exit, Final and the callback all report the job's own wait status (0 if it never started) and one reason, which is read off the world; output is sent exactly when a started, ended, unvacated job has a transfer, by the route handed over last |
| StarterRun.Prepare | internal/starter/starter.go:265-421 | exactly the handshake's syscalls as far as it gets, input transfer, begin_execution and exec in order, and how a failure is to be reported |
| StarterRun.Monitor | internal/starter/starter.go:441-532 | the loop ends exactly when something ends the job, and everything that happened until then has had its effect in order: reports, greetings, vacates, new shadows and routes |
| StarterRun.WindDown | internal/starter/starter.go:537-569 | output transfer and job_termination exactly when not vacated, and the reason to report, core dump and failed upload included |
| StarterRun.EveryRpcOnCurrent | internal/starter/starter.go:506-508 | every syscall, job_exit included, goes to the socket adopted last |
| StarterRun.BeginAfterInput | internal/starter/starter.go:344-393 | begin_execution once, after the input transfer, never before it |
| StarterRun.VacatedSendsNothing | internal/starter/starter.go:548-569 | no output transfer and no job_termination in a vacated run |
| StarterRun.OutputIsLastButOne | internal/starter/starter.go:509-516 | output goes by the route handed over last, and only job_termination follows it |
| StarterRun.FinalizeIsLast | internal/starter/starter.go:245-263 | Final, Exited and the callback come exactly once and last, job_exit exactly when asked for, after every other syscall |
| ArgsV2.SplitV2Raw | internal/starter/args.go:16-50 | the index loop computes the tokens of the recursive reference syntax |
| ArgsV2.ReadsBack | internal/starter/args.go:9-15 | any argument list, of quoted and bare pieces in any mixture, with blanks, tabs, newlines and carriage returns between, reads back as itself |
| ArgsV2.OpenQuoteReadsBack | internal/starter/args.go:16-50 | a quote that is never closed takes in the rest of the input |
| ArgsV2.QuotedListReadsBack | internal/starter/args.go:9-15 | so does the quoted, quote-doubled, space-joined form of any list of any strings |
| AdWire.GetClassAd | internal/adwire/adwire.go:35-68 | decodes what the message says and consumes exactly that, of a malformed message exactly the part before the fault |
| AdWire.GetAttributes | internal/adwire/adwire.go:44-62 | the counted loop inserts the lines of the specification one after the other |
| AdWire.FramedAdReadsBack | internal/adwire/adwire.go:1-68 | decoding an encoded ad followed by anything gives the ad and exactly the rest, a marker pair counting once |
| AdWire.DistinctAttrsAllArrive | internal/adwire/adwire.go:70-89 | with distinct names exactly the parsable attributes arrive, each with its value, and exactly the others are skipped |
| AdWire.LineReadsBack | internal/adwire/adwire.go:70-101 | a line splits at its first '=' into the trimmed name and value |
| AdWire.AnySpacing | internal/adwire/adwire.go:70-89 | so does a line with any Unicode white space around name and value, an empty name or a value that does not parse being skipped |
| AdWire.NoEqualsIsSkipped | internal/adwire/adwire.go:70-101 | a line without '=' is skipped, and reported by at most its first sixteen characters |
| OutputPlan.BuildOutputPlan | internal/starter/transfer.go:235-321 | stdio under the remap names, then the changed top-level files in name order or exactly the listed ones; no wire name twice |
| OutputPlan.Planner.Add | internal/starter/transfer.go:239-266 | a taken name is skipped, a missing or irregular file fails only when required |
| OutputPlan.DefaultPlanReproduces | internal/starter/transfer.go:296-320 | if equal stamps mean equal content, the plan laid over the earlier files reproduces every final top-level regular file but stdio and the reserved names |
| OutputPlan.DefaultPlanSends | internal/starter/transfer.go:268-320 | the default plan sends exactly the captured stdio files and the top-level regular files that are new or differ in size or time, each with its own mode, size and content |
| OutputPlan.UntouchedSendsNothing | internal/starter/transfer.go:323-345 | against its own snapshot a sandbox has nothing new to send |
| OutputPlan.StdioArrives | internal/starter/transfer.go:268-278 | captured stdout and stderr arrive under their remap names |
| OutputPlan.ListedFailsIff | internal/starter/transfer.go:280-294 | the explicit plan fails if and only if a named file not yet sent is missing or irregular; otherwise it sends exactly the named files after the stdio ones, each as it is |
| OutputPlan.RegularNames | internal/starter/transfer.go:298-304 | the names of the regular entries, ascending, each once |
| OutputPlan.LessEqIsByteOrder | internal/starter/transfer.go:303-304 | the order of the names: a prefix first, else by the first character that differs |
| Slots.RenderInjective | internal/slot/slot.go:256-280 | the rendered slot names of one host are equal only for equal names |

## Left out

- Liveness: events may be dropped, so only state safety is claimed.
- The advertise, query and give-state handlers and the ads slots publish: re-advertising does nothing to the modelled state.
- ClassAd evaluation, session minting and import, the collection behind the store, SCM_RIGHTS: an oracle boolean, a fresh-id source, a set of ids that cannot be imported, a map, a send that succeeds or fails.
- A core without a minter or without a store: minting may fail at any time, but claiming is not switched off as a whole.
- Record marshalling (toAd, recordFromAd), public claim ids and session ids: they are functions of the record and the claim id.
- The lease deadline across restarts: keepalives extend it without saving it, so the restart theorem does not compare it.
- A second evAdopt on a running core: re-adoption is modelled as the one that runs before commands are served.
- AdWire.DistinctAttrsAllArrive: attribute names are compared as written, because the case-insensitive insertion belongs to a library that is not part of this model.
- AdWire.GetClassAd: a value of the wrong kind is treated as missing, because the byte encoding of messages is not part of this model.
- OutputPlan.BuildOutputPlan: the content of a file is the one it had when the plan was made, and a directory entry that vanishes between listing and stat is not modelled.
- StarterRun.Run: signals to the job's process group, the update ads' contents and the bounded reap after a kill are not part of the trace.
- StartdObject.Startd.DoAdopt: excludes a misnamed record whose fitting name is already taken, because rebuilding it would leave two objects under one name; the records the startd writes never do that.
- StartdObject.Startd.ReconstructDSlot: excludes the same record for the same reason.
- StartdObject.Startd.DoVacate: the goroutines behind timers, keepalives and supervisors are events that may arrive at any time, not objects.
- The handlers of the command server before the offer: only connections on the registered reconnect session get there, the comparison itself is not modelled.
- The in-process transport, job execution, resource detection, configuration and flag parsing.
- Integers are unbounded: counters and lease arithmetic do not wrap around.
