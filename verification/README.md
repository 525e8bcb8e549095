# Verification of the rolling upgrade controller

The upgrade manager replaces the instances of an AWS autoscaling group batch by batch. This project
models the parts of it that decide what happens to a cluster, and proves what they promise for every
input, every run and every reachable state.

| module | models |
|---|---|
| `Fleet`, `Readiness` | the discovered group, instances and nodes; drift; the readiness gate of eager mode |
| `BatchSize` | validation and defaulting of the strategy; the batch size |
| `ZoneOrder`, `ZoneRounds`, `Selection`, `Batch` | the batch selector: filters, tag clean-up, zone round-robin, truncation, fallback |
| `Stability`, `ZoneLevels`, `Reselection` | what selecting again returns while a drain round is open, and exactly when that is the same set |
| `Rotation`, `QuietRun` | one upgrade as a transition system: reconciles, drain goroutines, wait group, error channel, clock |
| `Stages`, `TerminateLoop` | what a reconcile comes to; the stages of a drain round and what a failing one leads to; the terminate loop under any failures |
| `Continuation`, `Unpinned` | what a state may lead to; runs in which an instance is handed to termination that no goroutine drained |
| `Convergence`, `Completion` | how many drain rounds a lazy upgrade takes, what it terminates, and that it can always complete |
| `EagerRun`, `Restock`, `EagerCompletion` | eager upgrades in a group that stands instances by and refills itself, and that they can always complete |
| `Admission`, `Disorder`, `Progress`, `Status` | which upgrades run together, restarts included, which steps put that at risk, and that each can be let in; the persisted status |
| `Budget` | the counter of replacement nodes shared by all upgrades |
| `Cordon`, `EarlyCordon` | cordon, annotation and roll-back against a server whose calls may fail |
| `Metrics`, `Statistics` | per-node step durations and the statistics they are flushed into |
| `Common`, `Numerals` | sequences without repetition, case folding, decimal numerals |

Code that updates state in place is a method or a class proved against a function of the old state;
the theorems are about those functions. The drain protocol, whose goroutines outlive a reconcile, is a
transition system with one step per observable action.

## Assumptions

- Instance IDs are normalised, so that comparing them without case is equality. Group, template and
  strategy names are compared without case on ASCII letters.
- A reconcile's admission section is one atomic step, and so is each question to the budget and each
  decrement of it.
- Tag theorems (`Stability`, `Reselection`, `QuietRun`, `Convergence`) concern one upgrade at a time:
  `Batch.ForeignTagRemoved` shows that a second one would undo its tags.
- The node cache is whatever snapshot it is; nothing is claimed about its agreement with the cluster,
  except that a cordon pass starts from cached nodes that agree with the server.
- The kubectl cordon helper makes no call when the object already has the wanted flag, and otherwise
  sets the flag on the object before it patches the server.
- Status writes succeed and label and status agree; times are whole seconds and the clock does not go
  back.

## Where the code does not do what one would expect

Each of these is shown on concrete inputs or runs, beside the exact condition under which the code is right.

- Validation folds case, selection and the mode switch do not: `RANDOMUPDATE` is accepted and then never
  selects anything (`BatchSize.AcceptedKindRecognised`, `Batch.DriftGivesBatch`).
- A forced refresh hides an outdated instance that has no node (`Fleet.ForcedRefreshSkipsNodeless`,
  `Fleet.StayingInstanceKept`).
- The readiness gate counts nodes: two ready nodes of one instance open it for an uncovered instance or
  keep it shut although all are covered. It is right exactly when no instance is counted twice
  (`Readiness.SharedNodeIdFoolsGate`, `Readiness.SharedNodeIdShutsGate`, `Readiness.GateMeansCovered`).
- Under the uniform strategy the batch may move while it is being drained, and the terminate loop come to
  an instance that nobody drained. The batch stays exactly when the picks that no tag holds are level
  across the zones, and then this does not happen (`Unpinned.UnheldBatchMoves`,
  `Reselection.UniformStableIff`, `QuietRun.TerminatedOnlyIfDrained`).
- A running resource kept by a finalizer, or a name reused for another group before a reconcile saw it
  gone, puts admission at risk, for any limit above one; no other step does, and with a limit of one
  nothing does (`Disorder.DisorderOccurs`, `Disorder.PromiseKeptIff`, `Admission.SingleSlotHolds`).
- Wait groups and error channels are kept by resource name and never removed. A resource created again
  under its name may terminate what nobody drained, exactly when goroutines of the earlier one are
  running, none of them is blocked, and they are not those of its batch (`Unpinned.LeftOverIff`). Drain
  safety holds with whatever finished goroutines are left over (`Rotation.DrainSafety`), and a left-over
  goroutine that is blocked stops every termination (`Rotation.PendingErrorBlocks`).
- Readiness gates that no labels can pass are accepted, and an eager upgrade then never drains; it can
  complete whenever some labels pass them all (`EagerCompletion.ContradictoryGates`,
  `EagerCompletion.EagerCompletes`).
- The budget holds only because the context is rebuilt for every reconcile
  (`Budget.KeptContextOverruns`, `Budget.AnswerFitsIff`).

## Model

| member | source | states |
|---|---|---|
| `Fleet.SelectScalingGroup` | controllers/providers/aws/utils.go:59-67 | a result has the name up to case and is one of the groups; no result means that no group has it |
| `Fleet.FirstGroup` | controllers/providers/aws/utils.go:59-67 | of several groups of the name the first is selected |
| `Fleet.SelectScalingGroupInstance` | controllers/providers/aws/utils.go:69-77 | a result is a member with that ID; no result means that no member has it |
| `Fleet.FirstInstance` | controllers/providers/aws/utils.go:69-77 | of several instances of one ID the first is selected |
| `Fleet.SelectsTheMember` | controllers/providers/aws/utils.go:69-77 | when no ID occurs twice, searching for a member's ID finds that very member |
| `Fleet.GetInServiceInstanceIDs` | controllers/providers/aws/utils.go:110-119 | the loop returns the IDs of the InService instances in order |
| `Fleet.InServiceMember` | controllers/providers/aws/utils.go:110-119 | an ID is returned if and only if some InService instance has it |
| `Fleet.InServiceDistinct` | controllers/providers/aws/utils.go:110-119 | no ID is returned twice when the instances have different IDs |
| `Fleet.LatestVersionOfFirst` | controllers/providers/aws/utils.go:99-108 | of the templates whose name folds to the given one the first decides: the result is the decimal numeral of its latest version, and reads back as it |
| `Fleet.LatestVersionOfUnknown` | controllers/providers/aws/utils.go:99-108 | a name no template has gives "0" |
| `Fleet.SelectNodeByInstanceID` | controllers/providers/kubernetes/utils.go:89-97 | a result is a node of that instance; no result means that no node is |
| `Fleet.FirstNode` | controllers/providers/kubernetes/utils.go:89-97 | of several nodes of one instance the first is selected |
| `Fleet.LastTokenOfPath` | controllers/providers/kubernetes/utils.go:99-106 | whatever path precedes it, the instance ID at the end of a provider ID is recovered |
| `Fleet.LeavingByName` | controllers/providers/aws/autoscaling.go:25-34 | the states that count as leaving are exactly those whose name in the autoscaling API says terminating or terminated, in the warm pool or not |
| `Fleet.StayingInstanceKept` | controllers/upgrade.go:584-677 | a staying instance is not drifted if and only if it runs the group's configuration, up to case and with the latest version resolved to the newest of the first template of the name, and, under a forced refresh, its node is no older than the upgrade; or a forced refresh finds no node for it |
| `Fleet.ResolvesToWanted` | controllers/upgrade.go:637-639 | the version compared with is the named one, the numeral of the first template's newest when "$Latest" in any case is asked for, and "0" when no template has the name |
| `Fleet.LatestKept` | controllers/upgrade.go:620-671 | when a launch template or a mixed policy asks for the latest version, a staying instance of the template is kept if and only if its version is the numeral of the newest of the first template of the name |
| `Fleet.ForcedRefreshSkipsNodeless` | controllers/upgrade.go:597-603 | an outdated instance without a node is drifted without, and not drifted with, a forced refresh |
| `Fleet.IsScalingGroupDrifted` | controllers/upgrade.go:679-700 | true if and only if some instance of the group is drifted |
| `BatchSize.RollingUpgradeSpec.Validate` | api/v1alpha1/rollingupgrade_types.go:351-394 | accepts exactly the acceptable strategies and then leaves the defaulted one; a rejection changes fields to their defaults at most |
| `BatchSize.AcceptedMeans` | api/v1alpha1/rollingupgrade_types.go:351-394 | accepted are exactly: type and mode empty or one of their two words in any case, a count not negative, a string reading as 1 to 100 once percent signs at its ends are off, a drain timeout absent or at least -1 |
| `BatchSize.DefaultedMeans` | api/v1alpha1/rollingupgrade_types.go:351-394 | the defaults are random update, lazy, one node and no timeout, each only where the field was empty or zero |
| `BatchSize.DefaultingIsIdempotent` | api/v1alpha1/rollingupgrade_types.go:351-394 | validating a defaulted strategy again accepts it and changes nothing |
| `BatchSize.PercentAccepted` | api/v1alpha1/rollingupgrade_types.go:376-382 | a written percentage is accepted if and only if it is 1 to 100; a negative one never is |
| `BatchSize.CeilPercent` | controllers/upgrade.go:749-749 | the least number of nodes that is at least the percentage |
| `BatchSize.AcceptedStringReading` | api/v1alpha1/rollingupgrade_types.go:376-382 | validation trims percent signs and the computation drops them; on every accepted string both read the same number |
| `BatchSize.BatchSizeBound` | controllers/upgrade.go:745-768 | for every accepted strategy and capacity the size is in 1..max(1, capacity), the exact ceiling for percentages, the capped count otherwise |
| `BatchSize.BatchLimit` | controllers/upgrade.go:475-481 | the limit used for truncation lies in 1..max(1, desired) |
| `BatchSize.AcceptedKindRecognised` | controllers/upgrade.go:544-548 | which accepted words mean random, uniform, lazy and eager later on: the empty one and the canonical spellings and no others, and accepted ones exist that mean none |
| `ZoneOrder.UniformAcrossZones` | controllers/upgrade.go:548-575 | for any order of the zones chosen afresh each round the loop ends; each zone's targets come out last first; in every prefix no zone is more than one ahead of a zone not yet exhausted |
| `ZoneOrder.TakeRound` | controllers/upgrade.go:565-571 | one pass keeps the split of every zone and the levels, and takes something unless every zone is empty |
| `ZoneOrder.ZoneOrderIsPermutation` | controllers/upgrade.go:560-574 | every such order is a permutation of the targets |
| `ZoneRounds.OrdersOfTheLoop` | controllers/upgrade.go:560-572 | an order is a zone order if and only if the loop produces it for some order of the zones in each round |
| `Selection.Ec2.UntagInstances` | controllers/providers/aws/ec2.go:104-116 | removes exactly the in-progress value from exactly the named instances, or nothing |
| `Selection.SelectTargets` | controllers/upgrade.go:473-582 | for any listing: removes the tags of exactly the orphans if untagging works; returns nothing if the listing fails, else a truncation of the owned in-progress members followed by the unprocessed ones in the strategy's order; only staying members of the group |
| `Selection.CollectUnprocessed` | controllers/upgrade.go:531-540 | the loop with its duplicate test keeps exactly the untagged, staying, drifted, non-excluded members, each at its first occurrence, however often the listing repeats it |
| `Selection.KeptBefore` | controllers/upgrade.go:535-535 | the duplicate test fires if and only if the ID occurred before and is one to keep |
| `Batch.SelectBatch` | controllers/upgrade.go:134-140 | when every call succeeds, a batch over the pools without drain-failed instances, or over all when those pools are empty, and cleaned tags; whichever calls fail, only staying members of the group, and old or cleaned tags |
| `Batch.FailedDrainsLast` | controllers/upgrade.go:73-140 | if a batch holds an instance tagged drain-failed, every listed drifted member of the group is so tagged |
| `Batch.CleanTagsExact` | controllers/upgrade.go:489-518 | selection takes the in-progress tag from exactly the pending or running instances that are no members, or are staying members without a node; leaving members keep it and no other tag changes |
| `Batch.EmptyChoice` | controllers/upgrade.go:544-581 | a recognised strategy returns nothing if and only if both pools are empty; an unrecognised one always does |
| `Batch.PoolsOf` | controllers/upgrade.go:489-540 | both pools of any cloud described by membership, tags and nodes alone, including the effect of untagging orphans on the way |
| `Batch.SelectionExact` | controllers/upgrade.go:489-581 | before truncation: exactly the staying in-progress members with a node, then exactly the drifted, non-excluded others; no ID twice if and only if no in-progress target is listed twice |
| `Batch.DriftGivesBatch` | controllers/upgrade.go:134-140 | with drift and a complete listing the batch is non-empty if and only if the strategy is recognised |
| `Batch.ForeignTagRemoved` | controllers/upgrade.go:504-518 | a live in-progress instance of another group loses its tag |
| `Stability.BatchWithin` | controllers/upgrade.go:473-582 | under every strategy a batch consists of staying, listed group members from the two pools |
| `Stability.RetagPools` | controllers/upgrade.go:269-276 | tagging moves exactly the tagged members with a node from the unprocessed to the in-progress pool |
| `Stability.RandomStable` | controllers/upgrade.go:544-546 | random strategy: after any part of the batch was tagged, selecting again returns the same set |
| `ZoneLevels.LevelForced` | controllers/upgrade.go:560-572 | once a level is reached, fairness forces the same counts per zone on every order of the pool |
| `ZoneLevels.SwappedIsOrder` | controllers/upgrade.go:560-572 | where a prefix ends within a round, the targets on both sides of its end lie in different zones and may come up in either order |
| `ZoneLevels.ForcedIffLevelled` | controllers/upgrade.go:548-575 | every order of a pool starts with the same targets if and only if they are level: every zone has given the same number or all it has |
| `Reselection.BatchCount` | controllers/upgrade.go:577-581 | a recognised strategy fills the batch as far as the two pools reach |
| `Reselection.UniformStableIff` | controllers/upgrade.go:548-574 | uniform strategy: the next selection is sure to return the same set if and only if the picks that no tag holds are level in what is left of the pool |
| `Reselection.FallbackStable` | controllers/upgrade.go:136-140 | after a fallback to drain-failed instances a recognised strategy next selects exactly what was tagged |
| `Reselection.StableIff` | controllers/upgrade.go:269-298 | for every strategy, tagging and fallback: exactly when the next selection is sure to return the same set |
| `Reselection.SelectionStable` | controllers/upgrade.go:269-298 | under that condition re-selection stays inside the batch, and equals it unless only drain-failed instances were left |
| `Reselection.HeldStays` | controllers/upgrade.go:269-276 | a batch whose members are all tagged and have a node meets the condition |
| `Reselection.SameBatches` | controllers/upgrade.go:269-298 | tagging again what is held already, or has no node, changes no later selection |
| `Unpinned.EitherBatch` | controllers/upgrade.go:548-575 | a cloud from which successive uniform selections may return either of two instances although nothing changed |
| `Unpinned.UnheldBatchMoves` | controllers/upgrade.go:297-421 | a lazy run from there: one instance is drained, a reconcile times out, the next selects the other, and the terminate loop comes to that one although no goroutine was started for it |
| `Unpinned.LeftOverIff` | controllers/rollingupgrade_controller.go:191-192 | for any left-over goroutines and any batch: the first reconcile of a new resource may go on to terminate an instance without a goroutine if and only if it gets to draining, goroutines run and none is blocked, and some batch member with a node is not one of theirs |
| `Readiness.DesiredNodesReady` | controllers/upgrade.go:702-743 | true if and only if the InService count and the count of ready, gate-passing nodes both equal the desired capacity, over the cached nodes when listing fails |
| `Readiness.ServingMember` | controllers/upgrade.go:730-735 | an ID is counted if and only if an InService instance has it and some ready, gate-passing node carries it |
| `Readiness.UsableMeans` | controllers/providers/kubernetes/utils.go:108-129 | a node is ready and passes the gates if and only if it reports condition "Ready" as "True" and each label a gate names has the wanted value, an absent one reading as empty |
| `Readiness.GateMeansCovered` | controllers/upgrade.go:709-742 | an open gate means that every InService instance has its own usable node if and only if none was counted twice; when all are covered the gate opens if and only if none was |
| `Readiness.SharedNodeIdFoolsGate` | controllers/upgrade.go:730-740 | with a shared instance ID the gate opens although an InService instance has no node |
| `Readiness.SharedNodeIdShutsGate` | controllers/upgrade.go:730-740 | two ready nodes on the only instance keep the gate shut |
| `Readiness.CapacityWithoutBatch` | controllers/upgrade.go:198-253 | past the gate no InService ID is in the batch, the group without it has full InService capacity, and all of that is ready if and only if no instance was counted twice |
| `Rotation.SafeStep` | controllers/upgrade.go:297-469 | every step keeps: the wait group counts the running goroutines, a failed goroutine is blocked sending until the upgrade has failed, termination only with the group at zero |
| `Rotation.SafeRun` | controllers/upgrade.go:297-469 | that invariant holds in every state of every run |
| `Rotation.DrainSafety` | controllers/upgrade.go:382-399 | "error ready" and "done" are never both enabled; while the terminate loop is on, every goroutine of the round has exited, drained, and nothing failed, whatever finished goroutines were left over at the start |
| `Rotation.PendingErrorBlocks` | controllers/upgrade.go:297-393 | while an error waits to be received, also that of an earlier resource of the name, no round starts and nothing is terminated |
| `Stages.ReconcileOutcome` | controllers/upgrade.go:72-295 | for every mode and every outcome of the calls: exactly when a reconcile fails, completes the upgrade, and waits for a drain round; the last if and only if it discovers drift, nothing it calls fails, both intervals are over and, in eager mode, no batch member is InService and the gate is open |
| `Stages.GoroutineCourse` | controllers/upgrade.go:333-378 | over every run, while a round is open: each goroutine has been through a prefix of script, drain, script, script, each once and in order, and is at the next or blocked on the last; a failing script does not end its course, a failing drain that is not ignored does; it has failed if and only if a stage has |
| `Stages.AllStagesPassed` | controllers/upgrade.go:333-378 | over every run, whenever the terminate loop is on: every goroutine went through all four stages in the current round, each with success but for a drain whose failure is ignored |
| `Stages.FailingStage` | controllers/upgrade.go:326-393 | over every run: an ignored drain failure, by the resource's switch or without one the controller's, is passed and tags nothing; every other failing stage blocks its goroutine, a drain also tags the instance, and short of a restart the terminate loop is not reached and the upgrade fails or the goroutine stays blocked |
| `Stages.IgnoredGoesOn` | controllers/upgrade.go:326-399 | with drain failures ignored, a waiting round can reach the terminate loop after a drain failed |
| `Rotation.StatusStep` | controllers/rollingupgrade_controller.go:101-122 | no step moves the status backwards or out of a finite state; completed is entered only by a reconcile that saw no drift |
| `Rotation.StatusForward` | controllers/upgrade.go:78-132 | between any two states of a run the status moved forward or stayed |
| `Rotation.CompletedWithoutDrift` | controllers/upgrade.go:119-132 | a completed run was completed by a reconcile whose snapshot had no drifted instance |
| `Rotation.GatedRun` | controllers/upgrade.go:198-253 | in every state of every eager run past the gate, the gate was open for the snapshot seen and the batch has no InService instance |
| `Rotation.EagerCapacity` | controllers/upgrade.go:198-253 | whenever an eager reconcile drains or terminates: no InService member of the group seen is in the batch, the group without the batch has its desired number InService, and each has a ready node if and only if the gate counted none twice |
| `Rotation.TimelyStep` | controllers/upgrade.go:279-295 | every step keeps the recorded times ahead of the log and the log spaced |
| `Rotation.IntervalsKept` | controllers/upgrade.go:279-295 | over every run, with failures, timeouts and restarts: terminations of different reconciles are at least the node interval apart, and a round starts no sooner than the drain delay after any completed one |
| `QuietRun.PinnedAtStart` | controllers/upgrade.go:269-298 | a round that starts with a batch that will stay drains everything selected next, and what can be tagged of it is |
| `QuietRun.PinnedAgain` | controllers/upgrade.go:269-298 | a selection made while a round is open, whatever it tags, keeps every later one inside what the round drains |
| `QuietRun.QuietAlongRun` | controllers/upgrade.go:297-460 | in every quiet run, under either strategy and in every mode, as long as no goroutine failed, whatever is being waited for or terminated has a goroutine of the round |
| `QuietRun.TerminatedOnlyIfDrained` | controllers/upgrade.go:399-421 | if rounds start with batches that will stay, every instance terminated, however many timed-out reconciles after its drain, has a goroutine that drained it, exited and did not fail |
| `Convergence.CleanBatch` | controllers/upgrade.go:473-582 | in a cloud without foreign tags a batch is drifted throughout and as large as the limit and the drift allow |
| `TerminateLoop.LoopTerminates` | controllers/upgrade.go:399-460 | however its calls turn out: exactly the batch members with a node are terminated, in order, up to the first whose termination fails or through the first whose script fails; exactly the tags whose removal works go; the reconcile ends, and the upgrade fails if and only if a script failed |
| `Convergence.RefillDrift` | controllers/providers/aws/autoscaling.go:51-62 | carrying out terminations and refilling the group changes nothing about the drifted instances that were not terminated |
| `Convergence.ConvergingStep` | controllers/upgrade.go:269-460 | every step of a lazy run keeps: terminated and outstanding instances are together those drifted at the start, and rounds done plus rounds needed is constant |
| `Convergence.RoundsAreCeiling` | controllers/upgrade.go:119-146 | the rounds needed for d instances in batches of k are d/k rounded up |
| `Convergence.LazyConvergence` | controllers/upgrade.go:119-146 | in every lazy run whose calls succeed: at most ceil(d/k) drain rounds, a reconcile completes the upgrade if and only if that many are done, it never fails, and on completion exactly the instances drifted at the start were terminated |
| `Completion.LazyCompletes` | controllers/upgrade.go:119-146 | from every state of every such run some continuation of the same kind completes the upgrade |
| `EagerRun.StepOnWay` | controllers/upgrade.go:182-253 | every step of an eager run whose calls succeed keeps: no foreign tags, no more InService than desired, no goroutine blocked, not failed |
| `Restock.StockedOpens` | controllers/upgrade.go:702-743 | with the desired number InService, only usable nodes and no two of one instance, the gate is open |
| `EagerCompletion.EagerCompletes` | controllers/upgrade.go:182-460 | from every state of every eager run whose calls succeed, in a group that stands tagged instances by and refills itself, some continuation of the same kind completes the upgrade, if any labels pass the readiness gates |
| `EagerCompletion.ContradictoryGates` | controllers/upgrade.go:718-742 | gates that no labels pass never open for a group that wants instances |
| `Status.ForwardThroughout` | api/v1alpha1/rollingupgrade_types.go:153-157 | if no single change of status goes backwards, none between two points does |
| `Admission.Reconciler.AdmittedCount` | controllers/common/utils.go:58-65 | ranging over the map counts its entries |
| `Admission.Reconciler.Reload` | controllers/rollingupgrade_controller.go:135-149 | fills the empty map with exactly the resources whose status is running |
| `Admission.Reconciler.TakenElsewhere` | controllers/rollingupgrade_controller.go:151-161 | true if and only if another admitted resource has the same scaling group up to case |
| `Admission.Reconciler.Reconcile` | controllers/rollingupgrade_controller.go:81-240 | new map and statuses as the transition function gives them, on every exit |
| `Admission.ReloadedIsAdmitted` | controllers/rollingupgrade_controller.go:135-149 | a reload re-establishes differing groups, the limit and the presence of everything running |
| `Admission.ReconcileKeeps` | controllers/rollingupgrade_controller.go:81-240 | every reconcile, however its calls turn out, keeps the admission invariant |
| `Admission.StepKeeps` | controllers/rollingupgrade_controller.go:86-188 | every orderly step keeps the invariant |
| `Admission.SingleSlotHolds` | controllers/rollingupgrade_controller.go:168-188 | with a limit of one the promise holds in every run, orderly or not |
| `Admission.AdmissionHolds` | controllers/rollingupgrade_controller.go:86-188 | over every orderly run with restarts: pairwise different groups, at most maxParallel, everything running admitted unless the map is empty, and the same after a reload |
| `Admission.AdmittedIff` | controllers/rollingupgrade_controller.go:115-240 | for an upgrade that has neither ended nor is being deleted, stated without the model's own functions: it ends up admitted if and only if it was, or the reconcile decides, no other entry has its group up to case and there is room; other entries stay, an empty map being taken up from the running resources; it is rotated if and only if admitted with its group free and the nodes known, and else waits, initialised if it had no status |
| `Progress.Ends` | controllers/rollingupgrade_controller.go:101-107 | from every state that keeps the invariant, reconciles of one admitted upgrade alone can end it and take it, and nothing else, from the map |
| `Progress.CanBeAdmitted` | controllers/rollingupgrade_controller.go:86-188 | with a limit of at least one, in every state of every orderly run, every upgrade that has neither ended nor is being deleted can be admitted by reconciles alone |
| `Disorder.LingeringDeletionBreaks` | controllers/rollingupgrade_controller.go:94-99 | for any limit above one: after marking any running resource deleted, an orderly continuation breaks the promise |
| `Disorder.ReusedNameBreaks` | controllers/rollingupgrade_controller.go:181-188 | for any limit above one: after reusing any admitted name for another group, an orderly continuation breaks the promise |
| `Disorder.PromiseKeptIff` | controllers/rollingupgrade_controller.go:86-188 | for any limit above one, a step leaves the promise kept in every orderly continuation if and only if it is orderly |
| `Disorder.DisorderOccurs` | controllers/rollingupgrade_controller.go:86-188 | both kinds of disorder occur in states reached from the start and let the promise be broken |
| `Admission.StatusStep` | controllers/rollingupgrade_controller.go:101-122 | no step moves a resource's persisted status backwards, in any state |
| `Admission.StatusForward` | controllers/rollingupgrade_controller.go:101-122 | while a resource exists its status only moves forward, over every run, orderly or not |
| `Budget.Context.ClusterBallooning` | controllers/upgrade.go:816-841 | answer, granted size, counter and flag together as the budget function gives them |
| `Budget.Context.Terminated` | controllers/upgrade.go:434-440 | lowers a positive counter by one and takes the permission back |
| `Budget.FreshAsk` | controllers/upgrade.go:816-841 | a fresh context gets exactly min(asked, free), is sent away if and only if nothing is free, and the counter rises by what it got |
| `Budget.AnswerFitsIff` | controllers/upgrade.go:836-841 | an answer fits what is free if and only if the flag was down or something was free |
| `Budget.BalancedStep` | controllers/upgrade.go:200-211 | every grant and termination keeps the counter in range and above grants minus terminations |
| `Budget.SurgeBounded` | controllers/upgrade.go:816-841 | over every interleaving of any number of upgrades: 0 <= counter <= limit and grants minus terminations <= counter |
| `Budget.FreeAgain` | controllers/upgrade.go:434-440 | in every run, after k terminations a rebuilt context is granted what was free and k more, up to its request and the limit |
| `Budget.KeptContextOverruns` | controllers/rollingupgrade_controller.go:200-223 | a context that asked twice would overrun the limit by all of its second request |
| `Cordon.CordonUncordonNode` | controllers/providers/kubernetes/nodes.go:81-106 | success means the server has the flag; the annotation is untouched; only a lost reply changes the server on failure |
| `Cordon.RemoveAnnotation` | controllers/upgrade.go:996-1022 | success means the annotation is gone and the cordon untouched; failure means a failed call, for a conflict the last of all retries |
| `Cordon.UncordonAndRemoveAnnotation` | controllers/upgrade.go:988-1034 | for any failures: at every call boundary an annotated node is cordoned; success means neither cordoned nor annotated; failure means that its last call failed; without a failing call it succeeds |
| `Cordon.AddAnnotation` | controllers/upgrade.go:942-982 | success means cordoned and annotated; failure means given up after the last retry or after an error that is no conflict; the exit behind the loop is unreachable |
| `Cordon.RollBack` | controllers/upgrade.go:953-976 | after giving up, either the server is as at the start or a call made to take the cordon back failed |
| `Cordon.CordonAndAnnotateNode` | controllers/upgrade.go:936-985 | for any failures: at every call boundary an annotated node is cordoned; success means cordoned and annotated; failure means that the cordon call failed, or that annotating was given up and then everything was taken back or a call made to take it back failed |
| `EarlyCordon.ProcessNode` | controllers/upgrade.go:875-903 | exactly one count is raised when the node is due and none otherwise; a processed node has both flags as wanted, one not due is untouched, an error has a failed call |
| `EarlyCordon.ProcessInstance` | controllers/upgrade.go:857-904 | one round of the loop: the counts raised are those of the instance's own due node, and no other node changes |
| `EarlyCordon.CordonUncordonAllNodes` | controllers/upgrade.go:852-933 | ownership at every call boundary; the counts are the due nodes done and not done; fails if and only if something was due and none of it done; nothing else is touched; each error has a failed call; without one the server is what the pass makes it |
| `EarlyCordon.CordonRoundTrip` | controllers/upgrade.go:852-904 | any number of cordon passes, with drift changing between them, then one uncordon pass, restores every node; nodes cordoned by an operator stay so |
| `EarlyCordon.CordonPassExact` | controllers/upgrade.go:852-904 | after a cordon pass a node is cordoned and annotated if it is the node of a staying drifted instance and was not cordoned, and else as before |
| `EarlyCordon.UncordonPassExact` | controllers/upgrade.go:852-904 | after an uncordon pass a node is neither if it is the node of a staying instance and was annotated, and else as before |
| `Statistics.Statistics.AddNodeStepDuration` | controllers/metrics.go:37-55 | one entry per step name is kept, that step's sum and count grow by the duration and by one, no other changes |
| `Statistics.Statistics.UpdateStatistics` | controllers/metrics.go:28-34 | for any order of the map, one flush adds exactly its durations; after any flushes each entry holds the sum and count of all durations flushed for its name |
| `Statistics.SumOverAny` | controllers/metrics.go:29-33 | the sum over the nodes does not depend on the order in which they are taken |
| `Statistics.ConservesFlush` | controllers/metrics.go:28-34 | adding one flush to conserved statistics conserves the longer history |
| `Metrics.Recorder.AddNodeStepDuration` | controllers/metrics.go:117-129 | appends to the node's list, creating it when absent |
| `Metrics.Recorder.DoNodeStep` | controllers/metrics.go:71-109 | both maps end up as the step function gives them |
| `Metrics.OtherNode` | controllers/metrics.go:71-109 | a call leaves the entry and list of every other node alone |
| `Metrics.OrderAgrees` | api/v1alpha1/rollingupgrade_types.go:164-190 | the order numbers agree with the order in which a node goes through the steps |
| `Metrics.RotationTelescopes` | controllers/metrics.go:71-109 | for any interleaving over any nodes, one rotation records strictly ascending steps with the total last, whose durations sum to the total less the gap between the two clock reads at the opening |

## Left out

- AWS and Kubernetes clients, paging, caching, back-off and retries inside the clients: abstract operations that succeed or fail.
- Scripts, events, logging and Prometheus metrics: a script is an outcome.
- The kubectl drain helper: a drain is an outcome; for cordoning see the assumptions.
- The node watch and `ClusterNodesMap`: the nodes are an input.
- Unicode case folding, and nil pointers in API responses.
- `ReconcileMap`: it is not a sound lock, because the deferred update also removes an entry it did not store; whether it was found locked is an input of a reconcile.
- Finer interleavings inside the admission section or the budget, which read and then store without holding a lock.
- `ReplaceNodeBatch` and `RotateNodes` as single methods: what spans their goroutines is the transition system of `Rotation`, in which a reconcile up to the select is one step.
- The internal semaphore of a wait group, which the comparison with a fresh wait group also looks at.
- A restart in the middle of a reconcile, before the status was written: restarts happen between reconciles.
- The lifecycle change of a terminated instance: it belongs to the environment step.
- Sub-second times, 32-bit wrap-around of `DurationCount`, and floating-point rounding in the percentage.
- Total unavailability across reconciles: terminating instances are dropped from selection, so only the size of one batch is bounded.
- Exactness of the budget counter: lazy terminations lower it too, and failed tagging leaves it raised.
- `GetChunks`, `SetProgress`, `SetCondition`, getters and setters, generated deep copies: easy members only.
- Stability.RandomStable: repeated entries in the listing are left out here and in the other theorems about selecting again; `Batch.SelectionExact` allows them.
- EagerCompletion.EagerCompletes: every call succeeds, the group never has more InService than it wants, and the environment stands by what is tagged and refills; with fewer replacements granted than asked it says nothing about how many reconciles are needed.
- Convergence.LazyConvergence: every call succeeds, and a reconcile sees the terminations before it carried out.
- Fleet.SelectScalingGroupInstance: compares normalised IDs.
- Cordon.CordonAndAnnotateNode: other writers of the same node between two calls are left out, apart from the conflicts they cause.
