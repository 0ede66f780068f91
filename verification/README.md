# Resource replicator: model and proofs

This project models the controllers of the resource replicator and proves properties of that model.

A *Replica* (namespaced) or *ClusterReplica* describes copies of source resources that a controller keeps on many clusters. The
controller renders the copies, writes them, tracks them in `status.replicas`, tells its own copies from others by labels, removes
copies that are no longer wanted and takes its finalizer away when the last copy is gone. Beside it the project covers the list that
holds the tracked copies, the channel through which other controllers wake the replica controller, the namespace controller, the names
of conditions, and the tool that injects files into the documentation.

## The parts

| files | what they hold |
|---|---|
| `Refs`, `Objects`, `Targets` | identities, objects with their labels, ownership tests, the update function, target definitions, selectors |
| `StatusList` | the grouped list in `status.replicas`: operations on its value, the set it stands for, and the class that edits it in place |
| `Steps` | one reconcile pass as an agenda of tasks. Each task is a step between which anything else may happen; a `Fate` says how its API calls end |
| `System` | any number of replicas with their passes interleaved task by task, crashes, and the environment |
| `Controller` | the reconciler as a class whose fields are updated in place by nested loops, proved equal to the agenda machine |
| `TargetOutcomes`, `TaskOutcomes` | what every task does, case by case, in terms of labels, policies and the way calls end |
| `Ownership`, `NoOrphans`, `OrphanExample` | safety over every run: owners, kept objects, no object without an entry |
| `Conflicts`, `Protection`, `UnsyncedExample`, `TakenCopies`, `CopyExample` | what conflict detection reports, which copies a pass must not delete, which it deletes all the same, and which it wrongly takes for copies |
| `FailedInputs`, `FailedClusters`, `FlippedExample` | what a pass leaves alone that could not read its inputs, or not open a cluster |
| `Obsolete`, `DeletionPhase`, `Quiet`, `DeletionTerminates`, `DeletionExample` | the exact set of copies to delete, independence of map order, termination of deletion |
| `Resolution`, `QuietLoop`, `LoopKeys`, `Settling`, `Steady`, `Convergence` | convergence of quiet passes |
| `SmallRuns`, `MixedClusters`, `KeptNamesakes` | the two ways in which two passes are not enough |
| `EventRuns` | what the examples that are written out event by event share |
| `Enqueue`, `NamespaceEvents` | the wake-up protocol and the completeness of namespace wake-ups |
| `ConditionNames` | the names of conditions as keys |
| `EmbedDocs` | the documentation tool |

An API call ends in one of three ways: it succeeds, it fails without effect, or it takes effect although an error is returned. A crash
drops the pass; the next one starts from what is stored. A status patch is a JSON merge patch (section 2 of RFC 7396): it replaces the
whole list, and it carries the list only if it differs from the copy taken at the last successful write.

Rendering, label selection, cluster selection, the order of a namespace listing and the names of conditions are functions in `Config`;
they are deterministic and otherwise arbitrary. `Oracle` gives the fate of every call of a pass and the order in which the clusters of a
Go map are walked.

## Main results

* **No orphans.** After any run with failing calls and crashes, every object on an existing cluster that carries a replica's labels is in
  that replica's stored status and the replica still has its finalizer (`NoOrphans.NoOrphansEver`, `NoOrphans.FinalizerGoesLast`). On
  clusters other than the hosting one this needs no condition (`NoOrphans.OntoAlwaysInScope`), nor does it where a pass has one conflict
  key at most for a place (`NoOrphans.OneKeyInScope`). Otherwise it needs that no status patch is lost at a target while another target
  with the same home and a key of its own is still to come; `OrphanExample.LostPatchLeavesOrphan` is a run that shows why: the entry of
  the lost patch stays in memory, the next Cluster in the same namespace finds it there, and writes without persisting. That pass does not
  delete the copy, and records it if one of its later patches takes effect (`OrphanExample.OrphanIsRecorded`).
  `NoOrphans.WriteCoveredExactly` is the condition for one write.
* **Convergence.** Three quiet passes reach a fixpoint, whatever the definitions and whoever owns what (`Convergence.ThreePassesConverge`),
  and later ones change nothing (`Convergence.LaterPassesChangeNothing`). Two are enough (`Convergence.TwoPassesConverge`) unless a
  copy next to a Cluster has the conflict key of one on that Cluster in a namespace that does not exist yet and would be selected by its
  labels, or a place that is tracked, wanted next to a Cluster under the Overwrite policy and not reported on under its own name holds an
  object labelled Keep that a namesake in another namespace owns. Either exception alone can make a third pass change something:
  `MixedClusters.MixedNeedsThirdPass`, `KeptNamesakes.KeptNeedsThirdPass`.
* **Ownership.** An owner changes only by release, deletion or the environment, over any interleaving (`Ownership.OwnerIsStable`); an object
  labelled Keep is never deleted (`Ownership.KeepIsHonoured`). The deletion path does not look at the owner's namespace, so it takes an object
  of a namesake in another namespace for its own: `Objects.DeletionPathIgnoresNamespace` says exactly when, and
  `DeletionTerminates.NamesakeIsDeleted` that it is then deleted.
* **Protection.** A target Onto a Cluster or on the hosting cluster that has been rendered in a pass is not deleted in that pass, however
  its handling ended. If its entry is in memory then, as it is even after a failed status patch, it stays there to the end of the pass, and
  it is stored exactly if it was stored by then or a later patch or status update of the pass takes effect
  (`Protection.RenderedTargetIsSpared`). The same holds for a copy shared by NextTo targets if one of them is synced, whatever patches were
  lost before; it is stored from the sync on exactly if memory did not hold its entry alone (`Protection.SyncedCopyIsSpared`). A target
  NextTo a Cluster that is rendered but not synced has no such protection: its condition has the name of its key and not of the place where
  the copy lives. `Protection.ExcusedExactly` says what protects a copy, and in `UnsyncedExample.FailedUpdateDeletes` one failed update of a
  copy that is still wanted deletes it. A difference is reported under a condition name exactly if two renderings of a key of that name differ
  (`Conflicts.BooksInEveryRun`), and with the names the program makes, exactly if two renderings of the key itself differ
  (`Conflicts.DifferencesAreNamed`).
* **Failures spare copies.** A pass that cannot list the Clusters, or that is to sync and cannot add the finalizer or read a source,
  changes no object, no namespace and not the stored list, as a whole (`FailedInputs.FailedInputsChangeNothing`) and with anything in
  between (`FailedInputs.FailedInputsLeaveAlone`). If a cluster cannot be accessed, or its namespaces cannot be listed where they have to be, the
  pass neither releases nor deletes an object on it and loses no entry on it from then on (`FailedClusters.FailedClusterIsSpared`), unless
  another definition closes the same cluster later: `FlippedExample.OtherDefinitionFlips` is a run in which the copy is then deleted.
* **Outcomes.** The answer to one target is settled: its condition, its errors, its object and its entry, for every conflict policy, every
  namespace policy and every call that may fail (`TargetOutcomes.GetFails`, `ForeignObject`, `NoNamespace`, `CreationFails` and
  `TargetIsWritten` of that module). One of these cases always applies, and the answer is Synced exactly if the home of the target has been
  added to the synced objects (`TargetOutcomes.SyncedExactly`). `TaskOutcomes` has the same for the loops, the plan and the deletions.
* **Targets taken for copies.** Conflict detection mixes up targets Onto and NextTo one Cluster: the later one is reported as an identical
  copy, without a look at its own home, exactly if the texts are equal (`TakenCopies.TakenForCopyExactly`), and a copy wanted onto the
  Cluster is then not written in the whole pass (`TakenCopies.OntoIsStarved`; `CopyExample.OntoIsTakenForCopy` is a run).
* **Deletion.** The plan is exact (`Obsolete.PlanIsExact`), the stored status after it does not depend on map order
  (`DeletionPhase.OrderDoesNotMatter`), and the finalizer of a deleted replica is gone by the third quiet pass
  (`DeletionTerminates.FinalizerGoneByThirdPass`). Its entries never increase from the first deleting pass on
  (`DeletionTerminates.EntriesNeverIncrease`), and past its loops a pass can only store what it had synced or held by then
  (`DeletionTerminates.LateDeletionBounded`); the rest of a sync that was under way can still add one (`DeletionExample.DeletedMidPass`).
* **Wake-ups.** No wake-up is lost unless the channel was full (`Enqueue.NoLostWakeUp`), and then one can be (`Enqueue.FullChannelLoses`);
  with reconciles from the channel alone every pending key has exactly one token (`Enqueue.ExactlyOneToken`), and with other sources it
  need not (`Enqueue.OtherSourcesDuplicate`). Namespace events wake every replica they concern (`NamespaceEvents.WakeUpsAreComplete`) and
  no other (`NamespaceEvents.OnlyRelevantAreEnqueued`, `NamespaceEvents.RelevantExactly`).
* **Documentation tool.** The new body of a block is the file up to its last line that is not empty (`EmbedDocs.NewBodyIs`), and a run
  reports the first thing that is wrong (`EmbedDocs.ProblemIs`). A second run returns the same text if and only if no injected line is a
  closing fence. Otherwise it fails or changes the text, and makes it longer if no injected line is a marker
  (`EmbedDocs.SecondRunExactly`; `EmbedDocs.FenceInFileBreaks`, `EmbedDocs.FenceAndEndInFileGrow` and `EmbedDocs.MarkerInFileMoves` show
  the three outcomes). A marker in the last line makes the tool index past the end of the file, exactly if all before it is in order
  (`EmbedDocs.PanicExactly`).

## Model

| member | source | states |
|---|---|---|
| `StatusList.AddInserts` | api/core/v1alpha1/utils.go:70-78 | adding to a well-formed list inserts the entry into the set the list stands for and keeps the list well-formed |
| `StatusList.RemoveDeletes` | api/core/v1alpha1/utils.go:96-107 | removing deletes the entry from the set and keeps the list well-formed |
| `StatusList.ContainsIsMember` | api/core/v1alpha1/utils.go:179-191 | the search answers membership in the set |
| `StatusList.CleanupKeepsSet` | api/core/v1alpha1/utils.go:194-205 | cleanup keeps the set and drops exactly the empty groups |
| `StatusList.EditsKeepOrder` | api/core/v1alpha1/utils.go:70-205 | an entry that is there changes nothing, a new one comes last in the group of its type and a new type last; removing and cleanup leave the order of the rest |
| `StatusList.RawRefinesSet` | api/core/v1alpha1/utils.go:111-176 | the raw forms insert, delete and test a location, an empty cluster reference meaning the hosting cluster; inserting what is there changes nothing |
| `StatusList.ClusterRefEqualIsEquality` | api/core/v1alpha1/utils.go:44-52 | the comparison of cluster references is equality, nil included |
| `StatusList.CreatedResourcesWithTypeList.Add` | api/core/v1alpha1/utils.go:125-136 | the loops over groups and entries leave the list with the entry added at the end of its group, or unchanged |
| `StatusList.CreatedResourcesWithTypeList.Remove` | api/core/v1alpha1/utils.go:154-161 | the loops shift out the first matching entry of the type's group |
| `StatusList.CreatedResourcesWithTypeList.Contains` | api/core/v1alpha1/utils.go:179-191 | the loops find an entry exactly if the type's group has it |
| `StatusList.CreatedResourcesWithTypeList.AddRaw` | api/core/v1alpha1/utils.go:111-122 | an empty cluster reference is stored as nil |
| `StatusList.CreatedResourcesWithTypeList.RemoveRaw` | api/core/v1alpha1/utils.go:140-151 | an empty cluster reference is removed as nil |
| `StatusList.CreatedResourcesWithTypeList.ContainsRaw` | api/core/v1alpha1/utils.go:165-176 | an empty cluster reference is looked for as nil |
| `StatusList.CreatedResourcesWithTypeList.Cleanup` | api/core/v1alpha1/utils.go:194-205 | the two-pointer compaction within one backing store gives the list without its empty groups |
| `Objects.OwnerIsUnique` | internal/replica/controller.go:489-501 | at most one replica owns an object |
| `Objects.DeletionPathIgnoresNamespace` | internal/replica/controller.go:893-896 | the deletion path takes an object of another replica for its own if and only if the two have one kind and name |
| `Objects.SyncTakesOwnership` | internal/replica/controller.go:489-501 | what a sync writes carries the syncing replica's labels: provider, kind, name, generation and, for a Replica, namespace; a ClusterReplica leaves a rendered owner-namespace label as it is |
| `Objects.UpdateIdempotent` | internal/replica/controller.go:647-674 | updating twice is updating once |
| `Objects.UpdateWritesRendering` | internal/replica/controller.go:647-674 | an update makes fields, annotations and labels those of the rendering, keeps status and other metadata and never drops the deletion policy |
| `Objects.ReleaseRemovesExactly` | internal/replica/controller.go:897-913 | a release removes the labels for provider, kind, name, namespace, generation and deletion policy and nothing else, and leaves no owner |
| `Objects.MutateTarget` | internal/replica/controller.go:647-674 | the two loops over the maps of rendering and target compute the update |
| `Objects.ReleaseLabels` | internal/replica/controller.go:901-907 | deleting the labels one by one computes the release |
| `Targets.Matches` | api/core/v1alpha1/utils.go:16-42 | a nil selector matches, and one with all three parts absent; identities are compared by name; without them, with matchLabels or matchExpressions, the labels decide; an unusable label selector is an error |
| `Targets.AnswerIs` | api/core/v1alpha1/utils.go:16-42 | the answer of a selector is the one that its fields give, and no other |
| `Steps.SyncTargetCases` | internal/replica/controller.go:503-688 | past conflict detection a target is reported, or written after its namespace was found or created, and nothing else |
| `Steps.DeleteCases` | internal/replica/controller.go:876-935 | a deletion reports, forgets an entry of which nothing is the replica's, releases a kept object, or marks an unmarked one that is not kept |
| `TargetOutcomes.RenderedNamespace` | internal/replica/controller.go:381-462 | the namespace of the target replaces the rendered one, and nothing else of the rendering is changed |
| `TargetOutcomes.RenderingFails` | internal/replica/controller.go:400-462 | a template that fails is an error without a condition for the target, a copy that cannot be marshalled one with a False condition; no object, namespace or entry changes |
| `TargetOutcomes.SeenBefore` | internal/replica/controller.go:472-487 | a target whose key has been rendered before is answered True/IdenticalCopy if the texts are equal, else False with an error, and nothing else is done |
| `TargetOutcomes.GetFails` | internal/replica/controller.go:503-516 | if it cannot be found out whether the object exists: False, an error, and nothing is touched |
| `TargetOutcomes.ForeignObject` | internal/replica/controller.go:517-577 | an object of another or no owner: Skip answers True/Skipped without an error, Fail answers False with an error, and so does Overwrite if the object is in deletion or names another owner; nothing is touched |
| `TargetOutcomes.NoNamespace` | internal/replica/controller.go:578-625 | a namespace that is unknown, in deletion, or missing and not to be created: Skip answers True/Skipped, everything else False with an error; nothing is touched |
| `TargetOutcomes.CreationFails` | internal/replica/controller.go:592-600 | a namespace that cannot be created: False with an error, and it is there exactly if the failed call took effect |
| `TargetOutcomes.TargetIsWritten` | internal/replica/controller.go:627-688 | in all other cases the entry is recorded and the object written: its labels one by one, its fields, status and other metadata, what a failed patch and a failed write leave, and the answer |
| `TargetOutcomes.SyncedExactly` | internal/replica/controller.go:683-687 | these cases are all there are; the answer is Synced exactly if the home was added to the synced objects, and that exactly if the target may be written, patch included, and the write succeeds |
| `TaskOutcomes.MatchedInOrder` | internal/replica/controller.go:298-310 | a definition works on the hosting cluster, or on the Clusters that its selector selects, all without one, in the order of the list |
| `TaskOutcomes.DefinitionOpens` | internal/replica/controller.go:297-312 | entering a definition changes nothing and leads to its clusters one by one |
| `TaskOutcomes.ClusterOpens` | internal/replica/controller.go:327-379 | a Cluster in deletion is passed over, next to a Cluster its own namespace is used without access, a failed access or listing is a False condition and an error, identities are used as they are |
| `TaskOutcomes.SelectedInOrder` | internal/replica/controller.go:365-374 | what one more listed namespace adds: it is selected if the labels say so, an error if they cannot say |
| `TaskOutcomes.ListingOpens` | internal/replica/controller.go:357-374 | the selected namespaces of the listing are worked on, in its order |
| `TaskOutcomes.ClusterCloses` | internal/replica/controller.go:691 | a cluster whose namespaces have been worked on gets a True condition |
| `TaskOutcomes.PlanIs` | internal/replica/controller.go:736-856 | exactly the tracked entries that were not synced, on clusters that exist and whose last condition is not False, without a condition of their own, are set down for deletion; exactly the entries on clusters that are gone are forgotten; nothing else changes |
| `TaskOutcomes.ObsoleteGoesOn` | internal/replica/controller.go:858-866 | the clusters of the plan are handled one after the other, each once, in an order that is left open |
| `TaskOutcomes.BucketOpens` | internal/replica/controller.go:860-875 | a cluster that cannot be accessed for deletions: a False condition for each entry in order, and one error |
| `TaskOutcomes.DeletionIs` | internal/replica/controller.go:876-935 | one deletion: an unreadable object is an error, a missing or foreign one is forgotten, one labelled Keep loses six labels, any other is marked once and waited for without an error |
| `TaskOutcomes.CleanupIs` | internal/replica/controller.go:209-217 | after the deletions everything synced is tracked, and nothing but the list changes |
| `TaskOutcomes.UpdateIs` | internal/replica/controller.go:95-125 | the final update stores the list in memory if it differs from the old copy, unless the call is lost |
| `TaskOutcomes.StartsReady` | internal/replica/controller.go:227-297 | with its inputs a pass starts from what is stored, runs its definitions in order, then the plan |
| `TaskOutcomes.StartsDeleting` | internal/replica/controller.go:703-731 | a deleted replica with entries deletes what is obsolete and keeps its finalizer; without entries the finalizer goes, unless that call is lost |
| `Controller.ReplicaController.CreateOrUpdate` | internal/replica/controller.go:646-688 | reads, mutates and writes the object, records it as synced, and leaves the state the agenda machine has |
| `Controller.ReplicaController.StoreEntry` | internal/replica/controller.go:634-644 | the entry is added in memory, persisted if the patch takes effect, and the old copy replaced only if it succeeds |
| `Controller.ReplicaController.Write` | internal/replica/controller.go:627-688 | the write-ahead of the status entry, then the write |
| `Controller.ReplicaController.CheckExisting` | internal/replica/controller.go:517-577 | the switch over the conflict policy for an existing object |
| `Controller.ReplicaController.CheckNamespace` | internal/replica/controller.go:578-625 | the switch over the namespace policy, with the creation of a missing namespace and its failures |
| `Controller.ReplicaController.SyncTarget` | internal/replica/controller.go:503-688 | existence, ownership, namespace and write leave the state of the agenda machine |
| `Controller.ReplicaController.CheckConflict` | internal/replica/controller.go:472-487 | the first rendering of a key goes on and is remembered; a later one is compared with the first |
| `Controller.ReplicaController.HandleTarget` | internal/replica/controller.go:381-689 | one run of the innermost loop body |
| `Controller.ReplicaController.SelectByLabels` | internal/replica/controller.go:357-374 | the loop over listed namespaces selects the matching ones in order and counts the ones that cannot be matched |
| `Controller.ReplicaController.ResolveNamespaces` | internal/replica/controller.go:327-379 | the early exits and the choice of namespaces on one cluster |
| `Controller.ReplicaController.SyncCluster` | internal/replica/controller.go:312-692 | the loop over namespaces runs the agenda of one cluster |
| `Controller.ReplicaController.MatchClusters` | internal/replica/controller.go:298-310 | the loop over Clusters selects the matching ones in order, or the hosting cluster |
| `Controller.ReplicaController.SyncDefinition` | internal/replica/controller.go:297-693 | the loop over clusters runs the agenda of one definition |
| `Controller.ReplicaController.SyncDefinitions` | internal/replica/controller.go:297-693 | the outermost loop runs the agenda of all definitions |
| `Controller.ReplicaController.HandleCreateOrUpdate` | internal/replica/controller.go:227-701 | finalizer, sources and loops, or no loops if one of them fails, then the end of the pass |
| `Controller.ReplicaController.HandleDelete` | internal/replica/controller.go:703-731 | with entries left the pass deletes; without, it only writes the status if the finalizer could not be removed |
| `Controller.CollectStatus` | internal/replica/controller.go:763-774 | the map built from the status holds, cluster by cluster in order, every entry of the list |
| `Controller.Deduplicate` | internal/replica/controller.go:776-788 | the loop keeps the first of equal entries |
| `Controller.RemoveManaged` | internal/replica/controller.go:790-807 | cutting every synced object out of its cluster's slice leaves exactly the entries that were not synced |
| `Controller.SeenConditions` | internal/replica/controller.go:825-835 | the maps hold the last condition of every cluster and the names of all target conditions |
| `Controller.SkipUnhealthy` | internal/replica/controller.go:836-844 | clusters whose last condition is False are dropped |
| `Controller.SkipReported` | internal/replica/controller.go:845-856 | targets with a condition are dropped |
| `Controller.ReplicaController.PruneVanished` | internal/replica/controller.go:809-823 | entries on clusters that are gone leave map and status without a call |
| `Controller.ReplicaController.PlanDeletion` | internal/replica/controller.go:752-856 | the six in-place filters together leave the plan of the agenda machine and its status |
| `Controller.ReplicaController.DeleteObsolete` | internal/replica/controller.go:876-935 | one obsolete entry: get, ownership test, release or deletion, and whether the entry goes |
| `Controller.ReplicaController.DeleteBucket` | internal/replica/controller.go:860-935 | one cluster: without access every resource gets a condition and there is one error |
| `Controller.ReplicaController.DeleteBuckets` | internal/replica/controller.go:858-936 | all clusters, in any order |
| `Controller.ReplicaController.CloseStatus` | internal/replica/controller.go:937 | cleanup, then everything synced is tracked |
| `Controller.ReplicaController.DeleteObsoleteResources` | internal/replica/controller.go:736-942 | the whole deletion is the run of plan and cleanup |
| `Controller.ReplicaController.UpdateStatus` | internal/replica/controller.go:95-125 | the final status update stores the list if it differs from the old copy |
| `Controller.ReplicaController.Reconcile` | internal/replica/controller.go:141-225 | a reconcile leaves the world and the stored replica that the agenda machine computes for a whole pass |
| `Quiet.RunIsUninterrupted` | internal/replica/controller.go:141-225 | running an agenda is what the interleaved system does when no other event comes between |
| `Quiet.WholePassIsARun` | internal/replica/controller.go:78-139 | a whole pass is a run of the interleaved system |
| `Quiet.QuietClose` | internal/replica/controller.go:736-942 | the exact objects, entries and stored status at the end of a pass in which no call fails |
| `Ownership.StepChanges` | internal/replica/controller.go:517-577 | every task leaves every object alone, or writes it as its conflict policy allows, or releases it if kept, or marks it if not |
| `Ownership.SyncRespectsOtherOwners` | internal/replica/controller.go:525-577 | under no conflict policy does a sync change an object that names another owner |
| `Ownership.DeletionRespectsLabels` | internal/replica/controller.go:893-916 | the deletion path changes only its own entry's object, and only if managed-by, kind and name are the replica's |
| `Ownership.OwnerIsStable` | internal/replica/controller.go:517-577 | over any run of any replicas an owner stays until the object is released or the environment edits it |
| `Ownership.KeepIsHonoured` | internal/replica/controller.go:893-914 | over any run an object labelled Keep stays in place, kept and unmarked, until it is released or edited, if no target that lives there is rendered with another deletion policy |
| `NoOrphans.StepCovers` | internal/replica/controller.go:627-688 | every task keeps every object of the replica on a known cluster in the stored status and in memory |
| `NoOrphans.OthersKeep` | internal/replica/controller.go:517-577 | a step of another replica's pass never makes an object this replica's |
| `NoOrphans.NoOrphansEver` | internal/replica/controller.go:627-647 | after every run in scope no object with the replica's labels on an existing cluster is missing from its stored status; out of scope is only a patch lost at the object's own target while another target with that home and an unseen key may follow |
| `NoOrphans.OneKeyInScope` | internal/replica/controller.go:472-487 | a run is in scope as long as every pass has one conflict key at most among the targets that live at the place, whatever patches are lost |
| `NoOrphans.OntoAlwaysInScope` | internal/replica/controller.go:627-632 | for clusters other than the hosting one every run is in scope |
| `NoOrphans.FinalizerGoesLast` | internal/replica/controller.go:703-724 | when a reconcile removes the finalizer no object of the replica is left on an existing cluster |
| `NoOrphans.WriteCoveredExactly` | internal/replica/controller.go:632-644 | a write leaves its object in the stored status if and only if memory did not already hold an entry that is not stored |
| `OrphanExample.LostPatchLeavesOrphan` | internal/replica/controller.go:627-644 | a run from a fresh start, with two Clusters in one namespace, a NextTo target and one lost status patch, that leaves an orphan |
| `OrphanExample.OrphanIsRecorded` | internal/replica/controller.go:683-687 | however that run goes on, until the next pass the orphan is not deleted by its replica, and its entry is stored exactly if a status patch or update of the pass has taken effect since |
| `Conflicts.BooksInEveryRun` | internal/replica/controller.go:464-487 | in every pass of every run a key reaches the sync at most once, a difference is reported under a condition name exactly if two renderings of a key of that name differ, and every rendered key has a condition |
| `Conflicts.DifferencesAreNamed` | internal/replica/utils.go:26-34 | with the condition names the program makes, in every run: among targets that their names identify, a difference is reported for a key exactly if two of its own renderings differ |
| `Conflicts.ConflictsIgnoreOrder` | internal/replica/controller.go:472-487 | which keys are reported different does not depend on the order of the renderings |
| `Protection.RenderedTargetIsSpared` | internal/replica/controller.go:381-688 | a target Onto a Cluster or on the hosting cluster that has been rendered is not deleted until the next pass begins, tracked or not, however its handling ended and whatever comes between; its entry is in memory after the handling exactly if it was before or a status patch was tried, then it stays in memory while the pass runs, and it is stored exactly if it was stored after the handling or a later status patch or update has taken effect |
| `Protection.SyncedCopyIsSpared` | internal/replica/controller.go:683-687 | a synced copy is not deleted until the next pass begins, whatever happens to other Clusters that share it and whatever patches were lost before; it is in memory while the pass runs, and stored exactly if it was stored after the sync or a later status patch or update has taken effect; after the sync it is stored exactly if memory did not hold an entry for it before that was not stored |
| `Protection.RememberedToTheEnd` | internal/replica/controller.go:632-644 | an entry that is in memory and that the plan spares, for a condition of its own or a bad cluster that is not closed later, stays in memory through any interleaving while the pass runs, and is stored exactly if it was or a status patch or update of the pass has taken effect |
| `Protection.GuardedToTheEnd` | internal/replica/controller.go:790-856 | a stored entry that has been synced or reported, or is on a bad cluster that is not closed later, is not deleted and stays stored through any interleaving, at the end of the pass and after a crash |
| `Protection.UndeletedIsLeft` | internal/replica/controller.go:893-926 | if a pass never comes to the deletion of an entry, each of its steps leaves the object there alone or syncs it |
| `Protection.OrderInEveryRun` | internal/replica/controller.go:95-125 | in every run stored lists are well-formed, agendas are what is left of the loops or of the deletion, and during the loops the entries of the old copy are in memory and stored |
| `Protection.ExcusedExactly` | internal/replica/controller.go:825-856 | after the handling of a target the deletion filter passes over a copy exactly if it did before, the copy has been synced, or its condition has the name of the target's key |
| `UnsyncedExample.FailedUpdateDeletes` | internal/replica/controller.go:845-926 | a run in which the failed update of a tracked copy NextTo a Cluster, still wanted, makes the same pass delete it |
| `FailedInputs.FailedInputsChangeNothing` | internal/replica/controller.go:743-746 | a whole pass that could not list the Clusters, or, of a replica not being deleted, not add the finalizer or read a source, changes no object, no namespace and not the stored list, whatever its calls do; only the finalizer may have been added |
| `FailedInputs.FailedInputsLeaveAlone` | internal/replica/controller.go:282-285 | the same over interleaved runs: until the next reconcile of the replica no step of this one changes an object, a namespace or the stored list |
| `FailedInputs.UnfetchedIsLeft` | internal/replica/controller.go:146-177 | a replica that cannot be fetched or is to be ignored is not touched, and neither is anything else |
| `FailedClusters.FailedClusterIsSpared` | internal/replica/controller.go:342-346 | once access to a live cluster has failed, or the listing of its namespaces where it is needed (358-362), no object on it is released or marked by this pass, and no entry on it is lost before the next one, unless the same cluster is closed later (837-841) |
| `FlippedExample.OtherDefinitionFlips` | internal/replica/controller.go:825-841 | a run in which the listing fails for one definition, another definition closes the same Cluster, and the copy of the first is deleted |
| `Conflicts.TargetIsReported` | internal/replica/controller.go:400-688 | every exit of the loop body after a rendering leaves a condition |
| `TakenCopies.KeyAgainstHome` | internal/replica/controller.go:472-487 | conflict key and home of two targets agree unless just one of them is NextTo; then a shared key means different homes |
| `TakenCopies.TakenForCopyExactly` | internal/replica/controller.go:474-485 | of two targets with one key the later is skipped as an identical copy if and only if the texts are equal, and its own home is not the one that was handled if and only if besides just one of the two is NextTo |
| `TakenCopies.OntoIsStarved` | internal/replica/controller.go:464-487 | once a NextTo target has been rendered, no target onto that Cluster with the same identity is written in the rest of the pass, whatever comes between |
| `CopyExample.OntoIsTakenForCopy` | internal/replica/controller.go:472-487 | a run without a failing call after which the copy next to the Cluster exists, the one onto it does not, and its condition says IdenticalCopy and True |
| `Obsolete.PlanIsExact` | internal/replica/controller.go:759-856 | the plan holds exactly the tracked entries that were not synced, are on an existing and healthy cluster, and have no condition of their own; in deletion health does not count |
| `Obsolete.PlanForgetsExactly` | internal/replica/controller.go:809-823 | exactly the entries on vanished clusters that were not synced leave the status |
| `DeletionPhase.DeleteOutcome` | internal/replica/controller.go:876-935 | the object and the entry after one deletion, for every way its calls can end |
| `DeletionPhase.ObsoleteHandles` | internal/replica/controller.go:858-936 | all reachable entries are handled, each with its own outcome, and nothing else changes |
| `DeletionPhase.OrderDoesNotMatter` | internal/replica/controller.go:778-937 | two runs over the same entries in different orders, with the same outcome for every call, end with the same world and, after cleanup and status update, with the same list in memory and in store, entry by entry |
| `DeletionPhase.RunSplit` | internal/replica/controller.go:141-225 | running two agendas after each other is running their concatenation |
| `DeletionTerminates.EntriesNeverIncrease` | internal/replica/controller.go:703-731 | from a state in which a replica is being deleted and no sync of it is under way, its stored entries never increase over any run, whatever fails |
| `DeletionTerminates.LateDeletionBounded` | internal/replica/controller.go:736-942 | from a state in which a replica is being deleted and its pass is past its loops, what is stored, in memory or synced by that pass never grows, taken together, over any run |
| `DeletionExample.DeletedMidPass` | internal/replica/controller.go:198-210 | a run in which the replica is deleted in the middle of a sync and the rest of that sync adds an entry |
| `DeletionTerminates.DeletionPass` | internal/replica/controller.go:876-937 | a quiet pass of a deleting replica keeps exactly the entries whose object it waits for and marks those objects |
| `DeletionTerminates.NamesakeIsDeleted` | internal/replica/controller.go:893-926 | a deleting replica marks a tracked object that another replica owns and that is not kept if and only if the two have one kind and name |
| `DeletionTerminates.FinalizerGoneByThirdPass` | internal/replica/controller.go:198-210 | with marked objects vanishing between passes the status is empty after two quiet passes and the finalizer gone after three |
| `Resolution.ResolvedIsWhatAPassUses` | internal/replica/controller.go:332-379 | the namespaces of a definition on a cluster, as a function of the world, are those a pass works on |
| `Resolution.SelectsTheMatching` | internal/replica/controller.go:357-374 | filtering the listing selects exactly the existing namespaces that match |
| `Resolution.SelectsByLabels` | internal/replica/controller.go:357-374 | a definition that selects by labels works on exactly the existing namespaces whose labels are selected, and on all without any label requirement |
| `Resolution.OpeningOffersTheSame` | internal/replica/controller.go:297-379 | the loops lead to the same choices whether or not they have been entered |
| `Resolution.FirstDependsOnView` | internal/replica/controller.go:297-379 | which definition renders a target first depends on no namespace but the target's own |
| `Resolution.FirstChanges` | internal/replica/controller.go:297-379 | if further namespaces change which definition renders a target first, the target's own namespace is one of them and the definition selects it by labels |
| `QuietLoop.QuietTarget` | internal/replica/controller.go:381-689 | the exact effect of the innermost loop body when its calls succeed |
| `QuietLoop.WorldKeptTarget` | internal/replica/controller.go:503-688 | the loops write only live copies of the replica's own, touch no other object, track what they write, mark nothing and create namespaces only as fresh ones |
| `LoopKeys.OpeningKeepsLater` | internal/replica/controller.go:297-379 | which definition comes first for a target is the same before and after a loop is entered, even with the namespaces of a later world, as long as that world has the same ruling definition as the start |
| `LoopKeys.TargetKeepsKeys` | internal/replica/controller.go:464-487 | every choice possible at the start is done or still ahead, nothing else is reported, the ruling definition of the start is the one that reaches a target if its ruling lasts, and whatever was synced is the home of a reached choice |
| `Settling.LoopRun` | internal/replica/controller.go:517-625 | after the loops, for every target whose ruling lasted, every refusal is final: no policy would create the namespace or take the object over, and an object of the replica at its home has been synced |
| `Steady.JudgedByStart` | internal/replica/controller.go:517-625 | in a pass that starts settled a target is written exactly if its home held an object of the replica or was free and usable at the start |
| `Steady.RunMakesNoNamespace` | internal/replica/controller.go:578-625 | a quiet pass that starts with no ruling definition wanting a namespace creates none |
| `Steady.MirrorRun` | internal/replica/controller.go:297-693 | two passes that start settled with the same homes usable write the same copies in the same order |
| `Convergence.FoldTwice` | internal/replica/controller.go:647-674 | repeating a series of writes to one object, from different renderings, changes nothing |
| `Convergence.NextIsReady` | internal/replica/controller.go:297-700 | after any quiet pass the next one starts settled, unless a kept object of a namesake was in the way |
| `Convergence.NextMakesNone` | internal/replica/controller.go:578-625 | after any quiet pass the next one has no namespace to create |
| `Convergence.NextHasNoKeptNamesake` | internal/replica/controller.go:876-916 | after any quiet pass no kept object of a namesake is in the way of the next one |
| `Convergence.RepeatsIfNoneOvertaken` | internal/replica/controller.go:349-487 | if no copy next to a Cluster has the key of one on it in a namespace that does not exist and would match once created, what a pass syncs is what the next one will want at the same place |
| `Convergence.NothingToDelete` | internal/replica/controller.go:876-916 | nothing that the second of two passes would delete exists any more, if the second wants what the first synced |
| `Convergence.TwoPassesConverge` | internal/replica/controller.go:198-217 | if no copy next to a Cluster can be overtaken by one on it and no kept object of a namesake is in the way, a third quiet pass changes neither world nor stored replica |
| `Convergence.ThreePassesConverge` | internal/replica/controller.go:198-217 | without these conditions a fourth one changes neither |
| `Convergence.LaterPassesChangeNothing` | internal/replica/controller.go:198-217 | neither does any later one |
| `MixedClusters.MixedNeedsThirdPass` | internal/replica/controller.go:464-487 | a replica whose copy next to a Cluster is overtaken by one on it, for which the third pass still removes a status entry |
| `MixedClusters.OnlyMixed` | internal/replica/controller.go:464-487 | that replica meets every other condition of the theorem |
| `KeptNamesakes.KeptNeedsThirdPass` | internal/replica/controller.go:893-914 | a replica that tracks a kept object of a namesake where two Clusters share a copy, for which the third pass still changes the object's labels |
| `KeptNamesakes.OnlyKept` | internal/replica/controller.go:893-914 | that replica meets every other condition of the theorem |
| `Enqueue.KeyIsInjective` | internal/shared/shared.go:51-57 | keys of names without a slash in the namespace are equal only for equal names |
| `Enqueue.SharedInformation.Mark` | internal/shared/shared.go:63-74 | the first critical section tests and sets the mark |
| `Enqueue.SharedInformation.TrySend` | internal/shared/shared.go:76-78 | the non-blocking send appends unless the channel holds 1000 events |
| `Enqueue.SharedInformation.ClearPending` | internal/shared/shared.go:91-98 | exactly the key's mark is removed |
| `Enqueue.SharedInformation.EnqueueReplica` | internal/shared/shared.go:62-86 | alone, a call suppresses a duplicate, sends, or leaves no trace if the channel is full |
| `Enqueue.CallAloneEnqueues` | internal/shared/shared.go:62-86 | the atomic steps of one call, uninterrupted, do what the method does |
| `Enqueue.PendingIsBacked` | internal/shared/shared.go:62-98 | in every reachable state each pending key has an in-flight sender, a channel event, a queued or just-popped item, or a call about to roll back |
| `Enqueue.NoLostWakeUp` | internal/shared/shared.go:62-98 | an enqueue suppressed in any run is followed by the start of a Reconcile of its key, or its wake-up is still on its way, unless the call that set the mark found the channel full |
| `Enqueue.FullChannelLoses` | internal/shared/shared.go:76-86 | a run in which an enqueue is suppressed because of a call that then finds the channel full, so that no trace of its key is left |
| `Enqueue.ComesToRest` | internal/shared/shared.go:62-98 | every internal step uses up bounded work and one is possible until the system is at rest |
| `Enqueue.ExactlyOneToken` | internal/shared/shared.go:47-98 | with reconciles from the channel alone a key is pending exactly if it has a token, never two; the channel holds no key twice; a call finds it full only with more than 1000 keys pending |
| `Enqueue.OtherSourcesDuplicate` | internal/shared/shared.go:88-98 | a run with a reconcile from another source that puts a key into the channel twice |
| `NamespaceEvents.ShortcutAgrees` | internal/replica/controller.go:349-375 | the identities taken without listing, restricted to existing namespaces, are what filtering with Matches selects |
| `NamespaceEvents.ReplicaIsRelevantForNamespaceEvent` | internal/namespace/controller.go:119-150 | the search with early returns answers whether a selector matches the namespace or an entry lives in it on the cluster |
| `NamespaceEvents.RelevantExactly` | internal/namespace/controller.go:119-150 | a replica is not woken exactly if no selector of it answers that the namespace matches and no tracked copy of it lives in that namespace on that cluster |
| `NamespaceEvents.EnqueueMatchingReplicas` | internal/namespace/controller.go:78-113 | exactly the relevant replicas that are not ignored are enqueued, in order, and none if a listing fails |
| `NamespaceEvents.OnlyRelevantAreEnqueued` | internal/namespace/controller.go:105-110 | everything sent is the name of a relevant replica, at most one event for each, and the keys that become pending are those of what is sent |
| `NamespaceEvents.NewlyWantedIsRelevant` | internal/namespace/controller.go:122-134 | a copy that becomes wanted through the event makes its replica relevant |
| `NamespaceEvents.NoLongerWantedIsRelevant` | internal/namespace/controller.go:136-147 | a tracked copy that becomes unwanted through the event makes its replica relevant |
| `NamespaceEvents.WakeUpsAreComplete` | internal/namespace/controller.go:78-150 | after the event such a replica is pending, or the channel holds 1000 events |
| `ConditionNames.TargetNamesEqual` | internal/replica/utils.go:26-34 | equal full names mean the same target, or one cluster-scoped object named like the other with its namespace, and conversely |
| `ConditionNames.TargetConditionIsInjective` | internal/replica/utils.go:26-34 | up to 300 characters, with scope fixed by kind, names determine cluster and resource |
| `ConditionNames.ClusterConditionIsInjective` | internal/replica/utils.go:37-43 | the same for clusters |
| `ConditionNames.KindNameIsInjective` | internal/replica/utils.go:45-47 | kind, version and group can be read back |
| `ConditionNames.ObjectNamesEqual` | internal/replica/utils.go:49-51 | when two namespaced names print alike |
| `ConditionNames.PrefixesSeparate` | internal/replica/controller.go:829-835 | the prefix test tells target, cluster, source and other conditions apart |
| `ConditionNames.FilterSkipsExactlyTheReported` | internal/replica/controller.go:845-856 | the deletion filter skips exactly the resources reported on |
| `ConditionNames.HostingNameCollides` | internal/replica/utils.go:26-31 | without a namespace a Cluster could share the hosting cluster's name |
| `EmbedDocs.InjectLines` | hack/embed-docs/main.go:161-217 | the outer loop computes the rewriting |
| `EmbedDocs.InjectBlock` | hack/embed-docs/main.go:172-214 | one block: its errors in order, and its rewritten lines |
| `EmbedDocs.FindFence` | hack/embed-docs/main.go:186-189 | the old body is skipped to the first closing fence |
| `EmbedDocs.CopyBlanks` | hack/embed-docs/main.go:206-210 | blank lines after the block are copied |
| `EmbedDocs.Trim` | hack/embed-docs/main.go:199 | the result is a prefix that does not end in a newline, and what is cut off are newlines only |
| `EmbedDocs.NewBodyIs` | hack/embed-docs/main.go:193-200 | the new body of a block is the lines of its file up to the last one that is not empty, or one empty line if all are |
| `EmbedDocs.ProblemIs` | hack/embed-docs/main.go:176-213 | a run reports the first thing wrong with a block, in this order: no line after the marker, no opening fence, no closing fence, an unreadable file, no end marker behind the blank lines; and goes past a block if nothing is |
| `EmbedDocs.ProcessFile` | hack/embed-docs/main.go:140-159 | the file is written exactly if it changed and this is not a check |
| `EmbedDocs.SplitJoin` | hack/embed-docs/main.go:145-151 | joining parts and splitting again gives the lines of all parts |
| `EmbedDocs.JoinSplit` | hack/embed-docs/main.go:145-152 | joining the split text gives the text |
| `EmbedDocs.PrintParse` | hack/embed-docs/main.go:161-217 | printing the parsed structure of a document gives its lines |
| `EmbedDocs.ParsePrint` | hack/embed-docs/main.go:161-217 | parsing the printed structure gives the structure |
| `EmbedDocs.InjectIsReplacement` | hack/embed-docs/main.go:161-217 | the scan succeeds if and only if the document parses and its files can be read, and then prints it with the new bodies |
| `EmbedDocs.SecondRunChangesNothing` | hack/embed-docs/main.go:140-158 | if no injected file has a line that is exactly a closing fence, a second run succeeds and changes nothing, markers in the files or not |
| `EmbedDocs.SecondRunExactly` | hack/embed-docs/main.go:140-217 | a second run returns the same text if and only if no injected line is a closing fence, markers in the files or not, and else fails or changes it, making it longer if no injected line is a marker |
| `EmbedDocs.OutsideIsKept` | hack/embed-docs/main.go:161-217 | every line outside of the fenced bodies is kept, in order |
| `EmbedDocs.FenceInFileBreaks` | hack/embed-docs/main.go:186-213 | with a closing fence in an injected file the second run fails |
| `EmbedDocs.FenceAndEndInFileGrow` | hack/embed-docs/main.go:186-213 | with a closing fence and an end marker in an injected file every run adds those lines once more |
| `EmbedDocs.MarkerInFileMoves` | hack/embed-docs/main.go:172-214 | with a closing fence and a marker in an injected file the second run can change the text without making it longer |
| `EmbedDocs.PanicExactly` | hack/embed-docs/main.go:176-181 | the tool indexes past the end if and only if the last line is a marker and the lines before it are in order |

## Left out

- Convergence.TwoPassesConverge: the two conditions beyond those of three passes are sufficient, and each has a counterexample without it; a replica outside of them may still need two passes only. An exact condition would have to say whether the namespace in question is really created in the first pass and whether the copies that change places differ in text or labels, which depends on the rendering, the policies and the owners along the whole pass and not on what is there before it. All convergence results assume that a ClusterReplica renders no owner-namespace label, that namespaced objects live in existing namespaces, that Clusters have references of their own and that a listing names every namespace once.
- NoOrphans.NoOrphansEver: assumes that no status patch is lost at the object's own target while another target of the pass with that home and a key not yet seen may follow, that the environment labels no object as a replica's, and that a Cluster that appears brings no such object along; an object on a Cluster that is gone is not an orphan here.
- Conflicts.DifferencesAreNamed: speaks of targets whose names Kubernetes allows and whose condition names are below the cut; for others `Conflicts.BooksInEveryRun` says what the shared name reports.
- EmbedDocs.SecondRunExactly: for files that hold both a closing fence and an inject marker it says that a second run fails or changes the text, not how.
- Enqueue.NoLostWakeUp: fairness is not modelled; `Enqueue.ComesToRest` says that a wake-up on its way arrives if the system is left to itself.
- Template parsing and execution, YAML and the error texts; rendering is a deterministic function that may fail.
- Condition objects beyond their name, status and kind of reason, the condition for templating errors, the removal of old conditions, phases, events, requeue intervals and the final status updater; that update is one step that stores the list, fails, or does both.
- That a successful patch decodes the server's answer into the replica in memory (internal/replica/controller.go:236 and 637): definitions, input, generation and deletion are those at the start of the pass throughout, while the source may label a copy with a newer generation (496) or delete as in deletion (750) after such a patch.
- Informer caches and optimistic locking: reads are current, passes of one replica do not overlap, and the ownership check and the write of one target are one step.
- The operation annotations except that an ignored replica is left alone; fetching a replica that does not exist ends like a failing fetch.
- The map from cluster to synced objects is one list in the order of the writes, and `conflictDetection` one map with pairs as keys; the loop that tracks synced objects walks that list instead of a map. Since a synced object is already tracked this does not show in the result.
- The filters of deleteObsoleteResources walk the clusters in the order in which they were first met; the deletion itself walks them in any order.
- Label selector and cluster selector semantics, and the shortening of condition names beyond 300 characters: functions of the configuration.
- DeduplicateReplicaEnqueues set to false, the rate limits of the work queue, and Reset in internal/shared/shared.go.
- The predicates that filter watch events, so a namespace that existed before start-up or is deleted sends no event; the handler of Cluster events; command line, flags, file access and output of the documentation tool; the regular expressions of its markers.
