/** The copies that a pass must not delete, through any interleaving. */
module Protection {
  import opened Refs
  import opened StatusList
  import opened Objects
  import opened Targets
  import opened Steps
  import opened System
  import opened Ownership
  import opened Obsolete
  import opened Agenda
  import opened Conflicts

  // ---- Copies that the pass must not delete ----

  ghost predicate Mentions(t: Task, l: Location) {
    || t == Delete(l)
    || (t.OpenBucket? && InBuckets([t.bucket], l))
    || (t.Obsolete? && InBuckets(t.buckets, l))
  }

  ghost predicate Excused(cfg: Config, p: Pass, l: Location) {
    l in p.managed || Reported(cfg, p, l)
  }

  /** Why the plan passes over a copy: it has been synced or reported on, or its cluster's last condition is False. */
  datatype Excuse = OwnOutcome | BadCluster

  ghost predicate Holds(cfg: Config, p: Pass, l: Location, x: Excuse) {
    match x
    case OwnOutcome => Excused(cfg, p, l)
    case BadCluster => Unhealthy(cfg, p, l.cluster)
  }

  /** The task reports under the cluster's condition name that all is well. */
  ghost predicate Revives(cfg: Config, t: Task, c: ObjectReference) {
    t.CloseCluster? && cfg.clusterCondition(OwnRef(t.cluster)) == cfg.clusterCondition(c)
  }

  /** No task deletes l, and while the plan is still to be made, l has an excuse. */
  ghost predicate Spared(cfg: Config, p: Pass, agenda: seq<Task>, l: Location, x: Excuse) {
    && (forall t :: t in agenda ==> !Mentions(t, l))
    && (Plan in agenda ==> Holds(cfg, p, l, x))
  }

  /** A step adds to what a pass has synced and reported. */
  ghost predicate Grows(p: Pass, p': Pass) {
    p.managed <= p'.managed && p.conditions <= p'.conditions
  }

  lemma ExcusedStays(cfg: Config, p: Pass, p': Pass, l: Location)
    requires Excused(cfg, p, l) && Grows(p, p')
    ensures Excused(cfg, p', l)
  {
    if Reported(cfg, p, l) {
      ReportedStays(cfg, p, p', l);
    } else {
      var i :| 0 <= i < |p.managed| && p.managed[i] == l;
      assert p'.managed[i] == l;
    }
  }

  lemma WriteGrows(cfg: Config, fate: Fate, key: Location, at: Location, rendered: Object, s: State)
    ensures Grows(s.pass, Write(cfg, fate, key, at, rendered, s).pass)
  {
    WriteReports(cfg, fate, key, at, rendered, s);
    hide Write;
  }

  lemma SyncTargetGrows(cfg: Config, fate: Fate, def: TargetDefinition, cluster: Option<Cluster>, ref: TypedRef, rendered: Object, s: State)
    ensures Grows(s.pass, SyncTarget(cfg, fate, def, cluster, ref, rendered, s).pass)
  {
    var made := s.(world := CreateNamespace(cfg, HomeRef(def, cluster), ref.namespace, s.world));
    SyncTargetCases(cfg, fate, def, cluster, ref, rendered, s);
    hide SyncTarget, Write, CreateNamespace, HomeRef;
    WriteGrows(cfg, fate, Key(cluster, ref), Location(HomeRef(def, cluster), ref), rendered, s);
    WriteGrows(cfg, fate, Key(cluster, ref), Location(HomeRef(def, cluster), ref), rendered, made);
  }

  lemma HandleTargetGrows(cfg: Config, fate: Fate, def: TargetDefinition, cluster: Option<Cluster>, namespace: string, s: State)
    ensures Grows(s.pass, HandleTarget(cfg, fate, def, cluster, namespace, s).pass)
  {
    hide Render, SyncTarget;
    match Render(cfg, s.pass.input, cluster, namespace)
    case TemplateFailed =>
    case MarshalFailed(ref) =>
    case Rendered(raw, ref, rendered) =>
      var key := Key(cluster, ref);
      var q := s.pass.(renderings := s.pass.renderings + [(key, raw)], seen := s.pass.seen[key := raw], reached := s.pass.reached + [key]);
      SyncTargetGrows(cfg, fate, def, cluster, ref, Copy(cfg, s.pass, rendered), s.(pass := q));
  }

  lemma DeleteGrows(cfg: Config, fate: Fate, l: Location, s: State)
    ensures Grows(s.pass, DeleteObsolete(cfg, fate, l, s).pass)
  {
    DeleteCases(cfg, fate, l, s);
    hide DeleteObsolete, IsManaged, Kept, Released, RemovedAt;
  }

  lemma StepGrows(cfg: Config, fate: Fate, t: Task, s: State)
    ensures Grows(s.pass, Step(cfg, fate, t, s).0.pass)
  {
    hide HandleTarget, DeleteObsolete;
    match t
    case Target(def, cluster, namespace) => HandleTargetGrows(cfg, fate, def, cluster, namespace, s);
    case OpenBucket(b) => ReportAllKeeps(cfg, b, |b.refs|, s);
    case Delete(l) => DeleteGrows(cfg, fate, l, s);
    case _ =>
  }

  /** All that a step reports on clusters is bad, unless it closes one. */
  ghost predicate AddsNoGood(p: Pass, p': Pass) {
    && p'.inDeletion == p.inDeletion && p.conditions <= p'.conditions
    && forall i :: |p.conditions| <= i < |p'.conditions| ==> !(p'.conditions[i].ClusterCondition? && p'.conditions[i].ok)
  }

  lemma ReportAllNoGood(cfg: Config, b: Bucket, n: nat, s: State)
    requires n <= |b.refs|
    ensures AddsNoGood(s.pass, ReportAll(cfg, b, n, s).pass)
  {}

  lemma TargetAddsNoGood(cfg: Config, fate: Fate, def: TargetDefinition, cluster: Option<Cluster>, namespace: string, s: State)
    ensures AddsNoGood(s.pass, HandleTarget(cfg, fate, def, cluster, namespace, s).pass)
  {
    TargetKeepsRequest(cfg, fate, def, cluster, namespace, s);
    if !Render(cfg, s.pass.input, cluster, namespace).TemplateFailed? {
      TargetReportsOnce(cfg, fate, def, cluster, namespace, s);
      hide HandleTarget, Render;
    } else {
      hide Render;
    }
  }

  lemma WriteKeepsRequest(cfg: Config, fate: Fate, key: Location, at: Location, rendered: Object, s: State)
    ensures Write(cfg, fate, key, at, rendered, s).pass.inDeletion == s.pass.inDeletion
  {
    hide HasAt, AddedAt, CreatedOrUpdated, Patched;
  }

  lemma TargetKeepsRequest(cfg: Config, fate: Fate, def: TargetDefinition, cluster: Option<Cluster>, namespace: string, s: State)
    ensures HandleTarget(cfg, fate, def, cluster, namespace, s).pass.inDeletion == s.pass.inDeletion
  {
    hide Render, SyncTarget;
    match Render(cfg, s.pass.input, cluster, namespace)
    case TemplateFailed =>
    case MarshalFailed(_) =>
    case Rendered(raw, ref, rendered) =>
      var key, at := Key(cluster, ref), Location(HomeRef(def, cluster), ref);
      var q := s.(pass := s.pass.(renderings := s.pass.renderings + [(key, raw)], seen := s.pass.seen[key := raw], reached := s.pass.reached + [key]));
      SyncTargetCases(cfg, fate, def, cluster, ref, Copy(cfg, s.pass, rendered), q);
      hide Write, CreateNamespace, HomeRef;
      WriteKeepsRequest(cfg, fate, key, at, Copy(cfg, s.pass, rendered), q);
      WriteKeepsRequest(cfg, fate, key, at, Copy(cfg, s.pass, rendered), q.(world := CreateNamespace(cfg, HomeRef(def, cluster), ref.namespace, q.world)));
  }

  lemma StepAddsNoGood(cfg: Config, fate: Fate, t: Task, s: State)
    requires !t.CloseCluster?
    ensures AddsNoGood(s.pass, Step(cfg, fate, t, s).0.pass)
  {
    hide HandleTarget, DeleteObsolete;
    match t
    case Target(def, cluster, namespace) => TargetAddsNoGood(cfg, fate, def, cluster, namespace, s);
    case OpenBucket(b) => ReportAllNoGood(cfg, b, |b.refs|, s);
    case Delete(l) => DeleteAddsNoGood(cfg, fate, l, s);
    case _ =>
  }

  lemma DeleteAddsNoGood(cfg: Config, fate: Fate, l: Location, s: State)
    ensures AddsNoGood(s.pass, DeleteObsolete(cfg, fate, l, s).pass)
  {
    DeleteCases(cfg, fate, l, s);
    hide DeleteObsolete, IsManaged, Kept, Released, RemovedAt;
  }

  /** What was bad last is so still if only bad news or news of others have been added. */
  lemma {:induction false} StillLast(front: seq<Condition>, conditions: seq<Condition>, name: string)
    requires front <= conditions && LastClusterCondition(front, name) == Some(false)
    requires forall i :: |front| <= i < |conditions| ==> !(conditions[i].ClusterCondition? && conditions[i].ok && conditions[i].name == name)
    ensures LastClusterCondition(conditions, name) == Some(false)
    decreases |conditions|
  {
    if |front| == |conditions| {
      assert front == conditions;
    } else {
      StillLast(front, conditions[..|conditions| - 1], name);
    }
  }

  lemma StaysUnhealthy(cfg: Config, fate: Fate, t: Task, s: State, c: ObjectReference)
    requires Unhealthy(cfg, s.pass, c) && !Revives(cfg, t, c)
    ensures Unhealthy(cfg, Step(cfg, fate, t, s).0.pass, c)
  {
    var s' := Step(cfg, fate, t, s).0;
    if t.CloseCluster? {
      StillLast(s.pass.conditions, s'.pass.conditions, cfg.clusterCondition(c));
    } else {
      StepAddsNoGood(cfg, fate, t, s);
      hide Step, LastClusterCondition;
      StillLast(s.pass.conditions, s'.pass.conditions, cfg.clusterCondition(c));
    }
  }

  lemma HoldsStill(cfg: Config, fate: Fate, t: Task, s: State, l: Location, x: Excuse)
    requires Holds(cfg, s.pass, l, x) && (x.BadCluster? ==> !Revives(cfg, t, l.cluster))
    ensures Holds(cfg, Ticked(Step(cfg, fate, t, s).0).pass, l, x)
  {
    var s' := Step(cfg, fate, t, s).0;
    if x.BadCluster? {
      StaysUnhealthy(cfg, fate, t, s, l.cluster);
      hide Step;
    } else {
      StepGrows(cfg, fate, t, s);
      hide Step;
      ExcusedStays(cfg, s.pass, s'.pass, l);
      ExcusedStays(cfg, s'.pass, Ticked(s').pass, l);
    }
  }

  /** What a step adds to the agenda mentions l only if the step itself did, or the plan found l obsolete. */
  lemma StepMentions(cfg: Config, fate: Fate, t: Task, s: State, l: Location, x: Excuse)
    requires WellFormed(s.pass.status) && !Mentions(t, l) && (t.Plan? ==> Holds(cfg, s.pass, l, x))
    ensures forall u :: u in Step(cfg, fate, t, s).1 ==> !Mentions(u, l) && !u.Plan?
  {
    match t
    case Definition(def) => OpenTasksAre(def, MatchedClusters(cfg, def, s.pass.clusters));
    case OpenCluster(def, cluster) =>
      var more := ResolveNamespaces(cfg, fate, def, cluster, s).1;
      if more != [] {
        var ns :| more == ClusterTasks(def, cluster, ns);
        ClusterTasksAre(def, cluster, ns);
      }
    case Plan => PlanIsExact(cfg, s.pass, l);
    case OpenBucket(b) => DeleteTasksAre(b.cluster, b.refs);
    case _ =>
  }

  /** A spared copy stays spared, and the step neither deletes it nor drops its entry. */
  lemma StepSpares(cfg: Config, fate: Fate, agenda: seq<Task>, s: State, l: Location, x: Excuse)
    requires agenda != [] && Spared(cfg, s.pass, agenda, l, x) && WellFormed(s.pass.status) && !Vanished(s.pass, l.cluster)
    requires x.BadCluster? ==> !Revives(cfg, agenda[0], l.cluster)
    ensures var (s', agenda') := AdvanceState(cfg, fate, agenda, s); Spared(cfg, s'.pass, agenda', l, x)
    ensures agenda[0] != Delete(l)
  {
    var t, rest := agenda[0], agenda[1..];
    assert t in agenda && forall u :: u in rest ==> u in agenda;
    var (s', more) := Step(cfg, fate, t, s);
    StepMentions(cfg, fate, t, s, l, x);
    hide Step, Mentions, WellFormed, Holds, Revives;
    if Plan in more + rest {
      HoldsStill(cfg, fate, t, s, l, x);
    }
  }

  // ---- The same over the rest of a pass, with anything in between ----

  lemma CreateOrUpdateTracks(cfg: Config, fate: Fate, key: Location, at: Location, rendered: Object, s: State)
    ensures var s' := CreateOrUpdate(cfg, fate, key, at, rendered, s);
            && s'.pass.status == s.pass.status && s'.pass.oldStatus == s.pass.oldStatus && s'.persisted == s.persisted
            && s'.pass.clusters == s.pass.clusters && (s'.pass.managed == s.pass.managed || s'.pass.managed == s.pass.managed + [at])
  {
    hide CreatedOrUpdated;
  }

  lemma WriteTracks(cfg: Config, fate: Fate, key: Location, at: Location, rendered: Object, s: State)
    requires WellFormed(s.pass.status)
    ensures var s' := Write(cfg, fate, key, at, rendered, s);
            && WellFormed(s'.pass.status) && Tracked(s'.pass.status) == Tracked(s.pass.status) + {at}
            && s'.pass.clusters == s.pass.clusters && (s'.pass.managed == s.pass.managed || s'.pass.managed == s.pass.managed + [at])
  {
    RawRefinesSet(s.pass.status, at);
    hide Tracked, WellFormed, HasAt, AddedAt, CreateOrUpdate, Patched;
    var status := AddedAt(s.pass.status, at);
    if HasAt(s.pass.status, at) {
      CreateOrUpdateTracks(cfg, fate, key, at, rendered, s);
    } else if fate.patch.Ok? {
      CreateOrUpdateTracks(cfg, fate, key, at, rendered,
        s.(persisted := Patched(s.persisted, s.pass.oldStatus, status), pass := s.pass.(status := status, oldStatus := status)));
    }
  }

  /** A sync adds at most its own entry, and what it syncs is tracked. */
  lemma SyncTargetTracks(cfg: Config, fate: Fate, def: TargetDefinition, cluster: Option<Cluster>, ref: TypedRef, rendered: Object, s: State)
    requires WellFormed(s.pass.status)
    ensures var s' := SyncTarget(cfg, fate, def, cluster, ref, rendered, s);
            var at := Location(HomeRef(def, cluster), ref);
            && WellFormed(s'.pass.status)
            && (|| (Tracked(s'.pass.status) == Tracked(s.pass.status) && s'.pass.managed == s.pass.managed)
                || (Tracked(s'.pass.status) == Tracked(s.pass.status) + {at} && (s'.pass.managed == s.pass.managed || s'.pass.managed == s.pass.managed + [at])))
            && s'.pass.clusters == s.pass.clusters
  {
    var at := Location(HomeRef(def, cluster), ref);
    var made := s.(world := CreateNamespace(cfg, HomeRef(def, cluster), ref.namespace, s.world));
    SyncTargetCases(cfg, fate, def, cluster, ref, rendered, s);
    hide SyncTarget, Write, CreateNamespace, HomeRef, Tracked, WellFormed;
    WriteTracks(cfg, fate, Key(cluster, ref), at, rendered, s);
    WriteTracks(cfg, fate, Key(cluster, ref), at, rendered, made);
  }

  lemma HandleTargetTracks(cfg: Config, fate: Fate, def: TargetDefinition, cluster: Option<Cluster>, namespace: string, s: State)
    requires WellFormed(s.pass.status)
    ensures var s' := HandleTarget(cfg, fate, def, cluster, namespace, s);
            WellFormed(s'.pass.status) && s'.pass.clusters == s.pass.clusters && Tracked(s.pass.status) <= Tracked(s'.pass.status)
  {
    hide Tracked, WellFormed, Render, SyncTarget;
    match Render(cfg, s.pass.input, cluster, namespace)
    case TemplateFailed =>
    case MarshalFailed(ref) =>
    case Rendered(raw, ref, rendered) =>
      var key := Key(cluster, ref);
      var q := s.pass.(renderings := s.pass.renderings + [(key, raw)], seen := s.pass.seen[key := raw], reached := s.pass.reached + [key]);
      SyncTargetTracks(cfg, fate, def, cluster, ref, Copy(cfg, s.pass, rendered), s.(pass := q));
  }

  /** All that the handling of a target puts into memory is its own entry. */
  lemma TargetRemembers(cfg: Config, fate: Fate, def: TargetDefinition, cluster: Option<Cluster>, namespace: string, s: State)
    requires WellFormed(s.pass.status) && !Render(cfg, s.pass.input, cluster, namespace).TemplateFailed?
    ensures var s' := HandleTarget(cfg, fate, def, cluster, namespace, s);
            var at := Location(HomeRef(def, cluster), Render(cfg, s.pass.input, cluster, namespace).ref);
            at in Tracked(s'.pass.status) <==> at in Tracked(s.pass.status) || s'.pass.status != s.pass.status
  {
    hide Tracked, WellFormed, Render, SyncTarget;
    match Render(cfg, s.pass.input, cluster, namespace)
    case MarshalFailed(_) =>
    case Rendered(raw, ref, rendered) =>
      var key := Key(cluster, ref);
      var q := s.pass.(renderings := s.pass.renderings + [(key, raw)], seen := s.pass.seen[key := raw], reached := s.pass.reached + [key]);
      SyncTargetRemembers(cfg, fate, def, cluster, ref, Copy(cfg, s.pass, rendered), s.(pass := q));
  }

  lemma SyncTargetRemembers(cfg: Config, fate: Fate, def: TargetDefinition, cluster: Option<Cluster>, ref: TypedRef, rendered: Object, s: State)
    requires WellFormed(s.pass.status)
    ensures var s' := SyncTarget(cfg, fate, def, cluster, ref, rendered, s);
            var at := Location(HomeRef(def, cluster), ref);
            at in Tracked(s'.pass.status) <==> at in Tracked(s.pass.status) || s'.pass.status != s.pass.status
  {
    var at := Location(HomeRef(def, cluster), ref);
    var made := s.(world := CreateNamespace(cfg, HomeRef(def, cluster), ref.namespace, s.world));
    SyncTargetCases(cfg, fate, def, cluster, ref, rendered, s);
    hide SyncTarget, Write, CreateNamespace, HomeRef, Tracked, WellFormed;
    WriteRemembers(cfg, fate, Key(cluster, ref), at, rendered, s);
    WriteRemembers(cfg, fate, Key(cluster, ref), at, rendered, made);
  }

  lemma WriteRemembers(cfg: Config, fate: Fate, key: Location, at: Location, rendered: Object, s: State)
    requires WellFormed(s.pass.status)
    ensures var s' := Write(cfg, fate, key, at, rendered, s);
            at in Tracked(s'.pass.status) && (at in Tracked(s.pass.status) ==> s'.pass.status == s.pass.status)
            && (at !in Tracked(s.pass.status) ==> s'.pass.status != s.pass.status)
  {
    RawRefinesSet(s.pass.status, at);
    WriteTracks(cfg, fate, key, at, rendered, s);
    hide Tracked, WellFormed, HasAt, AddedAt, CreateOrUpdate, Patched;
    if HasAt(s.pass.status, at) {
      CreateOrUpdateTracks(cfg, fate, key, at, rendered, s);
    }
  }

  lemma DeleteTracks(cfg: Config, fate: Fate, at: Location, s: State)
    requires WellFormed(s.pass.status)
    ensures var s' := DeleteObsolete(cfg, fate, at, s);
            && WellFormed(s'.pass.status) && s'.pass.clusters == s.pass.clusters
            && Tracked(s.pass.status) - {at} <= Tracked(s'.pass.status)
  {
    RawRefinesSet(s.pass.status, at);
    DeleteCases(cfg, fate, at, s);
    hide DeleteObsolete, Tracked, WellFormed, IsManaged, Kept, Released, RemovedAt;
  }

  /** Only its own deletion or its cluster's disappearance takes an entry out of the status in memory. */
  lemma EntriesStay(cfg: Config, fate: Fate, t: Task, s: State)
    requires WellFormed(s.pass.status)
    ensures var s' := Step(cfg, fate, t, s).0;
            && WellFormed(s'.pass.status) && s'.pass.clusters == s.pass.clusters
            && forall l :: l in Tracked(s.pass.status) && t != Delete(l) && !(t.Plan? && Vanished(s.pass, l.cluster)) ==> l in Tracked(s'.pass.status)
  {
    hide Tracked, WellFormed, Vanished, HandleTarget, DeleteObsolete;
    match t
    case Target(def, cluster, namespace) => HandleTargetTracks(cfg, fate, def, cluster, namespace, s);
    case Plan => PlanForgetsExactly(cfg, s);
    case OpenBucket(b) => ReportAllKeeps(cfg, b, |b.refs|, s);
    case Delete(at) => DeleteTracks(cfg, fate, at, s);
    case Cleanup =>
      CleanupKeepsTracked(s.pass.status);
      TrackAllTracked(s.pass.managed, Cleaned(s.pass.status));
    case _ =>
  }

  /** The task sends the status in memory, and that takes effect. */
  ghost predicate Sends(fate: Fate, t: Task, s: State, s': State) {
    !fate.patch.Lost? && (t.UpdateStatus? || (t.Target? && s'.pass.status != s.pass.status))
  }

  /** What is stored changes only when the status is sent, and the old copy only to what is stored. */
  ghost predicate StoresMemory(sent: bool, s: State, s': State) {
    && s'.persisted == (if sent then Patched(s.persisted, s.pass.oldStatus, s'.pass.status) else s.persisted)
    && (s'.pass.oldStatus == s.pass.oldStatus || (s'.pass.oldStatus == s'.pass.status && s'.persisted == s'.pass.status))
  }

  lemma AddedDiffers(status: seq<Group>, at: Location)
    requires !HasAt(status, at)
    ensures AddedAt(status, at) != status
  {
    var i := TypeIndex(status, at.ref.gvk);
    if i < |status| {
      assert |AddedAt(status, at)[i].resources| == |status[i].resources| + 1;
    }
  }

  lemma WriteStores(cfg: Config, fate: Fate, key: Location, at: Location, rendered: Object, s: State)
    ensures var s' := Write(cfg, fate, key, at, rendered, s); StoresMemory(!fate.patch.Lost? && s'.pass.status != s.pass.status, s, s')
  {
    hide HasAt, AddedAt, CreateOrUpdate;
    var status := AddedAt(s.pass.status, at);
    CreateOrUpdateTracks(cfg, fate, key, at, rendered, s);
    CreateOrUpdateTracks(cfg, fate, key, at, rendered,
      s.(persisted := Patched(s.persisted, s.pass.oldStatus, status), pass := s.pass.(status := status, oldStatus := status)));
    if !HasAt(s.pass.status, at) {
      AddedDiffers(s.pass.status, at);
    }
  }

  lemma SyncTargetStores(cfg: Config, fate: Fate, def: TargetDefinition, cluster: Option<Cluster>, ref: TypedRef, rendered: Object, s: State)
    ensures var s' := SyncTarget(cfg, fate, def, cluster, ref, rendered, s);
            StoresMemory(!fate.patch.Lost? && s'.pass.status != s.pass.status, s, s')
  {
    var made := s.(world := CreateNamespace(cfg, HomeRef(def, cluster), ref.namespace, s.world));
    SyncTargetCases(cfg, fate, def, cluster, ref, rendered, s);
    hide SyncTarget, Write, CreateNamespace, HomeRef, Patched;
    WriteStores(cfg, fate, Key(cluster, ref), Location(HomeRef(def, cluster), ref), rendered, s);
    WriteStores(cfg, fate, Key(cluster, ref), Location(HomeRef(def, cluster), ref), rendered, made);
  }

  lemma HandleTargetStores(cfg: Config, fate: Fate, def: TargetDefinition, cluster: Option<Cluster>, namespace: string, s: State)
    ensures var s' := HandleTarget(cfg, fate, def, cluster, namespace, s);
            StoresMemory(!fate.patch.Lost? && s'.pass.status != s.pass.status, s, s')
  {
    hide Render, SyncTarget, Patched;
    match Render(cfg, s.pass.input, cluster, namespace)
    case TemplateFailed =>
    case MarshalFailed(_) =>
    case Rendered(raw, ref, rendered) =>
      var key := Key(cluster, ref);
      var q := s.pass.(renderings := s.pass.renderings + [(key, raw)], seen := s.pass.seen[key := raw], reached := s.pass.reached + [key]);
      SyncTargetStores(cfg, fate, def, cluster, ref, Copy(cfg, s.pass, rendered), s.(pass := q));
  }

  lemma StepStores(cfg: Config, fate: Fate, t: Task, s: State)
    ensures var s' := Step(cfg, fate, t, s).0; StoresMemory(Sends(fate, t, s, s'), s, s')
  {
    hide HandleTarget, DeleteObsolete, Forget, BucketsFor, Patched;
    match t
    case Target(def, cluster, namespace) => HandleTargetStores(cfg, fate, def, cluster, namespace, s);
    case OpenBucket(b) => ReportAllKeeps(cfg, b, |b.refs|, s);
    case Delete(l) => DeleteCases(cfg, fate, l, s);
    case _ =>
  }

  /** If a pass of id runs, it will not delete l. */
  ghost predicate Unharmed(cfg: Config, sys: System, id: ReplicaId, l: Location, x: Excuse) {
    id in sys.replicas && sys.replicas[id].running.Some? ==>
      var p := sys.replicas[id].running.value.pass;
      Spared(cfg, p, sys.replicas[id].running.value.agenda, l, x) && WellFormed(p.status) && !Vanished(p, l.cluster)
  }

  /** If a pass of id runs, the entry is in memory, and in the old copy only if it is stored. */
  ghost predicate Remembered(sys: System, id: ReplicaId, l: Location) {
    id in sys.replicas && sys.replicas[id].running.Some? ==>
      var p := sys.replicas[id].running.value.pass;
      l in Tracked(p.status) && (l in Tracked(p.oldStatus) ==> l in Tracked(sys.replicas[id].persisted))
  }

  /** The entry is stored and in memory, and if a pass of id runs it will not delete l. */
  ghost predicate Guarded(cfg: Config, sys: System, id: ReplicaId, l: Location, x: Excuse) {
    && Unharmed(cfg, sys, id, l, x)
    && Remembered(sys, id, l)
    && (id in sys.replicas ==> l in Tracked(sys.replicas[id].persisted))
  }

  ghost predicate Deletes(sys: System, e: Event, id: ReplicaId, l: Location) {
    && e.Advance? && e.id == id
    && id in sys.replicas && sys.replicas[id].running.Some?
    && sys.replicas[id].running.value.agenda != [] && sys.replicas[id].running.value.agenda[0] == Delete(l)
  }

  /** A new pass of id, or a new replica of its name. */
  predicate Begins(e: Event, id: ReplicaId) {
    (e.Reconcile? || e.CreateReplica?) && e.id == id
  }

  /** A status patch or the final status update of id's pass that takes effect. */
  ghost predicate Patches(cfg: Config, sys: System, e: Event, id: ReplicaId)
    requires Enabled(cfg, sys, e)
  {
    && e.Advance? && e.id == id
    && var t, s := sys.replicas[id].running.value.agenda[0], StateOf(sys, id);
    && Sends(e.fate, t, s, Step(cfg, e.fate, t, s).0)
  }

  /** id's pass reports that all is well under the name of c's condition. */
  ghost predicate Closes(cfg: Config, sys: System, e: Event, id: ReplicaId, c: ObjectReference)
    requires Enabled(cfg, sys, e)
  {
    e.Advance? && e.id == id && Revives(cfg, sys.replicas[id].running.value.agenda[0], c)
  }

  lemma UnharmedEvent(cfg: Config, sys: System, e: Event, id: ReplicaId, l: Location, x: Excuse)
    requires Enabled(cfg, sys, e) && Unharmed(cfg, sys, id, l, x) && !Begins(e, id)
    requires x.BadCluster? ==> !Closes(cfg, sys, e, id, l.cluster)
    ensures Unharmed(cfg, Next(cfg, sys, e), id, l, x)
    ensures !Deletes(sys, e, id, l)
  {
    if e.Advance? && e.id == id {
      var agenda := sys.replicas[id].running.value.agenda;
      var t, s := agenda[0], StateOf(sys, id);
      var s' := Step(cfg, e.fate, t, s).0;
      hide Tracked, WellFormed, Spared, Vanished, Step, Revives;
      StepSpares(cfg, e.fate, agenda, s, l, x);
      EntriesStay(cfg, e.fate, t, s);
      SameVanished(s.pass, s'.pass, l.cluster);
      SameVanished(s'.pass, Ticked(s').pass, l.cluster);
    } else {
      hide Tracked, WellFormed, Spared, Vanished, Step, Start;
    }
  }

  lemma RememberedStep(sent: bool, s: State, s': State, l: Location)
    requires StoresMemory(sent, s, s') && l in Tracked(s'.pass.status)
    requires l in Tracked(s.pass.oldStatus) ==> l in Tracked(s.persisted)
    ensures l in Tracked(s'.pass.oldStatus) ==> l in Tracked(s'.persisted)
    ensures l in Tracked(s'.persisted) <==> l in Tracked(s.persisted) || sent
  {
    hide Tracked;
  }

  /** An entry that is in memory is stored after an event exactly if it was stored before or the event sends the status. */
  lemma RememberedEvent(cfg: Config, sys: System, e: Event, id: ReplicaId, l: Location, x: Excuse)
    requires Enabled(cfg, sys, e) && Unharmed(cfg, sys, id, l, x) && Remembered(sys, id, l) && !Begins(e, id)
    requires x.BadCluster? ==> !Closes(cfg, sys, e, id, l.cluster)
    ensures var sys' := Next(cfg, sys, e);
            && Remembered(sys', id, l)
            && (id in sys'.replicas ==>
                  && id in sys.replicas
                  && (l in Tracked(sys'.replicas[id].persisted) <==> l in Tracked(sys.replicas[id].persisted) || Patches(cfg, sys, e, id)))
  {
    if e.Advance? && e.id == id {
      var t, s := sys.replicas[id].running.value.agenda[0], StateOf(sys, id);
      var s' := Step(cfg, e.fate, t, s).0;
      UnharmedEvent(cfg, sys, e, id, l, x);
      hide Tracked, WellFormed, Spared, Vanished, Step, Sends, StoresMemory, Closes;
      EntriesStay(cfg, e.fate, t, s);
      StepStores(cfg, e.fate, t, s);
      RememberedStep(Sends(e.fate, t, s, s'), s, s', l);
    } else {
      hide Tracked, WellFormed, Spared, Vanished, Step, Start;
    }
  }

  lemma SameVanished(p: Pass, q: Pass, c: ObjectReference)
    requires p.clusters == q.clusters
    ensures Vanished(p, c) == Vanished(q, c)
  {}

  ghost predicate NeverDeletes(cfg: Config, sys: System, events: seq<Event>, id: ReplicaId, l: Location)
    requires CanHappen(cfg, sys, events)
    decreases |events|
  {
    events == [] || (!Deletes(sys, events[0], id, l) && NeverDeletes(cfg, Next(cfg, sys, events[0]), events[1..], id, l))
  }

  ghost predicate NoNewPass(events: seq<Event>, id: ReplicaId) {
    forall e :: e in events ==> !Begins(e, id)
  }

  ghost predicate NeverCloses(cfg: Config, sys: System, events: seq<Event>, id: ReplicaId, c: ObjectReference)
    requires CanHappen(cfg, sys, events)
    decreases |events|
  {
    events == [] || (!Closes(cfg, sys, events[0], id, c) && NeverCloses(cfg, Next(cfg, sys, events[0]), events[1..], id, c))
  }

  /** Whether it ends or stops, and whatever other replicas and the environment do, a pass deletes no copy that it spares. */
  lemma {:induction false} UnharmedToTheEnd(cfg: Config, sys: System, events: seq<Event>, id: ReplicaId, l: Location, x: Excuse)
    requires CanHappen(cfg, sys, events) && NoNewPass(events, id) && Unharmed(cfg, sys, id, l, x)
    requires x.BadCluster? ==> NeverCloses(cfg, sys, events, id, l.cluster)
    ensures NeverDeletes(cfg, sys, events, id, l) && Unharmed(cfg, After(cfg, sys, events), id, l, x)
    decreases |events|
  {
    if events != [] {
      UnharmedEvent(cfg, sys, events[0], id, l, x);
      hide Unharmed, Deletes, Enabled, Closes;
      UnharmedToTheEnd(cfg, Next(cfg, sys, events[0]), events[1..], id, l, x);
    }
  }

  /** Some status patch or status update of id takes effect. */
  ghost predicate HasPatched(cfg: Config, sys: System, events: seq<Event>, id: ReplicaId)
    requires CanHappen(cfg, sys, events)
    decreases |events|
  {
    events != [] && (Patches(cfg, sys, events[0], id) || HasPatched(cfg, Next(cfg, sys, events[0]), events[1..], id))
  }

  /** In memory to the end of the pass, and stored exactly if it was stored before or the status has been sent since. */
  ghost predicate OnRecord(cfg: Config, sys: System, events: seq<Event>, id: ReplicaId, l: Location)
    requires CanHappen(cfg, sys, events)
  {
    var sys' := After(cfg, sys, events);
    id in sys'.replicas ==>
      && id in sys.replicas
      && (sys'.replicas[id].running.Some? ==> l in Tracked(sys'.replicas[id].running.value.pass.status))
      && (l in Tracked(sys'.replicas[id].persisted) <==> l in Tracked(sys.replicas[id].persisted) || HasPatched(cfg, sys, events, id))
  }

  /** A spared entry that is in memory stays on record. */
  lemma {:induction false} RememberedToTheEnd(cfg: Config, sys: System, events: seq<Event>, id: ReplicaId, l: Location, x: Excuse)
    requires CanHappen(cfg, sys, events) && NoNewPass(events, id) && Unharmed(cfg, sys, id, l, x) && Remembered(sys, id, l)
    requires x.BadCluster? ==> NeverCloses(cfg, sys, events, id, l.cluster)
    ensures Remembered(After(cfg, sys, events), id, l) && OnRecord(cfg, sys, events, id, l)
    decreases |events|
  {
    if events != [] {
      UnharmedEvent(cfg, sys, events[0], id, l, x);
      RememberedEvent(cfg, sys, events[0], id, l, x);
      RememberedToTheEnd(cfg, Next(cfg, sys, events[0]), events[1..], id, l, x);
      hide Unharmed, Remembered, Patches, Enabled, Tracked, Closes;
    }
  }

  /** Through the rest of the pass and until the next one begins, whether it ends or stops, and whatever other replicas and the environment
      do, a guarded copy is not deleted and its entry stays stored. */
  lemma GuardedToTheEnd(cfg: Config, sys: System, events: seq<Event>, id: ReplicaId, l: Location, x: Excuse)
    requires CanHappen(cfg, sys, events) && NoNewPass(events, id) && Guarded(cfg, sys, id, l, x)
    requires x.BadCluster? ==> NeverCloses(cfg, sys, events, id, l.cluster)
    ensures NeverDeletes(cfg, sys, events, id, l) && Guarded(cfg, After(cfg, sys, events), id, l, x)
  {
    hide Unharmed, Remembered, HasPatched, Tracked, NeverCloses;
    UnharmedToTheEnd(cfg, sys, events, id, l, x);
    RememberedToTheEnd(cfg, sys, events, id, l, x);
  }

  /** No task of id's pass but a target changes the object at l. */
  ghost predicate LeavesObject(cfg: Config, sys: System, events: seq<Event>, id: ReplicaId, l: Location)
    requires CanHappen(cfg, sys, events)
    decreases |events|
  {
    events == [] ||
      var e, sys' := events[0], Next(cfg, sys, events[0]);
      && (e.Advance? && e.id == id && !sys.replicas[id].running.value.agenda[0].Target? ==>
            Lookup(sys'.world.objects, l) == Lookup(sys.world.objects, l))
      && LeavesObject(cfg, sys', events[1..], id, l)
  }

  /** An object whose deletion a pass never comes to is neither released nor marked by it. */
  lemma {:induction false} UndeletedIsLeft(cfg: Config, sys: System, events: seq<Event>, id: ReplicaId, l: Location)
    requires CanHappen(cfg, sys, events) && NeverDeletes(cfg, sys, events, id, l)
    ensures LeavesObject(cfg, sys, events, id, l)
    decreases |events|
  {
    if events != [] {
      var e := events[0];
      if e.Advance? && e.id == id {
        StepChanges(cfg, e.fate, sys.replicas[id].running.value.agenda[0], StateOf(sys, id), l);
      }
      hide Step, SyncedBy, Enabled;
      UndeletedIsLeft(cfg, Next(cfg, sys, e), events[1..], id, l);
    }
  }

  // ---- The results ----

  /** The rest of the loops, then the plan and the closing tasks. */
  ghost predicate Looping(agenda: seq<Task>) {
    agenda == [Plan, Cleanup, UpdateStatus] || (agenda != [] && IsLoop(agenda[0]) && Looping(agenda[1..]))
  }

  /** An agenda is what is left of the loops or what the plan left. */
  ghost predicate Shape(agenda: seq<Task>) {
    Looping(agenda) || forall t :: t in agenda ==> !IsLoop(t) && !t.Plan?
  }

  lemma {:induction false} LoopingTasks(agenda: seq<Task>)
    requires Looping(agenda)
    ensures Plan in agenda && forall t :: t in agenda ==> IsLoop(t) || t in [Plan, Cleanup, UpdateStatus]
  {
    if agenda != [Plan, Cleanup, UpdateStatus] {
      LoopingTasks(agenda[1..]);
    }
  }

  lemma {:induction false} LoopsBefore(loops: seq<Task>, rest: seq<Task>)
    requires Looping(rest) && forall t :: t in loops ==> IsLoop(t)
    ensures Looping(loops + rest)
  {
    if loops == [] {
      assert loops + rest == rest;
    } else {
      assert (loops + rest)[1..] == loops[1..] + rest;
      LoopsBefore(loops[1..], rest);
    }
  }

  lemma StepAdds(cfg: Config, fate: Fate, t: Task, s: State)
    ensures forall u :: u in Step(cfg, fate, t, s).1 ==> if IsLoop(t) then IsLoop(u) else !IsLoop(u) && !u.Plan?
  {
    match t
    case Definition(def) => OpenTasksAre(def, MatchedClusters(cfg, def, s.pass.clusters));
    case OpenCluster(def, cluster) =>
      var more := Step(cfg, fate, t, s).1;
      if more != [] {
        var ns :| more == ClusterTasks(def, cluster, ns);
        ClusterTasksAre(def, cluster, ns);
      }
    case OpenBucket(b) => DeleteTasksAre(b.cluster, b.refs);
    case _ =>
  }

  lemma ShapeStays(t: Task, rest: seq<Task>, more: seq<Task>)
    requires Shape([t] + rest) && forall u :: u in more ==> if IsLoop(t) then IsLoop(u) else !IsLoop(u) && !u.Plan?
    ensures Shape(more + rest)
  {
    var agenda := [t] + rest;
    assert agenda[0] == t && agenda[1..] == rest && t in agenda;
    if IsLoop(t) {
      LoopsBefore(more, rest);
    } else if t.Plan? && Looping(agenda) {
      assert rest == [Plan, Cleanup, UpdateStatus][1..];
    } else {
      assert forall u :: u in rest ==> u in agenda;
    }
  }

  lemma StepShape(cfg: Config, fate: Fate, agenda: seq<Task>, s: State)
    requires agenda != [] && Shape(agenda)
    ensures Shape(AdvanceState(cfg, fate, agenda, s).1)
  {
    assert agenda == [agenda[0]] + agenda[1..];
    StepAdds(cfg, fate, agenda[0], s);
    hide Step, Shape;
    ShapeStays(agenda[0], agenda[1..], Step(cfg, fate, agenda[0], s).1);
  }

  /** Before the plan, whatever has been synced or reported is spared. */
  lemma ExcusedIsSpared(cfg: Config, p: Pass, agenda: seq<Task>, l: Location, x: Excuse)
    requires Shape(agenda) && (exists t :: t in agenda && (IsLoop(t) || t.Plan?)) && Holds(cfg, p, l, x)
    ensures Spared(cfg, p, agenda, l, x)
  {
    LoopingTasks(agenda);
  }

  /** A pass is at one of the points it can be at, and during its loops the entries of the old copy are in memory and stored. */
  ghost predicate Orderly(persisted: seq<Group>, p: Pass, agenda: seq<Task>) {
    && Shape(agenda)
    && WellFormed(p.status)
    && (Looping(agenda) ==> Tracked(p.oldStatus) <= Tracked(p.status) && Tracked(p.oldStatus) <= Tracked(persisted))
  }

  /** Every stored list is well-formed and every running pass in order. */
  ghost predicate AllOrderly(sys: System) {
    forall i :: i in sys.replicas ==>
      && WellFormed(sys.replicas[i].persisted)
      && (sys.replicas[i].running.Some? ==> Orderly(sys.replicas[i].persisted, sys.replicas[i].running.value.pass, sys.replicas[i].running.value.agenda))
  }

  lemma StartOrderly(id: ReplicaId, fate: Fate, clusters: seq<Cluster>, r: Stored)
    requires r.running.None? && WellFormed(r.persisted)
    ensures var r' := Start(id, fate, clusters, r);
            r'.persisted == r.persisted && (r'.running.Some? ==> Orderly(r'.persisted, r'.running.value.pass, r'.running.value.agenda))
  {
    hide WellFormed, Tracked;
    var r' := Start(id, fate, clusters, r);
    if r'.running.Some? {
      var loops := DefinitionTasks(r.defs);
      DefinitionTasksAre(r.defs);
      LoopsBefore(loops, [Plan, Cleanup, UpdateStatus]);
      assert loops + [Plan, Cleanup] + [UpdateStatus] == loops + [Plan, Cleanup, UpdateStatus];
      assert [Plan, Cleanup] + [UpdateStatus] == [Plan, Cleanup, UpdateStatus];
    }
  }

  /** An agenda is looping after a step only if the step was one of the loops. */
  lemma LoopedBefore(t: Task, rest: seq<Task>, more: seq<Task>)
    requires Shape([t] + rest) && Looping(more + rest)
    requires forall u :: u in more ==> if IsLoop(t) then IsLoop(u) else !IsLoop(u) && !u.Plan?
    ensures Looping([t] + rest) && IsLoop(t)
  {
    var agenda := [t] + rest;
    assert agenda[0] == t && agenda[1..] == rest && forall u :: u in rest ==> u in agenda;
    LoopingTasks(more + rest);
  }

  lemma StepOrderly(cfg: Config, fate: Fate, agenda: seq<Task>, s: State)
    requires agenda != [] && Orderly(s.persisted, s.pass, agenda) && WellFormed(s.persisted)
    ensures var (s', agenda') := AdvanceState(cfg, fate, agenda, s); Orderly(s'.persisted, s'.pass, agenda') && WellFormed(s'.persisted)
  {
    var t, rest := agenda[0], agenda[1..];
    var (s', more) := Step(cfg, fate, t, s);
    assert agenda == [t] + rest;
    StepShape(cfg, fate, agenda, s);
    StepAdds(cfg, fate, t, s);
    EntriesStay(cfg, fate, t, s);
    StepStores(cfg, fate, t, s);
    hide Step, Shape, Tracked, WellFormed, Vanished, Sends;
    if Looping(more + rest) {
      LoopedBefore(t, rest, more);
    }
  }

  lemma OrderStays(cfg: Config, sys: System, e: Event)
    requires Enabled(cfg, sys, e) && AllOrderly(sys)
    ensures AllOrderly(Next(cfg, sys, e))
  {
    if e.Reconcile? {
      StartOrderly(e.id, e.fate, sys.clusters, sys.replicas[e.id]);
    } else if e.Advance? {
      StepOrderly(cfg, e.fate, sys.replicas[e.id].running.value.agenda, StateOf(sys, e.id));
    } else if e.CreateReplica? {
      assert WellFormed([]);
    }
    hide Start, AdvanceState, Orderly, WellFormed;
  }

  lemma {:induction false} OrderInEveryRun(cfg: Config, sys: System, events: seq<Event>)
    requires CanHappen(cfg, sys, events) && AllOrderly(sys)
    ensures AllOrderly(After(cfg, sys, events))
    decreases |events|
  {
    if events != [] {
      OrderStays(cfg, sys, events[0]);
      hide AllOrderly, Enabled;
      OrderInEveryRun(cfg, Next(cfg, sys, events[0]), events[1..]);
    }
  }

  /** id's pass is about to handle a target. */
  ghost predicate AboutTo(cfg: Config, sys: System, id: ReplicaId, t: Task) {
    && id in sys.replicas && sys.replicas[id].running.Some?
    && sys.replicas[id].running.value.agenda != [] && sys.replicas[id].running.value.agenda[0] == t
  }

  /** A target that has been synced or reported on will not be deleted, and if it is in memory it stays on record. */
  lemma AfterTarget(cfg: Config, sys: System, fate: Fate, id: ReplicaId, t: Task, l: Location)
    requires AllOrderly(sys) && t.Target? && AboutTo(cfg, sys, id, t)
    requires var s := StateOf(sys, id); !Vanished(s.pass, l.cluster) && Excused(cfg, Step(cfg, fate, t, s).0.pass, l)
    ensures Enabled(cfg, sys, Advance(id, fate))
    ensures var sys', s' := Next(cfg, sys, Advance(id, fate)), Step(cfg, fate, t, StateOf(sys, id)).0;
            && Unharmed(cfg, sys', id, l, OwnOutcome)
            && id in sys'.replicas && sys'.replicas[id].persisted == s'.persisted
            && (l in Tracked(s'.pass.status) ==> Remembered(sys', id, l))
  {
    var s, agenda := StateOf(sys, id), sys.replicas[id].running.value.agenda;
    var s' := Step(cfg, fate, t, s).0;
    var rest := agenda[1..];
    assert t in agenda && Step(cfg, fate, t, s).1 == [];
    assert Looping(rest) && Plan in rest by {
      LoopingTasks(rest);
    }
    OrderStays(cfg, sys, Advance(id, fate));
    EntriesStay(cfg, fate, t, s);
    hide Step, Shape, Tracked, WellFormed, Vanished, Excused;
    SameVanished(s.pass, s'.pass, l.cluster);
    SameVanished(s'.pass, Ticked(s').pass, l.cluster);
    assert [] + rest == rest;
    assert Excused(cfg, Ticked(s').pass, l) by {
      ExcusedStays(cfg, s'.pass, Ticked(s').pass, l);
    }
    ExcusedIsSpared(cfg, Ticked(s').pass, rest, l, OwnOutcome);
  }

  /** A rendered target leaves one condition, under its own key. */
  lemma TargetReportsOnce(cfg: Config, fate: Fate, def: TargetDefinition, cluster: Option<Cluster>, namespace: string, s: State)
    requires !Render(cfg, s.pass.input, cluster, namespace).TemplateFailed?
    ensures var p' := HandleTarget(cfg, fate, def, cluster, namespace, s).pass;
            var name := cfg.targetCondition(Key(cluster, Render(cfg, s.pass.input, cluster, namespace).ref));
            exists ok, reason :: p'.conditions == s.pass.conditions + [TargetCondition(name, ok, reason)]
  {
    hide Render, SyncTarget;
    match Render(cfg, s.pass.input, cluster, namespace)
    case MarshalFailed(_) =>
    case Rendered(raw, ref, rendered) =>
      var key := Key(cluster, ref);
      var q := s.pass.(renderings := s.pass.renderings + [(key, raw)], seen := s.pass.seen[key := raw], reached := s.pass.reached + [key]);
      SyncTargetReportsOnce(cfg, fate, def, cluster, ref, Copy(cfg, s.pass, rendered), s.(pass := q));
  }

  lemma SyncTargetReportsOnce(cfg: Config, fate: Fate, def: TargetDefinition, cluster: Option<Cluster>, ref: TypedRef, rendered: Object, s: State)
    ensures var p' := SyncTarget(cfg, fate, def, cluster, ref, rendered, s).pass;
            exists ok, reason :: p'.conditions == s.pass.conditions + [TargetCondition(cfg.targetCondition(Key(cluster, ref)), ok, reason)]
  {
    var made := s.(world := CreateNamespace(cfg, HomeRef(def, cluster), ref.namespace, s.world));
    SyncTargetCases(cfg, fate, def, cluster, ref, rendered, s);
    hide SyncTarget, Write, CreateNamespace, HomeRef;
    WriteReports(cfg, fate, Key(cluster, ref), Location(HomeRef(def, cluster), ref), rendered, s);
    WriteReports(cfg, fate, Key(cluster, ref), Location(HomeRef(def, cluster), ref), rendered, made);
  }

  /** What keeps the plan from deleting a copy: after the handling of a target a copy is excused exactly if it was before, has just been
      synced, or has the condition name of the target's key. The key of a target NextTo a Cluster is not where its copy lives, so the
      copy of one that fails is not excused by it. */
  lemma ExcusedExactly(cfg: Config, fate: Fate, def: TargetDefinition, cluster: Option<Cluster>, namespace: string, s: State, l: Location)
    requires !Render(cfg, s.pass.input, cluster, namespace).TemplateFailed?
    ensures var p' := HandleTarget(cfg, fate, def, cluster, namespace, s).pass;
            var key := Key(cluster, Render(cfg, s.pass.input, cluster, namespace).ref);
            Excused(cfg, p', l) <==> Excused(cfg, s.pass, l) || l in p'.managed || cfg.targetCondition(key) == cfg.targetCondition(l)
  {
    var p' := HandleTarget(cfg, fate, def, cluster, namespace, s).pass;
    TargetReportsOnce(cfg, fate, def, cluster, namespace, s);
    HandleTargetGrows(cfg, fate, def, cluster, namespace, s);
    TargetIsReported(cfg, fate, def, cluster, namespace, s);
    hide HandleTarget, Render;
    if Excused(cfg, s.pass, l) {
      ExcusedStays(cfg, s.pass, p', l);
    } else if Reported(cfg, p', l) {
      var c :| c in p'.conditions && c.TargetCondition? && c.name == cfg.targetCondition(l);
      assert c !in s.pass.conditions;
    }
  }

  /** What AfterTarget says about the rest of the run. */
  lemma SparedFromThere(cfg: Config, sys: System, fate: Fate, events: seq<Event>, id: ReplicaId, t: Task, l: Location)
    requires AllOrderly(sys) && t.Target? && AboutTo(cfg, sys, id, t)
    requires var s := StateOf(sys, id); !Vanished(s.pass, l.cluster) && Excused(cfg, Step(cfg, fate, t, s).0.pass, l)
    requires CanHappen(cfg, sys, [Advance(id, fate)] + events) && NoNewPass(events, id)
    ensures var sys', s' := Next(cfg, sys, Advance(id, fate)), Step(cfg, fate, t, StateOf(sys, id)).0;
            && CanHappen(cfg, sys', events) && NeverDeletes(cfg, sys', events, id, l)
            && id in sys'.replicas && sys'.replicas[id].persisted == s'.persisted
            && (l in Tracked(s'.pass.status) ==> OnRecord(cfg, sys', events, id, l))
  {
    AfterTarget(cfg, sys, fate, id, t, l);
    assert ([Advance(id, fate)] + events)[1..] == events;
    hide Step, Unharmed, Remembered, OnRecord, NeverDeletes, Tracked, AllOrderly;
    var sys' := Next(cfg, sys, Advance(id, fate));
    UnharmedToTheEnd(cfg, sys', events, id, l, OwnOutcome);
    if l in Tracked(Step(cfg, fate, t, StateOf(sys, id)).0.pass.status) {
      RememberedToTheEnd(cfg, sys', events, id, l, OwnOutcome);
    }
  }

  /** Failure protection: the object of a target Onto a Cluster or on the hosting cluster that has been rendered in a pass, whether or not
      it was synced and however its handling ended, is not deleted in the rest of the pass. Its entry is in memory after the handling
      exactly if it was there before or a status patch was tried for it, even in vain; it then stays there to the end of the pass, and
      it is stored exactly if it was stored by then or a later status patch or update takes effect. */
  lemma RenderedTargetIsSpared(cfg: Config, sys: System, fate: Fate, events: seq<Event>, id: ReplicaId,
                               def: TargetDefinition, cluster: Option<Cluster>, namespace: string, l: Location)
    requires AllOrderly(sys) && !IsNextTo(def)
    requires AboutTo(cfg, sys, id, Target(def, cluster, namespace))
    requires var p := StateOf(sys, id).pass;
             var r := Render(cfg, p.input, cluster, namespace);
             && !r.TemplateFailed? && l == Location(HomeRef(def, cluster), r.ref)
             && (cluster.Some? ==> cluster.value in p.clusters)
    requires CanHappen(cfg, sys, [Advance(id, fate)] + events) && NoNewPass(events, id)
    ensures var sys', s := Next(cfg, sys, Advance(id, fate)), StateOf(sys, id);
            var s' := Step(cfg, fate, Target(def, cluster, namespace), s).0;
            && CanHappen(cfg, sys', events) && NeverDeletes(cfg, sys', events, id, l)
            && id in sys'.replicas && sys'.replicas[id].persisted == s'.persisted
            && (l in Tracked(s'.pass.status) <==> l in Tracked(s.pass.status) || s'.pass.status != s.pass.status)
            && (l in Tracked(s'.pass.status) ==> OnRecord(cfg, sys', events, id, l))
  {
    var s, t := StateOf(sys, id), Target(def, cluster, namespace);
    TargetIsReported(cfg, fate, def, cluster, namespace, s);
    TargetRemembers(cfg, fate, def, cluster, namespace, s);
    assert !Vanished(s.pass, l.cluster);
    assert Reported(cfg, Step(cfg, fate, t, s).0.pass, l);
    hide Step, HandleTarget, Render, Tracked, OnRecord, NeverDeletes, AllOrderly;
    SparedFromThere(cfg, sys, fate, events, id, t, l);
  }

  /** A write that syncs leaves its entry in memory, and stored exactly if memory did not hold it alone before. */
  ghost predicate TracksSynced(at: Location, s: State, s': State) {
    && at in Tracked(s'.pass.status)
    && (at in Tracked(s'.persisted) <==> (at in Tracked(s.pass.status) ==> at in Tracked(s.persisted)))
  }

  lemma WriteTracksSynced(cfg: Config, fate: Fate, key: Location, at: Location, rendered: Object, s: State)
    requires WellFormed(s.pass.status) && Tracked(s.pass.oldStatus) <= Tracked(s.pass.status)
    ensures var s' := Write(cfg, fate, key, at, rendered, s);
            s'.pass.managed != s.pass.managed ==> s'.pass.managed == s.pass.managed + [at] && TracksSynced(at, s, s')
  {
    RawRefinesSet(s.pass.status, at);
    hide Tracked, WellFormed, HasAt, AddedAt, CreateOrUpdate, Report;
    if HasAt(s.pass.status, at) {
      CreateOrUpdateTracks(cfg, fate, key, at, rendered, s);
    } else if fate.patch.Ok? {
      var status := AddedAt(s.pass.status, at);
      assert at in Tracked(status) && at !in Tracked(s.pass.oldStatus);
      CreateOrUpdateTracks(cfg, fate, key, at, rendered,
        s.(persisted := Patched(s.persisted, s.pass.oldStatus, status), pass := s.pass.(status := status, oldStatus := status)));
    } else {
      var p := if fate.patch.Lost? then s.persisted else Patched(s.persisted, s.pass.oldStatus, AddedAt(s.pass.status, at));
      ReportTracks(cfg, key, false, Failed, s.(persisted := p, pass := s.pass.(status := AddedAt(s.pass.status, at))));
    }
  }

  lemma ReportTracks(cfg: Config, key: Location, ok: bool, reason: Reason, s: State)
    ensures Report(cfg, key, ok, reason, s).pass.managed == s.pass.managed
  {}

  lemma SyncTargetTracksSynced(cfg: Config, fate: Fate, def: TargetDefinition, cluster: Option<Cluster>, ref: TypedRef, rendered: Object, s: State, l: Location)
    requires WellFormed(s.pass.status) && Tracked(s.pass.oldStatus) <= Tracked(s.pass.status)
    requires SyncTarget(cfg, fate, def, cluster, ref, rendered, s).pass.managed == s.pass.managed + [l]
    ensures TracksSynced(l, s, SyncTarget(cfg, fate, def, cluster, ref, rendered, s))
  {
    var key, at := Key(cluster, ref), Location(HomeRef(def, cluster), ref);
    var made := s.(world := CreateNamespace(cfg, HomeRef(def, cluster), ref.namespace, s.world));
    SyncTargetCases(cfg, fate, def, cluster, ref, rendered, s);
    hide SyncTarget, Write, CreateNamespace, HomeRef, Tracked, WellFormed;
    assert (s.pass.managed + [l])[|s.pass.managed|] == l && (s.pass.managed + [at])[|s.pass.managed|] == at;
    WriteReports(cfg, fate, key, at, rendered, s);
    SyncedIsAt(cfg, fate, key, at, rendered, s);
    SyncedIsAt(cfg, fate, key, at, rendered, made);
    if at == l {
      WriteTracksSynced(cfg, fate, key, at, rendered, s);
      WriteTracksSynced(cfg, fate, key, at, rendered, made);
    }
  }

  lemma SyncedIsAt(cfg: Config, fate: Fate, key: Location, at: Location, rendered: Object, s: State)
    ensures var m := Write(cfg, fate, key, at, rendered, s).pass.managed; m == s.pass.managed || m == s.pass.managed + [at]
  {
    hide HasAt, AddedAt, CreatedOrUpdated;
  }

  /** What a target syncs is in memory, and stored exactly if memory did not hold it alone before. */
  lemma SyncedIsTracked(cfg: Config, fate: Fate, t: Task, s: State, l: Location)
    requires t.Target? && WellFormed(s.pass.status) && Tracked(s.pass.oldStatus) <= Tracked(s.pass.status)
    requires Step(cfg, fate, t, s).0.pass.managed == s.pass.managed + [l]
    ensures TracksSynced(l, s, Step(cfg, fate, t, s).0)
  {
    hide SyncTarget, Render, Tracked, WellFormed;
    var r := Render(cfg, s.pass.input, t.cluster, t.namespace);
    assert s.pass.managed + [l] != s.pass.managed;
    if r.Rendered? {
      HandleRendered(cfg, fate, t.def, t.cluster, t.namespace, s);
      var p := s.pass.(renderings := s.pass.renderings + [(Key(t.cluster, r.ref), r.raw)]);
      var q := p.(seen := s.pass.seen[Key(t.cluster, r.ref) := r.raw], reached := s.pass.reached + [Key(t.cluster, r.ref)]);
      SyncTargetTracksSynced(cfg, fate, t.def, t.cluster, r.ref, Copy(cfg, s.pass, r.target), s.(pass := q), l);
    }
  }

  /** A copy shared by several NextTo targets survives if one of them is synced, whatever happens to the others: it is not deleted in the
      rest of the pass, it is in memory to its end, and it is stored from the first status patch on that takes effect. It is stored
      from the sync on exactly if memory did not hold its entry alone before. */
  lemma SyncedCopyIsSpared(cfg: Config, sys: System, fate: Fate, events: seq<Event>, id: ReplicaId, t: Task, l: Location)
    requires AllOrderly(sys) && t.Target? && AboutTo(cfg, sys, id, t)
    requires var s := StateOf(sys, id); !Vanished(s.pass, l.cluster) && Step(cfg, fate, t, s).0.pass.managed == s.pass.managed + [l]
    requires CanHappen(cfg, sys, [Advance(id, fate)] + events) && NoNewPass(events, id)
    ensures var s, sys' := StateOf(sys, id), Next(cfg, sys, Advance(id, fate));
            && CanHappen(cfg, sys', events) && NeverDeletes(cfg, sys', events, id, l)
            && id in sys'.replicas && OnRecord(cfg, sys', events, id, l)
            && (l in Tracked(sys'.replicas[id].persisted) <==> (l in Tracked(s.pass.status) ==> l in Tracked(s.persisted)))
  {
    var agenda := sys.replicas[id].running.value.agenda;
    assert Looping(agenda) by {
      assert t in agenda;
    }
    SyncedIsTracked(cfg, fate, t, StateOf(sys, id), l);
    hide Step, OnRecord, NeverDeletes, Tracked, Shape;
    SparedFromThere(cfg, sys, fate, events, id, t, l);
  }
}
