/** Every live object that carries a replica's labels is in that replica's persisted status, whatever fails and wherever a pass stops. */
module NoOrphans {
  import opened Refs
  import opened StatusList
  import opened Objects
  import opened Targets
  import opened Steps
  import opened System
  import opened Ownership
  import opened Obsolete
  import opened Agenda

  ghost predicate OwnedAt(cfg: Config, w: World, id: ReplicaId, l: Location) {
    l in w.objects && Owns(cfg.provider, id, w.objects[l])
  }

  /** The Cluster exists, or a running pass of id still has it in its list. */
  ghost predicate Known(sys: System, id: ReplicaId, cluster: ObjectReference) {
    || ClusterExists(sys.clusters, cluster)
    || (id in sys.replicas && sys.replicas[id].running.Some? && ClusterExists(sys.replicas[id].running.value.pass.clusters, cluster))
  }

  /** An object of id that lives on an existing cluster is in the stored status and in the status a running pass holds. */
  ghost predicate Covered(cfg: Config, sys: System, id: ReplicaId, l: Location) {
    OwnedAt(cfg, sys.world, id, l) && Known(sys, id, l.cluster) ==>
      && id in sys.replicas
      && sys.replicas[id].finalizer
      && l in Tracked(sys.replicas[id].persisted)
      && (sys.replicas[id].running.Some? ==>
            && l in Tracked(sys.replicas[id].running.value.pass.status)
            && ClusterExists(sys.replicas[id].running.value.pass.clusters, l.cluster))
  }

  predicate IsSync(t: Task) {
    t.Definition? || t.OpenCluster? || t.Target?
  }

  /** A definition of the pass meets one of its clusters. */
  ghost predicate MayOpen(cfg: Config, p: Pass, def: TargetDefinition, cluster: Option<Cluster>) {
    && def in p.defs
    && (cluster.Some? ==> cluster.value in p.clusters && ClusterMatchesSome(cfg, def, cluster.value))
    && (cluster.None? ==> def.cluster.None?)
  }

  /** The namespace is fixed by the definition and the cluster, or selected by labels. */
  ghost predicate MayName(def: TargetDefinition, cluster: Option<Cluster>, namespace: string) {
    if IsNextTo(def) then namespace == OwnRef(cluster).namespace
    else if def.namespaces.None? then namespace == ""
    else def.namespaces.value.matchIdentities.Some? ==> namespace in def.namespaces.value.matchIdentities.value
  }

  /** A target that the pass may come to, whatever namespaces there will be. */
  ghost predicate MayTarget(cfg: Config, p: Pass, t: Task) {
    && t.Target? && MayOpen(cfg, p, t.def, t.cluster)
    && (t.cluster.Some? ==> !t.cluster.value.inDeletion)
    && MayName(t.def, t.cluster, t.namespace)
  }

  /** A task of the sync loops belongs to this pass's definitions and clusters. */
  ghost predicate Belongs(cfg: Config, p: Pass, t: Task) {
    match t
    case Definition(def) => def in p.defs
    case OpenCluster(def, cluster) => MayOpen(cfg, p, def, cluster)
    case Target(_, _, _) => MayTarget(cfg, p, t)
    case _ => true
  }

  /** The key under which conflict detection knows the target that lives at l. */
  ghost function KeyFor(t: Task, l: Location): Location
    requires t.Target?
  {
    Key(t.cluster, l.ref)
  }

  /** Every target that may still be rendered for l has a key that has been seen. */
  ghost predicate AllSeen(cfg: Config, p: Pass, l: Location) {
    forall t :: MayTarget(cfg, p, t) && RenderedAt(cfg, p, t, l) ==> KeyFor(t, l) in p.seen
  }

  /** The sync loops come first. */
  ghost predicate Ordered(agenda: seq<Task>) {
    forall i, j :: 0 <= i < j < |agenda| && IsSync(agenda[j]) ==> IsLoop(agenda[i])
  }

  ghost predicate AgendaBelongs(cfg: Config, p: Pass, agenda: seq<Task>) {
    (forall t :: t in agenda ==> Belongs(cfg, p, t)) && Ordered(agenda)
  }

  ghost predicate Syncing(agenda: seq<Task>) {
    exists t :: t in agenda && IsSync(t)
  }

  /** What a running pass keeps: while it syncs, memory runs ahead of the stored status only where no further write will come. */
  ghost predicate PassOk(cfg: Config, r: Stored, id: ReplicaId, l: Location)
    requires r.running.Some?
  {
    var p, agenda := r.running.value.pass, r.running.value.agenda;
    && p.id == id
    && WellFormed(p.status)
    && ClustersOk(p.clusters)
    && AgendaBelongs(cfg, p, agenda)
    && (Syncing(agenda) ==>
          && r.finalizer
          && Tracked(p.oldStatus) <= Tracked(p.status)
          && (l in Tracked(p.status) ==> l in Tracked(r.persisted) || AllSeen(cfg, p, l)))
  }

  ghost predicate StoredOk(cfg: Config, r: Stored, id: ReplicaId, l: Location) {
    WellFormed(r.persisted) && (r.running.Some? ==> PassOk(cfg, r, id, l))
  }

  ghost predicate Inv(cfg: Config, sys: System, id: ReplicaId, l: Location) {
    && IdOk(id)
    && ClustersOk(sys.clusters)
    && (id in sys.replicas ==> StoredOk(cfg, sys.replicas[id], id, l))
    && (forall i :: i in sys.replicas ==> IdOk(i) && (sys.replicas[i].running.Some? ==> sys.replicas[i].running.value.pass.id == i))
    && Covered(cfg, sys, id, l)
  }

  /** A patch lost at a target that lives at l does no harm if no target with another key, not yet rendered, lives there too. */
  ghost predicate LossHarmless(cfg: Config, fate: Fate, p: Pass, t: Task, l: Location) {
    t.Target? && RenderedAt(cfg, p, t, l) && fate.patch.Lost? ==>
      forall u :: MayTarget(cfg, p, u) && RenderedAt(cfg, p, u, l) ==> KeyFor(u, l) in p.seen || KeyFor(u, l) == KeyFor(t, l)
  }

  /** The scope of the theorem, seen event by event. */
  ghost predicate InScope(cfg: Config, sys: System, e: Event, id: ReplicaId, l: Location) {
    e.Advance? && e.id == id && id in sys.replicas && sys.replicas[id].running.Some? && sys.replicas[id].running.value.agenda != [] ==>
      LossHarmless(cfg, e.fate, sys.replicas[id].running.value.pass, sys.replicas[id].running.value.agenda[0], l)
  }

  // ---- One step of id's own pass ----

  ghost predicate StateCovered(cfg: Config, s: State, id: ReplicaId, l: Location) {
    OwnedAt(cfg, s.world, id, l) && ClusterExists(s.pass.clusters, l.cluster) ==>
      l in Tracked(s.persisted) && l in Tracked(s.pass.status)
  }

  ghost predicate StateOk(s: State, id: ReplicaId) {
    s.pass.id == id && WellFormed(s.pass.status) && WellFormed(s.persisted)
  }

  ghost predicate Ahead(cfg: Config, s: State, l: Location) {
    && Tracked(s.pass.oldStatus) <= Tracked(s.pass.status)
    && (l in Tracked(s.pass.status) ==> l in Tracked(s.persisted) || AllSeen(cfg, s.pass, l))
  }

  /** What a step leaves of the pass's fixed part. */
  ghost predicate SamePass(a: Pass, b: Pass) {
    a.id == b.id && a.defs == b.defs && a.clusters == b.clusters && a.inDeletion == b.inDeletion && a.generation == b.generation && a.input == b.input
  }

  lemma AllSeenStays(cfg: Config, p: Pass, q: Pass, l: Location)
    requires AllSeen(cfg, p, l) && SamePass(p, q) && forall k :: k in p.seen ==> k in q.seen
    ensures AllSeen(cfg, q, l)
  {
    forall t | MayTarget(cfg, q, t) && RenderedAt(cfg, q, t, l) ensures KeyFor(t, l) in q.seen {
      assert MayTarget(cfg, p, t) && RenderedAt(cfg, p, t, l);
    }
  }

  lemma AheadStays(cfg: Config, s: State, s': State, l: Location)
    requires Ahead(cfg, s, l) && SamePass(s.pass, s'.pass) && forall k :: k in s.pass.seen ==> k in s'.pass.seen
    requires s'.persisted == s.persisted && s'.pass.status == s.pass.status && s'.pass.oldStatus == s.pass.oldStatus
    ensures Ahead(cfg, s', l)
  {
    hide AllSeen, Tracked, MayTarget, RenderedAt;
    if AllSeen(cfg, s.pass, l) {
      AllSeenStays(cfg, s.pass, s'.pass, l);
    }
  }

  /** What leaves status, stored status and keys alone, and changes no object or the one at at. */
  ghost predicate WritesOnly(cfg: Config, at: Location, rendered: Object, s: State, s': State) {
    && SamePass(s.pass, s'.pass) && s'.pass.seen == s.pass.seen
    && s'.pass.status == s.pass.status && s'.pass.oldStatus == s.pass.oldStatus
    && s'.persisted == s.persisted
    && (s'.world == s.world || s'.world == CreateWorld(at, rendered, s.world))
  }

  lemma CreateOrUpdateEffect(cfg: Config, fate: Fate, key: Location, at: Location, rendered: Object, s: State)
    ensures WritesOnly(cfg, at, rendered, s, CreateOrUpdate(cfg, fate, key, at, rendered, s))
  {}

  /** What Write does to the status in memory, the stored status and the objects. */
  lemma WriteEffect(cfg: Config, fate: Fate, key: Location, at: Location, rendered: Object, s: State)
    requires WellFormed(s.pass.status) && WellFormed(s.persisted)
    requires Tracked(s.pass.oldStatus) <= Tracked(s.pass.status)
    ensures var s' := Write(cfg, fate, key, at, rendered, s);
            && SamePass(s.pass, s'.pass) && s'.pass.seen == s.pass.seen
            && WellFormed(s'.pass.status) && WellFormed(s'.persisted)
            && Tracked(s'.pass.status) == Tracked(s.pass.status) + {at}
            && Tracked(s'.pass.oldStatus) <= Tracked(s'.pass.status)
            && (|| Tracked(s'.persisted) == Tracked(s'.pass.status)
                || (s'.persisted == s.persisted && (at in Tracked(s.pass.status) || fate.patch.Lost?)))
            && (s'.world == s.world || s'.world == CreateWorld(at, rendered, s.world))
            && (s'.world != s.world ==> at in Tracked(s'.persisted) || at in Tracked(s.pass.status))
  {
    hide Tracked, WellFormed, HasAt, AddedAt, CreateOrUpdate, CreateWorld;
    RawRefinesSet(s.pass.status, at);
    if HasAt(s.pass.status, at) {
      CreateOrUpdateEffect(cfg, fate, key, at, rendered, s);
    } else {
      var status := AddedAt(s.pass.status, at);
      assert at in Tracked(status);
      assert status != s.pass.oldStatus;
      if fate.patch.Ok? {
        CreateOrUpdateEffect(cfg, fate, key, at, rendered,
          s.(persisted := status, pass := s.pass.(status := status, oldStatus := status)));
      }
    }
  }

  /** The world in which only the object at at has been written. */
  ghost function CreateWorld(at: Location, rendered: Object, w: World): World {
    w.(objects := w.objects[at := CreatedOrUpdated(Lookup(w.objects, at), rendered)])
  }

  ghost predicate Good(cfg: Config, s: State, l: Location) {
    StateOk(s, s.pass.id) && StateCovered(cfg, s, s.pass.id, l)
  }

  ghost predicate StaysGood(cfg: Config, s: State, s': State, l: Location) {
    Good(cfg, s', l) && Ahead(cfg, s', l) && SamePass(s.pass, s'.pass)
  }

  /** Before a write at at memory is not ahead there, and if the patch is lost no other key will be written there. */
  ghost predicate BeforeWrite(cfg: Config, fate: Fate, s: State, at: Location, l: Location) {
    && Tracked(s.pass.oldStatus) <= Tracked(s.pass.status)
    && (l != at ==> Ahead(cfg, s, l))
    && (l == at ==> (l in Tracked(s.pass.status) ==> l in Tracked(s.persisted)) && (fate.patch.Lost? ==> AllSeen(cfg, s.pass, l)))
  }

  /** Writing at at covers it, if memory was not ahead of the stored status there. */
  lemma WriteCovers(cfg: Config, fate: Fate, key: Location, at: Location, rendered: Object, s: State, l: Location)
    requires Good(cfg, s, l) && BeforeWrite(cfg, fate, s, at, l)
    ensures StaysGood(cfg, s, Write(cfg, fate, key, at, rendered, s), l)
  {
    hide Tracked, WellFormed, HasAt, AddedAt, Write, Owns, AllSeen;
    var s' := Write(cfg, fate, key, at, rendered, s);
    WriteEffect(cfg, fate, key, at, rendered, s);
    if AllSeen(cfg, s.pass, l) {
      AllSeenStays(cfg, s.pass, s'.pass, l);
    }
  }

  lemma ReportKeeps(cfg: Config, key: Location, ok: bool, reason: Reason, s: State, l: Location)
    requires Good(cfg, s, l) && Ahead(cfg, s, l)
    ensures StaysGood(cfg, s, Report(cfg, key, ok, reason, s), l)
  {
    hide Tracked, WellFormed, Owns, AllSeen, Ahead;
    AheadStays(cfg, s, Report(cfg, key, ok, reason, s), l);
  }

  lemma AheadBeforeWrite(cfg: Config, fate: Fate, s: State, at: Location, l: Location)
    requires BeforeWrite(cfg, fate, s, at, l)
    ensures Ahead(cfg, s, l)
  {
    hide Tracked, AllSeen;
  }

  /** One target past conflict detection. */
  lemma SyncTargetCovers(cfg: Config, fate: Fate, def: TargetDefinition, cluster: Option<Cluster>, ref: TypedRef, rendered: Object, s: State, l: Location)
    requires Good(cfg, s, l) && BeforeWrite(cfg, fate, s, Location(HomeRef(def, cluster), ref), l)
    ensures StaysGood(cfg, s, SyncTarget(cfg, fate, def, cluster, ref, rendered, s), l)
  {
    var s' := SyncTarget(cfg, fate, def, cluster, ref, rendered, s);
    hide Write, SyncTarget, HomeRef, Tracked, WellFormed, Owns, Report, AllSeen, StaysGood, Ahead;
    var key := Key(cluster, ref);
    var home := HomeRef(def, cluster);
    var at := Location(home, ref);
    var made := s.(world := CreateNamespace(cfg, home, ref.namespace, s.world));
    SyncTargetCases(cfg, fate, def, cluster, ref, rendered, s);
    AheadBeforeWrite(cfg, fate, s, at, l);
    AheadStays(cfg, s, made, l);
    MadeBeforeWrite(cfg, fate, s, made, at, l);
    WriteCovers(cfg, fate, key, at, rendered, s, l);
    WriteCovers(cfg, fate, key, at, rendered, made, l);
    if OnlyReports(cfg, key, s, s') {
      var ok, reason :| s' == Report(cfg, key, ok, reason, s);
      ReportKeeps(cfg, key, ok, reason, s, l);
    } else if OnlyReports(cfg, key, made, s') {
      var ok, reason :| s' == Report(cfg, key, ok, reason, made);
      ReportKeeps(cfg, key, ok, reason, made, l);
    }
    StaysGoodFrom(cfg, s, made, s', l);
  }

  lemma MadeBeforeWrite(cfg: Config, fate: Fate, s: State, made: State, at: Location, l: Location)
    requires BeforeWrite(cfg, fate, s, at, l) && Good(cfg, s, l)
    requires made == s.(world := made.world) && made.world.objects == s.world.objects
    ensures BeforeWrite(cfg, fate, made, at, l) && Good(cfg, made, l)
  {
    hide Tracked, AllSeen, WellFormed, Owns;
  }

  lemma StaysGoodFrom(cfg: Config, s: State, made: State, s': State, l: Location)
    requires made.pass == s.pass && (StaysGood(cfg, s, s', l) || StaysGood(cfg, made, s', l))
    ensures StaysGood(cfg, s, s', l)
  {
    hide Good, Ahead;
  }

  lemma HandleTargetCovers(cfg: Config, fate: Fate, def: TargetDefinition, cluster: Option<Cluster>, namespace: string, s: State, l: Location)
    requires Good(cfg, s, l) && Ahead(cfg, s, l)
    requires var t := Target(def, cluster, namespace); Belongs(cfg, s.pass, t) && LossHarmless(cfg, fate, s.pass, t, l)
    ensures StaysGood(cfg, s, HandleTarget(cfg, fate, def, cluster, namespace, s), l)
  {
    hide Tracked, WellFormed, SyncTarget, Owns, Render, HomeRef, Key, AllSeen, Good, MayTarget, RenderedAt;
    match Render(cfg, s.pass.input, cluster, namespace)
    case TemplateFailed => AheadStays(cfg, s, WithError(s), l); GoodStays(cfg, s, WithError(s), l);
    case MarshalFailed(ref) => ReportKeeps(cfg, Key(cluster, ref), false, Failed, s, l);
    case Rendered(raw, ref, rendered) => HandleRenderedCovers(cfg, fate, def, cluster, namespace, s, l);
  }

  lemma GoodStays(cfg: Config, s: State, s': State, l: Location)
    requires Good(cfg, s, l) && SamePass(s.pass, s'.pass) && s'.world == s.world && s'.persisted == s.persisted && s'.pass.status == s.pass.status
    ensures Good(cfg, s', l)
  {
    hide Tracked, WellFormed, Owns;
  }

  /** A key that is seen for the first time belongs to a target at whose home memory is not ahead. */
  lemma FirstSeen(cfg: Config, fate: Fate, t: Task, raw: string, s: State, s': State, at: Location, l: Location)
    requires Ahead(cfg, s, l) && MayTarget(cfg, s.pass, t) && RenderedAt(cfg, s.pass, t, at) && LossHarmless(cfg, fate, s.pass, t, l)
    requires KeyFor(t, at) !in s.pass.seen
    requires SamePass(s.pass, s'.pass) && s'.pass.seen == s.pass.seen[KeyFor(t, at) := raw]
    requires s'.persisted == s.persisted && s'.pass.status == s.pass.status && s'.pass.oldStatus == s.pass.oldStatus
    ensures BeforeWrite(cfg, fate, s', at, l)
  {
    hide Tracked, MayTarget, RenderedAt;
    AheadStays(cfg, s, s', l);
    if l == at && fate.patch.Lost? {
      NoneLeft(cfg, fate, s.pass, s'.pass, t, raw, l);
    }
  }

  lemma NoneLeft(cfg: Config, fate: Fate, p: Pass, q: Pass, t: Task, raw: string, l: Location)
    requires RenderedAt(cfg, p, t, l) && LossHarmless(cfg, fate, p, t, l) && fate.patch.Lost?
    requires SamePass(p, q) && q.seen == p.seen[KeyFor(t, l) := raw]
    ensures AllSeen(cfg, q, l)
  {
    forall u | MayTarget(cfg, q, u) && RenderedAt(cfg, q, u, l) ensures KeyFor(u, l) in q.seen {
      assert MayTarget(cfg, p, u) && RenderedAt(cfg, p, u, l);
    }
  }

  lemma HandleRenderedCovers(cfg: Config, fate: Fate, def: TargetDefinition, cluster: Option<Cluster>, namespace: string, s: State, l: Location)
    requires Good(cfg, s, l) && Ahead(cfg, s, l)
    requires var t := Target(def, cluster, namespace); Belongs(cfg, s.pass, t) && LossHarmless(cfg, fate, s.pass, t, l)
    requires Render(cfg, s.pass.input, cluster, namespace).Rendered?
    ensures StaysGood(cfg, s, HandleTarget(cfg, fate, def, cluster, namespace, s), l)
  {
    var t := Target(def, cluster, namespace);
    var r := Render(cfg, s.pass.input, cluster, namespace);
    var key, at := Key(cluster, r.ref), Location(HomeRef(def, cluster), r.ref);
    var s1 := s.(pass := s.pass.(renderings := s.pass.renderings + [(key, r.raw)]));
    assert RenderedAt(cfg, s.pass, t, at) && KeyFor(t, at) == key;
    HandleRendered(cfg, fate, def, cluster, namespace, s);
    hide Tracked, WellFormed, SyncTarget, Owns, Render, HomeRef, Key, HandleTarget, Copy, AllSeen, Good, Ahead, MayTarget, RenderedAt,
      LossHarmless, Report, BeforeWrite;
    if key !in s.pass.seen {
      var s2 := s1.(pass := s1.pass.(seen := s1.pass.seen[key := r.raw], reached := s1.pass.reached + [key]));
      FirstSeen(cfg, fate, t, r.raw, s, s2, at, l);
      GoodStays(cfg, s, s2, l);
      SyncTargetCovers(cfg, fate, def, cluster, r.ref, Copy(cfg, s.pass, r.target), s2, l);
    } else {
      AheadStays(cfg, s, s1, l);
      GoodStays(cfg, s, s1, l);
      ReportKeeps(cfg, key, false, RenderedDifferently, s1, l);
      ReportKeeps(cfg, key, true, IdenticalCopy, s1, l);
    }
  }

  lemma PlanCovers(cfg: Config, s: State, l: Location)
    requires Good(cfg, s, l)
    ensures var s' := PlanDeletion(cfg, s).0; Good(cfg, s', l) && SamePass(s.pass, s'.pass)
  {
    hide Tracked, WellFormed, Owns;
    PlanForgetsExactly(cfg, s);
  }

  lemma ForgottenCovers(cfg: Config, at: Location, s: State, l: Location)
    requires Good(cfg, s, l)
    requires at == l ==> !OwnedAt(cfg, s.world, s.pass.id, l)
    ensures var s' := Forgotten(at, s); Good(cfg, s', l) && SamePass(s.pass, s'.pass)
  {
    hide Tracked, WellFormed, Owns, RemovedAt;
    RawRefinesSet(s.pass.status, at);
  }

  lemma PutObjectCovers(cfg: Config, at: Location, o: Object, s: State, l: Location)
    requires Good(cfg, s, l) && at in s.world.objects
    requires Owns(cfg.provider, s.pass.id, o) ==> Owns(cfg.provider, s.pass.id, s.world.objects[at])
    ensures Good(cfg, PutObject(at, o, s), l)
  {
    hide Tracked, WellFormed, Owns;
  }

  lemma OnlyReportsKeeps(cfg: Config, key: Location, s: State, s': State, l: Location)
    requires Good(cfg, s, l) && OnlyReports(cfg, key, s, s')
    ensures Good(cfg, s', l) && SamePass(s.pass, s'.pass)
  {
    hide Tracked, WellFormed, Owns;
  }

  lemma DeleteCovers(cfg: Config, fate: Fate, at: Location, s: State, l: Location)
    requires Good(cfg, s, l)
    ensures var s' := DeleteObsolete(cfg, fate, at, s); Good(cfg, s', l) && SamePass(s.pass, s'.pass)
  {
    var s' := DeleteObsolete(cfg, fate, at, s);
    DeleteCases(cfg, fate, at, s);
    if at in s.world.objects {
      var o := s.world.objects[at];
      ReleaseRemovesExactly(cfg.provider, s.pass.id, o);
      assert Owns(cfg.provider, s.pass.id, Marked(o)) == Owns(cfg.provider, s.pass.id, o);
      assert !IsManaged(cfg.provider, s.pass.id, o) ==> !Owns(cfg.provider, s.pass.id, o);
    }
    hide Owns, Tracked, WellFormed, IsManaged, Kept, Released, Forgotten, DeleteObsolete, OnlyReports, StateCovered;
    if OnlyReports(cfg, at, s, s') {
      OnlyReportsKeeps(cfg, at, s, s', l);
    } else if s' == Forgotten(at, s) {
      assert at == l ==> !OwnedAt(cfg, s.world, s.pass.id, l);
      ForgottenCovers(cfg, at, s, l);
    } else {
      var o := s.world.objects[at];
      var released, marked := PutObject(at, Released(o), s), PutObject(at, Marked(o), s);
      PutObjectCovers(cfg, at, Released(o), s, l);
      PutObjectCovers(cfg, at, Marked(o), s, l);
      if s' == Forgotten(at, released) {
        ForgottenCovers(cfg, at, released, l);
      } else if OnlyReports(cfg, at, released, s') {
        OnlyReportsKeeps(cfg, at, released, s', l);
      } else {
        OnlyReportsKeeps(cfg, at, marked, s', l);
      }
    }
  }

  lemma CleanupCovers(cfg: Config, s: State, l: Location)
    requires Good(cfg, s, l)
    ensures var s' := CleanStatus(s); Good(cfg, s', l) && SamePass(s.pass, s'.pass)
  {
    hide Owns, Tracked, WellFormed, Cleaned;
    CleanupKeepsTracked(s.pass.status);
    TrackAllTracked(s.pass.managed, Cleaned(s.pass.status));
  }

  /** Every task keeps owned objects covered; tasks of the sync loops also let memory run ahead only where no further write will come. */
  lemma StepCovers(cfg: Config, fate: Fate, t: Task, s: State, l: Location)
    requires Good(cfg, s, l) && Belongs(cfg, s.pass, t) && LossHarmless(cfg, fate, s.pass, t, l)
    requires IsSync(t) ==> Ahead(cfg, s, l)
    ensures var s' := Step(cfg, fate, t, s).0;
            Good(cfg, s', l) && SamePass(s.pass, s'.pass) && (IsLoop(t) && Ahead(cfg, s, l) ==> Ahead(cfg, s', l))
  {
    hide Owns, Tracked, WellFormed, HandleTarget, PlanDeletion, DeleteObsolete, CleanStatus, Ahead, LossHarmless, Belongs;
    match t
    case Target(def, cluster, namespace) => HandleTargetCovers(cfg, fate, def, cluster, namespace, s, l);
    case Plan => PlanCovers(cfg, s, l);
    case OpenBucket(b) => ReportAllKeeps(cfg, b, |b.refs|, s);
    case Delete(at) => DeleteCovers(cfg, fate, at, s, l);
    case Cleanup => CleanupCovers(cfg, s, l);
    case _ =>
      if IsLoop(t) && Ahead(cfg, s, l) {
        AheadStays(cfg, s, Step(cfg, fate, t, s).0, l);
      }
  }

  // ---- The agenda ----

  lemma OpenedNamespaces(cfg: Config, fate: Fate, def: TargetDefinition, cluster: Option<Cluster>, s: State) returns (ns: seq<string>)
    requires ResolveNamespaces(cfg, fate, def, cluster, s).1 != []
    ensures ResolveNamespaces(cfg, fate, def, cluster, s).1 == ClusterTasks(def, cluster, ns)
    ensures cluster.Some? ==> !cluster.value.inDeletion
    ensures forall n :: n in ns ==> MayName(def, cluster, n)
  {
    ns := if IsNextTo(def) then [OwnRef(cluster).namespace]
          else if def.namespaces.None? then [""]
          else if def.namespaces.value.matchIdentities.Some? then def.namespaces.value.matchIdentities.value
          else SelectNamespaces(cfg, def.namespaces.value, OwnRef(cluster), cfg.listOrder(NamespacesOn(s.world, OwnRef(cluster))), s.world);
  }

  lemma StepTasks(cfg: Config, fate: Fate, t: Task, s: State)
    requires Belongs(cfg, s.pass, t)
    ensures forall u :: u in Step(cfg, fate, t, s).1 ==> Belongs(cfg, s.pass, u) && (if IsSync(t) then IsLoop(u) else !IsSync(u))
  {
    match t
    case Definition(def) =>
      var cs := MatchedClusters(cfg, def, s.pass.clusters);
      MatchedClustersIn(cfg, def, s.pass.clusters);
      OpenTasksAre(def, cs);
    case OpenCluster(def, cluster) =>
      var more := ResolveNamespaces(cfg, fate, def, cluster, s).1;
      if more != [] {
        var ns := OpenedNamespaces(cfg, fate, def, cluster, s);
        ClusterTasksAre(def, cluster, ns);
      }
    case OpenBucket(b) => DeleteTasksAre(b.cluster, b.refs);
    case _ =>
  }

  lemma AgendaStays(cfg: Config, p: Pass, t: Task, more: seq<Task>, rest: seq<Task>)
    requires Ordered([t] + rest) && Belongs(cfg, p, t) && forall u :: u in rest ==> Belongs(cfg, p, u)
    requires forall u :: u in more ==> Belongs(cfg, p, u) && (if IsSync(t) then IsLoop(u) else !IsSync(u))
    requires t.CloseCluster? ==> more == []
    ensures Ordered(more + rest)
    ensures forall u :: u in more + rest ==> Belongs(cfg, p, u)
    ensures Syncing(more + rest) ==> IsLoop(t)
    ensures Syncing(more + rest) ==> Syncing([t] + rest)
  {
    var whole := [t] + rest;
    assert IsSync(whole[0]) <==> IsSync(t);
    forall i, j | 0 <= i < j < |more + rest| && IsSync((more + rest)[j])
      ensures IsLoop((more + rest)[i])
    {
      if j < |more| {
        assert more[j] in more && more[i] in more;
      } else {
        assert whole[j - |more| + 1] == (more + rest)[j];
        if i < |more| {
          assert more[i] in more;
          assert IsLoop(whole[0]);
        } else {
          assert whole[i - |more| + 1] == (more + rest)[i];
        }
      }
    }
    if Syncing(more + rest) {
      var u :| u in more + rest && IsSync(u);
      if u in more {
      } else {
        var k :| 0 <= k < |rest| && rest[k] == u;
        assert whole[k + 1] == u && whole[0] == t;
      }
    }
  }

  // ---- The whole system ----

  lemma LoopsFirst(loops: seq<Task>)
    requires forall t :: t in loops ==> IsLoop(t)
    ensures Ordered(loops + [Plan, Cleanup] + [UpdateStatus])
    ensures forall t :: t in loops + [Plan, Cleanup] + [UpdateStatus] ==> t in loops || t in [Plan, Cleanup, UpdateStatus]
  {
    var agenda := loops + [Plan, Cleanup] + [UpdateStatus];
    forall i, j | 0 <= i < j < |agenda| && IsSync(agenda[j])
      ensures IsLoop(agenda[i])
    {
      assert agenda[i] in loops;
    }
  }

  /** A pass that starts with the stored status and nothing to sync. */
  lemma StartedWithoutSync(cfg: Config, r: Stored, id: ReplicaId, l: Location)
    requires r.running.Some? && WellFormed(r.persisted)
    requires var p, agenda := r.running.value.pass, r.running.value.agenda;
             p.id == id && p.status == r.persisted && ClustersOk(p.clusters) && forall t :: t in agenda ==> !IsSync(t)
    ensures StoredOk(cfg, r, id, l)
  {
    hide WellFormed, Tracked, ClustersOk;
  }

  /** A pass that starts with the stored status and all its loops ahead. */
  lemma StartedWithLoops(cfg: Config, r: Stored, id: ReplicaId, l: Location)
    requires r.running.Some? && WellFormed(r.persisted) && r.finalizer
    requires var p, agenda := r.running.value.pass, r.running.value.agenda;
             && p.id == id && p.status == r.persisted && p.oldStatus == r.persisted && ClustersOk(p.clusters)
             && agenda == DefinitionTasks(p.defs) + [Plan, Cleanup] + [UpdateStatus]
    ensures StoredOk(cfg, r, id, l)
  {
    hide WellFormed, Tracked, ClustersOk;
    var p := r.running.value.pass;
    DefinitionTasksAre(p.defs);
    LoopsFirst(DefinitionTasks(p.defs));
  }

  lemma StartStored(cfg: Config, id: ReplicaId, fate: Fate, clusters: seq<Cluster>, r: Stored, l: Location)
    requires WellFormed(r.persisted) && r.running.None? && ClustersOk(clusters)
    ensures var r' := Start(id, fate, clusters, r);
            StoredOk(cfg, r', id, l) && (r'.running.Some? ==> r'.running.value.pass.id == id)
  {
    var r' := Start(id, fate, clusters, r);
    hide WellFormed, PassOk, ClustersOk, DefinitionTasks;
    if r'.running.Some? {
      if r'.running.value.agenda == DefinitionTasks(r.defs) + [Plan, Cleanup] + [UpdateStatus] && r'.finalizer {
        StartedWithLoops(cfg, r', id, l);
      } else {
        StartedWithoutSync(cfg, r', id, l);
      }
    }
  }

  lemma StartCovered(cfg: Config, sys: System, id: ReplicaId, fate: Fate, l: Location)
    requires Covered(cfg, sys, id, l) && id in sys.replicas && sys.replicas[id].running.None?
    ensures Covered(cfg, sys.(replicas := sys.replicas[id := Start(id, fate, sys.clusters, sys.replicas[id])]), id, l)
  {
    assert |sys.replicas[id].persisted| == 0 ==> Tracked(sys.replicas[id].persisted) == {};
    hide OwnedAt, Tracked, ClusterExists, DefinitionTasks;
  }

  lemma BelongsSame(cfg: Config, p: Pass, q: Pass, t: Task)
    requires Belongs(cfg, p, t) && SamePass(p, q)
    ensures Belongs(cfg, q, t)
  {}

  /** One task, seen by the pass alone. */
  lemma PassAdvances(cfg: Config, fate: Fate, agenda: seq<Task>, s: State, l: Location)
    requires agenda != [] && Good(cfg, s, l) && AgendaBelongs(cfg, s.pass, agenda) && LossHarmless(cfg, fate, s.pass, agenda[0], l)
    requires Syncing(agenda) ==> Ahead(cfg, s, l)
    ensures var (s', agenda') := AdvanceState(cfg, fate, agenda, s);
            && Good(cfg, s', l) && SamePass(s.pass, s'.pass) && AgendaBelongs(cfg, s'.pass, agenda')
            && (Syncing(agenda') ==> Syncing(agenda) && Ahead(cfg, s', l))
  {
    var t, rest := agenda[0], agenda[1..];
    assert agenda == [t] + rest && t in agenda;
    var (s', more) := Step(cfg, fate, t, s);
    assert IsSync(t) ==> Syncing(agenda);
    assert t.CloseCluster? ==> more == [];
    hide Owns, Tracked, WellFormed, Belongs, Ordered, Step, Syncing, Ahead, Good, LossHarmless;
    StepTasks(cfg, fate, t, s);
    AgendaStays(cfg, s.pass, t, more, rest);
    StepCovers(cfg, fate, t, s, l);
    GoodStays(cfg, s', Ticked(s'), l);
    if Ahead(cfg, s', l) {
      AheadStays(cfg, s', Ticked(s'), l);
    }
    forall u | u in more + rest ensures Belongs(cfg, Ticked(s').pass, u) {
      BelongsSame(cfg, s.pass, Ticked(s').pass, u);
    }
  }

  /** Only a target on one of the pass's clusters makes an object id's. */
  lemma OwnedByStep(cfg: Config, fate: Fate, t: Task, s: State, l: Location)
    requires Belongs(cfg, s.pass, t)
    ensures OwnedAt(cfg, Step(cfg, fate, t, s).0.world, s.pass.id, l) ==>
              OwnedAt(cfg, s.world, s.pass.id, l) || (IsSync(t) && ClusterExists(s.pass.clusters, l.cluster))
  {
    StepChanges(cfg, fate, t, s, l);
    if l in s.world.objects {
      ReleaseRemovesExactly(cfg.provider, s.pass.id, s.world.objects[l]);
    }
  }

  /** The record of a replica after a task of its pass. */
  function RecordAfter(r: Stored, s: State, agenda: seq<Task>): Stored {
    r.(persisted := s.persisted, running := if agenda == [] then None else Some(Running(s.pass, agenda)))
  }

  lemma AdvanceStored(cfg: Config, r: Stored, w: World, id: ReplicaId, fate: Fate, l: Location)
    requires r.running.Some? && r.running.value.agenda != [] && StoredOk(cfg, r, id, l)
    requires var s := State(w, r.persisted, r.running.value.pass);
             Good(cfg, s, l) && LossHarmless(cfg, fate, s.pass, r.running.value.agenda[0], l)
    ensures var s := State(w, r.persisted, r.running.value.pass);
            var (s', agenda') := AdvanceState(cfg, fate, r.running.value.agenda, s);
            StoredOk(cfg, RecordAfter(r, s', agenda'), id, l) && Good(cfg, s', l) && SamePass(s.pass, s'.pass)
  {
    hide Owns, Tracked, WellFormed, AgendaBelongs, AdvanceState, Syncing, ClustersOk, AllSeen, StateCovered, LossHarmless;
    PassAdvances(cfg, fate, r.running.value.agenda, State(w, r.persisted, r.running.value.pass), l);
  }

  lemma AdvanceCovered(cfg: Config, sys: System, id: ReplicaId, fate: Fate, l: Location)
    requires Enabled(cfg, sys, Advance(id, fate)) && Covered(cfg, sys, id, l) && StoredOk(cfg, sys.replicas[id], id, l)
    requires var (s', _) := AdvanceState(cfg, fate, sys.replicas[id].running.value.agenda, StateOf(sys, id));
             Good(cfg, s', l) && SamePass(StateOf(sys, id).pass, s'.pass)
    ensures Covered(cfg, Next(cfg, sys, Advance(id, fate)), id, l)
  {
    var agenda := sys.replicas[id].running.value.agenda;
    assert agenda[0] in agenda && (IsSync(agenda[0]) ==> Syncing(agenda));
    OwnedByStep(cfg, fate, agenda[0], StateOf(sys, id), l);
    hide Owns, Tracked, WellFormed, Belongs, Ordered, Step, Syncing, ClustersOk, ClusterExists, AllSeen;
  }

  lemma AdvanceKeeps(cfg: Config, sys: System, id: ReplicaId, fate: Fate, l: Location)
    requires Inv(cfg, sys, id, l) && Enabled(cfg, sys, Advance(id, fate)) && InScope(cfg, sys, Advance(id, fate), id, l)
    ensures Inv(cfg, Next(cfg, sys, Advance(id, fate)), id, l)
  {
    assert Good(cfg, StateOf(sys, id), l) by {
      hide Owns, Tracked, WellFormed, AllSeen, AgendaBelongs, LossHarmless;
    }
    hide Good, StoredOk, Covered, AdvanceState, LossHarmless, ClustersOk;
    AdvanceStored(cfg, sys.replicas[id], sys.world, id, fate, l);
    AdvanceCovered(cfg, sys, id, fate, l);
  }

  // ---- Other replicas and the environment ----

  /** A step of another replica's pass never makes an object id's, and leaves id's record alone. */
  lemma OthersKeep(cfg: Config, sys: System, other: ReplicaId, fate: Fate, id: ReplicaId, l: Location)
    requires Inv(cfg, sys, id, l) && other != id && Enabled(cfg, sys, Advance(other, fate))
    ensures Inv(cfg, Next(cfg, sys, Advance(other, fate)), id, l)
  {
    var s := StateOf(sys, other);
    var t := sys.replicas[other].running.value.agenda[0];
    StepOfOthers(cfg, fate, t, s, id, l);
    hide Owns, Tracked, WellFormed, Belongs, Ordered, Step, Syncing, ClustersOk;
  }

  lemma StepOfOthers(cfg: Config, fate: Fate, t: Task, s: State, id: ReplicaId, l: Location)
    requires IdOk(id) && IdOk(s.pass.id) && s.pass.id != id
    ensures var s' := Step(cfg, fate, t, s).0;
            s'.pass.id == s.pass.id && (OwnedAt(cfg, s'.world, id, l) ==> OwnedAt(cfg, s.world, id, l))
  {
    StepChanges(cfg, fate, t, s, l);
    var before, after := Lookup(s.world.objects, l), Lookup(Step(cfg, fate, t, s).0.world.objects, l);
    hide Step, JudgeExisting;
    if SyncedBy(cfg, s.pass, t, l, before, after) && Owns(cfg.provider, id, after.value) {
      var rendered := Render(cfg, s.pass.input, t.cluster, t.namespace).target;
      SyncTakesOwnership(cfg.provider, s.pass.id, s.pass.generation, before, rendered);
      OwnerIsUnique(cfg.provider, id, s.pass.id, after.value);
    } else if t == Delete(l) && before.Some? {
      ReleaseRemovesExactly(cfg.provider, id, before.value);
    }
  }

  lemma ObjectsKeep(cfg: Config, sys: System, e: Event, id: ReplicaId, l: Location)
    requires Inv(cfg, sys, id, l) && Enabled(cfg, sys, e) && (e.EditObject? || e.EditNamespace? || e.EditClusters?)
    ensures Inv(cfg, Next(cfg, sys, e), id, l)
  {
    hide Owns, Tracked, WellFormed, Belongs, Ordered, Syncing, ClustersOk;
  }

  lemma OtherRecordsKeep(cfg: Config, sys: System, e: Event, id: ReplicaId, l: Location)
    requires Inv(cfg, sys, id, l) && Enabled(cfg, sys, e)
    requires (e.Crash? || e.CreateReplica? || e.EditReplica? || e.DeleteReplica?) && e.id != id
    ensures Inv(cfg, Next(cfg, sys, e), id, l)
  {
    OtherRecordsCovered(cfg, sys, e, id, l);
    hide ClustersOk, StoredOk, Covered;
  }

  lemma OtherRecordsCovered(cfg: Config, sys: System, e: Event, id: ReplicaId, l: Location)
    requires Covered(cfg, sys, id, l) && Enabled(cfg, sys, e)
    requires (e.Crash? || e.CreateReplica? || e.EditReplica? || e.DeleteReplica?) && e.id != id
    ensures Covered(cfg, Next(cfg, sys, e), id, l)
  {
    hide OwnedAt, Tracked, ClusterExists;
  }

  /** The replica's record after its own event keeps what it has to. */
  lemma OwnRecordOk(cfg: Config, sys: System, e: Event, id: ReplicaId, l: Location)
    requires Inv(cfg, sys, id, l) && Enabled(cfg, sys, e)
    requires (e.Crash? || e.CreateReplica? || e.EditReplica? || e.DeleteReplica?) && e.id == id
    ensures var sys' := Next(cfg, sys, e);
            && (id in sys'.replicas ==> StoredOk(cfg, sys'.replicas[id], id, l))
            && (id in sys'.replicas && sys'.replicas[id].running.Some? ==> id in sys.replicas && sys'.replicas[id].running == sys.replicas[id].running)
  {
    assert WellFormed([]);
    hide Owns, Tracked, WellFormed, Belongs, Ordered, Syncing, ClustersOk, Covered;
  }

  lemma OwnRecordKeeps(cfg: Config, sys: System, e: Event, id: ReplicaId, l: Location)
    requires Inv(cfg, sys, id, l) && Enabled(cfg, sys, e)
    requires (e.Crash? || e.CreateReplica? || e.EditReplica? || e.DeleteReplica?) && e.id == id
    ensures Inv(cfg, Next(cfg, sys, e), id, l)
  {
    OwnRecordOk(cfg, sys, e, id, l);
    OwnRecordCovered(cfg, sys, e, id, l);
    var sys' := Next(cfg, sys, e);
    assert forall i :: i in sys'.replicas && i != id ==> i in sys.replicas && sys'.replicas[i] == sys.replicas[i];
    hide ClustersOk, StoredOk, Covered;
  }

  lemma OwnRecordCovered(cfg: Config, sys: System, e: Event, id: ReplicaId, l: Location)
    requires Covered(cfg, sys, id, l) && Enabled(cfg, sys, e)
    requires (e.Crash? || e.CreateReplica? || e.EditReplica? || e.DeleteReplica?) && e.id == id
    ensures Covered(cfg, Next(cfg, sys, e), id, l)
  {
    hide OwnedAt, Tracked, ClusterExists;
  }

  lemma RecordsKeep(cfg: Config, sys: System, e: Event, id: ReplicaId, l: Location)
    requires Inv(cfg, sys, id, l) && Enabled(cfg, sys, e)
    requires e.Crash? || e.CreateReplica? || e.EditReplica? || e.DeleteReplica?
    ensures Inv(cfg, Next(cfg, sys, e), id, l)
  {
    hide Inv, Next;
    if e.id == id {
      OwnRecordKeeps(cfg, sys, e, id, l);
    } else {
      OtherRecordsKeep(cfg, sys, e, id, l);
    }
  }

  lemma EventKeeps(cfg: Config, sys: System, e: Event, id: ReplicaId, l: Location)
    requires Inv(cfg, sys, id, l) && Enabled(cfg, sys, e) && InScope(cfg, sys, e, id, l)
    ensures Inv(cfg, Next(cfg, sys, e), id, l)
  {
    match e
    case Reconcile(i, fate) =>
      if i == id {
        StartStored(cfg, id, fate, sys.clusters, sys.replicas[id], l);
        StartCovered(cfg, sys, id, fate, l);
      } else {
        assert Start(i, fate, sys.clusters, sys.replicas[i]).running.Some? ==> Start(i, fate, sys.clusters, sys.replicas[i]).running.value.pass.id == i;
      }
      hide Owns, Tracked, WellFormed, Belongs, Ordered, Step, Syncing, ClustersOk, Start, ClusterExists, OwnedAt;
    case Advance(i, fate) =>
      if i == id {
        AdvanceKeeps(cfg, sys, id, fate, l);
      } else {
        OthersKeep(cfg, sys, i, fate, id, l);
      }
      hide Next, Inv;
    case EditObject(_, _) => ObjectsKeep(cfg, sys, e, id, l);
    case EditNamespace(_, _, _) => ObjectsKeep(cfg, sys, e, id, l);
    case EditClusters(_) => ObjectsKeep(cfg, sys, e, id, l);
    case Crash(_) => RecordsKeep(cfg, sys, e, id, l);
    case CreateReplica(_, _, _, _, _) => RecordsKeep(cfg, sys, e, id, l);
    case EditReplica(_, _, _, _, _) => RecordsKeep(cfg, sys, e, id, l);
    case DeleteReplica(_) => RecordsKeep(cfg, sys, e, id, l);
  }

  ghost predicate AllInScope(cfg: Config, sys: System, events: seq<Event>, id: ReplicaId, l: Location)
    requires CanHappen(cfg, sys, events)
    decreases |events|
  {
    events == [] || (InScope(cfg, sys, events[0], id, l) && AllInScope(cfg, Next(cfg, sys, events[0]), events[1..], id, l))
  }

  /** No orphans, over every run. */
  lemma {:induction false} NoOrphan(cfg: Config, sys: System, events: seq<Event>, id: ReplicaId, l: Location)
    requires Inv(cfg, sys, id, l) && CanHappen(cfg, sys, events) && AllInScope(cfg, sys, events, id, l)
    ensures Inv(cfg, After(cfg, sys, events), id, l)
    decreases |events|
  {
    if events != [] {
      hide Inv, InScope;
      EventKeeps(cfg, sys, events[0], id, l);
      NoOrphan(cfg, Next(cfg, sys, events[0]), events[1..], id, l);
    }
  }

  // ---- The results ----

  /** Nothing at l is id's yet and no pass runs. */
  ghost predicate Fresh(cfg: Config, sys: System, id: ReplicaId, l: Location) {
    && IdOk(id)
    && ClustersOk(sys.clusters)
    && (forall i :: i in sys.replicas ==> IdOk(i) && sys.replicas[i].running.None?)
    && (id in sys.replicas ==> WellFormed(sys.replicas[id].persisted))
    && !OwnedAt(cfg, sys.world, id, l)
  }

  /** l carries id's labels on an existing cluster, but id's stored status does not know it. */
  ghost predicate Orphan(cfg: Config, sys: System, id: ReplicaId, l: Location) {
    && OwnedAt(cfg, sys.world, id, l)
    && ClusterExists(sys.clusters, l.cluster)
    && !(id in sys.replicas && sys.replicas[id].finalizer && l in Tracked(sys.replicas[id].persisted))
  }

  /** After any run, with calls failing and passes stopping anywhere, no object of id is left that its stored status does not list. */
  lemma NoOrphansEver(cfg: Config, sys: System, events: seq<Event>, id: ReplicaId, l: Location)
    requires Fresh(cfg, sys, id, l) && CanHappen(cfg, sys, events)
    requires AllInScope(cfg, sys, events, id, l)
    ensures !Orphan(cfg, After(cfg, sys, events), id, l)
  {
    NoOrphan(cfg, sys, events, id, l);
  }

  lemma OntoHarmless(cfg: Config, sys: System, e: Event, id: ReplicaId, l: Location)
    requires l.cluster != HOSTING
    ensures InScope(cfg, sys, e, id, l)
  {}

  /** No two targets of the pass live at l under different keys. */
  ghost predicate OneKey(cfg: Config, p: Pass, l: Location) {
    forall t, u :: MayTarget(cfg, p, t) && MayTarget(cfg, p, u) && RenderedAt(cfg, p, t, l) && RenderedAt(cfg, p, u, l) ==> KeyFor(t, l) == KeyFor(u, l)
  }

  ghost predicate AllOneKey(cfg: Config, sys: System, events: seq<Event>, id: ReplicaId, l: Location)
    requires CanHappen(cfg, sys, events)
    decreases |events|
  {
    && (id in sys.replicas && sys.replicas[id].running.Some? ==> OneKey(cfg, sys.replicas[id].running.value.pass, l))
    && (events != [] ==> AllOneKey(cfg, Next(cfg, sys, events[0]), events[1..], id, l))
  }

  /** No orphan can come about at l while every pass has one key at most for it, whether or not patches are lost. */
  lemma {:induction false} OneKeyInScope(cfg: Config, sys: System, events: seq<Event>, id: ReplicaId, l: Location)
    requires Inv(cfg, sys, id, l) && CanHappen(cfg, sys, events) && AllOneKey(cfg, sys, events, id, l)
    ensures AllInScope(cfg, sys, events, id, l)
    decreases |events|
  {
    if events != [] {
      var e := events[0];
      assert InScope(cfg, sys, e, id, l) by {
        hide MayTarget, RenderedAt, Next, Covered, Ordered, Tracked, WellFormed;
        if e.Advance? && e.id == id {
          var agenda := sys.replicas[id].running.value.agenda;
          assert agenda[0] in agenda;
        }
      }
      hide Inv, InScope, Next, Enabled;
      EventKeeps(cfg, sys, e, id, l);
      OneKeyInScope(cfg, Next(cfg, sys, e), events[1..], id, l);
    }
  }

  /** On every cluster but the hosting one this needs no further condition. */
  lemma {:induction false} OntoAlwaysInScope(cfg: Config, sys: System, events: seq<Event>, id: ReplicaId, l: Location)
    requires CanHappen(cfg, sys, events) && l.cluster != HOSTING
    ensures AllInScope(cfg, sys, events, id, l)
    decreases |events|
  {
    if events != [] {
      OntoHarmless(cfg, sys, events[0], id, l);
      hide InScope, Next, Enabled;
      OntoAlwaysInScope(cfg, Next(cfg, sys, events[0]), events[1..], id, l);
    }
  }

  /** When a reconcile takes the finalizer away, no object of id is left. */
  lemma FinalizerGoesLast(cfg: Config, sys: System, events: seq<Event>, fate: Fate, id: ReplicaId, l: Location)
    requires Fresh(cfg, sys, id, l) && CanHappen(cfg, sys, events) && AllInScope(cfg, sys, events, id, l)
    requires var s := After(cfg, sys, events);
             && Enabled(cfg, s, Reconcile(id, fate))
             && s.replicas[id].finalizer && !Next(cfg, s, Reconcile(id, fate)).replicas[id].finalizer
    ensures var s := Next(cfg, After(cfg, sys, events), Reconcile(id, fate));
            ClusterExists(s.clusters, l.cluster) ==> !OwnedAt(cfg, s.world, id, l)
  {
    NoOrphan(cfg, sys, events, id, l);
    var s := After(cfg, sys, events);
    assert s.replicas[id].persisted == [];
    assert Tracked([]) == {};
  }

  /** A write leaves its object in the stored status unless memory alone already held the entry. */
  lemma WriteCoveredExactly(cfg: Config, fate: Fate, key: Location, at: Location, rendered: Object, s: State)
    requires WellFormed(s.pass.status) && WellFormed(s.persisted)
    requires Tracked(s.pass.oldStatus) <= Tracked(s.pass.status)
    requires HasAt(s.pass.status, at) || fate.patch.Ok?
    ensures at in Tracked(Write(cfg, fate, key, at, rendered, s).persisted) <==>
              (at in Tracked(s.pass.status) ==> at in Tracked(s.persisted))
  {
    hide Tracked, WellFormed, HasAt, AddedAt, CreateOrUpdate;
    RawRefinesSet(s.pass.status, at);
    if HasAt(s.pass.status, at) {
      CreateOrUpdateEffect(cfg, fate, key, at, rendered, s);
    } else {
      var status := AddedAt(s.pass.status, at);
      assert at in Tracked(status);
      assert status != s.pass.oldStatus;
      CreateOrUpdateEffect(cfg, fate, key, at, rendered,
        s.(persisted := status, pass := s.pass.(status := status, oldStatus := status)));
    }
  }
}
