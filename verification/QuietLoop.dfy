/** What the loops of a pass keep when no call fails. */
module QuietLoop {
  import opened Refs
  import opened StatusList
  import opened Objects
  import opened Targets
  import opened Steps
  import opened System
  import opened Agenda
  import opened DeletionPhase
  import opened Quiet
  import opened Resolution

  /** What is in memory has been stored. */
  ghost predicate InStore(s: State) {
    s.persisted == s.pass.status && s.pass.oldStatus == s.pass.status && WellFormed(s.pass.status)
  }

  /** What the conflict policy, or the namespace policy if there is no object, says about a target. */
  function Judged(def: TargetDefinition, id: ReplicaId, w: World, home: Location): Verdict {
    match Lookup(w.objects, home)
    case Some(o) => JudgeExisting(def, id, o)
    case None =>
      if home.ref.namespace == "" then Proceed
      else JudgeNamespace(def, Lookup(w.namespaces, (home.cluster, home.ref.namespace)))
  }

  /** The namespace a write has to create first. */
  predicate NeedsNamespace(w: World, home: Location) {
    home !in w.objects && home.ref.namespace != "" && (home.cluster, home.ref.namespace) !in w.namespaces
  }

  function Written(cfg: Config, home: Location, copy: Object, w: World): World {
    var w' := if NeedsNamespace(w, home) then CreateNamespace(cfg, home.cluster, home.ref.namespace, w) else w;
    w'.(objects := w.objects[home := CreatedOrUpdated(Lookup(w.objects, home), copy)])
  }

  ghost predicate SameRequest(p: Pass, p': Pass) {
    p'.id == p.id && p'.inDeletion == p.inDeletion && p'.generation == p.generation && p'.input == p.input
    && p'.defs == p.defs && p'.clusters == p.clusters
  }

  /** Only conditions and counters differ. */
  ghost predicate OnlyConditions(s: State, s': State) {
    s'.world == s.world && s'.pass.status == s.pass.status && s'.pass.managed == s.pass.managed && s'.pass.seen == s.pass.seen
    && s'.pass.reached == s.pass.reached
  }

  ghost predicate Reports(cfg: Config, key: Location, s: State, s': State) {
    exists ok, reason :: s'.pass.conditions == s.pass.conditions + [TargetCondition(cfg.targetCondition(key), ok, reason)]
  }

  ghost predicate Reaches(key: Location, raw: string, s: State, s': State) {
    s'.pass.seen == s.pass.seen[key := raw] && s'.pass.reached == s.pass.reached + [key]
  }

  ghost predicate Writes(cfg: Config, home: Location, copy: Object, s: State, s': State) {
    && s'.world == Written(cfg, home, copy, s.world)
    && s'.pass.status == AddedAt(s.pass.status, home)
    && s'.pass.managed == s.pass.managed + [home]
  }

  /** The innermost loop body when its calls succeed. */
  ghost predicate TargetDone(cfg: Config, def: TargetDefinition, cluster: Option<Cluster>, namespace: string, s: State, s': State) {
    && InStore(s') && SameRequest(s.pass, s'.pass)
    && match Render(cfg, s.pass.input, cluster, namespace)
       case TemplateFailed => OnlyConditions(s, s') && s'.pass.conditions == s.pass.conditions
       case MarshalFailed(ref) => OnlyConditions(s, s') && Reports(cfg, Key(cluster, ref), s, s')
       case Rendered(raw, ref, rendered) =>
         var key, home := Key(cluster, ref), Location(HomeRef(def, cluster), ref);
         && Reports(cfg, key, s, s')
         && if key in s.pass.seen then OnlyConditions(s, s')
            else
              && Reaches(key, raw, s, s')
              && if Judged(def, s.pass.id, s.world, home).Proceed?
                 then Writes(cfg, home, Copy(cfg, s.pass, rendered), s, s')
                 else s'.world == s.world && s'.pass.status == s.pass.status && s'.pass.managed == s.pass.managed
  }

  lemma CreateOrUpdateDone(cfg: Config, key: Location, at: Location, rendered: Object, s: State)
    ensures var s' := Steps.CreateOrUpdate(cfg, ALL_OK, key, at, rendered, s);
            && s' == s.(world := s.world.(objects := s.world.objects[at := CreatedOrUpdated(Lookup(s.world.objects, at), rendered)]),
                        pass := s.pass.(managed := s.pass.managed + [at],
                                        conditions := s.pass.conditions + [TargetCondition(cfg.targetCondition(key), true, Synced)]))
  {}

  lemma WriteDone(cfg: Config, key: Location, at: Location, rendered: Object, s: State)
    requires InStore(s)
    ensures var s' := Steps.Write(cfg, ALL_OK, key, at, rendered, s);
            && InStore(s') && SameRequest(s.pass, s'.pass) && Reports(cfg, key, s, s')
            && s'.world == s.world.(objects := s.world.objects[at := CreatedOrUpdated(Lookup(s.world.objects, at), rendered)])
            && s'.pass.status == AddedAt(s.pass.status, at) && s'.pass.managed == s.pass.managed + [at]
            && s'.pass.seen == s.pass.seen && s'.pass.reached == s.pass.reached
  {
    RawRefinesSet(s.pass.status, at);
    hide Steps.CreateOrUpdate, CreatedOrUpdated, WellFormed, Tracked, AddedAt;
    if HasAt(s.pass.status, at) {
      CreateOrUpdateDone(cfg, key, at, rendered, s);
    } else {
      var status := AddedAt(s.pass.status, at);
      CreateOrUpdateDone(cfg, key, at, rendered,
        s.(persisted := Patched(s.persisted, s.pass.oldStatus, status), pass := s.pass.(status := status, oldStatus := status)));
    }
    hide HasAt;
  }

  /** Past conflict detection a quiet target is refused or written. */
  lemma SyncTargetIs(cfg: Config, def: TargetDefinition, cluster: Option<Cluster>, ref: TypedRef, copy: Object, s: State)
    ensures var key, home := Key(cluster, ref), Location(HomeRef(def, cluster), ref);
            Steps.SyncTarget(cfg, ALL_OK, def, cluster, ref, copy, s) ==
            match Judged(def, s.pass.id, s.world, home)
            case Refuse(ok, reason) => Steps.Report(cfg, key, ok, reason, s)
            case Proceed =>
              Steps.Write(cfg, ALL_OK, key, home, copy,
                          if NeedsNamespace(s.world, home) then s.(world := CreateNamespace(cfg, home.cluster, ref.namespace, s.world)) else s)
  {
    hide Steps.Write, Steps.Report, CreateNamespace, HomeRef, JudgeExisting;
  }

  lemma RefusalDone(cfg: Config, key: Location, ok: bool, reason: Reason, s: State)
    requires InStore(s)
    ensures var s' := Steps.Report(cfg, key, ok, reason, s);
            InStore(s') && SameRequest(s.pass, s'.pass) && Reports(cfg, key, s, s') && OnlyConditions(s, s')
  {}

  lemma SyncTargetDone(cfg: Config, def: TargetDefinition, cluster: Option<Cluster>, ref: TypedRef, copy: Object, s: State)
    requires InStore(s)
    ensures var s' := Steps.SyncTarget(cfg, ALL_OK, def, cluster, ref, copy, s);
            var home := Location(HomeRef(def, cluster), ref);
            && InStore(s') && SameRequest(s.pass, s'.pass) && Reports(cfg, Key(cluster, ref), s, s')
            && s'.pass.seen == s.pass.seen && s'.pass.reached == s.pass.reached
            && if Judged(def, s.pass.id, s.world, home).Proceed? then Writes(cfg, home, copy, s, s') else OnlyConditions(s, s')
  {
    var home := Location(HomeRef(def, cluster), ref);
    var key := Key(cluster, ref);
    SyncTargetIs(cfg, def, cluster, ref, copy, s);
    match Judged(def, s.pass.id, s.world, home)
    case Refuse(ok, reason) => RefusalDone(cfg, key, ok, reason, s);
    case Proceed =>
      var made := if NeedsNamespace(s.world, home) then s.(world := CreateNamespace(cfg, home.cluster, ref.namespace, s.world)) else s;
      assert made.world.objects == s.world.objects && made.pass == s.pass && InStore(made);
      WriteDone(cfg, key, home, copy, made);
      hide Steps.Write, Steps.SyncTarget, HomeRef, Key, CreatedOrUpdated, AddedAt, WellFormed, Judged;
  }

  lemma TickedDone(cfg: Config, def: TargetDefinition, cluster: Option<Cluster>, namespace: string, s: State, s': State)
    requires TargetDone(cfg, def, cluster, namespace, s, s')
    ensures TargetDone(cfg, def, cluster, namespace, s, Ticked(s'))
  {
    hide Render, Judged, Written, WellFormed, Copy, AddedAt;
  }

  lemma QuietTarget(cfg: Config, fate: Fate, def: TargetDefinition, cluster: Option<Cluster>, namespace: string, s: State)
    requires Succeeds(fate) && InStore(s)
    ensures TargetDone(cfg, def, cluster, namespace, s, Ticked(HandleTarget(cfg, fate, def, cluster, namespace, s)))
  {
    PickDoesNotMatter(cfg, fate, def, cluster, namespace, s);
    QuietTargetOk(cfg, def, cluster, namespace, s);
    hide TargetDone, HandleTarget;
    TickedDone(cfg, def, cluster, namespace, s, HandleTarget(cfg, ALL_OK, def, cluster, namespace, s));
  }

  lemma QuietTargetOk(cfg: Config, def: TargetDefinition, cluster: Option<Cluster>, namespace: string, s: State)
    requires InStore(s)
    ensures TargetDone(cfg, def, cluster, namespace, s, HandleTarget(cfg, ALL_OK, def, cluster, namespace, s))
  {
    match Render(cfg, s.pass.input, cluster, namespace)
    case TemplateFailed => hide Render;
    case MarshalFailed(_) => hide Render;
    case Rendered(raw, ref, rendered) =>
      var key := Key(cluster, ref);
      var s1 := s.(pass := s.pass.(renderings := s.pass.renderings + [(key, raw)]));
      var s2 := s1.(pass := s1.pass.(seen := s.pass.seen[key := raw], reached := s.pass.reached + [key]));
      HandleRendered(cfg, ALL_OK, def, cluster, namespace, s);
      hide Render, HandleTarget, Steps.SyncTarget, Judged, Written, WellFormed, Copy, AddedAt;
      if key !in s.pass.seen {
        SyncTargetDone(cfg, def, cluster, ref, Copy(cfg, s.pass, rendered), s2);
      } else {
        RefusalDone(cfg, key, false, RenderedDifferently, s1);
        RefusalDone(cfg, key, true, IdenticalCopy, s1);
        hide Steps.Report;
      }
  }

  lemma PickDoesNotMatter(cfg: Config, fate: Fate, def: TargetDefinition, cluster: Option<Cluster>, namespace: string, s: State)
    requires Succeeds(fate)
    ensures HandleTarget(cfg, fate, def, cluster, namespace, s) == HandleTarget(cfg, ALL_OK, def, cluster, namespace, s)
  {
    hide Steps.Report, JudgeExisting, JudgeNamespace, CreatedOrUpdated, Render;
  }

  // ---- The world a pass works on ----

  /** A namespaced object lives in an existing namespace. */
  ghost predicate Housed(w: World) {
    forall l :: l in w.objects && l.ref.namespace != "" ==> (l.cluster, l.ref.namespace) in w.namespaces
  }

  /** A ClusterReplica renders no owner-namespace label. */
  ghost predicate NoStrayLabel(cfg: Config, p: Pass) {
    IdOk(p.id) &&
    (p.id.kind.ClusterReplica? ==> forall cluster, n :: var r := Render(cfg, p.input, cluster, n); r.Rendered? ==> Label(r.target.labels, SourceNamespace) == "")
  }

  /** A listing is complete, Clusters have references of their own, namespaces have names and objects live in them. */
  ghost predicate Scope(cfg: Config, s: State) {
    && ListsAll(cfg) && ClustersOk(s.pass.clusters) && NoStrayLabel(cfg, s.pass)
    && Named(s.world) && Housed(s.world) && InStore(s)
  }

  /** The further namespaces are as they are created. */
  ghost predicate OnlyFresh(cfg: Config, w: World, w': World) {
    forall k :: k in w'.namespaces && k !in w.namespaces ==> w'.namespaces[k] == Namespace(cfg.freshLabels(k.1), false)
  }

  lemma CopyIsOwned(cfg: Config, p: Pass, cluster: Option<Cluster>, n: string, existing: Option<Object>)
    requires NoStrayLabel(cfg, p) && Render(cfg, p.input, cluster, n).Rendered?
    ensures var o := CreatedOrUpdated(existing, Copy(cfg, p, Render(cfg, p.input, cluster, n).target));
            && OwnedByThis(p.id, o) && IsManaged(cfg.provider, p.id, o)
            && (o.inDeletion <==> existing.Some? && existing.value.inDeletion)
  {
    var rendered := Render(cfg, p.input, cluster, n).target;
    SyncTakesOwnership(cfg.provider, p.id, p.generation, existing, rendered);
    hide Render;
  }

  lemma WrittenWorld(cfg: Config, home: Location, copy: Object, w: World)
    requires Named(w) && Housed(w)
    ensures var w' := Written(cfg, home, copy, w);
            && w'.objects == w.objects[home := CreatedOrUpdated(Lookup(w.objects, home), copy)]
            && NamespacesGrow(w, w') && OnlyFresh(cfg, w, w') && Named(w') && Housed(w')
  {
    hide CreatedOrUpdated;
  }

  lemma GrowTwice(a: World, b: World, c: World)
    requires NamespacesGrow(a, b) && NamespacesGrow(b, c)
    ensures NamespacesGrow(a, c)
  {}

  lemma FreshTwice(cfg: Config, a: World, b: World, c: World)
    requires NamespacesGrow(b, c) && OnlyFresh(cfg, a, b) && OnlyFresh(cfg, b, c)
    ensures OnlyFresh(cfg, a, c)
  {}

  /** What the loops keep about objects, from their start in s0. */
  ghost predicate ObjectsKept(cfg: Config, s0: State, s: State) {
    && (forall l :: l in s.world.objects && s.world.objects[l].inDeletion ==> l in s0.world.objects && s0.world.objects[l].inDeletion)
    && (forall l :: l in s.pass.managed ==>
          l in s.world.objects && OwnedByThis(s.pass.id, s.world.objects[l]) && IsManaged(cfg.provider, s.pass.id, s.world.objects[l]))
    && (forall l :: l !in s.pass.managed ==> Lookup(s.world.objects, l) == Lookup(s0.world.objects, l))
  }

  /** What they keep about the status. */
  ghost predicate StatusKept(s0: State, s: State) {
    && (forall l :: l in Tracked(s.pass.status) <==> l in Tracked(s0.pass.status) || l in s.pass.managed)
    && ((forall l :: l in s.pass.managed ==> l in Tracked(s0.pass.status)) ==> s.pass.status == s0.pass.status)
  }

  ghost predicate ClustersFine(conditions: seq<Condition>) {
    forall c :: c in conditions && c.ClusterCondition? ==> c.ok
  }

  ghost predicate WorldKept(cfg: Config, s0: State, s: State) {
    && InStore(s) && SameRequest(s0.pass, s.pass)
    && NamespacesGrow(s0.world, s.world) && OnlyFresh(cfg, s0.world, s.world) && Named(s.world) && Housed(s.world)
    && ObjectsKept(cfg, s0, s) && StatusKept(s0, s) && ClustersFine(s.pass.conditions)
  }

  ghost predicate IsCopy(cfg: Config, id: ReplicaId, before: Option<Object>, o: Object) {
    OwnedByThis(id, o) && IsManaged(cfg.provider, id, o) && (o.inDeletion <==> before.Some? && before.value.inDeletion)
  }

  lemma ObjectsKeptWrite(cfg: Config, home: Location, o: Object, s0: State, s: State, s': State)
    requires ObjectsKept(cfg, s0, s) && IsCopy(cfg, s.pass.id, Lookup(s.world.objects, home), o)
    requires s'.world.objects == s.world.objects[home := o] && s'.pass.managed == s.pass.managed + [home] && s'.pass.id == s.pass.id
    ensures ObjectsKept(cfg, s0, s')
  {
    hide OwnedByThis, IsManaged;
    assert forall l :: l in s'.pass.managed <==> l in s.pass.managed || l == home;
    forall l | l in s'.world.objects && s'.world.objects[l].inDeletion ensures l in s0.world.objects && s0.world.objects[l].inDeletion {
      assert l in s.world.objects && s.world.objects[l].inDeletion;
    }
    forall l | l !in s'.pass.managed ensures Lookup(s'.world.objects, l) == Lookup(s0.world.objects, l) {
      assert Lookup(s'.world.objects, l) == Lookup(s.world.objects, l);
    }
  }

  lemma StatusKeptWrite(home: Location, s0: State, s: State, s': State)
    requires StatusKept(s0, s) && WellFormed(s.pass.status)
    requires s'.pass.status == AddedAt(s.pass.status, home) && s'.pass.managed == s.pass.managed + [home]
    ensures StatusKept(s0, s')
  {
    RawRefinesSet(s.pass.status, home);
    assert forall l :: l in s'.pass.managed <==> l in s.pass.managed || l == home;
    hide WellFormed, Tracked, AddedAt;
  }

  lemma FineStays(cfg: Config, key: Location, s: State, s': State)
    requires ClustersFine(s.pass.conditions) && Reports(cfg, key, s, s')
    ensures ClustersFine(s'.pass.conditions)
  {}

  lemma WorldKeptWrite(cfg: Config, home: Location, copy: Object, s0: State, s: State, s': State)
    requires WorldKept(cfg, s0, s) && InStore(s') && SameRequest(s.pass, s'.pass) && Writes(cfg, home, copy, s, s')
    requires IsCopy(cfg, s.pass.id, Lookup(s.world.objects, home), CreatedOrUpdated(Lookup(s.world.objects, home), copy))
    requires ClustersFine(s'.pass.conditions)
    ensures WorldKept(cfg, s0, s')
  {
    WrittenWorld(cfg, home, copy, s.world);
    hide Written, WellFormed, AddedAt, ObjectsKept, StatusKept, ClustersFine, IsCopy, CreatedOrUpdated, Housed, Named, NamespacesGrow, OnlyFresh;
    GrowTwice(s0.world, s.world, s'.world);
    FreshTwice(cfg, s0.world, s.world, s'.world);
    ObjectsKeptWrite(cfg, home, CreatedOrUpdated(Lookup(s.world.objects, home), copy), s0, s, s');
    StatusKeptWrite(home, s0, s, s');
  }

  lemma WorldKeptOnly(cfg: Config, s0: State, s: State, s': State)
    requires WorldKept(cfg, s0, s) && InStore(s') && SameRequest(s.pass, s'.pass) && ClustersFine(s'.pass.conditions)
    requires s'.world == s.world && s'.pass.status == s.pass.status && s'.pass.managed == s.pass.managed
    ensures WorldKept(cfg, s0, s')
  {
    hide WellFormed, Tracked, ClustersFine, OwnedByThis, IsManaged, OnlyFresh;
  }

  lemma WorldKeptTarget(cfg: Config, def: TargetDefinition, cluster: Option<Cluster>, n: string, s0: State, s: State, s': State)
    requires NoStrayLabel(cfg, s.pass) && WorldKept(cfg, s0, s) && TargetDone(cfg, def, cluster, n, s, s')
    ensures WorldKept(cfg, s0, s')
  {
    var r := Render(cfg, s.pass.input, cluster, n);
    if r.Rendered? {
      FineStays(cfg, Key(cluster, r.ref), s, s');
    } else if r.MarshalFailed? {
      FineStays(cfg, Key(cluster, r.ref), s, s');
    }
    if r.Rendered? && Key(cluster, r.ref) !in s.pass.seen {
      var home := Location(HomeRef(def, cluster), r.ref);
      CopyIsOwned(cfg, s.pass, cluster, n, Lookup(s.world.objects, home));
      hide Render, WorldKept, OwnedByThis, IsManaged, CreatedOrUpdated, NoStrayLabel, Written, Judged, AddedAt, WellFormed, ClustersFine;
      assert ClustersFine(s'.pass.conditions);
      if Judged(def, s.pass.id, s.world, home).Proceed? {
        WorldKeptWrite(cfg, home, Copy(cfg, s.pass, r.target), s0, s, s');
      } else {
        WorldKeptOnly(cfg, s0, s, s');
      }
    } else {
      hide Render, OwnedByThis, IsManaged, ObjectsKept, StatusKept, NoStrayLabel, Written, Judged, AddedAt, WellFormed;
      WorldKeptOnly(cfg, s0, s, s');
    }
  }
}
