/** One reconcile pass (internal/replica/controller.go) as an agenda of tasks, each a step that another replica may run between. */
module Steps {
  import opened Refs
  import opened StatusList
  import opened Objects
  import opened Targets

  /** A write that returned an error may or may not have taken effect. */
  datatype Call = Ok | Lost | Applied

  /** How the calls of one task end; pick chooses among clusters where the source walks a map. */
  datatype Fate = Fate(
    access: bool, list: bool, get: bool, getNamespace: bool, sources: bool,
    createNamespace: Call, finalizer: Call, patch: Call, write: Call, pick: nat)

  datatype Reason = Synced | Skipped | IdenticalCopy | RenderedDifferently | Failed | WaitingForDeletion

  datatype Condition =
    | ClusterCondition(name: string, ok: bool)
    | TargetCondition(name: string, ok: bool, reason: Reason)
    | OtherCondition(ok: bool)

  datatype World = World(objects: map<Location, Object>, namespaces: map<(ObjectReference, string), Namespace>)

  /** What a pass holds in memory. A key in seen is a Location whose cluster is the target's own reference;
      managed uses the home reference. clock, renderings and reached (the keys that got past conflict detection) record the history of the pass. */
  datatype Pass = Pass(
    id: ReplicaId, inDeletion: bool, generation: string, input: string,
    defs: seq<TargetDefinition>, clusters: seq<Cluster>,
    status: seq<Group>, oldStatus: seq<Group>,
    managed: seq<Location>, seen: map<Location, string>, conditions: seq<Condition>, errors: nat,
    clock: nat, renderings: seq<(Location, string)>, reached: seq<Location>)

  /** What a step of one replica's pass reads and writes. */
  datatype State = State(world: World, persisted: seq<Group>, pass: Pass)

  datatype Bucket = Bucket(cluster: ObjectReference, refs: seq<TypedRef>)

  datatype Task =
    | Definition(def: TargetDefinition)
    | OpenCluster(def: TargetDefinition, cluster: Option<Cluster>)
    | Target(def: TargetDefinition, cluster: Option<Cluster>, namespace: string)
    | CloseCluster(cluster: Option<Cluster>)
    | Plan
    | Obsolete(buckets: seq<Bucket>)
    | OpenBucket(bucket: Bucket)
    | Delete(l: Location)
    | Cleanup
    | UpdateStatus

  /** Entries of the nested loops that render and sync targets. */
  predicate IsLoop(t: Task) {
    t.Definition? || t.OpenCluster? || t.Target? || t.CloseCluster?
  }

  function Key(cluster: Option<Cluster>, ref: TypedRef): Location {
    Location(OwnRef(cluster), ref)
  }

  function WithCondition(s: State, c: Condition): State {
    s.(pass := s.pass.(conditions := s.pass.conditions + [c]))
  }

  function WithError(s: State): State {
    s.(pass := s.pass.(errors := s.pass.errors + 1))
  }

  function Report(cfg: Config, key: Location, ok: bool, reason: Reason, s: State): State {
    var s' := WithCondition(s, TargetCondition(cfg.targetCondition(key), ok, reason));
    if ok || reason.WaitingForDeletion? then s' else WithError(s')
  }

  function ClusterFailed(cfg: Config, cluster: ObjectReference, s: State): State {
    WithError(WithCondition(s, ClusterCondition(cfg.clusterCondition(cluster), false)))
  }

  /** A merge patch sends the list only if it differs from the copy taken at the last successful write. */
  function Patched(persisted: seq<Group>, oldStatus: seq<Group>, status: seq<Group>): seq<Group> {
    if status == oldStatus then persisted else status
  }

  // ---- One target ----

  datatype Verdict = Proceed | Refuse(ok: bool, reason: Reason)

  /** What the conflict policy says about an object that is there. */
  function JudgeExisting(def: TargetDefinition, id: ReplicaId, o: Object): Verdict {
    if OwnedByThis(id, o) then Proceed else
    match def.conflictPolicy
    case Overwrite => if o.inDeletion || OwnedByOther(id, o) then Refuse(false, Failed) else Proceed
    case Skip => Refuse(true, Skipped)
    case Fail => Refuse(false, Failed)
  }

  /** What the namespace policy says when there is no object; Create for a missing namespace is handled by the caller. */
  function JudgeNamespace(def: TargetDefinition, ns: Option<Namespace>): Verdict {
    match ns
    case None => (match def.namespacePolicy
                  case Create => Proceed
                  case SkipMissing => Refuse(true, Skipped)
                  case FailMissing => Refuse(false, Failed))
    case Some(n) => if !n.inDeletion then Proceed else if def.namespacePolicy.SkipMissing? then Refuse(true, Skipped) else Refuse(false, Failed)
  }

  function Lookup<K, V>(m: map<K, V>, k: K): Option<V> {
    if k in m then Some(m[k]) else None
  }

  function CreateNamespace(cfg: Config, cluster: ObjectReference, name: string, w: World): World {
    w.(namespaces := w.namespaces[(cluster, name) := Namespace(cfg.freshLabels(name), false)])
  }

  /** The part after conflict detection: existence, ownership, namespace, write-ahead status, write. */
  function SyncTarget(cfg: Config, fate: Fate, def: TargetDefinition, cluster: Option<Cluster>, ref: TypedRef, rendered: Object, s: State): State {
    var key := Key(cluster, ref);
    var home := HomeRef(def, cluster);
    var at := Location(home, ref);
    if !fate.get then Report(cfg, key, false, Failed, s)
    else match Lookup(s.world.objects, at)
      case Some(o) =>
        (match JudgeExisting(def, s.pass.id, o)
         case Refuse(ok, reason) => Report(cfg, key, ok, reason, s)
         case Proceed => Write(cfg, fate, key, at, rendered, s))
      case None =>
        if ref.namespace == "" then Write(cfg, fate, key, at, rendered, s)
        else if !fate.getNamespace then Report(cfg, key, false, Failed, s)
        else
          var ns := Lookup(s.world.namespaces, (home, ref.namespace));
          match JudgeNamespace(def, ns)
          case Refuse(ok, reason) => Report(cfg, key, ok, reason, s)
          case Proceed =>
            if ns.Some? then Write(cfg, fate, key, at, rendered, s)
            else
              var s' := if fate.createNamespace.Lost? then s else s.(world := CreateNamespace(cfg, home, ref.namespace, s.world));
              if fate.createNamespace.Ok? then Write(cfg, fate, key, at, rendered, s')
              else Report(cfg, key, false, Failed, s')
  }

  /** The entry is in the persisted status before the object is touched, unless memory already holds it. */
  function Write(cfg: Config, fate: Fate, key: Location, at: Location, rendered: Object, s: State): State {
    if HasAt(s.pass.status, at) then CreateOrUpdate(cfg, fate, key, at, rendered, s)
    else
      var status := AddedAt(s.pass.status, at);
      var persisted := if fate.patch.Lost? then s.persisted else Patched(s.persisted, s.pass.oldStatus, status);
      var s' := s.(persisted := persisted, pass := s.pass.(status := status));
      if fate.patch.Ok? then CreateOrUpdate(cfg, fate, key, at, rendered, s'.(pass := s'.pass.(oldStatus := status)))
      else Report(cfg, key, false, Failed, s')
  }

  function CreateOrUpdate(cfg: Config, fate: Fate, key: Location, at: Location, rendered: Object, s: State): State {
    var o := CreatedOrUpdated(Lookup(s.world.objects, at), rendered);
    var s' := if fate.write.Lost? then s else s.(world := s.world.(objects := s.world.objects[at := o]));
    if fate.write.Ok? then
      Report(cfg, key, true, Synced, s'.(pass := s'.pass.(managed := s'.pass.managed + [at])))
    else Report(cfg, key, false, Failed, s')
  }

  /** The object a pass of p would write for a rendering. */
  function Copy(cfg: Config, p: Pass, rendered: Object): Object {
    rendered.(labels := WithManagementLabels(cfg.provider, p.id, p.generation, rendered.labels))
  }

  /** The body of the innermost loop. */
  function HandleTarget(cfg: Config, fate: Fate, def: TargetDefinition, cluster: Option<Cluster>, namespace: string, s: State): State {
    match Render(cfg, s.pass.input, cluster, namespace)
    case TemplateFailed => WithError(s)
    case MarshalFailed(ref) => Report(cfg, Key(cluster, ref), false, Failed, s)
    case Rendered(raw, ref, rendered) =>
      var key := Key(cluster, ref);
      var s1 := s.(pass := s.pass.(renderings := s.pass.renderings + [(key, raw)]));
      if key in s.pass.seen then
        if s.pass.seen[key] != raw then Report(cfg, key, false, RenderedDifferently, s1)
        else Report(cfg, key, true, IdenticalCopy, s1)
      else
        var s2 := s1.(pass := s1.pass.(seen := s1.pass.seen[key := raw], reached := s1.pass.reached + [key]));
        SyncTarget(cfg, fate, def, cluster, ref, Copy(cfg, s.pass, rendered), s2)
  }

  /** A rendered target: conflict detection first, then the sync. */
  lemma HandleRendered(cfg: Config, fate: Fate, def: TargetDefinition, cluster: Option<Cluster>, namespace: string, s: State)
    requires Render(cfg, s.pass.input, cluster, namespace).Rendered?
    ensures var r := Render(cfg, s.pass.input, cluster, namespace);
            var key, s' := Key(cluster, r.ref), HandleTarget(cfg, fate, def, cluster, namespace, s);
            var p := s.pass.(renderings := s.pass.renderings + [(key, r.raw)]);
            s' == if key !in s.pass.seen then
                    SyncTarget(cfg, fate, def, cluster, r.ref, Copy(cfg, s.pass, r.target),
                               s.(pass := p.(seen := s.pass.seen[key := r.raw], reached := s.pass.reached + [key])))
                  else if s.pass.seen[key] != r.raw then Report(cfg, key, false, RenderedDifferently, s.(pass := p))
                  else Report(cfg, key, true, IdenticalCopy, s.(pass := p))
  {
    hide Render, Report, SyncTarget, Copy;
  }

  // ---- One cluster of one target definition ----

  function NamespacesOn(w: World, cluster: ObjectReference): set<string> {
    set k | k in w.namespaces && k.0 == cluster :: k.1
  }

  function SelectNamespaces(cfg: Config, sel: NamespaceSelector, cluster: ObjectReference, names: seq<string>, w: World): seq<string> {
    if names == [] then [] else
      var rest := SelectNamespaces(cfg, sel, cluster, names[1..], w);
      if (cluster, names[0]) in w.namespaces && NamespaceMatches(cfg, sel, names[0], w.namespaces[(cluster, names[0])].labels) == Some(true)
      then [names[0]] + rest else rest
  }

  function UnmatchableNamespaces(cfg: Config, sel: NamespaceSelector, cluster: ObjectReference, names: seq<string>, w: World): nat {
    if names == [] then 0 else
      var rest := UnmatchableNamespaces(cfg, sel, cluster, names[1..], w);
      if (cluster, names[0]) in w.namespaces && NamespaceMatches(cfg, sel, names[0], w.namespaces[(cluster, names[0])].labels).None?
      then 1 + rest else rest
  }

  function TargetTasks(def: TargetDefinition, cluster: Option<Cluster>, namespaces: seq<string>): seq<Task> {
    if namespaces == [] then [] else [Target(def, cluster, namespaces[0])] + TargetTasks(def, cluster, namespaces[1..])
  }

  function OpenTasks(def: TargetDefinition, clusters: seq<Option<Cluster>>): seq<Task> {
    if clusters == [] then [] else [OpenCluster(def, clusters[0])] + OpenTasks(def, clusters[1..])
  }

  function ClusterTasks(def: TargetDefinition, cluster: Option<Cluster>, namespaces: seq<string>): seq<Task> {
    TargetTasks(def, cluster, namespaces) + [CloseCluster(cluster)]
  }

  function ResolveNamespaces(cfg: Config, fate: Fate, def: TargetDefinition, cluster: Option<Cluster>, s: State): (State, seq<Task>) {
    var own := OwnRef(cluster);
    if cluster.Some? && cluster.value.inDeletion then (s, [])
    else if IsNextTo(def) then (s, ClusterTasks(def, cluster, [own.namespace]))
    else if !fate.access then (ClusterFailed(cfg, own, s), [])
    else if def.namespaces.None? then (s, ClusterTasks(def, cluster, [""]))
    else
      var sel := def.namespaces.value;
      if sel.matchIdentities.Some? then (s, ClusterTasks(def, cluster, sel.matchIdentities.value))
      else if !fate.list then (ClusterFailed(cfg, own, s), [])
      else
        var names := cfg.listOrder(NamespacesOn(s.world, own));
        (s.(pass := s.pass.(errors := s.pass.errors + UnmatchableNamespaces(cfg, sel, own, names, s.world))),
         ClusterTasks(def, cluster, SelectNamespaces(cfg, sel, own, names, s.world)))
  }

  // ---- Obsolete resources ----

  predicate Vanished(p: Pass, cluster: ObjectReference) {
    cluster != HOSTING && forall c :: c in p.clusters ==> c.ref != cluster
  }

  /** The status of the last condition reported for a cluster in this pass. */
  function LastClusterCondition(conditions: seq<Condition>, name: string): Option<bool> {
    if conditions == [] then None
    else
      var last := conditions[|conditions| - 1];
      if last.ClusterCondition? && last.name == name then Some(last.ok)
      else LastClusterCondition(conditions[..|conditions| - 1], name)
  }

  predicate Unhealthy(cfg: Config, p: Pass, cluster: ObjectReference) {
    !p.inDeletion && LastClusterCondition(p.conditions, cfg.clusterCondition(cluster)) == Some(false)
  }

  predicate Reported(cfg: Config, p: Pass, key: Location) {
    exists c :: c in p.conditions && c.TargetCondition? && c.name == cfg.targetCondition(key)
  }

  /** A tracked entry that the pass acts on. */
  predicate IsObsolete(cfg: Config, p: Pass, l: Location) {
    && l in Walk(p.status)
    && l !in p.managed
    && !Vanished(p, l.cluster)
    && !Unhealthy(cfg, p, l.cluster)
    && !Reported(cfg, p, l)
  }

  function ClustersOf(walk: seq<Location>): seq<ObjectReference> {
    if walk == [] then []
    else
      var last := |walk| - 1;
      var front := ClustersOf(walk[..last]);
      if walk[last].cluster in front then front else front + [walk[last].cluster]
  }

  function RefsOn(walk: seq<Location>, cluster: ObjectReference): seq<TypedRef> {
    if walk == [] then []
    else
      var last := |walk| - 1;
      var front := RefsOn(walk[..last], cluster);
      if walk[last].cluster == cluster && walk[last].ref !in front then front + [walk[last].ref] else front
  }

  function Unmanaged(managed: seq<Location>, cluster: ObjectReference, refs: seq<TypedRef>): seq<TypedRef> {
    if refs == [] then []
    else (if Location(cluster, refs[0]) in managed then [] else [refs[0]]) + Unmanaged(managed, cluster, refs[1..])
  }

  function Unreported(cfg: Config, p: Pass, cluster: ObjectReference, refs: seq<TypedRef>): seq<TypedRef> {
    if refs == [] then []
    else (if Reported(cfg, p, Location(cluster, refs[0])) then [] else [refs[0]]) + Unreported(cfg, p, cluster, refs[1..])
  }

  /** The entries on a cluster that this pass did not sync. */
  function Leftover(p: Pass, cluster: ObjectReference): seq<TypedRef> {
    Unmanaged(p.managed, cluster, RefsOn(Walk(p.status), cluster))
  }

  /** What is left to delete, cluster by cluster; a cluster stays even if nothing on it is left. */
  function BucketsFor(cfg: Config, p: Pass, clusters: seq<ObjectReference>): seq<Bucket> {
    if clusters == [] then []
    else
      var rest := BucketsFor(cfg, p, clusters[1..]);
      var c := clusters[0];
      if Vanished(p, c) || Unhealthy(cfg, p, c) then rest
      else [Bucket(c, Unreported(cfg, p, c, Leftover(p, c)))] + rest
  }

  function ForgetRefs(cluster: ObjectReference, refs: seq<TypedRef>, status: seq<Group>): seq<Group> {
    if refs == [] then status else ForgetRefs(cluster, refs[1..], RemovedAt(status, Location(cluster, refs[0])))
  }

  /** Entries on vanished clusters leave the status without an API call. */
  function Forget(p: Pass, clusters: seq<ObjectReference>, status: seq<Group>): seq<Group> {
    if clusters == [] then status
    else Forget(p, clusters[1..], if Vanished(p, clusters[0]) then ForgetRefs(clusters[0], Leftover(p, clusters[0]), status) else status)
  }

  function PlanDeletion(cfg: Config, s: State): (State, seq<Task>) {
    var p := s.pass;
    (s.(pass := p.(status := Forget(p, ClustersOf(Walk(p.status)), p.status))),
     [Obsolete(BucketsFor(cfg, p, ClustersOf(Walk(p.status))))])
  }

  function ReportAll(cfg: Config, b: Bucket, n: nat, s: State): State
    requires n <= |b.refs|
  {
    if n == 0 then s
    else WithCondition(ReportAll(cfg, b, n - 1, s), TargetCondition(cfg.targetCondition(Location(b.cluster, b.refs[n - 1])), false, Failed))
  }

  function DeleteTasks(cluster: ObjectReference, refs: seq<TypedRef>): seq<Task> {
    if refs == [] then [] else [Delete(Location(cluster, refs[0]))] + DeleteTasks(cluster, refs[1..])
  }

  function Forgotten(l: Location, s: State): State {
    s.(pass := s.pass.(status := RemovedAt(s.pass.status, l)))
  }

  function PutObject(l: Location, o: Object, s: State): State {
    s.(world := s.world.(objects := s.world.objects[l := o]))
  }

  function Marked(o: Object): Object {
    o.(inDeletion := true)
  }

  function DeleteObsolete(cfg: Config, fate: Fate, l: Location, s: State): State {
    if !fate.get then Report(cfg, l, false, Failed, s)
    else match Lookup(s.world.objects, l)
      case None => Forgotten(l, s)
      case Some(o) =>
        if !IsManaged(cfg.provider, s.pass.id, o) then Forgotten(l, s)
        else if Kept(o) then
          var s' := if fate.write.Lost? then s else PutObject(l, Released(o), s);
          if fate.write.Ok? then Forgotten(l, s') else Report(cfg, l, false, Failed, s')
        else if o.inDeletion then Report(cfg, l, false, WaitingForDeletion, s)
        else
          var s' := if fate.write.Lost? then s else PutObject(l, Marked(o), s);
          Report(cfg, l, false, if fate.write.Ok? then WaitingForDeletion else Failed, s')
  }

  // ---- Closing a pass ----

  function TrackAll(ls: seq<Location>, status: seq<Group>): seq<Group> {
    if ls == [] then status else TrackAll(ls[1..], AddedAt(status, ls[0]))
  }

  function CleanStatus(s: State): State {
    s.(pass := s.pass.(status := TrackAll(s.pass.managed, Cleaned(s.pass.status))))
  }

  function WriteStatus(fate: Fate, s: State): State {
    if fate.patch.Lost? then s else s.(persisted := Patched(s.persisted, s.pass.oldStatus, s.pass.status))
  }

  // ---- Steps ----

  function Without<T>(s: seq<T>, i: nat): seq<T>
    requires i < |s|
  {
    s[..i] + s[i + 1..]
  }

  /** The head of the agenda: the new state and what takes its place. */
  function Step(cfg: Config, fate: Fate, t: Task, s: State): (State, seq<Task>) {
    match t
    case Definition(def) => (s, OpenTasks(def, MatchedClusters(cfg, def, s.pass.clusters)))
    case OpenCluster(def, cluster) => ResolveNamespaces(cfg, fate, def, cluster, s)
    case Target(def, cluster, namespace) => (HandleTarget(cfg, fate, def, cluster, namespace, s), [])
    case CloseCluster(cluster) => (WithCondition(s, ClusterCondition(cfg.clusterCondition(OwnRef(cluster)), true)), [])
    case Plan => PlanDeletion(cfg, s)
    case Obsolete(buckets) =>
      if buckets == [] then (s, [])
      else
        var i := fate.pick % |buckets|;
        (s, [OpenBucket(buckets[i]), Obsolete(Without(buckets, i))])
    case OpenBucket(b) =>
      if fate.access then (s, DeleteTasks(b.cluster, b.refs)) else (WithError(ReportAll(cfg, b, |b.refs|, s)), [])
    case Delete(l) => (DeleteObsolete(cfg, fate, l, s), [])
    case Cleanup => (CleanStatus(s), [])
    case UpdateStatus => (WriteStatus(fate, s), [])
  }

  function Ticked(s: State): State {
    s.(pass := s.pass.(clock := s.pass.clock + 1))
  }

  // ---- The ways a step can end ----

  ghost predicate OnlyReports(cfg: Config, key: Location, s: State, s': State) {
    exists ok, reason :: s' == Report(cfg, key, ok, reason, s) && !reason.RenderedDifferently?
  }

  /** Past conflict detection a target is reported or written, possibly after its namespace was created. */
  lemma SyncTargetCases(cfg: Config, fate: Fate, def: TargetDefinition, cluster: Option<Cluster>, ref: TypedRef, rendered: Object, s: State)
    ensures var s' := SyncTarget(cfg, fate, def, cluster, ref, rendered, s);
            var key, home := Key(cluster, ref), HomeRef(def, cluster);
            var made := s.(world := CreateNamespace(cfg, home, ref.namespace, s.world));
            || OnlyReports(cfg, key, s, s') || OnlyReports(cfg, key, made, s')
            || s' == Write(cfg, fate, key, Location(home, ref), rendered, s)
            || s' == Write(cfg, fate, key, Location(home, ref), rendered, made)
  {
    hide Write, Report, CreateNamespace;
  }

  /** An obsolete entry is reported, or forgotten because nothing of the replica is there, or its object is released or marked. */
  lemma DeleteCases(cfg: Config, fate: Fate, l: Location, s: State)
    ensures var s' := DeleteObsolete(cfg, fate, l, s);
            || OnlyReports(cfg, l, s, s')
            || (s' == Forgotten(l, s) && (l in s.world.objects ==> !IsManaged(cfg.provider, s.pass.id, s.world.objects[l])))
            || (&& l in s.world.objects
                && var o := s.world.objects[l];
                && IsManaged(cfg.provider, s.pass.id, o)
                && (|| (Kept(o) && s' == Forgotten(l, PutObject(l, Released(o), s)))
                    || (Kept(o) && OnlyReports(cfg, l, PutObject(l, Released(o), s), s'))
                    || (!Kept(o) && !o.inDeletion && OnlyReports(cfg, l, PutObject(l, Marked(o), s), s'))))
  {
    hide Report, Forgotten, IsManaged, Kept, Released, PutObject;
  }

  // ---- A pass run to its end ----

  type Oracle = (nat, Task) -> Fate

  function PlanWeight(a: seq<Task>): nat {
    if a == [] then 0 else (if a[0].Plan? then 1 else 0) + PlanWeight(a[1..])
  }

  function OuterWeight(a: seq<Task>): nat {
    if a == [] then 0 else
      (match a[0] case Definition(_) => 1 case Obsolete(b) => |b| + 1 case _ => 0) + OuterWeight(a[1..])
  }

  function InnerWeight(a: seq<Task>): nat {
    if a == [] then 0 else (if a[0].OpenCluster? || a[0].OpenBucket? then 1 else 0) + InnerWeight(a[1..])
  }

  lemma {:induction false} WeightsAdd(a: seq<Task>, b: seq<Task>)
    ensures PlanWeight(a + b) == PlanWeight(a) + PlanWeight(b)
    ensures OuterWeight(a + b) == OuterWeight(a) + OuterWeight(b)
    ensures InnerWeight(a + b) == InnerWeight(a) + InnerWeight(b)
  {
    if a == [] {
      assert a + b == b;
    } else {
      assert (a + b)[1..] == a[1..] + b;
      WeightsAdd(a[1..], b);
    }
  }

  lemma {:induction false} OpenTasksWeight(def: TargetDefinition, clusters: seq<Option<Cluster>>)
    ensures var a := OpenTasks(def, clusters); PlanWeight(a) == 0 && OuterWeight(a) == 0
  {
    if clusters != [] {
      OpenTasksWeight(def, clusters[1..]);
      WeightsAdd([OpenCluster(def, clusters[0])], OpenTasks(def, clusters[1..]));
    }
  }

  lemma {:induction false} TargetTasksWeight(def: TargetDefinition, cluster: Option<Cluster>, namespaces: seq<string>)
    ensures var a := TargetTasks(def, cluster, namespaces); PlanWeight(a) == 0 && OuterWeight(a) == 0 && InnerWeight(a) == 0
  {
    if namespaces != [] {
      TargetTasksWeight(def, cluster, namespaces[1..]);
      WeightsAdd([Target(def, cluster, namespaces[0])], TargetTasks(def, cluster, namespaces[1..]));
    }
  }

  lemma {:induction false} PlainWeight(a: seq<Task>)
    requires forall t :: t in a ==> t.Delete? || t.Target? || t.CloseCluster?
    ensures PlanWeight(a) == 0 && OuterWeight(a) == 0 && InnerWeight(a) == 0
  {
    if a != [] {
      assert a[0] in a;
      PlainWeight(a[1..]);
    }
  }

  lemma {:induction false} DeleteTasksWeight(cluster: ObjectReference, refs: seq<TypedRef>)
    ensures var a := DeleteTasks(cluster, refs); PlanWeight(a) == 0 && OuterWeight(a) == 0 && InnerWeight(a) == 0
  {
    if refs != [] {
      DeleteTasksWeight(cluster, refs[1..]);
      WeightsAdd([Delete(Location(cluster, refs[0]))], DeleteTasks(cluster, refs[1..]));
    }
  }

  lemma ClusterTasksWeight(def: TargetDefinition, cluster: Option<Cluster>, namespaces: seq<string>)
    ensures var a := ClusterTasks(def, cluster, namespaces); PlanWeight(a) == 0 && OuterWeight(a) == 0 && InnerWeight(a) == 0
  {
    TargetTasksWeight(def, cluster, namespaces);
    PlainWeight([CloseCluster(cluster)]);
    WeightsAdd(TargetTasks(def, cluster, namespaces), [CloseCluster(cluster)]);
  }

  lemma StepDescends(cfg: Config, fate: Fate, t: Task, s: State)
    ensures var more := Step(cfg, fate, t, s).1;
            || PlanWeight(more) < PlanWeight([t])
            || (PlanWeight(more) == PlanWeight([t]) && OuterWeight(more) < OuterWeight([t]))
            || (PlanWeight(more) == PlanWeight([t]) && OuterWeight(more) == OuterWeight([t]) && InnerWeight(more) < InnerWeight([t]))
            || more == []
  {
    assert [t][1..] == [];
    match t
    case Definition(def) => OpenTasksWeight(def, MatchedClusters(cfg, def, s.pass.clusters));
    case OpenCluster(def, cluster) =>
      var more := ResolveNamespaces(cfg, fate, def, cluster, s).1;
      if more != [] {
        var ns :| more == ClusterTasks(def, cluster, ns);
        ClusterTasksWeight(def, cluster, ns);
      }
    case Obsolete(buckets) =>
      if buckets != [] {
        var i := fate.pick % |buckets|;
        WeightsAdd([OpenBucket(buckets[i])], [Obsolete(Without(buckets, i))]);
        assert [OpenBucket(buckets[i]), Obsolete(Without(buckets, i))] == [OpenBucket(buckets[i])] + [Obsolete(Without(buckets, i))];
      }
    case OpenBucket(b) => DeleteTasksWeight(b.cluster, b.refs);
    case _ =>
  }

  function Run(cfg: Config, fates: Oracle, agenda: seq<Task>, s: State): State
    decreases PlanWeight(agenda), OuterWeight(agenda), InnerWeight(agenda), |agenda|
  {
    if agenda == [] then s
    else
      var fate := fates(s.pass.clock, agenda[0]);
      var (s', more) := Step(cfg, fate, agenda[0], s);
      StepDescends(cfg, fate, agenda[0], s);
      WeightsAdd(more, agenda[1..]);
      WeightsAdd([agenda[0]], agenda[1..]);
      assert agenda == [agenda[0]] + agenda[1..];
      assert more == [] ==> more + agenda[1..] == agenda[1..];
      Run(cfg, fates, more + agenda[1..], Ticked(s'))
  }
}
