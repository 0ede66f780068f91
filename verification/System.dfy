/** Any number of replicas, their passes interleaved task by task with each other, with crashes and with the environment. */
module System {
  import opened Refs
  import opened StatusList
  import opened Objects
  import opened Targets
  import opened Steps

  datatype Running = Running(pass: Pass, agenda: seq<Task>)

  /** A (Cluster)Replica as stored; running is the pass of the controller that holds it in memory, if any. */
  datatype Stored = Stored(
    generation: string, input: string, defs: seq<TargetDefinition>, ignored: bool,
    persisted: seq<Group>, finalizer: bool, deleting: bool, running: Option<Running>)

  datatype System = System(world: World, clusters: seq<Cluster>, replicas: map<ReplicaId, Stored>)

  function DefinitionTasks(defs: seq<TargetDefinition>): seq<Task> {
    if defs == [] then [] else [Definition(defs[0])] + DefinitionTasks(defs[1..])
  }

  function NewPass(id: ReplicaId, r: Stored, clusters: seq<Cluster>): Pass {
    Pass(id, r.deleting, r.generation, r.input, r.defs, clusters, r.persisted, r.persisted, [], map[], [], 0, 0, [], [])
  }

  /** reconcile up to its loops: finalizer, sources, or the finalizer's removal. The result is what is stored and, if a pass follows, that pass. */
  function Start(id: ReplicaId, fate: Fate, clusters: seq<Cluster>, r: Stored): Stored {
    var p := NewPass(id, r, clusters);
    var closing := [UpdateStatus];
    if !fate.get || r.ignored then r
    else if !fate.list then r.(running := Some(Running(p, closing)))
    else if !r.deleting then
      var r' := if fate.finalizer.Lost? then r else r.(finalizer := true);
      var ready := (r.finalizer || fate.finalizer.Ok?) && fate.sources;
      r'.(running := Some(Running(p, if ready then DefinitionTasks(r.defs) + [Plan, Cleanup] + closing else closing)))
    else if |r.persisted| > 0 then
      r.(running := Some(Running(p.(conditions := [OtherCondition(false)]), [Plan, Cleanup] + closing)))
    else if r.finalizer && fate.finalizer.Lost? then r.(running := Some(Running(p, closing)))
    else r.(finalizer := false)
  }

  datatype Event =
    | Reconcile(id: ReplicaId, fate: Fate)
    | Advance(id: ReplicaId, fate: Fate)
    | Crash(id: ReplicaId)
    | EditObject(l: Location, object: Option<Object>)
    | EditNamespace(cluster: ObjectReference, name: string, namespace: Option<Namespace>)
    | EditClusters(clusters: seq<Cluster>)
    | CreateReplica(id: ReplicaId, generation: string, input: string, defs: seq<TargetDefinition>, ignored: bool)
    | EditReplica(id: ReplicaId, generation: string, input: string, defs: seq<TargetDefinition>, ignored: bool)
    | DeleteReplica(id: ReplicaId)

  ghost predicate ClusterExists(clusters: seq<Cluster>, ref: ObjectReference) {
    ref == HOSTING || exists c :: c in clusters && c.ref == ref
  }

  ghost predicate ClustersOk(clusters: seq<Cluster>) {
    && (forall c :: c in clusters ==> c.ref != HOSTING)
    && (forall i, j :: 0 <= i < j < |clusters| ==> clusters[i].ref != clusters[j].ref)
  }

  predicate IdOk(id: ReplicaId) {
    id.kind.ClusterReplica? ==> id.namespace == ""
  }

  /** What may happen. The environment makes no object look owned that was not, and a Cluster that appears carries no owned object. */
  ghost predicate Enabled(cfg: Config, sys: System, e: Event) {
    match e
    case Reconcile(id, _) => id in sys.replicas && sys.replicas[id].running.None?
    case Advance(id, _) => id in sys.replicas && sys.replicas[id].running.Some? && sys.replicas[id].running.value.agenda != []
    case Crash(id) => id in sys.replicas
    case EditObject(l, o) =>
      o.Some? ==> forall id :: Owns(cfg.provider, id, o.value) ==> l in sys.world.objects && Owns(cfg.provider, id, sys.world.objects[l])
    case EditNamespace(_, _, _) => true
    case EditClusters(clusters) =>
      && ClustersOk(clusters)
      && forall l: Location, id: ReplicaId :: ClusterExists(clusters, l.cluster) && !ClusterExists(sys.clusters, l.cluster) && l in sys.world.objects
           ==> !Owns(cfg.provider, id, sys.world.objects[l])
    case CreateReplica(id, _, _, _, _) => id !in sys.replicas && IdOk(id)
    case EditReplica(id, _, _, _, _) => id in sys.replicas
    case DeleteReplica(id) => id in sys.replicas
  }

  function StateOf(sys: System, id: ReplicaId): State
    requires id in sys.replicas && sys.replicas[id].running.Some?
  {
    State(sys.world, sys.replicas[id].persisted, sys.replicas[id].running.value.pass)
  }

  /** One task of a pass; at the end of the agenda the pass is over. */
  function AdvanceState(cfg: Config, fate: Fate, agenda: seq<Task>, s: State): (State, seq<Task>)
    requires agenda != []
  {
    var (s', more) := Step(cfg, fate, agenda[0], s);
    (Ticked(s'), more + agenda[1..])
  }

  function WithoutKey<K, V>(m: map<K, V>, k: K): map<K, V> {
    m - {k}
  }

  ghost function Next(cfg: Config, sys: System, e: Event): System
    requires Enabled(cfg, sys, e)
  {
    match e
    case Reconcile(id, fate) =>
      sys.(replicas := sys.replicas[id := Start(id, fate, sys.clusters, sys.replicas[id])])
    case Advance(id, fate) =>
      var (s, agenda) := AdvanceState(cfg, fate, sys.replicas[id].running.value.agenda, StateOf(sys, id));
      var r := sys.replicas[id].(persisted := s.persisted, running := if agenda == [] then None else Some(Running(s.pass, agenda)));
      sys.(world := s.world, replicas := sys.replicas[id := r])
    case Crash(id) =>
      sys.(replicas := sys.replicas[id := sys.replicas[id].(running := None)])
    case EditObject(l, o) =>
      sys.(world := sys.world.(objects := if o.None? then WithoutKey(sys.world.objects, l) else sys.world.objects[l := o.value]))
    case EditNamespace(cluster, name, ns) =>
      sys.(world := sys.world.(namespaces :=
        if ns.None? then WithoutKey(sys.world.namespaces, (cluster, name)) else sys.world.namespaces[(cluster, name) := ns.value]))
    case EditClusters(clusters) => sys.(clusters := clusters)
    case CreateReplica(id, generation, input, defs, ignored) =>
      sys.(replicas := sys.replicas[id := Stored(generation, input, defs, ignored, [], false, false, None)])
    case EditReplica(id, generation, input, defs, ignored) =>
      sys.(replicas := sys.replicas[id := sys.replicas[id].(generation := generation, input := input, defs := defs, ignored := ignored)])
    case DeleteReplica(id) =>
      if sys.replicas[id].finalizer then sys.(replicas := sys.replicas[id := sys.replicas[id].(deleting := true)])
      else sys.(replicas := WithoutKey(sys.replicas, id))
  }

  ghost predicate CanHappen(cfg: Config, sys: System, events: seq<Event>)
    decreases |events|
  {
    events == [] || (Enabled(cfg, sys, events[0]) && CanHappen(cfg, Next(cfg, sys, events[0]), events[1..]))
  }

  ghost function After(cfg: Config, sys: System, events: seq<Event>): System
    requires CanHappen(cfg, sys, events)
    decreases |events|
  {
    if events == [] then sys else After(cfg, Next(cfg, sys, events[0]), events[1..])
  }
}
