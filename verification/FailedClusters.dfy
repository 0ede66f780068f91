/** A cluster that could not be accessed, or whose namespaces could not be listed, keeps its copies in that pass. */
module FailedClusters {
  import opened Refs
  import opened StatusList
  import opened Objects
  import opened Targets
  import opened Steps
  import opened System
  import opened Conflicts
  import opened Protection

  /** The definition works on the cluster itself, and the calls that it needs to find its namespaces there do not succeed. */
  ghost predicate CannotOpen(fate: Fate, def: TargetDefinition) {
    && !(def.cluster.Some? && def.cluster.value.nextTo)
    && (!fate.access || (!fate.list && def.namespaces.Some? && def.namespaces.value.matchIdentities.None?))
  }

  /** The step leaves all but conditions and errors, and what it reports on the cluster is bad. */
  lemma OpeningFails(cfg: Config, fate: Fate, def: TargetDefinition, cluster: Option<Cluster>, s: State)
    requires CannotOpen(fate, def) && (cluster.Some? ==> !cluster.value.inDeletion) && !s.pass.inDeletion
    ensures var (s', more) := Step(cfg, fate, OpenCluster(def, cluster), s);
            && more == [] && Unhealthy(cfg, s'.pass, OwnRef(cluster))
            && s' == s.(pass := s.pass.(conditions := s'.pass.conditions, errors := s'.pass.errors))
  {
    var s' := Step(cfg, fate, OpenCluster(def, cluster), s).0;
    var n := |s.pass.conditions|;
    assert |s'.pass.conditions| == n + 1;
  }

  lemma RestIsLooping(agenda: seq<Task>)
    requires agenda != [] && Shape(agenda) && IsLoop(agenda[0])
    ensures Looping(agenda) && Shape(agenda[1..]) && Plan in agenda[1..]
  {
    assert agenda[0] in agenda;
    LoopingTasks(agenda[1..]);
  }

  /** After the failure the pass spares the copies on the cluster, and what is in memory stays on record. */
  lemma AfterFailure(cfg: Config, sys: System, fate: Fate, id: ReplicaId, def: TargetDefinition, cluster: Option<Cluster>, l: Location)
    requires AllOrderly(sys) && AboutTo(cfg, sys, id, OpenCluster(def, cluster)) && CannotOpen(fate, def) && l.cluster == OwnRef(cluster)
    requires var p := StateOf(sys, id).pass; !p.inDeletion && (cluster.Some? ==> !cluster.value.inDeletion && cluster.value in p.clusters)
    ensures Enabled(cfg, sys, Advance(id, fate))
    ensures var sys' := Next(cfg, sys, Advance(id, fate));
            && Unharmed(cfg, sys', id, l, BadCluster)
            && id in sys'.replicas && sys'.replicas[id].persisted == sys.replicas[id].persisted && sys'.world == sys.world
            && (l in Tracked(StateOf(sys, id).pass.status) ==> Remembered(sys', id, l))
  {
    var s, agenda := StateOf(sys, id), sys.replicas[id].running.value.agenda;
    var s' := Step(cfg, fate, OpenCluster(def, cluster), s).0;
    OpeningFails(cfg, fate, def, cluster, s);
    assert Orderly(sys.replicas[id].persisted, s.pass, agenda);
    RestIsLooping(agenda);
    NotVanished(s.pass, Ticked(s').pass, cluster);
    assert [] + agenda[1..] == agenda[1..];
    hide Step, Shape, Tracked, WellFormed, Unhealthy, Spared, Vanished, CannotOpen, AllOrderly;
    ExcusedIsSpared(cfg, Ticked(s').pass, agenda[1..], l, BadCluster);
    RestRemembers(s, Ticked(s'), agenda, l);
  }

  lemma NotVanished(p: Pass, q: Pass, cluster: Option<Cluster>)
    requires (cluster.Some? ==> cluster.value in p.clusters) && q.clusters == p.clusters
    ensures !Vanished(q, OwnRef(cluster))
  {}

  /** During the loops the old copy holds nothing that is not stored. */
  lemma RestRemembers(s: State, s': State, agenda: seq<Task>, l: Location)
    requires Orderly(s.persisted, s.pass, agenda) && Looping(agenda)
    requires s'.pass.status == s.pass.status && s'.pass.oldStatus == s.pass.oldStatus && s'.persisted == s.persisted
    ensures l in Tracked(s'.pass.oldStatus) ==> l in Tracked(s'.persisted)
  {
    hide Tracked, WellFormed, Shape, Looping;
  }

  /** If a cluster cannot be accessed, or its namespaces cannot be listed where they have to be, a pass of a replica that is not being
      deleted neither releases nor deletes an object on that cluster from then on, and no entry on it is lost before the next pass, whatever
      comes between: unless the pass later reports under the name of that cluster's condition that all is well. */
  lemma FailedClusterIsSpared(cfg: Config, sys: System, fate: Fate, events: seq<Event>, id: ReplicaId,
                              def: TargetDefinition, cluster: Option<Cluster>, l: Location)
    requires AllOrderly(sys) && AboutTo(cfg, sys, id, OpenCluster(def, cluster)) && CannotOpen(fate, def)
    requires l.cluster == (if cluster.None? then ObjectReference("", "") else cluster.value.ref)
    requires var p := StateOf(sys, id).pass; !p.inDeletion && (cluster.Some? ==> !cluster.value.inDeletion && cluster.value in p.clusters)
    requires CanHappen(cfg, sys, [Advance(id, fate)] + events) && NoNewPass(events, id)
    requires NeverCloses(cfg, sys, [Advance(id, fate)] + events, id, l.cluster)
    ensures var sys' := Next(cfg, sys, Advance(id, fate));
            && sys'.world == sys.world && id in sys'.replicas && sys'.replicas[id].persisted == sys.replicas[id].persisted
            && CanHappen(cfg, sys', events)
            && NeverDeletes(cfg, sys', events, id, l) && LeavesObject(cfg, sys', events, id, l)
            && (l in Tracked(StateOf(sys, id).pass.status) ==> OnRecord(cfg, sys', events, id, l))
  {
    AfterFailure(cfg, sys, fate, id, def, cluster, l);
    assert ([Advance(id, fate)] + events)[1..] == events;
    var sys' := Next(cfg, sys, Advance(id, fate));
    hide Unharmed, Remembered, OnRecord, NeverDeletes, Tracked, AllOrderly, Closes;
    UnharmedToTheEnd(cfg, sys', events, id, l, BadCluster);
    UndeletedIsLeft(cfg, sys', events, id, l);
    if l in Tracked(StateOf(sys, id).pass.status) {
      RememberedToTheEnd(cfg, sys', events, id, l, BadCluster);
    }
  }
}
