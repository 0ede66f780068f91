/** What the loops of a pass put on its agenda. */
module Agenda {
  import opened Refs
  import opened Targets
  import opened Steps
  import opened System

  lemma {:induction false} MatchedClustersIn(cfg: Config, def: TargetDefinition, clusters: seq<Cluster>)
    ensures forall c :: c in MatchedClusters(cfg, def, clusters) ==>
              (c.None? ==> def.cluster.None?) && (c.Some? ==> c.value in clusters && ClusterMatchesSome(cfg, def, c.value))
  {
    if def.cluster.Some? && clusters != [] {
      MatchedClustersIn(cfg, def, clusters[1..]);
    }
  }

  ghost predicate ClusterMatchesSome(cfg: Config, def: TargetDefinition, c: Cluster) {
    def.cluster.Some? && ClusterMatches(cfg, def, c)
  }

  lemma {:induction false} OpenTasksAre(def: TargetDefinition, clusters: seq<Option<Cluster>>)
    ensures forall t :: t in OpenTasks(def, clusters) ==> t.OpenCluster? && t.def == def && t.cluster in clusters
  {
    if clusters != [] {
      OpenTasksAre(def, clusters[1..]);
    }
  }

  lemma {:induction false} TargetTasksAre(def: TargetDefinition, cluster: Option<Cluster>, namespaces: seq<string>)
    ensures forall t :: t in TargetTasks(def, cluster, namespaces) ==>
              t.Target? && t.def == def && t.cluster == cluster && t.namespace in namespaces
  {
    if namespaces != [] {
      TargetTasksAre(def, cluster, namespaces[1..]);
    }
  }

  lemma ClusterTasksAre(def: TargetDefinition, cluster: Option<Cluster>, namespaces: seq<string>)
    ensures forall t :: t in ClusterTasks(def, cluster, namespaces) ==>
              t == CloseCluster(cluster) || (t.Target? && t.def == def && t.cluster == cluster && t.namespace in namespaces)
  {
    TargetTasksAre(def, cluster, namespaces);
  }

  lemma {:induction false} DefinitionTasksAre(defs: seq<TargetDefinition>)
    ensures forall t :: t in DefinitionTasks(defs) ==> t.Definition? && t.def in defs
  {
    if defs != [] {
      DefinitionTasksAre(defs[1..]);
    }
  }

  lemma {:induction false} DeleteTasksAre(cluster: ObjectReference, refs: seq<TypedRef>)
    ensures forall t :: t in DeleteTasks(cluster, refs) ==> t.Delete? && t.l.cluster == cluster && t.l.ref in refs
  {
    if refs != [] {
      DeleteTasksAre(cluster, refs[1..]);
    }
  }
}
