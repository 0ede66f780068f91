/** Runs of one target definition on one cluster with at most one namespace, and what is known of them: the building blocks of examples. */
module SmallRuns {
  import opened Refs
  import opened StatusList
  import opened Objects
  import opened Targets
  import opened Steps
  import opened System
  import opened DeletionPhase
  import opened Quiet
  import opened Resolution
  import opened QuietLoop
  import opened LoopKeys

  const CONFIG_MAP := GVK("", "v1", "ConfigMap")

  /** The pass of this replica over these definitions and Clusters. */
  ghost predicate IsRequest(p: Pass, id: ReplicaId, defs: seq<TargetDefinition>, clusters: seq<Cluster>) {
    p.id == id && p.generation == "1" && p.input == "" && p.defs == defs && p.clusters == clusters && !p.inDeletion
  }

  /** The targets seen, synced, tracked and reported on so far. */
  ghost predicate Progress(cfg: Config, s: State, seen: set<Location>, managed: set<Location>, tracked: set<Location>, reported: set<Location>) {
    && InStore(s)
    && s.pass.seen.Keys == seen && (forall l :: l in s.pass.managed <==> l in managed)
    && Tracked(s.pass.status) == tracked && ClustersFine(s.pass.conditions) && NamesIn(cfg, s.pass.conditions, reported)
  }

  /** Entering or leaving a loop changes none of this. */
  lemma ProgressOpened(cfg: Config, s: State, s': State, seen: set<Location>, managed: set<Location>, tracked: set<Location>, reported: set<Location>,
                       id: ReplicaId, defs: seq<TargetDefinition>, clusters: seq<Cluster>)
    requires Opened(s, s') && Progress(cfg, s, seen, managed, tracked, reported) && IsRequest(s.pass, id, defs, clusters)
    ensures Progress(cfg, s', seen, managed, tracked, reported) && IsRequest(s'.pass, id, defs, clusters)
  {
    assert NamesIn(cfg, s'.pass.conditions, reported) && ClustersFine(s'.pass.conditions);
    hide Tracked, WellFormed, NamesIn;
  }

  /** What running a definition does that leads to at most one target. */
  ghost predicate DefinitionRan(cfg: Config, def: TargetDefinition, cluster: Option<Cluster>, ns: seq<string>, s: State, s': State) {
    if ns == [] then Opened(s, s')
    else exists a, b :: Opened(s, a) && TargetDone(cfg, def, cluster, ns[0], a, b) && Opened(b, s')
  }

  lemma OpenedTwice(a: State, b: State, c: State)
    requires Opened(a, b) && Opened(b, c)
    ensures Opened(a, c)
  {
    hide InStore;
  }

  lemma RunOpening(cfg: Config, fates: Oracle, t: Task, rest: seq<Task>, s: State) returns (m: State)
    requires QuietOracle(fates) && IsLoop(t) && !t.Target?
    ensures Opened(s, m)
    ensures Run(cfg, fates, [t] + rest, s) == Run(cfg, fates, Step(cfg, fates(s.pass.clock, t), t, s).1 + rest, m)
  {
    m := Ticked(Step(cfg, fates(s.pass.clock, t), t, s).0);
    assert ([t] + rest)[0] == t && ([t] + rest)[1..] == rest;
    RunStep(cfg, fates, [t] + rest, s);
    OpeningStep(cfg, fates(s.pass.clock, t), t, s);
    hide Run, Step;
  }

  lemma RunDefinition(cfg: Config, fates: Oracle, def: TargetDefinition, cluster: Option<Cluster>, s: State)
    requires QuietOracle(fates) && InStore(s) && MatchedClusters(cfg, def, s.pass.clusters) == [cluster] && Live(cluster)
    requires |Resolved(cfg, def, cluster, s.world)| <= 1
    ensures DefinitionRan(cfg, def, cluster, Resolved(cfg, def, cluster, s.world), s, Run(cfg, fates, [Definition(def)], s))
  {
    var ns := Resolved(cfg, def, cluster, s.world);
    assert OpenTasks(def, [cluster]) == [OpenCluster(def, cluster)];
    var m := RunOpening(cfg, fates, Definition(def), [], s);
    var n := RunOpening(cfg, fates, OpenCluster(def, cluster), [], m);
    OpenedTwice(s, m, n);
    assert InStore(n);
    ResolvedIsWhatAPassUses(cfg, fates(m.pass.clock, OpenCluster(def, cluster)), def, cluster, m);
    SameResolvedHere(cfg, def, cluster, s, m);
    assert [Definition(def)] + [] == [Definition(def)] && [OpenCluster(def, cluster)] + [] == [OpenCluster(def, cluster)];
    assert Run(cfg, fates, [Definition(def)], s) == Run(cfg, fates, ClusterTasks(def, cluster, ns), n) by {
      assert ClusterTasks(def, cluster, ns) + [] == ClusterTasks(def, cluster, ns);
      hide Run, ClusterTasks, ResolveNamespaces;
    }
    RunCluster(cfg, fates, def, cluster, ns, n);
    hide Run, ClusterTasks;
    if ns == [] {
      OpenedTwice(s, n, Run(cfg, fates, ClusterTasks(def, cluster, ns), n));
    }
  }

  lemma SameResolvedHere(cfg: Config, def: TargetDefinition, cluster: Option<Cluster>, s: State, m: State)
    requires Opened(s, m)
    ensures Resolved(cfg, def, cluster, m.world) == Resolved(cfg, def, cluster, s.world)
  {}

  lemma RunCluster(cfg: Config, fates: Oracle, def: TargetDefinition, cluster: Option<Cluster>, ns: seq<string>, n: State)
    requires QuietOracle(fates) && InStore(n) && |ns| <= 1
    ensures var s' := Run(cfg, fates, ClusterTasks(def, cluster, ns), n);
            if ns == [] then Opened(n, s') else exists b :: TargetDone(cfg, def, cluster, ns[0], n, b) && Opened(b, s')
  {
    if ns == [] {
      assert ClusterTasks(def, cluster, ns) == [CloseCluster(cluster)] + [];
      var m := RunOpening(cfg, fates, CloseCluster(cluster), [], n);
      RunNothing(cfg, fates, m);
    } else {
      var t := Target(def, cluster, ns[0]);
      assert TargetTasks(def, cluster, ns) == [t] by {
        assert ns[1..] == [];
      }
      assert ClusterTasks(def, cluster, ns) == [t] + [CloseCluster(cluster)];
      RunHead(cfg, fates, t, [CloseCluster(cluster)], n);
      RunLeaf(cfg, fates, t, n);
      var b := Run(cfg, fates, [t], n);
      QuietTarget(cfg, fates(n.pass.clock, t), def, cluster, ns[0], n);
      assert TargetDone(cfg, def, cluster, ns[0], n, b);
      assert [CloseCluster(cluster)] + [] == [CloseCluster(cluster)];
      var m := RunOpening(cfg, fates, CloseCluster(cluster), [], b);
      RunNothing(cfg, fates, m);
      hide Run, TargetDone, QuietOracle;
    }
  }

  lemma RunOneTarget(cfg: Config, fates: Oracle, def: TargetDefinition, cluster: Option<Cluster>, n: string, s: State) returns (a: State, b: State)
    requires QuietOracle(fates) && InStore(s) && MatchedClusters(cfg, def, s.pass.clusters) == [cluster] && Live(cluster)
    requires Resolved(cfg, def, cluster, s.world) == [n]
    ensures Opened(s, a) && TargetDone(cfg, def, cluster, n, a, b) && Opened(b, Run(cfg, fates, [Definition(def)], s))
  {
    hide Run, Resolved, TargetDone, Opened, QuietOracle, InStore, MatchedClusters;
    RunDefinition(cfg, fates, def, cluster, s);
    a, b :| Opened(s, a) && TargetDone(cfg, def, cluster, n, a, b) && Opened(b, Run(cfg, fates, [Definition(def)], s));
  }

  /** Every target condition has the name of one of these targets. */
  ghost predicate NamesIn(cfg: Config, conditions: seq<Condition>, reported: set<Location>) {
    forall x :: x in conditions && x.TargetCondition? ==> exists k :: k in reported && x.name == cfg.targetCondition(k)
  }

  lemma NamesMore(cfg: Config, key: Location, s: State, s': State, reported: set<Location>)
    requires NamesIn(cfg, s.pass.conditions, reported) && Reports(cfg, key, s, s')
    ensures NamesIn(cfg, s'.pass.conditions, reported + {key})
  {
    forall x | x in s'.pass.conditions && x.TargetCondition? ensures exists k :: k in reported + {key} && x.name == cfg.targetCondition(k) {
      if x in s.pass.conditions {
        var k :| k in reported && x.name == cfg.targetCondition(k);
        assert k in reported + {key};
      } else {
        assert key in reported + {key} && x.name == cfg.targetCondition(key);
      }
    }
  }

  /** A rendered target is reported on, and if it is new it is reached, and written or refused. */
  lemma TargetWrites(cfg: Config, def: TargetDefinition, cluster: Option<Cluster>, n: string, raw: string, ref: TypedRef, copy: Object, s: State, s': State)
    requires TargetDone(cfg, def, cluster, n, s, s') && Render(cfg, s.pass.input, cluster, n) == Rendered(raw, ref, copy)
    ensures var key, home := Key(cluster, ref), Location(HomeRef(def, cluster), ref);
            && InStore(s') && SameRequest(s.pass, s'.pass) && Reports(cfg, key, s, s')
            && (key in s.pass.seen ==> OnlyConditions(s, s'))
            && (key !in s.pass.seen ==>
                  && Reaches(key, raw, s, s')
                  && if Judged(def, s.pass.id, s.world, home).Proceed? then Writes(cfg, home, Copy(cfg, s.pass, copy), s, s')
                     else s'.world == s.world && s'.pass.status == s.pass.status && s'.pass.managed == s.pass.managed)
  {
    hide Render, Judged, InStore, Written, AddedAt, Copy;
  }

  lemma Singleton<T>(s: seq<T>, x: T)
    requires NoDuplicates(s) && x in s && forall y :: y in s ==> y == x
    ensures s == [x]
  {
    var last := |s| - 1;
    assert s[0] in s && s[last] in s;
    assert last == 0;
  }

  // ---- A listing that examples can use ----

  /** The members of a set in some order. */
  ghost function Listing(names: set<string>): seq<string> {
    if names == {} then []
    else
      var n :| n in names;
      [n] + Listing(names - {n})
  }

  lemma {:induction false} ListingIsComplete(names: set<string>)
    ensures NoDuplicates(Listing(names)) && forall n :: n in Listing(names) <==> n in names
  {
    if names != {} {
      var n :| n in names && Listing(names) == [n] + Listing(names - {n});
      ListingIsComplete(names - {n});
    }
  }
}
