/** What the other tasks of a pass do, case by case: the loops that lead to the targets, the plan, the deletions and the end. */
module TaskOutcomes {
  import opened Refs
  import opened StatusList
  import opened Objects
  import opened Targets
  import opened Steps
  import opened System
  import opened Agenda
  import opened Obsolete
  import opened TargetOutcomes

  // ---- The loops ----

  /** The definition selects the Cluster: it has no selector, or the selector does. */
  ghost predicate Selects(cfg: Config, t: ClusterTarget, c: Cluster) {
    t.selector.Some? ==> cfg.clusterSelected(t.selector.value, c)
  }

  /** A definition without a cluster works on the hosting cluster; another one on the Clusters that it selects, in the order of the list:
      one more Cluster in the list comes last if it is selected, and changes nothing if not. */
  lemma MatchedInOrder(cfg: Config, def: TargetDefinition, clusters: seq<Cluster>, last: Cluster)
    ensures def.cluster.None? ==> MatchedClusters(cfg, def, clusters) == [None]
    ensures def.cluster.Some? ==>
              && MatchedClusters(cfg, def, []) == []
              && MatchedClusters(cfg, def, clusters + [last]) ==
                 MatchedClusters(cfg, def, clusters) + if Selects(cfg, def.cluster.value, last) then [Some(last)] else []
  {
    if def.cluster.Some? {
      MatchedAppend(cfg, def, clusters, last);
    }
  }

  lemma {:induction false} MatchedAppend(cfg: Config, def: TargetDefinition, clusters: seq<Cluster>, last: Cluster)
    requires def.cluster.Some?
    ensures MatchedClusters(cfg, def, clusters + [last]) ==
            MatchedClusters(cfg, def, clusters) + if ClusterMatches(cfg, def, last) then [Some(last)] else []
  {
    MatchedHead(cfg, def, clusters + [last]);
    if clusters == [] {
      assert [] + [last] == [last] && [last][1..] == [];
    } else {
      MatchedHead(cfg, def, clusters);
      assert (clusters + [last])[1..] == clusters[1..] + [last];
      hide MatchedClusters, ClusterMatches;
      MatchedAppend(cfg, def, clusters[1..], last);
    }
  }

  lemma MatchedHead(cfg: Config, def: TargetDefinition, clusters: seq<Cluster>)
    requires def.cluster.Some? && clusters != []
    ensures MatchedClusters(cfg, def, clusters) ==
            (if ClusterMatches(cfg, def, clusters[0]) then [Some(clusters[0])] else []) + MatchedClusters(cfg, def, clusters[1..])
  {}

  lemma {:induction false} OpenTasksInOrder(def: TargetDefinition, clusters: seq<Option<Cluster>>)
    ensures |OpenTasks(def, clusters)| == |clusters|
    ensures forall i :: 0 <= i < |clusters| ==> OpenTasks(def, clusters)[i] == OpenCluster(def, clusters[i])
  {
    if clusters != [] {
      OpenTasksInOrder(def, clusters[1..]);
    }
  }

  /** Entering a definition changes nothing and leads to its Clusters, one by one. */
  lemma DefinitionOpens(cfg: Config, fate: Fate, def: TargetDefinition, s: State)
    ensures var (s', more) := Step(cfg, fate, Definition(def), s);
            && s' == s && |more| == |MatchedClusters(cfg, def, s.pass.clusters)|
            && forall i :: 0 <= i < |more| ==> more[i] == OpenCluster(def, MatchedClusters(cfg, def, s.pass.clusters)[i])
  {
    OpenTasksInOrder(def, MatchedClusters(cfg, def, s.pass.clusters));
  }

  /** The definitions of a pass follow each other. */
  lemma {:induction false} DefinitionsInOrder(defs: seq<TargetDefinition>)
    ensures |DefinitionTasks(defs)| == |defs| && forall i :: 0 <= i < |defs| ==> DefinitionTasks(defs)[i] == Definition(defs[i])
  {
    if defs != [] {
      DefinitionsInOrder(defs[1..]);
    }
  }

  /** The targets of one cluster, one namespace after the other, and the end of the cluster. */
  ghost predicate WorksOn(def: TargetDefinition, cluster: Option<Cluster>, namespaces: seq<string>, tasks: seq<Task>) {
    && |tasks| == |namespaces| + 1 && tasks[|namespaces|] == CloseCluster(cluster)
    && forall i :: 0 <= i < |namespaces| ==> tasks[i] == Target(def, cluster, namespaces[i])
  }

  lemma {:induction false} TargetTasksInOrder(def: TargetDefinition, cluster: Option<Cluster>, namespaces: seq<string>)
    ensures WorksOn(def, cluster, namespaces, ClusterTasks(def, cluster, namespaces))
  {
    if namespaces == [] {
      assert TargetTasks(def, cluster, []) == [];
    } else {
      TargetTasksInOrder(def, cluster, namespaces[1..]);
      var rest := ClusterTasks(def, cluster, namespaces[1..]);
      assert ClusterTasks(def, cluster, namespaces) == [Target(def, cluster, namespaces[0])] + rest;
      forall i | 0 <= i < |namespaces| ensures ClusterTasks(def, cluster, namespaces)[i] == Target(def, cluster, namespaces[i]) {
        if i > 0 {
          assert rest[i - 1] == Target(def, cluster, namespaces[1..][i - 1]);
        }
      }
    }
  }

  /** Only conditions and errors change. */
  ghost predicate OnlyReported(s: State, s': State, conditions: seq<Condition>, errors: nat) {
    s' == s.(pass := s.pass.(conditions := s.pass.conditions + conditions, errors := s.pass.errors + errors))
  }

  /** A Cluster in deletion is passed over; next to a Cluster its own namespace is worked on, whether or not it can be accessed; a cluster
      that cannot be accessed gets a False condition and an error; without a namespace selector the template names the namespace; with
      identities these are worked on; and for labels the namespaces are listed, with a False condition and an error if that fails. */
  lemma ClusterOpens(cfg: Config, fate: Fate, def: TargetDefinition, cluster: Option<Cluster>, s: State)
    ensures var (s', more) := Step(cfg, fate, OpenCluster(def, cluster), s);
            var bad := ClusterCondition(cfg.clusterCondition(Selecting(cluster)), false);
            if cluster.Some? && cluster.value.inDeletion then s' == s && more == []
            else if def.cluster.Some? && def.cluster.value.nextTo then s' == s && WorksOn(def, cluster, [Selecting(cluster).namespace], more)
            else if !fate.access then OnlyReported(s, s', [bad], 1) && more == []
            else if def.namespaces.None? then s' == s && WorksOn(def, cluster, [""], more)
            else if def.namespaces.value.matchIdentities.Some? then s' == s && WorksOn(def, cluster, def.namespaces.value.matchIdentities.value, more)
            else !fate.list ==> OnlyReported(s, s', [bad], 1) && more == []
  {
    var own := OwnRef(cluster);
    TargetTasksInOrder(def, cluster, [own.namespace]);
    TargetTasksInOrder(def, cluster, [""]);
    if def.namespaces.Some? {
      var sel := def.namespaces.value;
      if sel.matchIdentities.Some? {
        TargetTasksInOrder(def, cluster, sel.matchIdentities.value);
      }
    }
    hide SelectNamespaces, UnmatchableNamespaces, ClusterTasks, WorksOn, NamespacesOn;
  }

  /** The namespace is there and the selector's answer for it is this one: everything for an empty selector, else what the labels say. */
  ghost predicate AnswersFor(cfg: Config, sel: NamespaceSelector, c: ObjectReference, n: string, w: World, answer: Option<bool>) {
    && (c, n) in w.namespaces
    && answer == if sel.labels.matchLabels.None? && sel.labels.matchExpressions == [] then Some(true)
                 else cfg.labelsSelected(sel.labels, w.namespaces[(c, n)].labels)
  }

  /** Of the listed namespaces those are worked on that the labels select, in the order of the listing, and each one for which the selector
      cannot be evaluated is an error: what one more namespace at the end of the listing adds. */
  lemma {:induction false} SelectedInOrder(cfg: Config, sel: NamespaceSelector, c: ObjectReference, names: seq<string>, last: string, w: World)
    requires sel.matchIdentities.None?
    ensures SelectNamespaces(cfg, sel, c, [], w) == [] && UnmatchableNamespaces(cfg, sel, c, [], w) == 0
    ensures SelectNamespaces(cfg, sel, c, names + [last], w) ==
            SelectNamespaces(cfg, sel, c, names, w) + if AnswersFor(cfg, sel, c, last, w, Some(true)) then [last] else []
    ensures UnmatchableNamespaces(cfg, sel, c, names + [last], w) ==
            UnmatchableNamespaces(cfg, sel, c, names, w) + if AnswersFor(cfg, sel, c, last, w, None) then 1 else 0
  {
    if names == [] {
      assert [] + [last] == [last] && [last][1..] == [];
    } else {
      assert (names + [last])[1..] == names[1..] + [last];
      SelectedInOrder(cfg, sel, c, names[1..], last, w);
    }
  }

  /** With a listing of the namespaces on the cluster, the selected ones are worked on. */
  lemma ListingOpens(cfg: Config, fate: Fate, def: TargetDefinition, cluster: Option<Cluster>, s: State)
    requires fate.access && fate.list && (cluster.Some? ==> !cluster.value.inDeletion) && !(def.cluster.Some? && def.cluster.value.nextTo)
    requires def.namespaces.Some? && def.namespaces.value.matchIdentities.None?
    ensures var (s', more) := Step(cfg, fate, OpenCluster(def, cluster), s);
            var c := Selecting(cluster);
            var names := cfg.listOrder(set k | k in s.world.namespaces && k.0 == c :: k.1);
            && OnlyReported(s, s', [], UnmatchableNamespaces(cfg, def.namespaces.value, c, names, s.world))
            && WorksOn(def, cluster, SelectNamespaces(cfg, def.namespaces.value, c, names, s.world), more)
  {
    var c, sel := OwnRef(cluster), def.namespaces.value;
    var names := cfg.listOrder(NamespacesOn(s.world, c));
    TargetTasksInOrder(def, cluster, SelectNamespaces(cfg, sel, c, names, s.world));
    assert s.pass.conditions + [] == s.pass.conditions;
    assert NamespacesOn(s.world, c) == set k | k in s.world.namespaces && k.0 == c :: k.1;
    hide SelectNamespaces, UnmatchableNamespaces, ClusterTasks, WorksOn, NamespacesOn;
  }

  /** The end of a cluster is a True condition. */
  lemma ClusterCloses(cfg: Config, fate: Fate, cluster: Option<Cluster>, s: State)
    ensures var (s', more) := Step(cfg, fate, CloseCluster(cluster), s);
            OnlyReported(s, s', [ClusterCondition(cfg.clusterCondition(Selecting(cluster)), true)], 0) && more == []
  {}

  // ---- The plan ----

  /** The last condition reported under the name is False. */
  ghost predicate LastIsFalse(conditions: seq<Condition>, name: string) {
    exists i :: 0 <= i < |conditions| && conditions[i] == ClusterCondition(name, false)
      && forall j :: i < j < |conditions| ==> !(conditions[j].ClusterCondition? && conditions[j].name == name)
  }

  lemma LastIsAppended(front: seq<Condition>, c: Condition, name: string)
    ensures LastIsFalse(front + [c], name) <==> if c.ClusterCondition? && c.name == name then !c.ok else LastIsFalse(front, name)
  {
    var all, n := front + [c], |front|;
    assert all[n] == c && forall i :: 0 <= i < n ==> all[i] == front[i];
    if c.ClusterCondition? && c.name == name {
      if !c.ok {
        assert all[n] == ClusterCondition(name, false);
      }
    } else if LastIsFalse(front, name) {
      var i :| 0 <= i < n && front[i] == ClusterCondition(name, false)
        && forall j :: i < j < n ==> !(front[j].ClusterCondition? && front[j].name == name);
      assert all[i] == ClusterCondition(name, false);
    }
  }

  lemma {:induction false} LastIs(conditions: seq<Condition>, name: string)
    ensures LastClusterCondition(conditions, name) == Some(false) <==> LastIsFalse(conditions, name)
  {
    if conditions != [] {
      var n := |conditions| - 1;
      assert conditions == conditions[..n] + [conditions[n]];
      LastIs(conditions[..n], name);
      LastIsAppended(conditions[..n], conditions[n], name);
      hide LastIsFalse;
    }
  }

  /** The Cluster is in the list the pass started with, or is the hosting cluster. */
  ghost predicate Exists(p: Pass, c: ObjectReference) {
    c == ObjectReference("", "") || exists x :: x in p.clusters && x.ref == c
  }

  /** The plan changes no object and reports nothing. It sets down for deletion exactly the tracked entries that were not synced, on clusters
      that exist and whose last condition, if the replica is not in deletion, is not False, and that have no condition of their own. It
      forgets exactly the entries on clusters that do not exist. */
  lemma PlanIs(cfg: Config, fate: Fate, s: State) returns (buckets: seq<Bucket>)
    requires WellFormed(s.pass.status)
    ensures var (s', more) := Step(cfg, fate, Plan, s);
            var p := s.pass;
            && s' == s.(pass := p.(status := s'.pass.status)) && more == [Obsolete(buckets)]
            && (forall l :: l in Tracked(s'.pass.status) <==> l in Tracked(p.status) && (l in p.managed || Exists(p, l.cluster)))
            && (forall l: Location :: (exists b: Bucket :: b in buckets && b.cluster == l.cluster && l.ref in b.refs) <==>
                  && l in Tracked(p.status) && l !in p.managed && Exists(p, l.cluster)
                  && (p.inDeletion || !LastIsFalse(p.conditions, cfg.clusterCondition(l.cluster)))
                  && forall c :: c in p.conditions && c.TargetCondition? ==> c.name != cfg.targetCondition(l))
  {
    var p := s.pass;
    buckets := BucketsFor(cfg, p, ClustersOf(Walk(p.status)));
    PlanForgetsExactly(cfg, s);
    forall l
      ensures InBuckets(buckets, l) <==> IsObsolete(cfg, p, l)
      ensures l in Walk(p.status) <==> l in Tracked(p.status)
      ensures Unhealthy(cfg, p, l.cluster) <==> !p.inDeletion && LastIsFalse(p.conditions, cfg.clusterCondition(l.cluster))
      ensures Vanished(p, l.cluster) <==> !Exists(p, l.cluster)
    {
      PlanIsExact(cfg, p, l);
      LastIs(p.conditions, cfg.clusterCondition(l.cluster));
    }
    hide Tracked, WellFormed, Vanished, Unhealthy, LastIsFalse, Exists, BucketsFor, Walk;
  }

  // ---- The deletions ----

  /** A cluster that cannot be accessed for deletions: every entry of it gets a False condition, in order, and there is one error. */
  lemma BucketOpens(cfg: Config, fate: Fate, b: Bucket, s: State)
    ensures var (s', more) := Step(cfg, fate, OpenBucket(b), s);
            var reports := seq(|b.refs|, i requires 0 <= i < |b.refs| => TargetCondition(cfg.targetCondition(Location(b.cluster, b.refs[i])), false, Failed));
            if fate.access then s' == s && more == seq(|b.refs|, i requires 0 <= i < |b.refs| => Delete(Location(b.cluster, b.refs[i])))
            else OnlyReported(s, s', reports, 1) && more == []
  {
    DeleteTasksInOrder(b.cluster, b.refs);
    ReportsInOrder(cfg, b, |b.refs|, s);
    assert DeleteTasks(b.cluster, b.refs) == seq(|b.refs|, i requires 0 <= i < |b.refs| => Delete(Location(b.cluster, b.refs[i])));
  }

  lemma {:induction false} DeleteTasksInOrder(c: ObjectReference, refs: seq<TypedRef>)
    ensures |DeleteTasks(c, refs)| == |refs| && forall i :: 0 <= i < |refs| ==> DeleteTasks(c, refs)[i] == Delete(Location(c, refs[i]))
  {
    if refs != [] {
      DeleteTasksInOrder(c, refs[1..]);
    }
  }

  lemma {:induction false} ReportsInOrder(cfg: Config, b: Bucket, n: nat, s: State)
    requires n <= |b.refs|
    ensures var reports := seq(n, i requires 0 <= i < n => TargetCondition(cfg.targetCondition(Location(b.cluster, b.refs[i])), false, Failed));
            ReportAll(cfg, b, n, s) == s.(pass := s.pass.(conditions := s.pass.conditions + reports))
  {
    if n > 0 {
      ReportsInOrder(cfg, b, n - 1, s);
    }
  }

  /** The object is the replica's for the deletion path: the provider's, and with the name and kind of the replica. */
  ghost predicate NamesManager(provider: string, id: ReplicaId, o: Object) {
    Reads(o.labels, ManagedBy, provider) && Reads(o.labels, SourceName, id.name) && Reads(o.labels, SourceKind, KindText(id.kind))
  }

  /** The object without the six labels of the replica. */
  ghost predicate IsReleased(before: Object, o: Object) {
    && o == before.(labels := o.labels)
    && forall k :: Lookup(o.labels, k) ==
                   if k in {ManagedBy, SourceKind, SourceName, SourceNamespace, SourceGeneration, DeletionPolicy} then None else Lookup(before.labels, k)
  }

  ghost predicate OnlyObject(l: Location, o: Object, s: State, s': State) {
    s'.world == s.world.(objects := s.world.objects[l := o])
  }

  /** Nothing of the bookkeeping changes but the entry of l, which goes or stays. */
  ghost predicate EntryGone(l: Location, gone: bool, s: State, s': State) {
    && Tracked(s'.pass.status) == (if gone then Tracked(s.pass.status) - {l} else Tracked(s.pass.status))
    && (!gone ==> s'.pass.status == s.pass.status)
    && s'.persisted == s.persisted && s'.pass.oldStatus == s.pass.oldStatus && s'.pass.managed == s.pass.managed
  }

  ghost predicate Silent(s: State, s': State) {
    s'.pass.conditions == s.pass.conditions && s'.pass.errors == s.pass.errors
  }

  /** The replica waits for the object, which is no error. */
  ghost predicate WaitsFor(cfg: Config, l: Location, s: State, s': State) {
    && s'.pass.conditions == s.pass.conditions + [TargetCondition(cfg.targetCondition(l), false, WaitingForDeletion)]
    && s'.pass.errors == s.pass.errors
  }

  /** An object labelled Keep loses the six labels, and its entry goes if that succeeds. */
  ghost predicate KeptAndReleased(cfg: Config, fate: Fate, l: Location, o: Object, s: State, s': State) {
    && EntryGone(l, fate.write.Ok?, s, s')
    && (if fate.write.Ok? then Silent(s, s') else Answers(cfg, l, false, Failed, s, s'))
    && (if fate.write.Lost? then s'.world == s.world else exists r :: IsReleased(o, r) && OnlyObject(l, r, s, s'))
  }

  /** Any other object is marked, once, and waited for. */
  ghost predicate MarkedAndAwaited(cfg: Config, fate: Fate, l: Location, o: Object, s: State, s': State) {
    && EntryGone(l, false, s, s')
    && if o.inDeletion then s'.world == s.world && WaitsFor(cfg, l, s, s')
       else
         && (if fate.write.Lost? then s'.world == s.world else OnlyObject(l, o.(inDeletion := true), s, s'))
         && (if fate.write.Ok? then WaitsFor(cfg, l, s, s') else Answers(cfg, l, false, Failed, s, s'))
  }

  /** One deletion. If the object cannot be read, a False condition and an error. If there is none, or it is not the replica's, the entry
      goes and nothing else happens. What is labelled Keep is released, anything else deleted. */
  lemma DeletionIs(cfg: Config, fate: Fate, l: Location, s: State)
    requires WellFormed(s.pass.status)
    ensures var s' := Step(cfg, fate, Delete(l), s).0;
            if !fate.get then Untouched(s, s') && Answers(cfg, l, false, Failed, s, s')
            else if l !in s.world.objects || !NamesManager(cfg.provider, s.pass.id, s.world.objects[l]) then
              s'.world == s.world && EntryGone(l, true, s, s') && Silent(s, s')
            else if Reads(s.world.objects[l].labels, DeletionPolicy, "Keep") then KeptAndReleased(cfg, fate, l, s.world.objects[l], s, s')
            else MarkedAndAwaited(cfg, fate, l, s.world.objects[l], s, s')
  {
    if fate.get && l in s.world.objects {
      ManagedIs(cfg, s.pass.id, s.world.objects[l]);
      hide NamesManager, Reads, KeptAndReleased, MarkedAndAwaited, IsManaged, Kept, DeleteObsolete, EntryGone, Silent;
      if IsManaged(cfg.provider, s.pass.id, s.world.objects[l]) {
        if Kept(s.world.objects[l]) {
          KeptIsReleased(cfg, fate, l, s.world.objects[l], s);
        } else {
          OtherIsMarked(cfg, fate, l, s.world.objects[l], s);
        }
      } else {
        OthersAreForgotten(cfg, fate, l, s);
      }
    } else {
      RawRefinesSet(s.pass.status, l);
      hide Tracked, WellFormed, RemovedAt;
    }
  }

  lemma OthersAreForgotten(cfg: Config, fate: Fate, l: Location, s: State)
    requires WellFormed(s.pass.status) && fate.get && l in s.world.objects && !IsManaged(cfg.provider, s.pass.id, s.world.objects[l])
    ensures var s' := DeleteObsolete(cfg, fate, l, s); s'.world == s.world && EntryGone(l, true, s, s') && Silent(s, s')
  {
    RawRefinesSet(s.pass.status, l);
    hide Tracked, WellFormed, RemovedAt, IsManaged;
  }

  lemma KeptIsReleased(cfg: Config, fate: Fate, l: Location, o: Object, s: State)
    requires WellFormed(s.pass.status) && fate.get && l in s.world.objects && s.world.objects[l] == o
    requires IsManaged(cfg.provider, s.pass.id, o) && Kept(o)
    ensures KeptAndReleased(cfg, fate, l, o, s, DeleteObsolete(cfg, fate, l, s))
  {
    RawRefinesSet(s.pass.status, l);
    ReleasedIs(o);
    hide Tracked, WellFormed, RemovedAt, Released, IsReleased, IsManaged, Kept;
  }

  lemma OtherIsMarked(cfg: Config, fate: Fate, l: Location, o: Object, s: State)
    requires fate.get && l in s.world.objects && s.world.objects[l] == o && IsManaged(cfg.provider, s.pass.id, o) && !Kept(o)
    ensures MarkedAndAwaited(cfg, fate, l, o, s, DeleteObsolete(cfg, fate, l, s))
  {
    hide Tracked, RemovedAt, IsManaged, Kept;
  }

  lemma ManagedIs(cfg: Config, id: ReplicaId, o: Object)
    ensures IsManaged(cfg.provider, id, o) <==> NamesManager(cfg.provider, id, o)
    ensures Kept(o) <==> Reads(o.labels, DeletionPolicy, "Keep")
  {}

  lemma ReleasedIs(o: Object)
    ensures IsReleased(o, Released(o))
  {}

  // ---- The end ----

  /** Cleaning up keeps the entries and tracks everything synced. */
  lemma CleanupIs(cfg: Config, fate: Fate, s: State)
    requires WellFormed(s.pass.status)
    ensures var (s', more) := Step(cfg, fate, Cleanup, s);
            && more == [] && s' == s.(pass := s.pass.(status := s'.pass.status))
            && (forall l :: l in Tracked(s'.pass.status) <==> l in Tracked(s.pass.status) || l in s.pass.managed)
  {
    CleanupKeepsTracked(s.pass.status);
    TrackAllTracked(s.pass.managed, Cleaned(s.pass.status));
    hide Tracked, WellFormed, Cleaned, TrackAll;
  }

  /** The final status update stores the list in memory, if it differs from the old copy. */
  lemma UpdateIs(cfg: Config, fate: Fate, s: State)
    ensures var (s', more) := Step(cfg, fate, UpdateStatus, s);
            && more == [] && s' == s.(persisted := s'.persisted)
            && if fate.patch.Lost? then s'.persisted == s.persisted else Sent(s, s')
  {}

  /** The obsolete clusters are handled one after the other, each of them once, in an order that the calls decide. */
  lemma ObsoleteGoesOn(cfg: Config, fate: Fate, buckets: seq<Bucket>, s: State)
    ensures var (s', more) := Step(cfg, fate, Obsolete(buckets), s);
            && s' == s
            && if buckets == [] then more == []
               else exists i :: 0 <= i < |buckets| && more == [OpenBucket(buckets[i]), Obsolete(buckets[..i] + buckets[i + 1..])]
  {}

  // ---- The start ----

  /** A pass as it starts: what it works with is as stored, and nothing has been done. */
  ghost predicate IsFresh(id: ReplicaId, clusters: seq<Cluster>, r: Stored, p: Pass, conditions: seq<Condition>) {
    && p.id == id && p.inDeletion == r.deleting && p.generation == r.generation && p.input == r.input && p.defs == r.defs
    && p.clusters == clusters && p.status == r.persisted && p.oldStatus == r.persisted
    && p.managed == [] && p.seen == map[] && p.conditions == conditions && p.errors == 0
  }

  /** With its inputs a replica that is not being deleted has its finalizer and works on its definitions, then on what is obsolete. */
  lemma StartsReady(id: ReplicaId, fate: Fate, clusters: seq<Cluster>, r: Stored)
    requires fate.get && !r.ignored && fate.list && !r.deleting && fate.sources && (r.finalizer || fate.finalizer.Ok?)
    ensures var r' := Start(id, fate, clusters, r);
            && r'.running.Some? && r' == r.(finalizer := true, running := r'.running)
            && var p, agenda := r'.running.value.pass, r'.running.value.agenda;
            && IsFresh(id, clusters, r, p, []) && |agenda| == |r.defs| + 3
            && (forall i :: 0 <= i < |r.defs| ==> agenda[i] == Definition(r.defs[i]))
            && agenda[|r.defs|..] == [Plan, Cleanup, UpdateStatus]
  {
    DefinitionsInOrder(r.defs);
    var loops := DefinitionTasks(r.defs);
    assert loops + [Plan, Cleanup] + [UpdateStatus] == loops + [Plan, Cleanup, UpdateStatus];
    assert (loops + [Plan, Cleanup, UpdateStatus])[|r.defs|..] == [Plan, Cleanup, UpdateStatus];
  }

  /** A replica that is being deleted: while the stored list is not empty it deletes what is obsolete, and keeps its finalizer; with an empty
      list the finalizer goes, unless that call is lost. */
  lemma StartsDeleting(id: ReplicaId, fate: Fate, clusters: seq<Cluster>, r: Stored)
    requires fate.get && !r.ignored && fate.list && r.deleting && r.running.None?
    ensures var r' := Start(id, fate, clusters, r);
            if r.persisted != [] then
              && r'.running.Some? && r' == r.(running := r'.running) && r'.running.value.agenda == [Plan, Cleanup, UpdateStatus]
              && IsFresh(id, clusters, r, r'.running.value.pass, [OtherCondition(false)])
            else if r.finalizer && fate.finalizer.Lost? then
              r'.running.Some? && r' == r.(running := r'.running) && r'.running.value.agenda == [UpdateStatus]
            else r' == r.(finalizer := false)
  {
    assert [Plan, Cleanup] + [UpdateStatus] == [Plan, Cleanup, UpdateStatus];
  }
}
