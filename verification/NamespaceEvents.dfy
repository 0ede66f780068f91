/** Which replicas a namespace event wakes up (internal/namespace/controller.go), against what a pass wants (internal/replica/controller.go). */
module NamespaceEvents {
  import opened Refs
  import opened StatusList
  import opened Objects
  import opened Targets
  import opened Steps
  import opened System
  import opened Resolution
  import Enqueue

  // ---- What a pass wants ----

  /** The identities taken without listing, restricted to existing namespaces, are what filtering all namespaces with Matches would select. */
  lemma ShortcutAgrees(cfg: Config, def: TargetDefinition, cluster: Option<Cluster>, w: World, n: string)
    requires ListsAll(cfg) && !IsNextTo(def) && def.namespaces.Some? && def.namespaces.value.matchIdentities.Some?
    ensures var own := OwnRef(cluster);
            n in SelectNamespaces(cfg, def.namespaces.value, own, cfg.listOrder(NamespacesOn(w, own)), w) <==>
            (own, n) in w.namespaces && n in Resolved(cfg, def, cluster, w)
  {
    SelectsTheMatching(cfg, def.namespaces.value, OwnRef(cluster), w, n);
  }

  /** A target definition, a cluster it selects and a namespace it selects there render the object at l. */
  ghost predicate WantedThrough(cfg: Config, input: string, def: TargetDefinition, clusters: seq<Cluster>, w: World, l: Location,
                                cluster: Option<Cluster>, namespace: string) {
    && cluster in MatchedClusters(cfg, def, clusters)
    && !(cluster.Some? && cluster.value.inDeletion)
    && namespace in Resolved(cfg, def, cluster, w)
    && var r := Render(cfg, input, cluster, namespace);
    && r.Rendered? && l == Location(HomeRef(def, cluster), r.ref)
  }

  ghost predicate Wanted(cfg: Config, r: Stored, clusters: seq<Cluster>, w: World, l: Location) {
    exists def, cluster, namespace :: def in r.defs && WantedThrough(cfg, r.input, def, clusters, w, l, cluster, namespace)
  }

  // ---- The relevance test ----

  predicate SelectorMatches(cfg: Config, def: TargetDefinition, name: string, labels: map<string, string>) {
    def.namespaces.Some? && NamespaceMatches(cfg, def.namespaces.value, name, labels) == Some(true)
  }

  /** The entry's namespace and cluster are those of the event; a nil cluster is the hosting one. */
  predicate LivesIn(clusterName: ObjectReference -> string, res: CreatedResource, name: string, eventCluster: string) {
    && res.namespace == name
    && eventCluster == clusterName(if res.cluster.None? then HOSTING else res.cluster.value)
  }

  ghost predicate Relevant(cfg: Config, clusterName: ObjectReference -> string, r: Stored, name: string, labels: map<string, string>, eventCluster: string) {
    || (exists def :: def in r.defs && SelectorMatches(cfg, def, name, labels))
    || (exists g, res :: g in r.persisted && res in g.resources && LivesIn(clusterName, res, name, eventCluster))
  }

  method ReplicaIsRelevantForNamespaceEvent(cfg: Config, clusterName: ObjectReference -> string, r: Stored,
                                            name: string, labels: map<string, string>, eventCluster: string) returns (relevant: bool)
    ensures relevant <==> Relevant(cfg, clusterName, r, name, labels, eventCluster)
  {
    for i := 0 to |r.defs|
      invariant forall d :: d in r.defs[..i] ==> !SelectorMatches(cfg, d, name, labels)
    {
      var def := r.defs[i];
      assert r.defs[..i + 1] == r.defs[..i] + [def];
      if def.namespaces.None? {
        continue;
      }
      var matches := Matches(cfg, def.namespaces, name, labels);
      if matches.None? {
        continue;
      }
      if matches.value {
        assert SelectorMatches(cfg, def, name, labels);
        return true;
      }
    }
    assert r.defs[..|r.defs|] == r.defs;
    for i := 0 to |r.persisted|
      invariant forall g, res :: g in r.persisted[..i] && res in g.resources ==> !LivesIn(clusterName, res, name, eventCluster)
    {
      var g := r.persisted[i];
      for j := 0 to |g.resources|
        invariant forall res :: res in g.resources[..j] ==> !LivesIn(clusterName, res, name, eventCluster)
      {
        var copy := g.resources[j];
        assert g.resources[..j + 1] == g.resources[..j] + [copy];
        if copy.namespace != name {
          continue;
        }
        if eventCluster == clusterName(HOSTING) && copy.cluster.None? {
          assert LivesIn(clusterName, copy, name, eventCluster);
          return true;
        } else if copy.cluster.Some? && clusterName(copy.cluster.value) == eventCluster {
          assert LivesIn(clusterName, copy, name, eventCluster);
          return true;
        }
      }
      assert g.resources[..|g.resources|] == g.resources;
      assert r.persisted[..i + 1] == r.persisted[..i] + [g];
    }
    assert r.persisted[..|r.persisted|] == r.persisted;
    return false;
  }

  /** The replicas that are not woken: no namespace selector of theirs answers that the namespace matches, and no tracked copy is in that
      namespace on that cluster. */
  lemma RelevantExactly(cfg: Config, clusterName: ObjectReference -> string, r: Stored, name: string, labels: map<string, string>, eventCluster: string)
    requires WellFormed(r.persisted)
    ensures !Relevant(cfg, clusterName, r, name, labels, eventCluster) <==>
            && (forall def :: def in r.defs && def.namespaces.Some? ==> !IsAnswer(cfg, def.namespaces.value, name, labels, Some(true)))
            && (forall l :: l in Tracked(r.persisted) ==> l.ref.namespace != name || clusterName(l.cluster) != eventCluster)
  {
    forall l | l in Tracked(r.persisted) && l.ref.namespace == name && clusterName(l.cluster) == eventCluster
      ensures Relevant(cfg, clusterName, r, name, labels, eventCluster)
    {
      TrackedLivesIn(clusterName, r.persisted, l);
    }
    forall g, res | g in r.persisted && res in g.resources && LivesIn(clusterName, res, name, eventCluster)
      ensures exists l :: l in Tracked(r.persisted) && l.ref.namespace == name && clusterName(l.cluster) == eventCluster
    {
      var i :| 0 <= i < |r.persisted| && r.persisted[i] == g;
      EntryIn(r.persisted, i, res);
      assert LocationOf(g.gvk, res) in Tracked(r.persisted);
    }
    hide Tracked, WellFormed, LivesIn;
  }

  // ---- Completeness ----

  /** Only the namespace called name on cluster was created or relabelled. */
  ghost predicate NamespaceEvent(before: World, after: World, cluster: ObjectReference, name: string) {
    && name != "" && (cluster, name) in after.namespaces
    && forall k :: k != (cluster, name) ==> Lookup(before.namespaces, k) == Lookup(after.namespaces, k)
  }

  /** The event touches the choice of one target definition on one cluster only by adding or removing the namespace, selected by its labels. */
  lemma ChoiceChange(cfg: Config, def: TargetDefinition, own: Option<Cluster>, before: World, after: World, cluster: ObjectReference, name: string, n: string)
    requires ListsAll(cfg) && NamespaceEvent(before, after, cluster, name)
    requires n in Resolved(cfg, def, own, before) <==> n !in Resolved(cfg, def, own, after)
    ensures n == name && OwnRef(own) == cluster && !IsNextTo(def) && def.namespaces.Some?
    ensures n in Resolved(cfg, def, own, after) ==> SelectorMatches(cfg, def, name, after.namespaces[(cluster, name)].labels)
  {
    if !IsNextTo(def) && def.namespaces.Some? && def.namespaces.value.matchIdentities.None? {
      var c := OwnRef(own);
      SelectsTheMatching(cfg, def.namespaces.value, c, before, n);
      SelectsTheMatching(cfg, def.namespaces.value, c, after, n);
      assert (c, n) != (cluster, name) ==> Lookup(before.namespaces, (c, n)) == Lookup(after.namespaces, (c, n));
    }
  }

  /** A copy that the event makes wanted comes from a target definition whose selector matches the namespace as it is now. */
  lemma NewlyWantedIsRelevant(cfg: Config, clusterName: ObjectReference -> string, r: Stored, clusters: seq<Cluster>,
                              before: World, after: World, cluster: ObjectReference, name: string, l: Location)
    requires ListsAll(cfg) && NamespaceEvent(before, after, cluster, name)
    requires Wanted(cfg, r, clusters, after, l) && !Wanted(cfg, r, clusters, before, l)
    ensures Relevant(cfg, clusterName, r, name, after.namespaces[(cluster, name)].labels, clusterName(cluster))
  {
    var def, own, n :| def in r.defs && WantedThrough(cfg, r.input, def, clusters, after, l, own, n);
    assert !WantedThrough(cfg, r.input, def, clusters, before, l, own, n);
    ChoiceChange(cfg, def, own, before, after, cluster, name, n);
  }

  lemma TrackedLivesIn(clusterName: ObjectReference -> string, status: seq<Group>, l: Location)
    requires WellFormed(status) && l in Tracked(status)
    ensures exists g, res :: g in status && res in g.resources && LivesIn(clusterName, res, l.ref.namespace, clusterName(l.cluster))
  {
    TrackedAt(status, l);
    var i := TypeIndex(status, l.ref.gvk);
    assert status[i] in status && Resource(l) in status[i].resources;
    assert LivesIn(clusterName, Resource(l), l.ref.namespace, clusterName(l.cluster));
  }

  /** A tracked copy that the event makes unwanted lives in the namespace. */
  lemma NoLongerWantedIsRelevant(cfg: Config, clusterName: ObjectReference -> string, r: Stored, clusters: seq<Cluster>,
                                 before: World, after: World, cluster: ObjectReference, name: string, l: Location)
    requires ListsAll(cfg) && NamespaceEvent(before, after, cluster, name) && WellFormed(r.persisted)
    requires Wanted(cfg, r, clusters, before, l) && !Wanted(cfg, r, clusters, after, l) && l in Tracked(r.persisted)
    ensures Relevant(cfg, clusterName, r, name, after.namespaces[(cluster, name)].labels, clusterName(cluster))
  {
    var def, own, n :| def in r.defs && WantedThrough(cfg, r.input, def, clusters, before, l, own, n);
    assert !WantedThrough(cfg, r.input, def, clusters, after, l, own, n);
    ChoiceChange(cfg, def, own, before, after, cluster, name, n);
    assert l.ref.namespace == name && l.cluster == cluster;
    TrackedLivesIn(clusterName, r.persisted, l);
  }

  // ---- The event handler ----

  datatype Listed = Listed(id: ReplicaId, stored: Stored)

  function NameOf(id: ReplicaId): Enqueue.NamespacedName {
    Enqueue.NamespacedName(id.namespace, id.name)
  }

  function NotIgnored(listed: seq<Listed>): seq<Listed> {
    if listed == [] then []
    else
      var last := |listed| - 1;
      NotIgnored(listed[..last]) + (if listed[last].stored.ignored then [] else [listed[last]])
  }

  /** The replicas enqueued one after the other. */
  ghost function EnqueueRelevant(cfg: Config, clusterName: ObjectReference -> string, replicas: seq<Listed>, name: string,
                                 labels: map<string, string>, eventCluster: string, s: Enqueue.Shared): Enqueue.Shared {
    if replicas == [] then s
    else
      var last := |replicas| - 1;
      var s' := EnqueueRelevant(cfg, clusterName, replicas[..last], name, labels, eventCluster, s);
      if Relevant(cfg, clusterName, replicas[last].stored, name, labels, eventCluster) then Enqueue.Enqueued(s', NameOf(replicas[last].id)) else s'
  }

  method WithoutIgnored(listed: seq<Listed>, replicas: seq<Listed>) returns (r: seq<Listed>)
    ensures r == replicas + NotIgnored(listed)
  {
    r := replicas;
    for i := 0 to |listed|
      invariant r == replicas + NotIgnored(listed[..i])
    {
      assert listed[..i + 1][..i] == listed[..i];
      if !listed[i].stored.ignored {
        r := r + [listed[i]];
      }
    }
    assert listed[..|listed|] == listed;
  }

  method Gather(namespaced: seq<Listed>, clusterScoped: seq<Listed>) returns (replicas: seq<Listed>)
    ensures replicas == NotIgnored(namespaced) + NotIgnored(clusterScoped)
  {
    replicas := WithoutIgnored(namespaced, []);
    replicas := WithoutIgnored(clusterScoped, replicas);
  }

  lemma EnqueueRelevantStep(cfg: Config, clusterName: ObjectReference -> string, replicas: seq<Listed>, i: nat, name: string,
                            labels: map<string, string>, eventCluster: string, s: Enqueue.Shared)
    requires i < |replicas|
    ensures var s' := EnqueueRelevant(cfg, clusterName, replicas[..i], name, labels, eventCluster, s);
            EnqueueRelevant(cfg, clusterName, replicas[..i + 1], name, labels, eventCluster, s) ==
            if Relevant(cfg, clusterName, replicas[i].stored, name, labels, eventCluster) then Enqueue.Enqueued(s', NameOf(replicas[i].id)) else s'
  {
    hide Relevant, Enqueue.Enqueued;
    assert replicas[..i + 1][..i] == replicas[..i];
  }

  /** Nothing is enqueued if a listing fails. */
  method EnqueueMatchingReplicas(cfg: Config, clusterName: ObjectReference -> string, name: string, labels: map<string, string>, eventCluster: string,
                                 namespaced: Option<seq<Listed>>, clusterScoped: Option<seq<Listed>>, shared: Enqueue.SharedInformation)
    returns (ok: bool)
    modifies shared
    ensures ok <==> namespaced.Some? && clusterScoped.Some?
    ensures !ok ==> shared.View() == old(shared.View())
    ensures ok ==> shared.View() == EnqueueRelevant(cfg, clusterName, NotIgnored(namespaced.value) + NotIgnored(clusterScoped.value),
                                                    name, labels, eventCluster, old(shared.View()))
  {
    if namespaced.None? || clusterScoped.None? {
      return false;
    }
    var replicas := Gather(namespaced.value, clusterScoped.value);
    ghost var s := shared.View();
    assert EnqueueRelevant(cfg, clusterName, replicas[..0], name, labels, eventCluster, s) == s;
    hide *;
    for i := 0 to |replicas|
      invariant shared.View() == EnqueueRelevant(cfg, clusterName, replicas[..i], name, labels, eventCluster, s)
    {
      EnqueueRelevantStep(cfg, clusterName, replicas, i, name, labels, eventCluster, s);
      var relevant := ReplicaIsRelevantForNamespaceEvent(cfg, clusterName, replicas[i].stored, name, labels, eventCluster);
      if relevant {
        shared.EnqueueReplica(NameOf(replicas[i].id));
      }
    }
    assert replicas[..|replicas|] == replicas;
    return true;
  }

  lemma {:induction false} NotIgnoredMembers(listed: seq<Listed>)
    ensures forall x :: x in NotIgnored(listed) <==> x in listed && !x.stored.ignored
  {
    if listed != [] {
      var last := |listed| - 1;
      NotIgnoredMembers(listed[..last]);
      assert listed == listed[..last] + [listed[last]];
    }
  }

  /** After the event every relevant replica is pending, unless the channel is full. */
  lemma {:induction false} RelevantIsEnqueued(cfg: Config, clusterName: ObjectReference -> string, replicas: seq<Listed>, name: string,
                                              labels: map<string, string>, eventCluster: string, s: Enqueue.Shared, x: Listed)
    requires x in replicas && Relevant(cfg, clusterName, x.stored, name, labels, eventCluster)
    ensures var s' := EnqueueRelevant(cfg, clusterName, replicas, name, labels, eventCluster, s);
            Enqueue.Key(NameOf(x.id)) in s'.pending || |s'.channel| >= Enqueue.CAPACITY
  {
    hide Relevant;
    var last := |replicas| - 1;
    assert replicas == replicas[..last] + [replicas[last]];
    if x != replicas[last] {
      RelevantIsEnqueued(cfg, clusterName, replicas[..last], name, labels, eventCluster, s, x);
    }
  }

  /** The name is that of a relevant replica. */
  ghost predicate NamesRelevant(cfg: Config, clusterName: ObjectReference -> string, replicas: seq<Listed>, name: string,
                                labels: map<string, string>, eventCluster: string, nn: Enqueue.NamespacedName) {
    exists x :: x in replicas && Relevant(cfg, clusterName, x.stored, name, labels, eventCluster)
      && nn.namespace == x.id.namespace && nn.name == x.id.name
  }

  /** The keys that have become pending are those of the names that have been sent. */
  ghost predicate KeysOfSent(s: Enqueue.Shared, s': Enqueue.Shared) {
    && s.channel <= s'.channel
    && forall key :: key in s'.pending <==>
                     key in s.pending || exists nn :: nn in s'.channel[|s.channel|..] && key == nn.namespace + "/" + nn.name
  }

  /** And no other replica is: everything sent is the name of a relevant one, and so is every key that becomes pending. */
  lemma {:induction false} OnlyRelevantAreEnqueued(cfg: Config, clusterName: ObjectReference -> string, replicas: seq<Listed>, name: string,
                                                   labels: map<string, string>, eventCluster: string, s: Enqueue.Shared)
    ensures var s' := EnqueueRelevant(cfg, clusterName, replicas, name, labels, eventCluster, s);
            && KeysOfSent(s, s') && |s'.channel| - |s.channel| <= |replicas|
            && forall nn :: nn in s'.channel[|s.channel|..] ==> NamesRelevant(cfg, clusterName, replicas, name, labels, eventCluster, nn)
  {
    hide Relevant;
    if replicas != [] {
      var last := |replicas| - 1;
      assert replicas == replicas[..last] + [replicas[last]];
      OnlyRelevantAreEnqueued(cfg, clusterName, replicas[..last], name, labels, eventCluster, s);
      var s1 := EnqueueRelevant(cfg, clusterName, replicas[..last], name, labels, eventCluster, s);
      var s' := EnqueueRelevant(cfg, clusterName, replicas, name, labels, eventCluster, s);
      hide KeysOfSent;
      EnqueuedKeys(s, s1, s', NameOf(replicas[last].id));
    }
  }

  lemma EnqueuedKeys(s: Enqueue.Shared, s1: Enqueue.Shared, s': Enqueue.Shared, nn: Enqueue.NamespacedName)
    requires KeysOfSent(s, s1) && (s' == s1 || s' == Enqueue.Enqueued(s1, nn))
    ensures KeysOfSent(s, s')
    ensures s' != s1 ==> s'.channel[|s.channel|..] == s1.channel[|s.channel|..] + [nn]
  {
    if s' != s1 {
      assert s'.channel[|s.channel|..] == s1.channel[|s.channel|..] + [nn];
      assert s'.pending == s1.pending + {nn.namespace + "/" + nn.name};
    }
  }

  /** Wake-ups are complete: if the event makes a copy newly wanted by a replica that is not ignored, or makes a tracked copy of it
      unwanted, then after the event the replica is pending or the channel is full. */
  lemma WakeUpsAreComplete(cfg: Config, clusterName: ObjectReference -> string, namespaced: seq<Listed>, clusterScoped: seq<Listed>, x: Listed,
                           clusters: seq<Cluster>, before: World, after: World, cluster: ObjectReference, name: string, l: Location, s: Enqueue.Shared)
    requires ListsAll(cfg) && NamespaceEvent(before, after, cluster, name) && WellFormed(x.stored.persisted)
    requires (x in namespaced || x in clusterScoped) && !x.stored.ignored
    requires || (!Wanted(cfg, x.stored, clusters, before, l) && Wanted(cfg, x.stored, clusters, after, l))
             || (Wanted(cfg, x.stored, clusters, before, l) && !Wanted(cfg, x.stored, clusters, after, l) && l in Tracked(x.stored.persisted))
    ensures var labels := after.namespaces[(cluster, name)].labels;
            var s' := EnqueueRelevant(cfg, clusterName, NotIgnored(namespaced) + NotIgnored(clusterScoped), name, labels, clusterName(cluster), s);
            Enqueue.Key(NameOf(x.id)) in s'.pending || |s'.channel| >= 1000
  {
    if Wanted(cfg, x.stored, clusters, after, l) {
      NewlyWantedIsRelevant(cfg, clusterName, x.stored, clusters, before, after, cluster, name, l);
    } else {
      NoLongerWantedIsRelevant(cfg, clusterName, x.stored, clusters, before, after, cluster, name, l);
    }
    NotIgnoredMembers(namespaced);
    NotIgnoredMembers(clusterScoped);
    hide Wanted, Relevant, NamespaceEvent, WellFormed, Tracked, NotIgnored;
    RelevantIsEnqueued(cfg, clusterName, NotIgnored(namespaced) + NotIgnored(clusterScoped), name,
                       after.namespaces[(cluster, name)].labels, clusterName(cluster), s, x);
  }
}
