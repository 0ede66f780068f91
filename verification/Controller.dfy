/** The reconciler (internal/replica/controller.go) as it runs: nested loops that update the world, the status and the bookkeeping of a pass in place. */
module Controller {
  import opened Refs
  import opened StatusList
  import opened Objects
  import opened Targets
  import opened Steps
  import opened System
  import opened Obsolete
  import opened DeletionPhase
  import opened Quiet

  // ---- What the in-place filters compute ----

  function RawRefs(walk: seq<Location>, cluster: ObjectReference): seq<TypedRef> {
    if walk == [] then []
    else
      var last := |walk| - 1;
      RawRefs(walk[..last], cluster) + (if walk[last].cluster == cluster then [walk[last].ref] else [])
  }

  function Unique(refs: seq<TypedRef>): seq<TypedRef> {
    if refs == [] then []
    else
      var last := |refs| - 1;
      var front := Unique(refs[..last]);
      if refs[last] in front then front else front + [refs[last]]
  }

  lemma {:induction false} UniqueRawRefs(walk: seq<Location>, cluster: ObjectReference)
    ensures Unique(RawRefs(walk, cluster)) == RefsOn(walk, cluster)
  {
    if walk != [] {
      var last := |walk| - 1;
      UniqueRawRefs(walk[..last], cluster);
      if walk[last].cluster == cluster {
        var front := RawRefs(walk[..last], cluster);
        assert (front + [walk[last].ref])[..|front|] == front;
      } else {
        assert RawRefs(walk[..last], cluster) + [] == RawRefs(walk[..last], cluster);
      }
    }
  }

  function WithoutRef(refs: seq<TypedRef>, r: TypedRef): seq<TypedRef> {
    if refs == [] then [] else if refs[0] == r then refs[1..] else [refs[0]] + WithoutRef(refs[1..], r)
  }

  lemma {:induction false} WithoutRefAt(refs: seq<TypedRef>, r: TypedRef, i: nat)
    requires i <= |refs| && r !in refs[..i] && (i < |refs| ==> refs[i] == r)
    ensures WithoutRef(refs, r) == if i < |refs| then refs[..i] + refs[i + 1..] else refs
  {
    if refs != [] {
      if i == 0 {
        assert refs[..0] + refs[1..] == refs[1..];
      } else {
        assert refs[..i] == [refs[0]] + refs[1..][..i - 1];
        WithoutRefAt(refs[1..], r, i - 1);
      }
    }
  }

  lemma {:induction false} UnmanagedNone(cluster: ObjectReference, refs: seq<TypedRef>)
    ensures Unmanaged([], cluster, refs) == refs
  {
    if refs != [] {
      UnmanagedNone(cluster, refs[1..]);
    }
  }

  lemma WithoutRefCons(r: TypedRef, front: seq<TypedRef>, x: TypedRef)
    ensures WithoutRef([r] + front, x) == if x == r then front else [r] + WithoutRef(front, x)
  {
    assert ([r] + front)[1..] == front;
  }

  lemma UnmanagedCons(managed: seq<Location>, cluster: ObjectReference, refs: seq<TypedRef>)
    requires refs != []
    ensures var rest := Unmanaged(managed, cluster, refs[1..]);
            Unmanaged(managed, cluster, refs) == if Location(cluster, refs[0]) in managed then rest else [refs[0]] + rest
  {
    assert [] + Unmanaged(managed, cluster, refs[1..]) == Unmanaged(managed, cluster, refs[1..]);
  }

  /** Taking one more synced object out of the list. */
  lemma {:induction false} UnmanagedOneMore(managed: seq<Location>, l: Location, cluster: ObjectReference, refs: seq<TypedRef>)
    requires NoDuplicates(refs)
    ensures Unmanaged(managed + [l], cluster, refs) ==
            if l.cluster == cluster then WithoutRef(Unmanaged(managed, cluster, refs), l.ref) else Unmanaged(managed, cluster, refs)
  {
    if refs != [] {
      var r, rest := refs[0], refs[1..];
      assert forall k :: 0 <= k < |rest| ==> rest[k] == refs[k + 1];
      UnmanagedOneMore(managed, l, cluster, rest);
      var front := Unmanaged(managed, cluster, rest);
      UnmanagedMembers(managed, cluster, rest);
      WithoutRefCons(r, front, l.ref);
      assert r !in rest;
      UnmanagedCons(managed, cluster, refs);
      UnmanagedCons(managed + [l], cluster, refs);
      assert Location(cluster, r) in managed + [l] <==> Location(cluster, r) in managed || l == Location(cluster, r);
      if l.ref == r {
        assert r !in front;
        assert front[..|front|] == front;
        WithoutRefAt(front, r, |front|);
      }
      hide WithoutRef, NoDuplicates, Unmanaged;
    }
  }

  /** The buckets of a map in the order its keys were added. */
  function AsBuckets(order: seq<ObjectReference>, m: map<ObjectReference, seq<TypedRef>>): seq<Bucket> {
    if order == [] then []
    else (if order[0] in m then [Bucket(order[0], m[order[0]])] else []) + AsBuckets(order[1..], m)
  }

  /** What the map holds after all filters. */
  ghost predicate Filtered(cfg: Config, p: Pass, order: seq<ObjectReference>, m: map<ObjectReference, seq<TypedRef>>) {
    forall c :: c in order ==>
      && (c in m <==> !Vanished(p, c) && !Unhealthy(cfg, p, c))
      && (c in m ==> m[c] == Unreported(cfg, p, c, Leftover(p, c)))
  }

  lemma {:induction false} FilteredBuckets(cfg: Config, p: Pass, order: seq<ObjectReference>, m: map<ObjectReference, seq<TypedRef>>)
    requires Filtered(cfg, p, order, m)
    ensures AsBuckets(order, m) == BucketsFor(cfg, p, order)
  {
    hide Vanished, Unhealthy, Unreported, Leftover;
    if order != [] {
      assert forall c :: c in order[1..] ==> c in order;
      FilteredBuckets(cfg, p, order[1..], m);
    }
  }

  type RefsByCluster = map<ObjectReference, seq<TypedRef>>

  lemma {:induction false} WalkSplit(gs: seq<Group>, g: Group)
    ensures Walk(gs + [g]) == Walk(gs) + InOrder(g.gvk, g.resources)
  {
    hide InOrder;
    if gs == [] {
      assert [g][1..] == [] && [] + [g] == [g];
      assert Walk([g]) == InOrder(g.gvk, g.resources) + [];
    } else {
      assert (gs + [g])[0] == gs[0] && (gs + [g])[1..] == gs[1..] + [g];
      WalkSplit(gs[1..], g);
      var first, rest, last := InOrder(gs[0].gvk, gs[0].resources), Walk(gs[1..]), InOrder(g.gvk, g.resources);
      assert first + (rest + last) == (first + rest) + last;
    }
  }

  lemma {:induction false} InOrderSplit(gvk: GVK, rs: seq<CreatedResource>, r: CreatedResource)
    ensures InOrder(gvk, rs + [r]) == InOrder(gvk, rs) + [LocationOf(gvk, r)]
  {
    if rs != [] {
      assert (rs + [r])[1..] == rs[1..] + [r];
      InOrderSplit(gvk, rs[1..], r);
    }
  }

  /** order holds the keys of m, and m the entries of walk cluster by cluster. */
  ghost predicate Collected(walk: seq<Location>, order: seq<ObjectReference>, m: RefsByCluster) {
    && order == ClustersOf(walk)
    && (forall c :: c in m <==> c in order)
    && (forall c :: c in m ==> m[c] == RawRefs(walk, c))
  }

  lemma {:induction false} RawRefsElsewhere(walk: seq<Location>, cluster: ObjectReference)
    requires cluster !in ClustersOf(walk)
    ensures RawRefs(walk, cluster) == []
  {
    if walk != [] {
      RawRefsElsewhere(walk[..|walk| - 1], cluster);
    }
  }

  lemma CollectOne(walk: seq<Location>, order: seq<ObjectReference>, m: RefsByCluster, l: Location)
    requires Collected(walk, order, m)
    ensures Collected(walk + [l], if l.cluster in m then order else order + [l.cluster],
                      m[l.cluster := (if l.cluster in m then m[l.cluster] else []) + [l.ref]])
  {
    assert (walk + [l])[..|walk|] == walk;
    if l.cluster !in m {
      RawRefsElsewhere(walk, l.cluster);
    }
    forall c ensures RawRefs(walk + [l], c) == RawRefs(walk, c) + (if l.cluster == c then [l.ref] else []) {}
  }

  // ---- The filters ----

  method CollectGroup(g: Group, ghost done: seq<Location>, order0: seq<ObjectReference>, m: RefsByCluster)
    returns (order: seq<ObjectReference>, toDelete: RefsByCluster)
    requires Collected(done, order0, m)
    ensures Collected(done + InOrder(g.gvk, g.resources), order, toDelete)
  {
    order, toDelete := order0, m;
    assert done + InOrder(g.gvk, g.resources[..0]) == done;
    hide Collected, InOrder;
    for j := 0 to |g.resources|
      invariant Collected(done + InOrder(g.gvk, g.resources[..j]), order, toDelete)
    {
      var copy := g.resources[j];
      var clusterRef := HOSTING;
      if copy.cluster.Some? {
        clusterRef := copy.cluster.value;
      }
      var ref := TypedRef(g.gvk, copy.namespace, copy.name);
      assert g.resources[..j + 1] == g.resources[..j] + [copy];
      InOrderSplit(g.gvk, g.resources[..j], copy);
      ghost var walked := done + InOrder(g.gvk, g.resources[..j]);
      assert done + InOrder(g.gvk, g.resources[..j + 1]) == walked + [Location(clusterRef, ref)];
      CollectOne(walked, order, toDelete, Location(clusterRef, ref));
      if clusterRef in toDelete {
        toDelete := toDelete[clusterRef := toDelete[clusterRef] + [ref]];
      } else {
        assert [] + [ref] == [ref];
        order := order + [clusterRef];
        toDelete := toDelete[clusterRef := [ref]];
      }
    }
    assert g.resources[..|g.resources|] == g.resources;
  }

  method CollectStatus(groups: seq<Group>) returns (order: seq<ObjectReference>, toDelete: RefsByCluster)
    ensures Collected(Walk(groups), order, toDelete)
  {
    order, toDelete := [], map[];
    assert Collected(Walk(groups[..0]), order, toDelete);
    hide Collected, Walk;
    for i := 0 to |groups|
      invariant Collected(Walk(groups[..i]), order, toDelete)
    {
      order, toDelete := CollectGroup(groups[i], Walk(groups[..i]), order, toDelete);
      WalkSplit(groups[..i], groups[i]);
      assert groups[..i + 1] == groups[..i] + [groups[i]];
    }
    assert groups[..|groups|] == groups;
  }

  method Deduplicate(refs: seq<TypedRef>) returns (unique: seq<TypedRef>)
    ensures unique == Unique(refs)
  {
    var seen: set<TypedRef> := {};
    unique := [];
    for i := 0 to |refs|
      invariant unique == Unique(refs[..i])
      invariant forall r :: r in seen <==> r in unique
    {
      assert refs[..i + 1][..i] == refs[..i];
      if refs[i] !in seen {
        seen := seen + {refs[i]};
        unique := unique + [refs[i]];
      }
    }
    assert refs[..|refs|] == refs;
  }

  method RemoveDuplicates(order: seq<ObjectReference>, m: RefsByCluster) returns (r: RefsByCluster)
    requires NoDuplicates(order) && forall c :: c in order <==> c in m
    ensures r.Keys == m.Keys && forall c :: c in m ==> r[c] == Unique(m[c])
  {
    r := m;
    for i := 0 to |order|
      invariant r.Keys == m.Keys
      invariant forall k :: 0 <= k < i ==> r[order[k]] == Unique(m[order[k]])
      invariant forall k :: i <= k < |order| ==> r[order[k]] == m[order[k]]
    {
      assert order[i] in order;
      var unique := Deduplicate(r[order[i]]);
      r := r[order[i] := unique];
    }
  }

  method RemoveManaged(managed: seq<Location>, m: RefsByCluster) returns (r: RefsByCluster)
    requires forall c :: c in m ==> NoDuplicates(m[c])
    ensures r.Keys == m.Keys && forall c :: c in m ==> r[c] == Unmanaged(managed, c, m[c])
  {
    r := m;
    forall c | c in m ensures Unmanaged([], c, m[c]) == m[c] {
      UnmanagedNone(c, m[c]);
    }
    assert managed[..0] == [];
    hide Unmanaged, NoDuplicates;
    for i := 0 to |managed|
      invariant r.Keys == m.Keys
      invariant forall c :: c in m ==> r[c] == Unmanaged(managed[..i], c, m[c])
    {
      var l := managed[i];
      assert managed[..i + 1] == managed[..i] + [l];
      forall c | c in m
        ensures Unmanaged(managed[..i + 1], c, m[c]) == if l.cluster == c then WithoutRef(r[c], l.ref) else r[c]
      {
        UnmanagedOneMore(managed[..i], l, c, m[c]);
      }
      hide WithoutRef;
      if l.cluster in r {
        var rest := RemoveFirst(r[l.cluster], l.ref);
        r := r[l.cluster := rest];
      }
    }
    assert managed[..|managed|] == managed;
  }

  method RemoveFirst(refs: seq<TypedRef>, ref: TypedRef) returns (r: seq<TypedRef>)
    ensures r == WithoutRef(refs, ref)
  {
    for i := 0 to |refs|
      invariant ref !in refs[..i]
    {
      var res := refs[i];
      if res.name == ref.name && res.namespace == ref.namespace
         && res.gvk.group == ref.gvk.group && res.gvk.version == ref.gvk.version && res.gvk.kind == ref.gvk.kind {
        WithoutRefAt(refs, ref, i);
        return refs[..i] + refs[i + 1..];
      }
      assert refs[..i + 1] == refs[..i] + [res];
    }
    WithoutRefAt(refs, ref, |refs|);
    return refs;
  }

  /** The last cluster condition of each name, and the names of all target conditions. */
  method SeenConditions(conditions: seq<Condition>) returns (seenClusters: map<string, bool>, seenTargets: set<string>)
    ensures forall n :: Lookup(seenClusters, n) == LastClusterCondition(conditions, n)
    ensures forall n :: n in seenTargets <==> exists c :: c in conditions && c.TargetCondition? && c.name == n
  {
    seenClusters, seenTargets := map[], {};
    for i := 0 to |conditions|
      invariant forall n :: Lookup(seenClusters, n) == LastClusterCondition(conditions[..i], n)
      invariant forall n :: n in seenTargets <==> exists c :: c in conditions[..i] && c.TargetCondition? && c.name == n
    {
      var conToBe := conditions[i];
      assert conditions[..i + 1][..i] == conditions[..i];
      assert conditions[..i + 1] == conditions[..i] + [conToBe];
      if conToBe.ClusterCondition? {
        seenClusters := seenClusters[conToBe.name := conToBe.ok];
      } else if conToBe.TargetCondition? {
        assert conToBe in conditions[..i + 1];
        seenTargets := seenTargets + {conToBe.name};
      }
    }
    assert conditions[..|conditions|] == conditions;
  }

  lemma {:induction false} UnreportedSplit(cfg: Config, p: Pass, cluster: ObjectReference, refs: seq<TypedRef>, i: nat)
    requires i < |refs|
    ensures Unreported(cfg, p, cluster, refs[i..]) ==
            (if Reported(cfg, p, Location(cluster, refs[i])) then [] else [refs[i]]) + Unreported(cfg, p, cluster, refs[i + 1..])
  {
    assert refs[i..][0] == refs[i] && refs[i..][1..] == refs[i + 1..];
    hide Reported;
  }

  lemma SkipOne(cfg: Config, p: Pass, cluster: ObjectReference, refs: seq<TypedRef>, i: nat, remaining: seq<TypedRef>)
    requires i < |refs|
    ensures remaining + Unreported(cfg, p, cluster, refs[i..]) ==
            (if Reported(cfg, p, Location(cluster, refs[i])) then remaining else remaining + [refs[i]]) + Unreported(cfg, p, cluster, refs[i + 1..])
  {
    UnreportedSplit(cfg, p, cluster, refs, i);
    hide Reported, Unreported;
    var rest := Unreported(cfg, p, cluster, refs[i + 1..]);
    assert remaining + ([refs[i]] + rest) == (remaining + [refs[i]]) + rest;
  }

  method SkipReported(cfg: Config, ghost p: Pass, seenTargets: set<string>, cluster: ObjectReference, refs: seq<TypedRef>) returns (remaining: seq<TypedRef>)
    requires forall n :: n in seenTargets <==> exists c :: c in p.conditions && c.TargetCondition? && c.name == n
    ensures remaining == Unreported(cfg, p, cluster, refs)
  {
    remaining := [];
    assert refs[0..] == refs && Unreported(cfg, p, cluster, []) == [];
    forall l ensures Reported(cfg, p, l) <==> cfg.targetCondition(l) in seenTargets {}
    hide *;
    ghost var all := Unreported(cfg, p, cluster, refs);
    for i := 0 to |refs|
      invariant remaining + Unreported(cfg, p, cluster, refs[i..]) == all
    {
      SkipOne(cfg, p, cluster, refs, i, remaining);
      if cfg.targetCondition(Location(cluster, refs[i])) in seenTargets {
        continue;
      }
      remaining := remaining + [refs[i]];
    }
  }

  method SkipUnhealthy(cfg: Config, ghost p: Pass, seenClusters: map<string, bool>, order: seq<ObjectReference>, m: RefsByCluster) returns (r: RefsByCluster)
    requires !p.inDeletion && forall c :: c in m ==> c in order
    requires forall c :: Unhealthy(cfg, p, c) <==> Lookup(seenClusters, cfg.clusterCondition(c)) == Some(false)
    ensures forall c :: c in r <==> c in m && !Unhealthy(cfg, p, c)
    ensures forall c :: c in r ==> r[c] == m[c]
  {
    r := m;
    hide Unhealthy;
    for i := 0 to |order|
      invariant forall c :: c in r <==> c in m && !(Unhealthy(cfg, p, c) && c in order[..i])
      invariant forall c :: c in r ==> r[c] == m[c]
    {
      assert order[..i + 1] == order[..i] + [order[i]];
      var status := Lookup(seenClusters, cfg.clusterCondition(order[i]));
      if status == Some(false) {
        r := r - {order[i]};
      }
    }
    assert order[..|order|] == order;
  }

  method SkipAllReported(cfg: Config, ghost p: Pass, seenTargets: set<string>, order: seq<ObjectReference>, m: RefsByCluster) returns (r: RefsByCluster)
    requires NoDuplicates(order) && forall c :: c in m ==> c in order
    requires forall n :: n in seenTargets <==> exists c :: c in p.conditions && c.TargetCondition? && c.name == n
    ensures r.Keys == m.Keys && forall c :: c in m ==> r[c] == Unreported(cfg, p, c, m[c])
  {
    r := m;
    hide Unreported;
    for i := 0 to |order|
      invariant r.Keys == m.Keys
      invariant forall k :: 0 <= k < i && order[k] in m ==> r[order[k]] == Unreported(cfg, p, order[k], m[order[k]])
      invariant forall k :: i <= k < |order| && order[k] in m ==> r[order[k]] == m[order[k]]
    {
      if order[i] in r {
        var remaining := SkipReported(cfg, p, seenTargets, order[i], r[order[i]]);
        r := r[order[i] := remaining];
      }
    }
  }

  lemma FilteredNow(cfg: Config, p: Pass, order: seq<ObjectReference>, m: RefsByCluster)
    requires forall c :: c in m <==> c in order && !Vanished(p, c) && !Unhealthy(cfg, p, c)
    requires forall c :: c in m ==> m[c] == Unreported(cfg, p, c, Leftover(p, c))
    ensures Filtered(cfg, p, order, m)
  {}

  method ExistingClusters(clusters: seq<Cluster>) returns (existing: set<ObjectReference>)
    ensures forall c :: c in existing <==> exists cl :: cl in clusters && cl.ref == c
  {
    existing := {};
    for i := 0 to |clusters|
      invariant forall c :: c in existing <==> exists cl :: cl in clusters[..i] && cl.ref == c
    {
      assert clusters[..i + 1] == clusters[..i] + [clusters[i]];
      assert clusters[i] in clusters[..i + 1];
      existing := existing + {clusters[i].ref};
    }
    assert clusters[..|clusters|] == clusters;
  }

  lemma ForgetNothing(p: Pass, gs: seq<Group>)
    ensures Forget(p, [], gs) == gs
  {}

  lemma ForgetOne(p: Pass, order: seq<ObjectReference>, i: nat, gs: seq<Group>)
    requires i < |order|
    ensures Forget(p, order[i..], gs) ==
            Forget(p, order[i + 1..], if Vanished(p, order[i]) then ForgetRefs(order[i], Leftover(p, order[i]), gs) else gs)
  {
    assert order[i..][0] == order[i] && order[i..][1..] == order[i + 1..];
  }

  /** The leftovers of every cluster in order, as the first three loops compute them. */
  method CollectLeftovers(ghost p: Pass, groups: seq<Group>, managed: seq<Location>) returns (order: seq<ObjectReference>, m: RefsByCluster)
    requires groups == p.status && managed == p.managed
    ensures order == ClustersOf(Walk(groups)) && NoDuplicates(order)
    ensures (forall c :: c in order <==> c in m) && forall c :: c in m ==> m[c] == Leftover(p, c)
  {
    var raw;
    order, raw := CollectStatus(groups);
    ClustersOfMembers(Walk(groups));
    m := RemoveDuplicates(order, raw);
    forall c | c in m ensures m[c] == RefsOn(Walk(groups), c) && NoDuplicates(m[c]) {
      UniqueRawRefs(Walk(groups), c);
      RefsOnMembers(Walk(groups), c);
    }
    hide Unique, RawRefs, ClustersOf, RefsOn, Unmanaged;
    m := RemoveManaged(managed, m);
  }

  // ---- Steps of a run ----

  /** What is stored and what is to do once a replica that is not being deleted has been fetched. */
  function Prepared(start: Fate, r: Stored): Stored {
    if !start.list || start.finalizer.Lost? then r else r.(finalizer := true)
  }

  function Work(start: Fate, r: Stored): seq<Task> {
    if start.list && (r.finalizer || start.finalizer.Ok?) && start.sources
    then DefinitionTasks(r.defs) + [Task.Plan, Cleanup] + [Task.UpdateStatus] else [Task.UpdateStatus]
  }

  function Removal(r: Stored): seq<Task> {
    if |r.persisted| > 0 then [Task.Plan, Cleanup, Task.UpdateStatus] else [Task.UpdateStatus]
  }

  lemma StartShape(id: ReplicaId, start: Fate, clusters: seq<Cluster>, r: Stored)
    requires start.get && !r.ignored
    ensures var p := NewPass(id, r, clusters);
            Start(id, start, clusters, r) ==
            if !r.deleting || !start.list then Prepared(start, r).(running := Some(Running(p, Work(start, r))))
            else if |r.persisted| > 0 || (r.finalizer && start.finalizer.Lost?) then
              r.(running := Some(Running(if |r.persisted| > 0 then p.(conditions := [OtherCondition(false)]) else p, Removal(r))))
            else r.(finalizer := false)
  {
    assert [Task.Plan, Cleanup] + [Task.UpdateStatus] == [Task.Plan, Cleanup, Task.UpdateStatus];
  }

  lemma RunInParts(cfg: Config, fates: Oracle, loops: seq<Task>, s: State)
    ensures Run(cfg, fates, loops + [Task.Plan, Cleanup] + [Task.UpdateStatus], s) ==
            Run(cfg, fates, [Task.Plan, Cleanup, Task.UpdateStatus], Run(cfg, fates, loops, s))
  {
    assert loops + [Task.Plan, Cleanup] + [Task.UpdateStatus] == loops + [Task.Plan, Cleanup, Task.UpdateStatus];
    RunSplit(cfg, fates, loops, [Task.Plan, Cleanup, Task.UpdateStatus], s);
  }

  lemma {:induction false} SelectSplit(cfg: Config, sel: NamespaceSelector, cluster: ObjectReference, names: seq<string>, i: nat, w: World)
    requires i < |names|
    ensures var n := names[i];
            var there := (cluster, n) in w.namespaces;
            var matches := if there then NamespaceMatches(cfg, sel, n, w.namespaces[(cluster, n)].labels) else Some(false);
            && SelectNamespaces(cfg, sel, cluster, names[i..], w) ==
               (if matches == Some(true) then [n] else []) + SelectNamespaces(cfg, sel, cluster, names[i + 1..], w)
            && UnmatchableNamespaces(cfg, sel, cluster, names[i..], w) ==
               (if matches == None then 1 else 0) + UnmatchableNamespaces(cfg, sel, cluster, names[i + 1..], w)
  {
    assert names[i..][0] == names[i] && names[i..][1..] == names[i + 1..];
    hide NamespaceMatches;
  }

  lemma MatchedSplit(cfg: Config, def: TargetDefinition, clusters: seq<Cluster>, i: nat)
    requires def.cluster.Some? && i < |clusters|
    ensures MatchedClusters(cfg, def, clusters[i..]) ==
            (if ClusterMatches(cfg, def, clusters[i]) then [Some(clusters[i])] else []) + MatchedClusters(cfg, def, clusters[i + 1..])
  {
    assert clusters[i..][0] == clusters[i] && clusters[i..][1..] == clusters[i + 1..];
  }

  lemma MatchOne(cfg: Config, def: TargetDefinition, clusters: seq<Cluster>, i: nat, matched: seq<Option<Cluster>>)
    requires def.cluster.Some? && i < |clusters|
    ensures matched + MatchedClusters(cfg, def, clusters[i..]) ==
            (if ClusterMatches(cfg, def, clusters[i]) then matched + [Some(clusters[i])] else matched) + MatchedClusters(cfg, def, clusters[i + 1..])
  {
    MatchedSplit(cfg, def, clusters, i);
    hide MatchedClusters, ClusterMatches;
    var rest := MatchedClusters(cfg, def, clusters[i + 1..]);
    assert matched + ([Some(clusters[i])] + rest) == (matched + [Some(clusters[i])]) + rest;
  }

  lemma WriteIs(cfg: Config, fate: Fate, key: Location, at: Location, rendered: Object, s: State)
    ensures var status := AddedAt(s.pass.status, at);
            var persisted := if fate.patch.Lost? then s.persisted else Patched(s.persisted, s.pass.oldStatus, status);
            var s' := Steps.Write(cfg, fate, key, at, rendered, s);
            s' == if HasAt(s.pass.status, at) then Steps.CreateOrUpdate(cfg, fate, key, at, rendered, s)
                  else if fate.patch.Ok? then
                    Steps.CreateOrUpdate(cfg, fate, key, at, rendered, s.(persisted := persisted, pass := s.pass.(status := status, oldStatus := status)))
                  else Steps.Report(cfg, key, false, Failed, s.(persisted := persisted, pass := s.pass.(status := status)))
  {
    hide Steps.CreateOrUpdate, Steps.Report, AddedAt, HasAt, Patched;
  }

  // ---- The controller ----

  /** world and persisted are what the API servers hold; the other fields are the pass in memory. fates says how calls end. */
  class ReplicaController {
    const cfg: Config
    const fates: Oracle
    var world: World
    var persisted: seq<Group>
    var id: ReplicaId
    var inDeletion: bool
    var generation: string
    var input: string
    var defs: seq<TargetDefinition>
    var clusters: seq<Cluster>
    const status: CreatedResourcesWithTypeList
    var oldStatus: seq<Group>
    var managed: seq<Location>
    var seen: map<Location, string>
    var conditions: seq<Condition>
    var errors: nat
    var clock: nat
    ghost var renderings: seq<(Location, string)>
    ghost var reached: seq<Location>

    ghost function View(): State
      reads this, status
    {
      State(world, persisted, Pass(id, inDeletion, generation, input, defs, clusters, status.groups, oldStatus,
                                   managed, seen, conditions, errors, clock, renderings, reached))
    }

    constructor (cfg: Config, fates: Oracle, world: World, id: ReplicaId)
      ensures this.cfg == cfg && this.fates == fates && this.world == world && this.id == id && fresh(status)
    {
      this.cfg, this.fates, this.world, this.id := cfg, fates, world, id;
      persisted, oldStatus, generation, input, defs, clusters := [], [], "", "", [], [];
      inDeletion, managed, seen, conditions, errors, clock := false, [], map[], [], 0, 0;
      renderings, reached := [], [];
      status := new CreatedResourcesWithTypeList([]);
    }

    method CreateCon(c: Condition)
      modifies this`conditions
      ensures View() == WithCondition(old(View()), c)
    {
      conditions := conditions + [c];
    }

    method Report(key: Location, ok: bool, reason: Reason)
      modifies this`conditions, this`errors
      ensures View() == Steps.Report(cfg, key, ok, reason, old(View()))
    {
      CreateCon(TargetCondition(cfg.targetCondition(key), ok, reason));
      if !ok && !reason.WaitingForDeletion? {
        errors := errors + 1;
      }
    }

    // ---- One target ----

    method CreateOrUpdate(fate: Fate, key: Location, at: Location, rendered: Object)
      modifies this`world, this`managed, this`conditions, this`errors
      ensures View() == Steps.CreateOrUpdate(cfg, fate, key, at, rendered, old(View()))
    {
      if !fate.write.Lost? {
        var target := rendered;
        if at in world.objects {
          target := world.objects[at];
        }
        target := MutateTarget(target, rendered);
        if at !in world.objects {
          target := target.(inDeletion := false);
        }
        world := world.(objects := world.objects[at := target]);
      }
      if !fate.write.Ok? {
        Report(key, false, Failed);
        return;
      }
      managed := managed + [at];
      Report(key, true, Synced);
    }

    /** The entry is stored before the object is touched. */
    method StoreEntry(fate: Fate, at: Location)
      modifies this`persisted, this`oldStatus, status
      ensures status.groups == AddedAt(old(status.groups), at)
      ensures persisted == if fate.patch.Lost? then old(persisted) else Patched(old(persisted), old(oldStatus), status.groups)
      ensures oldStatus == if fate.patch.Ok? then status.groups else old(oldStatus)
    {
      status.AddRaw(at.ref.gvk, at.ref.namespace, at.ref.name, Some(at.cluster));
      if !fate.patch.Lost? && status.groups != oldStatus {
        persisted := status.groups;
      }
      if fate.patch.Ok? {
        oldStatus := status.groups;
      }
    }

    method Write(fate: Fate, key: Location, at: Location, rendered: Object)
      modifies this`world, this`persisted, this`oldStatus, this`managed, this`conditions, this`errors, status
      ensures View() == Steps.Write(cfg, fate, key, at, rendered, old(View()))
    {
      var trackedInStatus := status.ContainsRaw(at.ref.gvk, at.ref.namespace, at.ref.name, Some(at.cluster));
      assert trackedInStatus <==> HasAt(status.groups, at);
      WriteIs(cfg, fate, key, at, rendered, View());
      hide Steps.Write, Steps.CreateOrUpdate, Steps.Report, AddedAt, HasAt, Patched;
      if !trackedInStatus {
        StoreEntry(fate, at);
        if !fate.patch.Ok? {
          Report(key, false, Failed);
          return;
        }
      }
      CreateOrUpdate(fate, key, at, rendered);
    }

    /** The conflict policy for an object that is there. */
    method CheckExisting(def: TargetDefinition, existing: Object) returns (verdict: Verdict)
      ensures verdict == JudgeExisting(def, id, existing)
    {
      if !OwnedByThis(id, existing) {
        match def.conflictPolicy {
          case Overwrite =>
            if existing.inDeletion {
              return Refuse(false, Failed);
            }
            if OwnedByOther(id, existing) {
              return Refuse(false, Failed);
            }
          case Skip =>
            return Refuse(true, Skipped);
          case Fail =>
            return Refuse(false, Failed);
        }
      }
      return Proceed;
    }

    /** The namespace policy for a namespace that is missing or being deleted; a missing one may be created. */
    method CheckNamespace(fate: Fate, def: TargetDefinition, home: ObjectReference, name: string) returns (verdict: Verdict)
      modifies this`world
      ensures var ns, before := Lookup(old(world).namespaces, (home, name)), old(world);
              if !fate.getNamespace then verdict == Refuse(false, Failed) && world == before
              else if JudgeNamespace(def, ns).Refuse? || ns.Some? then verdict == JudgeNamespace(def, ns) && world == before
              else
                && world == (if fate.createNamespace.Lost? then before else CreateNamespace(cfg, home, name, before))
                && verdict == if fate.createNamespace.Ok? then Proceed else Refuse(false, Failed)
    {
      if !fate.getNamespace {
        return Refuse(false, Failed);
      }
      if (home, name) !in world.namespaces {
        match def.namespacePolicy {
          case Create =>
            if !fate.createNamespace.Lost? {
              world := world.(namespaces := world.namespaces[(home, name) := Namespace(cfg.freshLabels(name), false)]);
            }
            if !fate.createNamespace.Ok? {
              return Refuse(false, Failed);
            }
          case SkipMissing =>
            return Refuse(true, Skipped);
          case FailMissing =>
            return Refuse(false, Failed);
        }
      } else if world.namespaces[(home, name)].inDeletion {
        if def.namespacePolicy.SkipMissing? {
          return Refuse(true, Skipped);
        } else {
          return Refuse(false, Failed);
        }
      }
      return Proceed;
    }

    /** Existence, ownership, namespace, then the write. */
    method SyncTarget(fate: Fate, def: TargetDefinition, cluster: Option<Cluster>, ref: TypedRef, rendered: Object)
      modifies this`world, this`persisted, this`oldStatus, this`managed, this`conditions, this`errors, status
      ensures View() == Steps.SyncTarget(cfg, fate, def, cluster, ref, rendered, old(View()))
    {
      hide Steps.Write, Steps.Report, JudgeExisting, JudgeNamespace, CreateNamespace, HomeRef, Key;
      var key := Key(cluster, ref);
      var home := HomeRef(def, cluster);
      var at := Location(home, ref);
      var verdict := Proceed;
      if !fate.get {
        verdict := Refuse(false, Failed);
      } else if at in world.objects {
        verdict := CheckExisting(def, world.objects[at]);
      } else if ref.namespace != "" {
        verdict := CheckNamespace(fate, def, home, ref.namespace);
      }
      match verdict {
        case Refuse(ok, reason) => Report(key, ok, reason);
        case Proceed => Write(fate, key, at, rendered);
      }
    }

    /** Conflict detection: the first rendering of a key goes on, a later one is compared with it. */
    method CheckConflict(key: Location, raw: string) returns (verdict: Verdict)
      modifies this`renderings, this`seen, this`reached
      ensures renderings == old(renderings) + [(key, raw)]
      ensures key in old(seen) ==> seen == old(seen) && reached == old(reached)
      ensures key in old(seen) ==> verdict == if old(seen)[key] != raw then Refuse(false, RenderedDifferently) else Refuse(true, IdenticalCopy)
      ensures key !in old(seen) ==> seen == old(seen)[key := raw] && reached == old(reached) + [key] && verdict == Proceed
    {
      renderings := renderings + [(key, raw)];
      if key in seen {
        if seen[key] != raw {
          return Refuse(false, RenderedDifferently);
        } else {
          return Refuse(true, IdenticalCopy);
        }
      }
      seen := seen[key := raw];
      reached := reached + [key];
      return Proceed;
    }

    method HandleTarget(fate: Fate, def: TargetDefinition, cluster: Option<Cluster>, namespace: string)
      modifies this, status
      ensures View() == Steps.HandleTarget(cfg, fate, def, cluster, namespace, old(View()))
    {
      var rendering := Render(cfg, input, cluster, namespace);
      match rendering {
        case TemplateFailed =>
          errors := errors + 1;
        case MarshalFailed(ref) =>
          Report(Key(cluster, ref), false, Failed);
        case Rendered(_, _, _) =>
          HandleRendered(cfg, fate, def, cluster, namespace, View());
          hide Steps.HandleTarget, Steps.SyncTarget, Steps.Report, WithManagementLabels, Render, Key;
          SyncRendered(fate, def, cluster, rendering);
      }
    }

    method SyncRendered(fate: Fate, def: TargetDefinition, cluster: Option<Cluster>, r: Rendering)
      requires r.Rendered?
      modifies this, status
      ensures var key, s := Key(cluster, r.ref), old(View());
              var p := s.pass.(renderings := s.pass.renderings + [(key, r.raw)]);
              View() == if key !in s.pass.seen then
                          Steps.SyncTarget(cfg, fate, def, cluster, r.ref, Copy(cfg, s.pass, r.target),
                                           s.(pass := p.(seen := s.pass.seen[key := r.raw], reached := s.pass.reached + [key])))
                        else if s.pass.seen[key] != r.raw then Steps.Report(cfg, key, false, RenderedDifferently, s.(pass := p))
                        else Steps.Report(cfg, key, true, IdenticalCopy, s.(pass := p))
    {
      hide Steps.SyncTarget, Steps.Report, WithManagementLabels, Key;
      var verdict := CheckConflict(Key(cluster, r.ref), r.raw);
      match verdict {
        case Refuse(ok, reason) => Report(Key(cluster, r.ref), ok, reason);
        case Proceed =>
          var copy := r.target.(labels := WithManagementLabels(cfg.provider, id, generation, r.target.labels));
          SyncTarget(fate, def, cluster, r.ref, copy);
      }
    }

    // ---- The loops over target definitions, clusters and namespaces ----

    method Tick()
      modifies this`clock
      ensures View() == Ticked(old(View()))
    {
      clock := clock + 1;
    }

    method SyncNamespace(def: TargetDefinition, cluster: Option<Cluster>, namespace: string)
      modifies this, status
      ensures View() == Run(cfg, fates, [Target(def, cluster, namespace)], old(View()))
    {
      ghost var s := View();
      var fate := fates(clock, Target(def, cluster, namespace));
      RunLeaf(cfg, fates, Target(def, cluster, namespace), s);
      hide Run, Steps.HandleTarget, View, Ticked;
      HandleTarget(fate, def, cluster, namespace);
      Tick();
    }

    method SelectByLabels(def: TargetDefinition, own: ObjectReference) returns (targetNamespaces: seq<string>)
      requires def.namespaces.Some?
      modifies this`errors
      ensures var names := cfg.listOrder(NamespacesOn(world, own));
              && targetNamespaces == SelectNamespaces(cfg, def.namespaces.value, own, names, world)
              && errors == old(errors) + UnmatchableNamespaces(cfg, def.namespaces.value, own, names, world)
    {
      var sel := def.namespaces.value;
      var names := cfg.listOrder(NamespacesOn(world, own));
      targetNamespaces := [];
      ghost var all, bad := SelectNamespaces(cfg, sel, own, names, world), UnmatchableNamespaces(cfg, sel, own, names, world);
      assert names[0..] == names;
      for i := 0 to |names|
        invariant targetNamespaces + SelectNamespaces(cfg, sel, own, names[i..], world) == all
        invariant errors + UnmatchableNamespaces(cfg, sel, own, names[i..], world) == old(errors) + bad
      {
        SelectSplit(cfg, sel, own, names, i, world);
        if (own, names[i]) in world.namespaces {
          var matches := Matches(cfg, Some(sel), names[i], world.namespaces[(own, names[i])].labels);
          if matches.None? {
            errors := errors + 1;
          } else if matches.value {
            targetNamespaces := targetNamespaces + [names[i]];
          }
        }
        hide NamespaceMatches, SelectNamespaces, UnmatchableNamespaces;
      }
    }

    /** The target namespaces on a cluster; none if the cluster is skipped. */
    method ResolveNamespaces(fate: Fate, def: TargetDefinition, cluster: Option<Cluster>) returns (targetNamespaces: Option<seq<string>>)
      modifies this`errors, this`conditions
      ensures (View(), if targetNamespaces.None? then [] else ClusterTasks(def, cluster, targetNamespaces.value))
              == Steps.ResolveNamespaces(cfg, fate, def, cluster, old(View()))
    {
      hide SelectNamespaces, UnmatchableNamespaces, ClusterTasks;
      var own := OwnRef(cluster);
      if cluster.Some? && cluster.value.inDeletion {
        return None;
      }
      if IsNextTo(def) {
        return Some([own.namespace]);
      }
      if !fate.access {
        ClusterFailed(own);
        return None;
      }
      if def.namespaces.None? {
        return Some([""]);
      }
      if def.namespaces.value.matchIdentities.Some? {
        return Some(def.namespaces.value.matchIdentities.value);
      }
      if !fate.list {
        ClusterFailed(own);
        return None;
      }
      var selected := SelectByLabels(def, own);
      return Some(selected);
    }

    method ClusterFailed(cluster: ObjectReference)
      modifies this`errors, this`conditions
      ensures View() == Steps.ClusterFailed(cfg, cluster, old(View()))
    {
      CreateCon(ClusterCondition(cfg.clusterCondition(cluster), false));
      errors := errors + 1;
    }

    method SyncCluster(def: TargetDefinition, cluster: Option<Cluster>)
      modifies this, status
      ensures View() == Run(cfg, fates, [OpenCluster(def, cluster)], old(View()))
    {
      ghost var s := View();
      var fate := fates(clock, OpenCluster(def, cluster));
      RunOne(cfg, fates, OpenCluster(def, cluster), s);
      assert fate == fates(s.pass.clock, OpenCluster(def, cluster));
      hide Run, Steps.ResolveNamespaces, Ticked, View;
      var resolved := ResolveNamespaces(fate, def, cluster);
      Tick();
      ghost var more := Steps.ResolveNamespaces(cfg, fate, def, cluster, s).1;
      assert Run(cfg, fates, [OpenCluster(def, cluster)], s) == Run(cfg, fates, more, View());
      if resolved.None? {
        assert more == [];
        RunNothing(cfg, fates, View());
        return;
      }
      var targetNamespaces := resolved.value;
      ghost var s1 := View();
      RunSplit(cfg, fates, TargetTasks(def, cluster, targetNamespaces), [Task.CloseCluster(cluster)], s1);
      assert targetNamespaces[0..] == targetNamespaces;
      for i := 0 to |targetNamespaces|
        invariant Run(cfg, fates, TargetTasks(def, cluster, targetNamespaces), s1) == Run(cfg, fates, TargetTasks(def, cluster, targetNamespaces[i..]), View())
      {
        ghost var rest := targetNamespaces[i..];
        assert rest[0] == targetNamespaces[i] && rest[1..] == targetNamespaces[i + 1..];
        RunHead(cfg, fates, Target(def, cluster, rest[0]), TargetTasks(def, cluster, rest[1..]), View());
        SyncNamespace(def, cluster, targetNamespaces[i]);
      }
      RunNothing(cfg, fates, View());
      ReportAccess(cluster);
    }

    method ReportAccess(cluster: Option<Cluster>)
      modifies this`conditions, this`clock
      ensures View() == Run(cfg, fates, [Task.CloseCluster(cluster)], old(View()))
    {
      RunLeaf(cfg, fates, Task.CloseCluster(cluster), View());
      hide Run, View;
      CreateCon(ClusterCondition(cfg.clusterCondition(OwnRef(cluster)), true));
      Tick();
    }

    method MatchClusters(def: TargetDefinition) returns (matched: seq<Option<Cluster>>)
      ensures matched == MatchedClusters(cfg, def, clusters)
    {
      if def.cluster.None? {
        return [None];
      }
      matched := [];
      assert clusters[0..] == clusters;
      assert MatchedClusters(cfg, def, []) == [];
      hide MatchedClusters, ClusterMatches;
      for i := 0 to |clusters|
        invariant matched + MatchedClusters(cfg, def, clusters[i..]) == MatchedClusters(cfg, def, clusters)
      {
        MatchOne(cfg, def, clusters, i, matched);
        if ClusterMatches(cfg, def, clusters[i]) {
          matched := matched + [Some(clusters[i])];
        }
      }
    }

    method SyncDefinition(def: TargetDefinition)
      modifies this, status
      ensures View() == Run(cfg, fates, [Definition(def)], old(View()))
    {
      ghost var s := View();
      RunOne(cfg, fates, Definition(def), s);
      var matched := MatchClusters(def);
      assert matched == MatchedClusters(cfg, def, s.pass.clusters);
      hide Run, Ticked, View, MatchedClusters;
      Tick();
      ghost var s1 := View();
      assert matched[0..] == matched;
      for i := 0 to |matched|
        invariant Run(cfg, fates, OpenTasks(def, matched), s1) == Run(cfg, fates, OpenTasks(def, matched[i..]), View())
      {
        ghost var rest := matched[i..];
        assert rest[0] == matched[i] && rest[1..] == matched[i + 1..];
        RunHead(cfg, fates, OpenCluster(def, rest[0]), OpenTasks(def, rest[1..]), View());
        SyncCluster(def, matched[i]);
      }
      RunNothing(cfg, fates, View());
    }

    method SyncDefinitions()
      modifies this, status
      ensures View() == Run(cfg, fates, DefinitionTasks(old(defs)), old(View()))
    {
      hide Run, View;
      ghost var s := View();
      var defs' := defs;
      assert defs'[0..] == defs';
      for i := 0 to |defs'|
        invariant Run(cfg, fates, DefinitionTasks(defs'), s) == Run(cfg, fates, DefinitionTasks(defs'[i..]), View())
      {
        ghost var rest := defs'[i..];
        assert rest[0] == defs'[i] && rest[1..] == defs'[i + 1..];
        RunHead(cfg, fates, Definition(rest[0]), DefinitionTasks(rest[1..]), View());
        SyncDefinition(defs'[i]);
      }
      RunNothing(cfg, fates, View());
    }

    // ---- Obsolete resources ----

    /** Entries on clusters that no longer exist leave the status without an API call. */
    method PruneVanished(ghost p: Pass, order: seq<ObjectReference>, m: RefsByCluster) returns (r: RefsByCluster)
      requires p.clusters == clusters
      requires (forall c :: c in order <==> c in m) && forall c :: c in m ==> m[c] == Leftover(p, c)
      modifies status
      ensures status.groups == Forget(p, order, old(status.groups))
      ensures forall c :: c in r <==> c in m && !Vanished(p, c)
      ensures forall c :: c in r ==> r[c] == m[c]
    {
      var existingClusters := ExistingClusters(clusters);
      assert forall c :: Vanished(p, c) <==> c != HOSTING && c !in existingClusters;
      r := m;
      ghost var done: set<ObjectReference> := {};
      assert order[0..] == order;
      hide *;
      for i := 0 to |order|
        invariant Forget(p, order[i..], status.groups) == Forget(p, order, old(status.groups))
        invariant r == m - done
        invariant forall c :: c in done ==> Vanished(p, c)
        invariant forall k :: 0 <= k < i ==> (Vanished(p, order[k]) ==> order[k] in done)
      {
        var clusterRef := order[i];
        ForgetOne(p, order, i, status.groups);
        if clusterRef == HOSTING {
          continue;
        }
        if clusterRef !in existingClusters {
          ForgetEntries(clusterRef, m[clusterRef]);
          r := r - {clusterRef};
          done := done + {clusterRef};
        }
      }
      assert order[|order|..] == [];
      ForgetNothing(p, status.groups);
    }

    method ForgetEntries(cluster: ObjectReference, refs: seq<TypedRef>)
      modifies status
      ensures status.groups == ForgetRefs(cluster, refs, old(status.groups))
    {
      assert refs[0..] == refs;
      for i := 0 to |refs|
        invariant ForgetRefs(cluster, refs[i..], status.groups) == ForgetRefs(cluster, refs, old(status.groups))
      {
        var res := refs[i];
        assert refs[i..][0] == res && refs[i..][1..] == refs[i + 1..];
        status.RemoveRaw(res.gvk, res.namespace, res.name, Some(cluster));
      }
    }

    method PlanDeletion() returns (buckets: seq<Bucket>)
      modifies status
      ensures (View(), [Obsolete(buckets)]) == Steps.PlanDeletion(cfg, old(View()))
    {
      ghost var p := View().pass;
      var order, toDelete := CollectLeftovers(p, status.groups, managed);
      var seenClusters, seenTargets := SeenConditions(conditions);
      assert forall c :: Unhealthy(cfg, p, c) <==> !inDeletion && Lookup(seenClusters, cfg.clusterCondition(c)) == Some(false);
      hide NoDuplicates, Leftover, Vanished, ClustersOf, Forget, BucketsFor, Filtered, Unhealthy, LastClusterCondition;
      toDelete := PruneVanished(p, order, toDelete);
      if !inDeletion {
        toDelete := SkipUnhealthy(cfg, p, seenClusters, order, toDelete);
      }
      toDelete := SkipAllReported(cfg, p, seenTargets, order, toDelete);
      assert Filtered(cfg, p, order, toDelete) by {
        FilteredNow(cfg, p, order, toDelete);
      }
      FilteredBuckets(cfg, p, order, toDelete);
      buckets := AsBuckets(order, toDelete);
    }

    /** An obsolete entry: its object is deleted, released, or left alone if it is not the replica's. */
    method DeleteObsolete(fate: Fate, l: Location)
      modifies this`world, this`conditions, this`errors, status
      ensures View() == Steps.DeleteObsolete(cfg, fate, l, old(View()))
    {
      hide Steps.Report, IsManaged, Kept, Released, RemovedAt;
      if !fate.get {
        Report(l, false, Failed);
        return;
      }
      if l in world.objects && IsManaged(cfg.provider, id, world.objects[l]) {
        var rtd := world.objects[l];
        if Kept(rtd) {
          if !fate.write.Lost? {
            var released := ReleaseLabels(rtd);
            world := world.(objects := world.objects[l := released]);
          }
          if !fate.write.Ok? {
            Report(l, false, Failed);
            return;
          }
        } else {
          if !rtd.inDeletion {
            if !fate.write.Lost? {
              world := world.(objects := world.objects[l := rtd.(inDeletion := true)]);
            }
            if !fate.write.Ok? {
              Report(l, false, Failed);
              return;
            }
          }
          Report(l, false, WaitingForDeletion);
          return;
        }
      }
      ForgetEntry(l);
    }

    method ForgetEntry(l: Location)
      modifies status
      ensures View() == Forgotten(l, old(View()))
    {
      status.RemoveRaw(l.ref.gvk, l.ref.namespace, l.ref.name, Some(l.cluster));
    }

    method DeleteEntry(l: Location)
      modifies this, status
      ensures View() == Run(cfg, fates, [Delete(l)], old(View()))
    {
      var fate := fates(clock, Delete(l));
      RunLeaf(cfg, fates, Delete(l), View());
      hide Run, Steps.DeleteObsolete, View, Ticked;
      DeleteObsolete(fate, l);
      Tick();
    }

    method DeleteBucket(b: Bucket)
      modifies this, status
      ensures View() == Run(cfg, fates, [OpenBucket(b)], old(View()))
    {
      ghost var s := View();
      var fate := fates(clock, OpenBucket(b));
      RunOne(cfg, fates, OpenBucket(b), s);
      assert fate == fates(s.pass.clock, OpenBucket(b));
      hide Run, View, Ticked, ReportAll;
      if !fate.access {
        ReportBucket(b);
        Tick();
        RunNothing(cfg, fates, View());
        return;
      }
      Tick();
      assert b.refs[0..] == b.refs;
      for i := 0 to |b.refs|
        invariant Run(cfg, fates, DeleteTasks(b.cluster, b.refs), Ticked(s)) == Run(cfg, fates, DeleteTasks(b.cluster, b.refs[i..]), View())
      {
        ghost var rest := b.refs[i..];
        assert rest[0] == b.refs[i] && rest[1..] == b.refs[i + 1..];
        RunHead(cfg, fates, Delete(Location(b.cluster, rest[0])), DeleteTasks(b.cluster, rest[1..]), View());
        DeleteEntry(Location(b.cluster, b.refs[i]));
      }
      RunNothing(cfg, fates, View());
    }

    /** Every resource that was to be deleted on a cluster without access gets a condition; there is one error for the cluster. */
    method ReportBucket(b: Bucket)
      modifies this`conditions, this`errors
      ensures View() == WithError(ReportAll(cfg, b, |b.refs|, old(View())))
    {
      for i := 0 to |b.refs|
        invariant View() == ReportAll(cfg, b, i, old(View()))
      {
        CreateCon(TargetCondition(cfg.targetCondition(Location(b.cluster, b.refs[i])), false, Failed));
      }
      errors := errors + 1;
    }

    /** The clusters in whatever order the map is walked. */
    method DeleteBuckets(buckets: seq<Bucket>)
      modifies this, status
      ensures View() == Run(cfg, fates, [Obsolete(buckets)], old(View()))
    {
      hide View;
      ghost var s := View();
      var todo := buckets;
      while todo != []
        invariant Run(cfg, fates, [Obsolete(buckets)], s) == Run(cfg, fates, [Obsolete(todo)], View())
        decreases |todo|
      {
        var i := Pick(todo);
        var b, rest := todo[i], Without(todo, i);
        RunPick(cfg, fates, todo, View());
        Tick();
        DeleteBucket(b);
        todo := rest;
      }
      RunNoBuckets(cfg, fates, View());
      Tick();
    }

    method Pick(todo: seq<Bucket>) returns (i: nat)
      requires todo != []
      ensures i == fates(View().pass.clock, Obsolete(todo)).pick % |todo|
    {
      i := fates(clock, Obsolete(todo)).pick % |todo|;
    }

    /** Makes sure that everything synced is in the status. */
    method TrackManaged()
      modifies status
      ensures status.groups == TrackAll(managed, old(status.groups))
    {
      assert managed[0..] == managed;
      for i := 0 to |managed|
        invariant TrackAll(managed[i..], status.groups) == TrackAll(managed, old(status.groups))
      {
        var l := managed[i];
        assert managed[i..][0] == l && managed[i..][1..] == managed[i + 1..];
        status.AddRaw(l.ref.gvk, l.ref.namespace, l.ref.name, Some(l.cluster));
      }
    }

    method CloseStatus()
      modifies status, this`clock
      ensures View() == Run(cfg, fates, [Cleanup], old(View()))
    {
      RunLeaf(cfg, fates, Cleanup, View());
      hide Run, TrackAll, Cleaned;
      status.Cleanup();
      TrackManaged();
      Tick();
    }

    method DeleteObsoleteResources()
      modifies this, status
      ensures View() == Run(cfg, fates, [Task.Plan, Cleanup], old(View()))
    {
      ghost var s := View();
      hide View, Steps.PlanDeletion, Ticked;
      RunPlan(cfg, fates, [Cleanup], s);
      assert [Task.Plan] + [Cleanup] == [Task.Plan, Cleanup];
      var buckets := PlanDeletion();
      Tick();
      assert buckets == BucketsFor(cfg, s.pass, ClustersOf(Walk(s.pass.status))) by {
        PlannedBuckets(cfg, s);
      }
      RunHead(cfg, fates, Obsolete(buckets), [Cleanup], View());
      DeleteBuckets(buckets);
      CloseStatus();
    }

    method UpdateStatus()
      modifies this`persisted, this`clock
      ensures View() == Run(cfg, fates, [Task.UpdateStatus], old(View()))
    {
      var fate := fates(clock, Task.UpdateStatus);
      RunLeaf(cfg, fates, Task.UpdateStatus, View());
      hide Run;
      if !fate.patch.Lost? && status.groups != oldStatus {
        persisted := status.groups;
      }
      Tick();
    }

    // ---- A whole pass ----

    method LoadObject(r: Stored, clusters: seq<Cluster>)
      modifies this`persisted, this`inDeletion, this`generation, this`input, this`defs, this`clusters, this`oldStatus, status
      ensures persisted == oldStatus == status.groups == r.persisted
      ensures inDeletion == r.deleting && generation == r.generation && input == r.input && defs == r.defs && this.clusters == clusters
    {
      persisted, oldStatus, status.groups := r.persisted, r.persisted, r.persisted;
      inDeletion, generation, input, defs := r.deleting, r.generation, r.input, r.defs;
      this.clusters := clusters;
    }

    method ClearBookkeeping()
      modifies this`managed, this`seen, this`conditions, this`errors, this`clock, this`renderings, this`reached
      ensures managed == [] && seen == map[] && conditions == [] && errors == 0 && clock == 0 && renderings == [] && reached == []
    {
      managed, seen, conditions := [], map[], [];
      errors, clock := 0, 0;
      renderings, reached := [], [];
    }

    method BeginPass(r: Stored, clusters: seq<Cluster>)
      modifies this, status
      ensures View() == State(old(world), r.persisted, NewPass(old(id), r, clusters))
    {
      LoadObject(r, clusters);
      ClearBookkeeping();
    }

    /** Finalizer and sources; whether the loops can be entered. */
    method Prepare(start: Fate, r: Stored) returns (r': Stored, ready: bool)
      ensures r' == if start.finalizer.Lost? then r else r.(finalizer := true)
      ensures ready <==> (r.finalizer || start.finalizer.Ok?) && start.sources
    {
      r' := r;
      if !r.finalizer {
        if !start.finalizer.Lost? {
          r' := r.(finalizer := true);
        }
        if !start.finalizer.Ok? {
          return r', false;
        }
      }
      assert r.finalizer ==> r.(finalizer := true) == r;
      return r', start.sources;
    }

    /** One reconcile of the object as it is stored; the result is what is stored after it. */
    method Reconcile(start: Fate, r: Stored, clusters: seq<Cluster>) returns (r': Stored)
      requires r.running.None?
      modifies this, status
      ensures (world, r') == WholePass(cfg, start, fates, old(id), old(world), clusters, r)
    {
      if !start.get || r.ignored {
        return r;
      }
      StartShape(old(id), start, clusters, r);
      hide Run, Start;
      BeginPass(r, clusters);
      ghost var s := View();
      r' := r;
      if r.deleting && start.list {
        if |r.persisted| == 0 && (!r.finalizer || !start.finalizer.Lost?) {
          return r.(finalizer := false);
        }
        assert s.pass.conditions + [OtherCondition(false)] == [OtherCondition(false)];
        HandleDelete(start, r);
      } else {
        r' := HandleCreateOrUpdate(start, r);
      }
      r' := r'.(persisted := persisted, running := None);
    }

    method HandleCreateOrUpdate(start: Fate, r: Stored) returns (r': Stored)
      requires defs == r.defs
      modifies this, status
      ensures r' == Prepared(start, r)
      ensures View() == Run(cfg, fates, Work(start, r), old(View()))
    {
      hide Run;
      ghost var s := View();
      r' := r;
      var ready := false;
      if start.list {
        r', ready := Prepare(start, r);
      }
      if !ready {
        UpdateStatus();
        return;
      }
      SyncDefinitions();
      FinishPass();
      RunInParts(cfg, fates, DefinitionTasks(r.defs), s);
    }

    method HandleDelete(start: Fate, r: Stored)
      requires status.groups == r.persisted
      modifies this, status
      ensures View() == Run(cfg, fates, Removal(r), if |r.persisted| > 0 then WithCondition(old(View()), OtherCondition(false)) else old(View()))
    {
      hide Run, View;
      if |status.groups| > 0 {
        CreateCon(OtherCondition(false));
        FinishPass();
      } else {
        UpdateStatus();
      }
    }

    method FinishPass()
      modifies this, status
      ensures View() == Run(cfg, fates, [Task.Plan, Cleanup, Task.UpdateStatus], old(View()))
    {
      hide Run, View;
      ghost var s := View();
      DeleteObsoleteResources();
      UpdateStatus();
      assert [Task.Plan, Cleanup] + [Task.UpdateStatus] == [Task.Plan, Cleanup, Task.UpdateStatus];
      RunSplit(cfg, fates, [Task.Plan, Cleanup], [Task.UpdateStatus], s);
    }
  }
}
