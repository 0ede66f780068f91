/** Runs of one replica written out event by event, and what examples of such runs share. */
module EventRuns {
  import opened Refs
  import opened StatusList
  import opened Objects
  import opened Targets
  import opened Steps
  import opened System

  /** Everything renders to one object, and conditions are named by the Cluster. */
  const COPY := TypedRef(GVK("", "v1", "Secret"), "", "copy")
  const CONFIG := Config(
    "provider",
    (s: string, c: Cluster) => true,
    (s: LabelSelector, l: map<string, string>) => None,
    (i: string, c: Option<Cluster>, n: string) => Rendered("raw", COPY, BLANK),
    (names: set<string>) => [],
    (n: string) => map[],
    (l: Location) => l.cluster.name,
    (c: ObjectReference) => c.name)

  const FIRST := Cluster(ObjectReference("ns", "a"), false, "")
  const SECOND := Cluster(ObjectReference("ns", "b"), false, "")
  const NEXT_TO := TargetDefinition(Some(ClusterTarget(None, true)), None, Fail, Create)
  const ID := ReplicaId(Replica, "home", "r")

  /** The copy next to both Clusters, its entry, and the keys it has for them. */
  const AT := Location(HOSTING, COPY.(namespace := "ns"))
  const ENTRY := [Group(AT.ref.gvk, [CreatedResource(None, "ns", "copy")])]
  const KEY1 := Location(FIRST.ref, AT.ref)
  const KEY2 := Location(SECOND.ref, AT.ref)

  const GOOD := Fate(true, true, true, true, true, Ok, Ok, Ok, Ok, 0)
  const W := World(map[], map[(HOSTING, "ns") := Namespace(map[], false)])
  const LAST: seq<Task> := [Plan, Cleanup, UpdateStatus]

  /** The system before a run, with the replica as its only one. */
  function Waiting(clusters: seq<Cluster>, defs: seq<TargetDefinition>, w: World, persisted: seq<Group>): System {
    System(w, clusters, map[ID := Stored("1", "", defs, false, persisted, true, false, None)])
  }

  /** The same in the middle of a pass. */
  function During(base: System, agenda: seq<Task>, p: Pass, w: World, persisted: seq<Group>): System
    requires ID in base.replicas
  {
    base.(world := w, replicas := map[ID := base.replicas[ID].(persisted := persisted, running := Some(Running(p, agenda)))])
  }

  ghost predicate Leads(from: System, e: Event, to: System) {
    Enabled(CONFIG, from, e) && to == Next(CONFIG, from, e)
  }

  ghost predicate Chained(states: seq<System>, events: seq<Event>) {
    && |states| == |events| + 1
    && forall i :: 0 <= i < |events| ==> Leads(states[i], events[i], states[i + 1])
  }

  lemma {:induction false} ChainRuns(states: seq<System>, events: seq<Event>)
    requires Chained(states, events)
    ensures CanHappen(CONFIG, states[0], events) && After(CONFIG, states[0], events) == states[|events|]
    decreases |events|
  {
    if events != [] {
      assert Leads(states[0], events[0], states[1]);
      hide Enabled, Next;
      ChainRuns(states[1..], events[1..]);
    }
  }

  /** One task of the pass. */
  lemma Stepped(base: System, fate: Fate, t: Task, rest: seq<Task>, p: Pass, w: World, persisted: seq<Group>,
                p': Pass, w': World, persisted': seq<Group>, more: seq<Task>)
    requires ID in base.replicas
    requires Step(CONFIG, fate, t, State(w, persisted, p)) == (State(w', persisted', p'.(clock := p.clock)), more)
    requires p'.clock == p.clock + 1 && more + rest != []
    ensures Leads(During(base, [t] + rest, p, w, persisted), Advance(ID, fate), During(base, more + rest, p', w', persisted'))
  {
    hide Step;
    assert ([t] + rest)[1..] == rest;
  }

  /** A definition that meets the first Cluster. */
  lemma Entered(base: System, def: TargetDefinition, rest: seq<Task>, p: Pass, w: World, persisted: seq<Group>)
    requires ID in base.replicas && def.cluster.Some? && MatchedClusters(CONFIG, def, p.clusters) == [Some(FIRST)]
    ensures Leads(During(base, [Definition(def)] + rest, p, w, persisted), Advance(ID, GOOD),
                  During(base, [OpenCluster(def, Some(FIRST))] + rest, p.(clock := p.clock + 1), w, persisted))
  {
    assert OpenTasks(def, [Some(FIRST)]) == [OpenCluster(def, Some(FIRST))];
    Stepped(base, GOOD, Definition(def), rest, p, w, persisted, p.(clock := p.clock + 1), w, persisted, [OpenCluster(def, Some(FIRST))]);
  }

  /** A Cluster on which one namespace is worked on. */
  lemma OpenedAt(base: System, def: TargetDefinition, c: Cluster, rest: seq<Task>, p: Pass, w: World, persisted: seq<Group>)
    requires ID in base.replicas
    requires var s := State(w, persisted, p); ResolveNamespaces(CONFIG, GOOD, def, Some(c), s) == (s, ClusterTasks(def, Some(c), ["ns"]))
    ensures Leads(During(base, [OpenCluster(def, Some(c))] + rest, p, w, persisted), Advance(ID, GOOD),
                  During(base, [Target(def, Some(c), "ns")] + ([CloseCluster(Some(c))] + rest), p.(clock := p.clock + 1), w, persisted))
  {
    var more := [Target(def, Some(c), "ns"), CloseCluster(Some(c))];
    assert ["ns"][1..] == [] && TargetTasks(def, Some(c), []) == [];
    assert TargetTasks(def, Some(c), ["ns"]) == [Target(def, Some(c), "ns")];
    assert ClusterTasks(def, Some(c), ["ns"]) == more;
    Stepped(base, GOOD, OpenCluster(def, Some(c)), rest, p, w, persisted, p.(clock := p.clock + 1), w, persisted, more);
    assert more + rest == [Target(def, Some(c), "ns")] + ([CloseCluster(Some(c))] + rest);
  }

  /** The end of a Cluster. */
  function Left(p: Pass, c: Cluster): Pass {
    p.(clock := p.clock + 1, conditions := p.conditions + [ClusterCondition(c.ref.name, true)])
  }

  lemma ClosedAt(base: System, c: Cluster, rest: seq<Task>, p: Pass, w: World, persisted: seq<Group>)
    requires ID in base.replicas && rest != []
    ensures Leads(During(base, [CloseCluster(Some(c))] + rest, p, w, persisted), Advance(ID, GOOD), During(base, rest, Left(p, c), w, persisted))
  {
    Stepped(base, GOOD, CloseCluster(Some(c)), rest, p, w, persisted, Left(p, c), w, persisted, []);
    assert [] + rest == rest;
  }

  /** The start of a pass over one definition. */
  lemma Begun(clusters: seq<Cluster>, def: TargetDefinition, w: World, persisted: seq<Group>)
    ensures var base := Waiting(clusters, [def], w, persisted);
            Leads(base, Reconcile(ID, GOOD), During(base, [Definition(def)] + LAST, NewPass(ID, base.replicas[ID], clusters), w, persisted))
  {
    assert [def][1..] == [] && DefinitionTasks([def]) == [Definition(def)];
    assert [Definition(def)] + [Plan, Cleanup] + [UpdateStatus] == [Definition(def)] + LAST;
  }

  // ---- The end of a pass whose one tracked copy is obsolete ----

  const REST: seq<Task> := [Cleanup, UpdateStatus]
  const EMPTY: seq<Task> := [Obsolete([])] + REST

  lemma PlansOne(base: System, p: Pass, w: World, l: Location)
    requires ID in base.replicas && Walk(p.status) == [l] && IsObsolete(CONFIG, p, l)
    ensures Leads(During(base, LAST, p, w, p.status), Advance(ID, GOOD),
                  During(base, [Obsolete([Bucket(l.cluster, [l.ref])])] + REST, p.(clock := p.clock + 1), w, p.status))
  {
    var c, s := l.cluster, State(w, p.status, p);
    assert [l][..0] == [] && ClustersOf([]) == [] && ClustersOf([l]) == [c];
    assert RefsOn([], c) == [] && RefsOn([l], c) == [l.ref];
    assert [l.ref][1..] == [] && Unmanaged(p.managed, c, []) == [] && Unmanaged(p.managed, c, [l.ref]) == [l.ref];
    hide Vanished, Unhealthy, Reported;
    assert Leftover(p, c) == [l.ref];
    assert Unreported(CONFIG, p, c, []) == [] && Unreported(CONFIG, p, c, [l.ref]) == [l.ref];
    assert [c][1..] == [] && BucketsFor(CONFIG, p, []) == [];
    assert BucketsFor(CONFIG, p, [c]) == [Bucket(c, [l.ref])];
    assert Forget(p, [], p.status) == p.status && Forget(p, [c], p.status) == p.status;
    assert PlanDeletion(CONFIG, s) == (s, [Obsolete([Bucket(c, [l.ref])])]);
    Stepped(base, GOOD, Plan, REST, p, w, p.status, p.(clock := p.clock + 1), w, p.status, [Obsolete([Bucket(c, [l.ref])])]);
    assert [Plan] + REST == LAST;
  }

  lemma ChoosesOne(base: System, p: Pass, w: World, persisted: seq<Group>, l: Location)
    requires ID in base.replicas
    ensures Leads(During(base, [Obsolete([Bucket(l.cluster, [l.ref])])] + REST, p, w, persisted), Advance(ID, GOOD),
                  During(base, [OpenBucket(Bucket(l.cluster, [l.ref]))] + EMPTY, p.(clock := p.clock + 1), w, persisted))
  {
    var bucket := Bucket(l.cluster, [l.ref]);
    assert [bucket][..0] + [bucket][1..] == [];
    var more := [OpenBucket(bucket), Obsolete([])];
    Stepped(base, GOOD, Obsolete([bucket]), REST, p, w, persisted, p.(clock := p.clock + 1), w, persisted, more);
    assert more + REST == [OpenBucket(bucket)] + EMPTY;
  }

  lemma OpensOne(base: System, p: Pass, w: World, persisted: seq<Group>, l: Location)
    requires ID in base.replicas
    ensures Leads(During(base, [OpenBucket(Bucket(l.cluster, [l.ref]))] + EMPTY, p, w, persisted), Advance(ID, GOOD),
                  During(base, [Delete(l)] + EMPTY, p.(clock := p.clock + 1), w, persisted))
  {
    assert [l.ref][1..] == [] && DeleteTasks(l.cluster, []) == [];
    assert DeleteTasks(l.cluster, [l.ref]) == [Delete(l)];
    Stepped(base, GOOD, OpenBucket(Bucket(l.cluster, [l.ref])), EMPTY, p, w, persisted, p.(clock := p.clock + 1), w, persisted, [Delete(l)]);
  }

  /** The copy that examples delete. */
  const COPIED := BLANK.(labels := WithManagementLabels(CONFIG.provider, ID, "1", map[]))

  lemma CopyIsOurs()
    ensures OwnedByThis(ID, COPIED) && IsManaged(CONFIG.provider, ID, COPIED) && !Kept(COPIED) && !COPIED.inDeletion
  {
    SyncTakesOwnership(CONFIG.provider, ID, "1", None, BLANK);
  }

  lemma DeletesOne(base: System, p: Pass, w: World, persisted: seq<Group>, l: Location) returns (last: System)
    requires ID in base.replicas && p.id == ID && w.objects == map[l := COPIED]
    ensures Leads(During(base, [Delete(l)] + EMPTY, p, w, persisted), Advance(ID, GOOD), last)
    ensures last.world.objects == map[l := COPIED.(inDeletion := true)]
  {
    var s := State(w, persisted, p);
    CopyIsOurs();
    hide IsManaged, Kept, WithManagementLabels, RemovedAt;
    last := Next(CONFIG, During(base, [Delete(l)] + EMPTY, p, w, persisted), Advance(ID, GOOD));
    assert ([Delete(l)] + EMPTY)[0] == Delete(l);
    assert DeleteObsolete(CONFIG, GOOD, l, s).world.objects == map[l := COPIED.(inDeletion := true)];
  }
}
