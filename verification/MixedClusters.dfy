/** A Cluster selected both for copies on it and for copies next to it can need a third pass: the two copies share a key,
    and the namespaces that the first pass creates decide which of them comes first in the second. */
module MixedClusters {
  import opened Refs
  import opened StatusList
  import opened Objects
  import opened Targets
  import opened Steps
  import opened System
  import opened Obsolete
  import opened DeletionPhase
  import opened Quiet
  import opened Resolution
  import opened QuietLoop
  import opened LoopKeys
  import opened Settling
  import opened Convergence
  import opened SmallRuns

  const CLUSTER := Cluster(ObjectReference("a", "c"), false, "")
  const ID := ReplicaId(Replica, "default", "r")

  /** All namespaces on the Cluster; next to the Cluster; on the Cluster in a namespace that the template names. */
  const ON_ALL := TargetDefinition(Some(ClusterTarget(None, false)), Some(NamespaceSelector(None, LabelSelector(None, []))), Fail, Create)
  const NEXT_TO := TargetDefinition(Some(ClusterTarget(None, true)), None, Fail, Create)
  const ON_NAMED := TargetDefinition(Some(ClusterTarget(None, false)), None, Fail, Create)

  const X := TypedRef(CONFIG_MAP, "a", "x")
  const Y := TypedRef(CONFIG_MAP, "a", "y")
  const ON_X := Location(CLUSTER.ref, X)
  const ON_Y := Location(CLUSTER.ref, Y)
  const BESIDE_X := Location(HOSTING, X)

  /** The template names x in a namespace it is given, and y in namespace a otherwise; condition names tell the three targets apart. */
  ghost predicate Example(cfg: Config) {
    && ListsAll(cfg)
    && cfg.render("", Some(CLUSTER), "a") == Rendered("x", X, BLANK)
    && cfg.render("", Some(CLUSTER), "") == Rendered("y", Y, BLANK)
    && cfg.targetCondition(BESIDE_X) != cfg.targetCondition(ON_X)
    && cfg.targetCondition(BESIDE_X) != cfg.targetCondition(ON_Y)
  }

  lemma ExampleExists() returns (cfg: Config)
    ensures Example(cfg)
  {
    cfg := Config(
      "provider",
      (s: string, c: Cluster) => true,
      (s: LabelSelector, l: map<string, string>) => None,
      (i: string, c: Option<Cluster>, n: string) => if n == "" then Rendered("y", Y, BLANK) else Rendered("x", X, BLANK),
      (names: set<string>) => Listing(names),
      (n: string) => map[],
      (l: Location) => l.cluster.name,
      (c: ObjectReference) => c.name);
    forall names ensures NoDuplicates(cfg.listOrder(names)) && forall n :: n in cfg.listOrder(names) <==> n in names {
      ListingIsComplete(names);
    }
  }

  const BEFORE := World(map[], map[(HOSTING, "a") := Namespace(map[], false)])
  const REPLICA := Stored("1", "", [ON_ALL, NEXT_TO, ON_NAMED], false, [], true, false, None)

  // ---- What is known about a state of the example ----

  ghost predicate Mine(cfg: Config, o: Object) {
    OwnedByThis(ID, o) && IsManaged(cfg.provider, ID, o) && !Objects.Kept(o) && !o.inDeletion
  }

  ghost predicate WorldIs(cfg: Config, w: World, objects: set<Location>, onCluster: bool) {
    && w.objects.Keys == objects && (forall l :: l in objects ==> Mine(cfg, w.objects[l]) && (l.cluster == CLUSTER.ref ==> onCluster))
    && w.namespaces.Keys == {(HOSTING, "a")} + (if onCluster then {(CLUSTER.ref, "a")} else {})
    && (forall k :: k in w.namespaces ==> !w.namespaces[k].inDeletion)
  }

  /** The objects there are, whether namespace a exists on the Cluster, and the targets seen, synced, tracked and reported on. */
  ghost predicate Knows(cfg: Config, s: State, objects: set<Location>, onCluster: bool,
                        seen: set<Location>, managed: set<Location>, tracked: set<Location>, reported: set<Location>) {
    && IsRequest(s.pass, ID, DEFS, [CLUSTER])
    && WorldIs(cfg, s.world, objects, onCluster)
    && Progress(cfg, s, seen, managed, tracked, reported)
  }

  lemma KnowsOpened(cfg: Config, s: State, s': State, objects: set<Location>, onCluster: bool,
                    seen: set<Location>, managed: set<Location>, tracked: set<Location>, reported: set<Location>)
    requires Knows(cfg, s, objects, onCluster, seen, managed, tracked, reported) && Opened(s, s')
    ensures Knows(cfg, s', objects, onCluster, seen, managed, tracked, reported)
  {
    ProgressOpened(cfg, s, s', seen, managed, tracked, reported, ID, DEFS, [CLUSTER]);
    hide Mine, WorldIs, Progress, IsRequest;
  }

  lemma CopyIsMine(cfg: Config, p: Pass, existing: Option<Object>)
    requires p.id == ID && (existing.Some? ==> Mine(cfg, existing.value))
    ensures Mine(cfg, CreatedOrUpdated(existing, Copy(cfg, p, BLANK)))
  {
    SyncTakesOwnership(cfg.provider, ID, p.generation, existing, BLANK);
    assert |KEEP| == 4;
  }

  lemma WrittenHere(cfg: Config, w: World, home: Location, copy: Object, objects: set<Location>, onCluster: bool)
    requires WorldIs(cfg, w, objects, onCluster) && home.ref.namespace == "a" && (home.cluster == HOSTING || home.cluster == CLUSTER.ref)
    requires Mine(cfg, CreatedOrUpdated(Lookup(w.objects, home), copy))
    ensures WorldIs(cfg, Written(cfg, home, copy, w), objects + {home}, onCluster || home.cluster == CLUSTER.ref)
  {
    hide Mine, CreatedOrUpdated;
  }

  lemma MayWrite(cfg: Config, def: TargetDefinition, w: World, home: Location, objects: set<Location>, onCluster: bool)
    requires WorldIs(cfg, w, objects, onCluster) && home.ref.namespace == "a" && def.namespacePolicy == Create
    requires home.cluster == HOSTING || home.cluster == CLUSTER.ref
    ensures Judged(def, ID, w, home).Proceed?
  {
    hide OwnedByThis, IsManaged;
    if home in objects {
      assert Mine(cfg, w.objects[home]);
    }
  }

  /** A target seen before is only reported on. */
  lemma KnowsRepeated(cfg: Config, def: TargetDefinition, n: string, raw: string, ref: TypedRef, s: State, s': State, objects: set<Location>, onCluster: bool,
                      seen: set<Location>, managed: set<Location>, tracked: set<Location>, reported: set<Location>)
    requires Knows(cfg, s, objects, onCluster, seen, managed, tracked, reported) && TargetDone(cfg, def, Some(CLUSTER), n, s, s')
    requires Render(cfg, "", Some(CLUSTER), n) == Rendered(raw, ref, BLANK) && Key(Some(CLUSTER), ref) in seen
    ensures Knows(cfg, s', objects, onCluster, seen, managed, tracked, reported + {Key(Some(CLUSTER), ref)})
  {
    var key := Key(Some(CLUSTER), ref);
    TargetWrites(cfg, def, Some(CLUSTER), n, raw, ref, BLANK, s, s');
    FineStays(cfg, key, s, s');
    NamesMore(cfg, key, s, s', reported);
    hide WorldIs, Tracked, WellFormed, Render, ClustersFine, NamesIn, TargetDone, Judged, Written, AddedAt, Copy;
  }

  /** A new target whose namespace exists or can be created is written. */
  lemma KnowsNew(cfg: Config, def: TargetDefinition, n: string, raw: string, ref: TypedRef, s: State, s': State, objects: set<Location>, onCluster: bool,
                 seen: set<Location>, managed: set<Location>, tracked: set<Location>, reported: set<Location>)
    requires Knows(cfg, s, objects, onCluster, seen, managed, tracked, reported) && TargetDone(cfg, def, Some(CLUSTER), n, s, s')
    requires Render(cfg, "", Some(CLUSTER), n) == Rendered(raw, ref, BLANK) && Key(Some(CLUSTER), ref) !in seen
    requires ref.namespace == "a" && def.namespacePolicy == Create
    ensures var key, home := Key(Some(CLUSTER), ref), Location(HomeRef(def, Some(CLUSTER)), ref);
            Knows(cfg, s', objects + {home}, onCluster || home.cluster == CLUSTER.ref, seen + {key}, managed + {home}, tracked + {home}, reported + {key})
  {
    var key, home := Key(Some(CLUSTER), ref), Location(HomeRef(def, Some(CLUSTER)), ref);
    hide TargetDone, Render, Judged, Written, AddedAt, Copy, CreatedOrUpdated, Tracked, WellFormed, ClustersFine, NamesIn, Reports, OwnedByThis, IsManaged, HomeRef;
    assert home.cluster == HOSTING || home.cluster == CLUSTER.ref by {
      HomeOfExample(def, ref);
    }
    TargetWrites(cfg, def, Some(CLUSTER), n, raw, ref, BLANK, s, s');
    FineStays(cfg, key, s, s');
    NamesMore(cfg, key, s, s', reported);
    assert Lookup(s.world.objects, home).Some? ==> Mine(cfg, Lookup(s.world.objects, home).value);
    hide Mine, WorldIs;
    CopyIsMine(cfg, s.pass, Lookup(s.world.objects, home));
    MayWrite(cfg, def, s.world, home, objects, onCluster);
    WrittenHere(cfg, s.world, home, Copy(cfg, s.pass, BLANK), objects, onCluster);
    assert WellFormed(s.pass.status) && Tracked(AddedAt(s.pass.status, home)) == Tracked(s.pass.status) + {home} by {
      RawRefinesSet(s.pass.status, home);
    }
    assert WorldIs(cfg, s'.world, objects + {home}, onCluster || home.cluster == CLUSTER.ref);
    assert s'.pass.seen.Keys == seen + {key};
    forall l ensures l in s'.pass.managed <==> l in managed + {home} {}
    assert Tracked(s'.pass.status) == tracked + {home};
  }

  lemma HomeOfExample(def: TargetDefinition, ref: TypedRef)
    ensures HomeRef(def, Some(CLUSTER)) == HOSTING || HomeRef(def, Some(CLUSTER)) == CLUSTER.ref
  {}

  // ---- The loops of a pass ----

  const DEFS := [ON_ALL, NEXT_TO, ON_NAMED]

  lemma ListOfNone(cfg: Config)
    requires ListsAll(cfg)
    ensures cfg.listOrder({}) == []
  {
    HasMember(cfg.listOrder({}));
  }

  lemma ListOfOne(cfg: Config, n: string)
    requires ListsAll(cfg)
    ensures cfg.listOrder({n}) == [n]
  {
    assert n in {n};
    Singleton(cfg.listOrder({n}), n);
  }

  lemma SelectOne(cfg: Config, sel: NamespaceSelector, cluster: ObjectReference, n: string, w: World)
    requires sel.Empty() && (cluster, n) in w.namespaces
    ensures SelectNamespaces(cfg, sel, cluster, [n], w) == [n]
  {
    assert [n][1..] == [];
    assert SelectNamespaces(cfg, sel, cluster, [], w) == [];
  }

  /** The namespaces the three definitions work on, before and after namespace a exists on the Cluster. */
  lemma ResolvedHere(cfg: Config, w: World, objects: set<Location>, onCluster: bool)
    requires ListsAll(cfg) && WorldIs(cfg, w, objects, onCluster)
    ensures Resolved(cfg, ON_ALL, Some(CLUSTER), w) == if onCluster then ["a"] else []
    ensures Resolved(cfg, NEXT_TO, Some(CLUSTER), w) == ["a"] && Resolved(cfg, ON_NAMED, Some(CLUSTER), w) == [""]
  {
    var names := NamespacesOn(w, CLUSTER.ref);
    var sel := ON_ALL.namespaces.value;
    forall n ensures n in names <==> onCluster && n == "a" {
      NamespacesOnMembers(w, CLUSTER.ref, n);
    }
    assert names == if onCluster then {"a"} else {};
    ListOfNone(cfg);
    ListOfOne(cfg, "a");
    assert (CLUSTER.ref, "a") in w.namespaces <==> onCluster;
    assert SelectNamespaces(cfg, sel, CLUSTER.ref, [], w) == [];
    if onCluster {
      SelectOne(cfg, sel, CLUSTER.ref, "a", w);
    }
    hide Mine, SelectNamespaces;
    assert Resolved(cfg, ON_ALL, Some(CLUSTER), w) == SelectNamespaces(cfg, sel, CLUSTER.ref, cfg.listOrder(names), w);
  }

  lemma RenderedHere(cfg: Config)
    requires Example(cfg)
    ensures Render(cfg, "", Some(CLUSTER), "a") == Rendered("x", X, BLANK) && Render(cfg, "", Some(CLUSTER), "") == Rendered("y", Y, BLANK)
    ensures Key(Some(CLUSTER), X) == ON_X && Key(Some(CLUSTER), Y) == ON_Y
    ensures Location(HomeRef(ON_ALL, Some(CLUSTER)), X) == ON_X && Location(HomeRef(NEXT_TO, Some(CLUSTER)), X) == BESIDE_X
    ensures Location(HomeRef(ON_NAMED, Some(CLUSTER)), Y) == ON_Y
  {}

  lemma MatchedHere(cfg: Config, def: TargetDefinition)
    requires def in DEFS
    ensures MatchedClusters(cfg, def, [CLUSTER]) == [Some(CLUSTER)]
  {}

  lemma ThreeRuns(cfg: Config, fates: Oracle, s: State) returns (a: State, b: State, c: State)
    requires s.pass.defs == DEFS
    ensures a == Run(cfg, fates, [Definition(ON_ALL)], s) && b == Run(cfg, fates, [Definition(NEXT_TO)], a) && c == Run(cfg, fates, [Definition(ON_NAMED)], b)
    ensures c == AfterLoops(cfg, fates, s)
  {
    a := Run(cfg, fates, [Definition(ON_ALL)], s);
    b := Run(cfg, fates, [Definition(NEXT_TO)], a);
    c := Run(cfg, fates, [Definition(ON_NAMED)], b);
    assert DEFS[1..] == [NEXT_TO, ON_NAMED] && [NEXT_TO, ON_NAMED][1..] == [ON_NAMED] && [ON_NAMED][1..] == [];
    assert DefinitionTasks([ON_NAMED]) == [Definition(ON_NAMED)];
    assert DefinitionTasks([NEXT_TO, ON_NAMED]) == [Definition(NEXT_TO)] + [Definition(ON_NAMED)];
    assert DefinitionTasks(DEFS) == [Definition(ON_ALL)] + ([Definition(NEXT_TO)] + [Definition(ON_NAMED)]);
    hide Run;
    RunHead(cfg, fates, Definition(ON_ALL), [Definition(NEXT_TO)] + [Definition(ON_NAMED)], s);
    RunHead(cfg, fates, Definition(NEXT_TO), [Definition(ON_NAMED)], a);
  }

  lemma KnowsParts(cfg: Config, s: State, objects: set<Location>, onCluster: bool,
                   seen: set<Location>, managed: set<Location>, tracked: set<Location>, reported: set<Location>)
    requires Knows(cfg, s, objects, onCluster, seen, managed, tracked, reported)
    ensures InStore(s) && WorldIs(cfg, s.world, objects, onCluster) && s.pass.clusters == [CLUSTER]
  {}

  lemma KnowsNewRun(cfg: Config, fates: Oracle, def: TargetDefinition, n: string, raw: string, ref: TypedRef, s: State, objects: set<Location>, onCluster: bool,
                    seen: set<Location>, managed: set<Location>, tracked: set<Location>, reported: set<Location>)
    requires QuietOracle(fates) && def in DEFS && Resolved(cfg, def, Some(CLUSTER), s.world) == [n]
    requires Knows(cfg, s, objects, onCluster, seen, managed, tracked, reported)
    requires Render(cfg, "", Some(CLUSTER), n) == Rendered(raw, ref, BLANK) && ref.namespace == "a"
    ensures var s' := Run(cfg, fates, [Definition(def)], s);
            var key, home := Key(Some(CLUSTER), ref), Location(HomeRef(def, Some(CLUSTER)), ref);
            && (key in seen ==> Knows(cfg, s', objects, onCluster, seen, managed, tracked, reported + {key}))
            && (key !in seen ==>
                  Knows(cfg, s', objects + {home}, onCluster || home.cluster == CLUSTER.ref, seen + {key}, managed + {home}, tracked + {home}, reported + {key}))
  {
    hide Run, Knows, Render, Resolved, TargetDone, Opened, QuietOracle, HomeRef;
    var s' := Run(cfg, fates, [Definition(def)], s);
    var key, home := Key(Some(CLUSTER), ref), Location(HomeRef(def, Some(CLUSTER)), ref);
    KnowsParts(cfg, s, objects, onCluster, seen, managed, tracked, reported);
    MatchedHere(cfg, def);
    var a, b := RunOneTarget(cfg, fates, def, Some(CLUSTER), n, s);
    KnowsOpened(cfg, s, a, objects, onCluster, seen, managed, tracked, reported);
    if key in seen {
      KnowsRepeated(cfg, def, n, raw, ref, a, b, objects, onCluster, seen, managed, tracked, reported);
      KnowsOpened(cfg, b, s', objects, onCluster, seen, managed, tracked, reported + {key});
    } else {
      KnowsNew(cfg, def, n, raw, ref, a, b, objects, onCluster, seen, managed, tracked, reported);
      KnowsOpened(cfg, b, s', objects + {home}, onCluster || home.cluster == CLUSTER.ref, seen + {key}, managed + {home}, tracked + {home}, reported + {key});
    }
  }

  lemma FirstDefinition(cfg: Config, fates: Oracle, s: State)
    requires ListsAll(cfg) && QuietOracle(fates) && Knows(cfg, s, {}, false, {}, {}, {}, {})
    ensures Knows(cfg, Run(cfg, fates, [Definition(ON_ALL)], s), {}, false, {}, {}, {}, {})
  {
    KnowsParts(cfg, s, {}, false, {}, {}, {}, {});
    ResolvedHere(cfg, s.world, {}, false);
    MatchedHere(cfg, ON_ALL);
    hide Run, Knows, Resolved, QuietOracle, WorldIs, InStore, MatchedClusters;
    RunDefinition(cfg, fates, ON_ALL, Some(CLUSTER), s);
    KnowsOpened(cfg, s, Run(cfg, fates, [Definition(ON_ALL)], s), {}, false, {}, {}, {}, {});
  }

  lemma FirstLoops(cfg: Config, fates: Oracle, s: State)
    requires Example(cfg) && QuietOracle(fates) && s.pass.defs == DEFS && Knows(cfg, s, {}, false, {}, {}, {}, {})
    ensures Knows(cfg, AfterLoops(cfg, fates, s), {BESIDE_X, ON_Y}, true, {ON_X, ON_Y}, {BESIDE_X, ON_Y}, {BESIDE_X, ON_Y}, {ON_X, ON_Y})
  {
    var a, b, c := ThreeRuns(cfg, fates, s);
    RenderedHere(cfg);
    assert ListsAll(cfg) && ON_Y.cluster == CLUSTER.ref && BESIDE_X.cluster != CLUSTER.ref && ON_X != ON_Y;
    assert {} + {BESIDE_X} == {BESIDE_X} && {} + {ON_X} == {ON_X};
    assert {BESIDE_X} + {ON_Y} == {BESIDE_X, ON_Y} && {ON_X} + {ON_Y} == {ON_X, ON_Y};
    hide Run, AfterLoops, Resolved, Render, HomeRef, QuietOracle, Knows, WorldIs, Example;
    FirstDefinition(cfg, fates, s);
    KnowsParts(cfg, a, {}, false, {}, {}, {}, {});
    ResolvedHere(cfg, a.world, {}, false);
    KnowsNewRun(cfg, fates, NEXT_TO, "a", "x", X, a, {}, false, {}, {}, {}, {});
    KnowsParts(cfg, b, {BESIDE_X}, false, {ON_X}, {BESIDE_X}, {BESIDE_X}, {ON_X});
    ResolvedHere(cfg, b.world, {BESIDE_X}, false);
    KnowsNewRun(cfg, fates, ON_NAMED, "", "y", Y, b, {BESIDE_X}, false, {ON_X}, {BESIDE_X}, {BESIDE_X}, {ON_X});
  }

  lemma LaterLoops(cfg: Config, fates: Oracle, s: State, objects: set<Location>, tracked: set<Location>)
    requires Example(cfg) && QuietOracle(fates) && s.pass.defs == DEFS && Knows(cfg, s, objects, true, {}, {}, tracked, {})
    ensures Knows(cfg, AfterLoops(cfg, fates, s), objects + {ON_X, ON_Y}, true, {ON_X, ON_Y}, {ON_X, ON_Y}, tracked + {ON_X, ON_Y}, {ON_X, ON_Y})
  {
    var a, b, c := ThreeRuns(cfg, fates, s);
    RenderedHere(cfg);
    assert ON_X != ON_Y;
    assert {} + {ON_X} == {ON_X} && {ON_X} + {ON_X} == {ON_X} && {ON_X} + {ON_Y} == {ON_X, ON_Y};
    assert objects + {ON_X} + {ON_Y} == objects + {ON_X, ON_Y} && tracked + {ON_X} + {ON_Y} == tracked + {ON_X, ON_Y};
    hide Run, AfterLoops, Resolved, Render, HomeRef, QuietOracle, WorldIs;
    ResolvedHere(cfg, s.world, objects, true);
    KnowsNewRun(cfg, fates, ON_ALL, "a", "x", X, s, objects, true, {}, {}, tracked, {});
    ResolvedHere(cfg, a.world, objects + {ON_X}, true);
    KnowsNewRun(cfg, fates, NEXT_TO, "a", "x", X, a, objects + {ON_X}, true, {ON_X}, {ON_X}, tracked + {ON_X}, {ON_X});
    ResolvedHere(cfg, b.world, objects + {ON_X}, true);
    KnowsNewRun(cfg, fates, ON_NAMED, "", "y", Y, b, objects + {ON_X}, true, {ON_X}, {ON_X}, tracked + {ON_X}, {ON_X});
  }

  // ---- The ends of the passes ----

  /** What a pass of the example deletes: tracked entries on the hosting cluster that it did not sync. */
  lemma ObsoleteHere(cfg: Config, s: State, objects: set<Location>, managed: set<Location>, tracked: set<Location>, l: Location)
    requires Example(cfg) && Knows(cfg, s, objects, true, {ON_X, ON_Y}, managed, tracked, {ON_X, ON_Y})
    requires tracked <= {BESIDE_X, ON_X, ON_Y} && ON_Y in managed && (ON_X in tracked ==> ON_X in managed)
    ensures !Vanished(s.pass, HOSTING) && !Vanished(s.pass, CLUSTER.ref)
    ensures IsObsolete(cfg, s.pass, l) <==> l in tracked && l !in managed
  {
    WalkMembers(s.pass.status);
    FineNeverUnhealthy(s.pass.conditions, cfg.clusterCondition(l.cluster));
    assert CLUSTER in s.pass.clusters;
    assert !Reported(cfg, s.pass, BESIDE_X);
    hide Tracked, WellFormed, Mine, WorldIs, LastClusterCondition, Reported;
  }

  lemma MineWaits(cfg: Config, w: World, objects: set<Location>, l: Location)
    requires WorldIs(cfg, w, objects, true)
    ensures l in objects <==> l in w.objects
    ensures l in objects ==>
              && Waits(cfg, ID, Lookup(w.objects, l)) && Effect(cfg, ID, ALL_OK, Lookup(w.objects, l)) == Some(Marked(w.objects[l]))
              && !w.objects[l].inDeletion && Mine(cfg, w.objects[l])
  {
    hide IsManaged, OwnedByThis;
    if l in objects {
      assert Mine(cfg, w.objects[l]);
    }
  }

  ghost predicate EndFits(managed: set<Location>, tracked: set<Location>, objects: set<Location>) {
    tracked <= {BESIDE_X, ON_X, ON_Y} && ON_Y in managed && (ON_X in tracked ==> ON_X in managed) && managed <= objects
  }

  /** What is tracked after a pass: what it synced, and what it waits for. */
  lemma TrackedAfter(cfg: Config, s: State, s': State, objects: set<Location>, managed: set<Location>, tracked: set<Location>, l: Location)
    requires Example(cfg) && Knows(cfg, s, objects, true, {ON_X, ON_Y}, managed, tracked, {ON_X, ON_Y}) && Closed(cfg, s, s')
    requires EndFits(managed, tracked, objects)
    ensures s'.persisted == s'.pass.status && WellFormed(s'.persisted)
    ensures l in Tracked(s'.persisted) <==> l in managed + (tracked * objects)
  {
    ObsoleteHere(cfg, s, objects, managed, tracked, l);
    MineWaits(cfg, s.world, objects, l);
    assert l in tracked ==> !Vanished(s.pass, l.cluster);
    assert l !in objects ==> !Waits(cfg, ID, Lookup(s.world.objects, l));
    hide Tracked, WellFormed, IsObsolete, Vanished, Waits, Effect, Mine, WorldIs, ClustersFine, NamesIn;
  }

  lemma ObjectAfter(cfg: Config, s: State, s': State, objects: set<Location>, managed: set<Location>, tracked: set<Location>, l: Location)
    requires Example(cfg) && Knows(cfg, s, objects, true, {ON_X, ON_Y}, managed, tracked, {ON_X, ON_Y}) && Closed(cfg, s, s')
    requires EndFits(managed, tracked, objects)
    ensures Lookup(Vanish(s'.world).objects, l) == if l in objects - (tracked - managed) then Lookup(s.world.objects, l) else None
    ensures l in objects ==> l in s.world.objects && Mine(cfg, s.world.objects[l])
  {
    ObsoleteHere(cfg, s, objects, managed, tracked, l);
    MineWaits(cfg, s.world, objects, l);
    VanishLookup(s'.world, l);
    hide Tracked, WellFormed, IsObsolete, Vanished, Waits, Effect, Mine, WorldIs, ClustersFine, NamesIn, Vanish;
  }

  lemma NextWorld(cfg: Config, s: State, s': State, objects: set<Location>, managed: set<Location>, tracked: set<Location>)
    requires Example(cfg) && Knows(cfg, s, objects, true, {ON_X, ON_Y}, managed, tracked, {ON_X, ON_Y}) && Closed(cfg, s, s')
    requires EndFits(managed, tracked, objects)
    ensures WorldIs(cfg, Vanish(s'.world), objects - (tracked - managed), true)
  {
    var w := Vanish(s'.world);
    assert w.namespaces == s.world.namespaces && WorldIs(cfg, s.world, objects, true);
    forall l
      ensures Lookup(w.objects, l) == if l in objects - (tracked - managed) then Lookup(s.world.objects, l) else None
      ensures l in objects ==> l in s.world.objects && Mine(cfg, s.world.objects[l])
    {
      ObjectAfter(cfg, s, s', objects, managed, tracked, l);
    }
    hide Knows, Closed, Mine, Vanish, Example;
    forall l
      ensures l in w.objects <==> l in objects - (tracked - managed)
      ensures l in w.objects ==> Mine(cfg, w.objects[l])
    {
      assert Lookup(w.objects, l) == if l in objects - (tracked - managed) then Lookup(s.world.objects, l) else None;
    }
  }

  /** The next pass starts where this one ended. */
  lemma NextStart(cfg: Config, s: State, s': State, t0: State, objects: set<Location>, managed: set<Location>, tracked: set<Location>)
    requires Example(cfg) && Knows(cfg, s, objects, true, {ON_X, ON_Y}, managed, tracked, {ON_X, ON_Y}) && Closed(cfg, s, s')
    requires EndFits(managed, tracked, objects)
    requires IsRequest(t0.pass, ID, DEFS, [CLUSTER]) && AtStart(t0.pass) && t0.pass.status == t0.persisted && t0.pass.oldStatus == t0.persisted
    requires t0.world == Vanish(s'.world) && t0.persisted == s'.persisted
    ensures Knows(cfg, t0, objects - (tracked - managed), true, {}, {}, managed + (tracked * objects), {})
  {
    hide Tracked, WellFormed, Closed, WorldIs, Vanish, Example;
    NextWorld(cfg, s, s', objects, managed, tracked);
    NextTracked(cfg, s, s', objects, managed, tracked);
    assert InStore(t0);
  }

  lemma NextTracked(cfg: Config, s: State, s': State, objects: set<Location>, managed: set<Location>, tracked: set<Location>)
    requires Example(cfg) && Knows(cfg, s, objects, true, {ON_X, ON_Y}, managed, tracked, {ON_X, ON_Y}) && Closed(cfg, s, s')
    requires EndFits(managed, tracked, objects)
    ensures WellFormed(s'.persisted) && Tracked(s'.persisted) == managed + (tracked * objects)
  {
    hide Tracked, WellFormed, Closed, Example, Knows, EndFits;
    TrackedAfter(cfg, s, s', objects, managed, tracked, BESIDE_X);
    forall l ensures (l in Tracked(s'.persisted) <==> l in managed + (tracked * objects)) {
      TrackedAfter(cfg, s, s', objects, managed, tracked, l);
    }
  }

  /** A later pass over the example: what is known at its start and at the start of the next one. */
  lemma LaterPass(cfg: Config, start: Fate, fates: Oracle, w: World, r: Stored, objects: set<Location>, tracked: set<Location>)
    requires Example(cfg) && Succeeds(start) && QuietOracle(fates) && r == REPLICA.(persisted := r.persisted)
    requires Knows(cfg, LoopStartOf(ID, r, w, [CLUSTER]), objects, true, {}, {}, tracked, {})
    requires tracked <= {BESIDE_X, ON_X, ON_Y}
    ensures var (w', r') := WholePass(cfg, start, fates, ID, w, [CLUSTER], r);
            && r' == REPLICA.(persisted := r'.persisted)
            && Knows(cfg, LoopStartOf(ID, r', Vanish(w'), [CLUSTER]), objects + {ON_X, ON_Y} - (tracked - {ON_X, ON_Y}), true, {}, {},
                     {ON_X, ON_Y} + (tracked * (objects + {ON_X, ON_Y})), {})
  {
    var s0 := LoopStartOf(ID, r, w, [CLUSTER]);
    hide Run, Knows, AfterLoops, AfterPass, WholePass, Example;
    LivePass(cfg, start, fates, ID, w, [CLUSTER], r);
    LaterLoops(cfg, fates, s0, objects, tracked);
    var (w', r') := WholePass(cfg, start, fates, ID, w, [CLUSTER], r);
    var t0 := LoopStartOf(ID, r', Vanish(w'), [CLUSTER]);
    var more := tracked + {ON_X, ON_Y};
    assert more - {ON_X, ON_Y} == tracked - {ON_X, ON_Y};
    assert {ON_X, ON_Y} + (more * (objects + {ON_X, ON_Y})) == {ON_X, ON_Y} + (tracked * (objects + {ON_X, ON_Y}));
    hide Run, WholePass, QuietOracle, Example, Vanish, AfterLoops, AfterPass, Knows;
    PassEnds(cfg, fates, s0, objects + {ON_X, ON_Y}, {ON_X, ON_Y}, more, t0);
  }

  lemma StartKnows(cfg: Config)
    ensures Knows(cfg, LoopStartOf(ID, REPLICA, BEFORE, [CLUSTER]), {}, false, {}, {}, {}, {})
  {}

  lemma FirstPass(cfg: Config, start: Fate, fates: Oracle)
    requires Example(cfg) && Succeeds(start) && QuietOracle(fates)
    ensures var (w', r') := WholePass(cfg, start, fates, ID, BEFORE, [CLUSTER], REPLICA);
            && r' == REPLICA.(persisted := r'.persisted)
            && Knows(cfg, LoopStartOf(ID, r', Vanish(w'), [CLUSTER]), {BESIDE_X, ON_Y}, true, {}, {}, {BESIDE_X, ON_Y}, {})
  {
    var s0 := LoopStartOf(ID, REPLICA, BEFORE, [CLUSTER]);
    StartKnows(cfg);
    hide Run, Knows, AfterLoops, AfterPass, WholePass, Example;
    LivePass(cfg, start, fates, ID, BEFORE, [CLUSTER], REPLICA);
    FirstLoops(cfg, fates, s0);
    var (w', r') := WholePass(cfg, start, fates, ID, BEFORE, [CLUSTER], REPLICA);
    var both := {BESIDE_X, ON_Y};
    assert both - (both - both) == both && both + (both * both) == both && ON_X !in both;
    hide Run, WholePass, QuietOracle, Example, Vanish, AfterLoops, AfterPass, Knows;
    PassEnds(cfg, fates, s0, both, both, both, LoopStartOf(ID, r', Vanish(w'), [CLUSTER]));
  }

  lemma PassEnds(cfg: Config, fates: Oracle, s0: State, objects: set<Location>, managed: set<Location>, tracked: set<Location>, t0: State)
    requires Example(cfg) && QuietOracle(fates)
    requires Knows(cfg, AfterLoops(cfg, fates, s0), objects, true, {ON_X, ON_Y}, managed, tracked, {ON_X, ON_Y})
    requires EndFits(managed, tracked, objects) && IsRequest(t0.pass, ID, DEFS, [CLUSTER])
    requires var s' := AfterPass(cfg, fates, s0); t0.world == Vanish(s'.world) && t0.persisted == s'.persisted
    requires AtStart(t0.pass) && t0.pass.status == t0.persisted && t0.pass.oldStatus == t0.persisted
    ensures Knows(cfg, t0, objects - (tracked - managed), true, {}, {}, managed + (tracked * objects), {})
  {
    var s, s' := AfterLoops(cfg, fates, s0), AfterPass(cfg, fates, s0);
    QuietClose(cfg, fates, s);
    hide Run, QuietOracle, Knows, Closed;
    NextStart(cfg, s, s', t0, objects, managed, tracked);
  }

  /** Apart from the copy that is overtaken the example is one in which two passes converge. */
  lemma OnlyMixed(cfg: Config)
    requires Example(cfg)
    ensures Convergent(cfg, ID, BEFORE, [CLUSTER], REPLICA) && NoKeptNamesake(cfg, LoopStartOf(ID, REPLICA, BEFORE, [CLUSTER]))
  {
    assert forall l :: l !in BEFORE.objects;
  }

  /** With one key rendered both onto a Cluster and next to it, two quiet passes are not enough: the third one still changes the status. */
  lemma MixedNeedsThirdPass(cfg: Config, start1: Fate, f1: Oracle, start2: Fate, f2: Oracle, start3: Fate, f3: Oracle)
    requires Example(cfg)
    requires Succeeds(start1) && Succeeds(start2) && Succeeds(start3) && QuietOracle(f1) && QuietOracle(f2) && QuietOracle(f3)
    ensures var (w1, r1) := WholePass(cfg, start1, f1, ID, BEFORE, [CLUSTER], REPLICA);
            var (w2, r2) := WholePass(cfg, start2, f2, ID, Vanish(w1), [CLUSTER], r1);
            var (w3, r3) := WholePass(cfg, start3, f3, ID, Vanish(w2), [CLUSTER], r2);
            BESIDE_X in Tracked(r2.persisted) && BESIDE_X !in Tracked(r3.persisted)
  {
    hide WholePass, QuietOracle, Example, Succeeds, Vanish, Knows;
    var both, all := {BESIDE_X, ON_Y}, {BESIDE_X, ON_X, ON_Y};
    FirstPass(cfg, start1, f1);
    var (w1, r1) := WholePass(cfg, start1, f1, ID, BEFORE, [CLUSTER], REPLICA);
    LaterPass(cfg, start2, f2, Vanish(w1), r1, both, both);
    var (w2, r2) := WholePass(cfg, start2, f2, ID, Vanish(w1), [CLUSTER], r1);
    assert both + {ON_X, ON_Y} - (both - {ON_X, ON_Y}) == {ON_X, ON_Y};
    assert {ON_X, ON_Y} + (both * (both + {ON_X, ON_Y})) == all;
    LaterPass(cfg, start3, f3, Vanish(w2), r2, {ON_X, ON_Y}, all);
    var (w3, r3) := WholePass(cfg, start3, f3, ID, Vanish(w2), [CLUSTER], r2);
    assert {ON_X, ON_Y} + (all * ({ON_X, ON_Y} + {ON_X, ON_Y})) == {ON_X, ON_Y};
    KnowsTracked(cfg, LoopStartOf(ID, r2, Vanish(w2), [CLUSTER]), {ON_X, ON_Y}, all);
    KnowsTracked(cfg, LoopStartOf(ID, r3, Vanish(w3), [CLUSTER]), {ON_X, ON_Y} + {ON_X, ON_Y} - (all - {ON_X, ON_Y}), {ON_X, ON_Y});
    assert BESIDE_X in all && BESIDE_X !in {ON_X, ON_Y};
  }

  lemma KnowsTracked(cfg: Config, s: State, objects: set<Location>, tracked: set<Location>)
    requires Knows(cfg, s, objects, true, {}, {}, tracked, {})
    ensures Tracked(s.pass.status) == tracked
  {}
}
