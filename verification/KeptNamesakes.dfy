/** A kept object of a namesake can make a third pass necessary: the first pass takes it for its own and releases it, in the second one
    a definition that may take it over writes it, and only in the third another one writes it too. */
module KeptNamesakes {
  import opened Refs
  import opened StatusList
  import opened Objects
  import opened Targets
  import opened Steps
  import opened System
  import opened Obsolete
  import opened DeletionPhase
  import opened Quiet
  import opened Resolution
  import opened QuietLoop
  import opened LoopKeys
  import opened Settling
  import opened Convergence
  import opened SmallRuns

  const FIRST := Cluster(ObjectReference("a", "first"), false, "")
  const SECOND := Cluster(ObjectReference("a", "second"), false, "")
  const CLUSTERS := [FIRST, SECOND]

  const ID := ReplicaId(Replica, "home", "r")
  const NAMESAKE := ReplicaId(Replica, "other", "r")

  /** Next to the first Cluster, taking over nothing; next to the second one, taking over what nobody owns. */
  const CAREFUL := TargetDefinition(Some(ClusterTarget(Some("first"), true)), None, Fail, Create)
  const TAKING := TargetDefinition(Some(ClusterTarget(Some("second"), true)), None, Overwrite, Create)

  const DEFS := [CAREFUL, TAKING]

  const X := TypedRef(CONFIG_MAP, "a", "x")
  const BESIDE := Location(HOSTING, X)
  const KEY1 := Location(FIRST.ref, X)
  const KEY2 := Location(SECOND.ref, X)

  const LABELLED := BLANK.(labels := map[DeletionPolicy := "Delete"])

  /** Each definition selects its Cluster, only the first rendering carries a deletion policy, and condition names tell the targets apart. */
  ghost predicate Example(cfg: Config) {
    && ListsAll(cfg)
    && cfg.clusterSelected("first", FIRST) && !cfg.clusterSelected("first", SECOND)
    && cfg.clusterSelected("second", SECOND) && !cfg.clusterSelected("second", FIRST)
    && cfg.render("", Some(FIRST), "a") == Rendered("one", X, LABELLED)
    && cfg.render("", Some(SECOND), "a") == Rendered("two", X, BLANK)
    && cfg.targetCondition(BESIDE) != cfg.targetCondition(KEY1)
    && cfg.targetCondition(BESIDE) != cfg.targetCondition(KEY2)
  }

  lemma ExampleExists() returns (cfg: Config)
    ensures Example(cfg)
  {
    cfg := Config(
      "provider",
      (s: string, c: Cluster) => s == c.ref.name,
      (s: LabelSelector, l: map<string, string>) => None,
      (i: string, c: Option<Cluster>, n: string) => if c == Some(FIRST) then Rendered("one", X, LABELLED) else Rendered("two", X, BLANK),
      (names: set<string>) => Listing(names),
      (n: string) => map[],
      (l: Location) => l.cluster.name,
      (c: ObjectReference) => c.name);
    forall names ensures NoDuplicates(cfg.listOrder(names)) && forall n :: n in cfg.listOrder(names) <==> n in names {
      ListingIsComplete(names);
    }
    assert "first"[0] != "second"[0];
  }

  /** The namesake's object, labelled Keep. */
  function Theirs(cfg: Config): Object {
    BLANK.(labels := WithManagementLabels(cfg.provider, NAMESAKE, "1", map[DeletionPolicy := KEEP]))
  }

  function Ours(cfg: Config, rendered: Object): Object {
    rendered.(labels := WithManagementLabels(cfg.provider, ID, "1", rendered.labels))
  }

  function Before(cfg: Config): World {
    World(map[BESIDE := Theirs(cfg)], map[(HOSTING, "a") := Namespace(map[], false)])
  }

  /** The replica tracks the place from earlier times. */
  const ENTRY := [Group(CONFIG_MAP, [CreatedResource(None, "a", "x")])]
  const REPLICA := Stored("1", "", [CAREFUL, TAKING], false, ENTRY, true, false, None)

  // ---- What is known about a state of the example ----

  /** The one object there is, and the targets seen, synced, tracked and reported on. */
  ghost predicate Knows(cfg: Config, s: State, o: Object, seen: set<Location>, managed: set<Location>, tracked: set<Location>, reported: set<Location>) {
    && IsRequest(s.pass, ID, DEFS, CLUSTERS) && s.world.objects == map[BESIDE := o]
    && Progress(cfg, s, seen, managed, tracked, reported)
  }

  lemma KnowsOpened(cfg: Config, s: State, s': State, o: Object, seen: set<Location>, managed: set<Location>, tracked: set<Location>, reported: set<Location>)
    requires Knows(cfg, s, o, seen, managed, tracked, reported) && Opened(s, s')
    ensures Knows(cfg, s', o, seen, managed, tracked, reported)
  {
    ProgressOpened(cfg, s, s', seen, managed, tracked, reported, ID, DEFS, CLUSTERS);
    hide Progress, IsRequest;
  }

  /** The definition, its Cluster and what it renders there. */
  ghost predicate RendersOn(cfg: Config, def: TargetDefinition, cluster: Cluster, raw: string, rendered: Object) {
    && def in [CAREFUL, TAKING] && cluster in CLUSTERS && MatchedClusters(cfg, def, CLUSTERS) == [Some(cluster)]
    && Render(cfg, "", Some(cluster), "a") == Rendered(raw, X, rendered)
  }

  lemma TargetsHere(cfg: Config)
    requires Example(cfg)
    ensures RendersOn(cfg, CAREFUL, FIRST, "one", LABELLED) && RendersOn(cfg, TAKING, SECOND, "two", BLANK)
  {
    assert CLUSTERS[1..] == [SECOND] && [SECOND][1..] == [];
    assert MatchedClusters(cfg, CAREFUL, [SECOND]) == [] && MatchedClusters(cfg, TAKING, [SECOND]) == [Some(SECOND)];
  }

  /** What a refused target leaves. */
  lemma KnowsRefused(cfg: Config, def: TargetDefinition, cluster: Cluster, raw: string, rendered: Object, s: State, s': State,
                     o: Object, seen: set<Location>, managed: set<Location>, tracked: set<Location>, reported: set<Location>)
    requires RendersOn(cfg, def, cluster, raw, rendered) && Knows(cfg, s, o, seen, managed, tracked, reported)
    requires TargetDone(cfg, def, Some(cluster), "a", s, s') && Location(cluster.ref, X) !in seen && JudgeExisting(def, ID, o).Refuse?
    ensures Knows(cfg, s', o, seen + {Location(cluster.ref, X)}, managed, tracked, reported + {Location(cluster.ref, X)})
  {
    var key := Location(cluster.ref, X);
    TargetWrites(cfg, def, Some(cluster), "a", raw, X, rendered, s, s');
    FineStays(cfg, key, s, s');
    NamesMore(cfg, key, s, s', reported);
    assert Judged(def, ID, s.world, BESIDE).Refuse?;
    assert Location(HomeRef(def, Some(cluster)), X) == BESIDE;
    hide Tracked, WellFormed, Render, ClustersFine, NamesIn, TargetDone, Judged, JudgeExisting, Written, AddedAt, Copy, Reports, MatchedClusters, HomeRef;
  }

  /** A target that may be written is. */
  lemma WritesHere(cfg: Config, def: TargetDefinition, cluster: Cluster, raw: string, rendered: Object, s: State, s': State, o: Object)
    requires RendersOn(cfg, def, cluster, raw, rendered) && IsRequest(s.pass, ID, DEFS, CLUSTERS) && s.world.objects == map[BESIDE := o]
    requires TargetDone(cfg, def, Some(cluster), "a", s, s') && Location(cluster.ref, X) !in s.pass.seen && JudgeExisting(def, ID, o).Proceed?
    ensures InStore(s') && SameRequest(s.pass, s'.pass) && Reports(cfg, Location(cluster.ref, X), s, s') && Reaches(Location(cluster.ref, X), raw, s, s')
    ensures s'.world.objects == map[BESIDE := Updated(o, Ours(cfg, rendered))]
    ensures s'.pass.status == AddedAt(s.pass.status, BESIDE) && s'.pass.managed == s.pass.managed + [BESIDE]
  {
    TargetWrites(cfg, def, Some(cluster), "a", raw, X, rendered, s, s');
    assert Judged(def, ID, s.world, BESIDE).Proceed?;
    assert Location(HomeRef(def, Some(cluster)), X) == BESIDE;
    WrittenOver(cfg, Copy(cfg, s.pass, rendered), s.world, o);
    assert Copy(cfg, s.pass, rendered) == Ours(cfg, rendered);
    hide TargetDone, Judged, JudgeExisting, Written, AddedAt, Copy, Reports, Reaches, MatchedClusters, HomeRef, Updated, Ours, Render, InStore;
  }

  /** What a written target leaves. */
  lemma KnowsWritten(cfg: Config, def: TargetDefinition, cluster: Cluster, raw: string, rendered: Object, s: State, s': State,
                     o: Object, seen: set<Location>, managed: set<Location>, tracked: set<Location>, reported: set<Location>)
    requires RendersOn(cfg, def, cluster, raw, rendered) && Knows(cfg, s, o, seen, managed, tracked, reported)
    requires TargetDone(cfg, def, Some(cluster), "a", s, s') && Location(cluster.ref, X) !in seen && JudgeExisting(def, ID, o).Proceed?
    ensures Knows(cfg, s', Updated(o, Ours(cfg, rendered)), seen + {Location(cluster.ref, X)}, managed + {BESIDE}, tracked + {BESIDE},
                  reported + {Location(cluster.ref, X)})
  {
    var key := Location(cluster.ref, X);
    WritesHere(cfg, def, cluster, raw, rendered, s, s', o);
    StillRequest(s.pass, s'.pass);
    hide RendersOn, TargetDone, JudgeExisting, Updated, Ours, Tracked, WellFormed, ClustersFine, NamesIn, AddedAt, Reports, HasAt, IsRequest, SameRequest;
    FineStays(cfg, key, s, s');
    NamesMore(cfg, key, s, s', reported);
    RawRefinesSet(s.pass.status, BESIDE);
    MoreManaged(s.pass.managed, managed);
  }

  lemma StillRequest(p: Pass, p': Pass)
    requires IsRequest(p, ID, DEFS, CLUSTERS) && SameRequest(p, p')
    ensures IsRequest(p', ID, DEFS, CLUSTERS)
  {}

  lemma MoreManaged(ls: seq<Location>, managed: set<Location>)
    requires forall l :: l in ls <==> l in managed
    ensures forall l :: l in ls + [BESIDE] <==> l in managed + {BESIDE}
  {}

  lemma WrittenOver(cfg: Config, copy: Object, w: World, o: Object)
    requires w.objects == map[BESIDE := o]
    ensures Written(cfg, BESIDE, copy, w).objects == map[BESIDE := Updated(o, copy)]
  {
    hide Updated;
  }

  lemma KnowsParts(cfg: Config, s: State, o: Object, seen: set<Location>, managed: set<Location>, tracked: set<Location>, reported: set<Location>)
    requires Knows(cfg, s, o, seen, managed, tracked, reported)
    ensures InStore(s) && s.pass.clusters == CLUSTERS && s.pass.defs == [CAREFUL, TAKING]
  {}

  /** One definition: its target is refused or written. */
  lemma RunHere(cfg: Config, fates: Oracle, def: TargetDefinition, cluster: Cluster, raw: string, rendered: Object, s: State,
                o: Object, seen: set<Location>, managed: set<Location>, tracked: set<Location>, reported: set<Location>)
    requires QuietOracle(fates) && RendersOn(cfg, def, cluster, raw, rendered) && Knows(cfg, s, o, seen, managed, tracked, reported)
    requires Location(cluster.ref, X) !in seen
    ensures var s', key := Run(cfg, fates, [Definition(def)], s), Location(cluster.ref, X);
            if JudgeExisting(def, ID, o).Refuse? then Knows(cfg, s', o, seen + {key}, managed, tracked, reported + {key})
            else Knows(cfg, s', Updated(o, Ours(cfg, rendered)), seen + {key}, managed + {BESIDE}, tracked + {BESIDE}, reported + {key})
  {
    var s', key := Run(cfg, fates, [Definition(def)], s), Location(cluster.ref, X);
    KnowsParts(cfg, s, o, seen, managed, tracked, reported);
    assert Live(Some(cluster)) && Resolved(cfg, def, Some(cluster), s.world) == ["a"];
    hide Run, Knows, Resolved, TargetDone, Opened, QuietOracle, JudgeExisting, MatchedClusters, Render, InStore, Updated, Ours;
    var a, b := RunOneTarget(cfg, fates, def, Some(cluster), "a", s);
    KnowsOpened(cfg, s, a, o, seen, managed, tracked, reported);
    if JudgeExisting(def, ID, o).Refuse? {
      KnowsRefused(cfg, def, cluster, raw, rendered, a, b, o, seen, managed, tracked, reported);
      KnowsOpened(cfg, b, s', o, seen + {key}, managed, tracked, reported + {key});
    } else {
      KnowsWritten(cfg, def, cluster, raw, rendered, a, b, o, seen, managed, tracked, reported);
      KnowsOpened(cfg, b, s', Updated(o, Ours(cfg, rendered)), seen + {key}, managed + {BESIDE}, tracked + {BESIDE}, reported + {key});
    }
  }

  // ---- The loops of a pass ----

  lemma TwoRuns(cfg: Config, fates: Oracle, s: State)
    requires s.pass.defs == [CAREFUL, TAKING]
    ensures AfterLoops(cfg, fates, s) == Run(cfg, fates, [Definition(TAKING)], Run(cfg, fates, [Definition(CAREFUL)], s))
  {
    assert [CAREFUL, TAKING][1..] == [TAKING] && [TAKING][1..] == [];
    assert DefinitionTasks([TAKING]) == [Definition(TAKING)];
    assert DefinitionTasks([CAREFUL, TAKING]) == [Definition(CAREFUL)] + [Definition(TAKING)];
    hide Run;
    RunHead(cfg, fates, Definition(CAREFUL), [Definition(TAKING)], s);
  }

  /** What one definition makes of the object. */
  function AfterDefinition(cfg: Config, def: TargetDefinition, rendered: Object, o: Object): Object {
    if JudgeExisting(def, ID, o).Refuse? then o else Updated(o, Ours(cfg, rendered))
  }

  function SyncedThere(def: TargetDefinition, o: Object): set<Location> {
    if JudgeExisting(def, ID, o).Refuse? then {} else {BESIDE}
  }

  lemma DefinitionHere(cfg: Config, fates: Oracle, def: TargetDefinition, cluster: Cluster, raw: string, rendered: Object, s: State,
                       o: Object, seen: set<Location>, managed: set<Location>, tracked: set<Location>, reported: set<Location>)
    requires QuietOracle(fates) && RendersOn(cfg, def, cluster, raw, rendered) && Knows(cfg, s, o, seen, managed, tracked, reported)
    requires Location(cluster.ref, X) !in seen
    ensures var s', key, more := Run(cfg, fates, [Definition(def)], s), Location(cluster.ref, X), SyncedThere(def, o);
            Knows(cfg, s', AfterDefinition(cfg, def, rendered, o), seen + {key}, managed + more, tracked + more, reported + {key})
  {
    hide Run, Knows, JudgeExisting, QuietOracle, Updated, Ours, RendersOn;
    assert managed + {} == managed && tracked + {} == tracked;
    RunHere(cfg, fates, def, cluster, raw, rendered, s, o, seen, managed, tracked, reported);
  }

  /** The loops of a pass that finds o. */
  lemma LoopsHere(cfg: Config, fates: Oracle, s: State, o: Object, tracked: set<Location>)
    requires Example(cfg) && QuietOracle(fates) && Knows(cfg, s, o, {}, {}, tracked, {})
    ensures var m := AfterDefinition(cfg, CAREFUL, LABELLED, o);
            var managed := SyncedThere(CAREFUL, o) + SyncedThere(TAKING, m);
            Knows(cfg, AfterLoops(cfg, fates, s), AfterDefinition(cfg, TAKING, BLANK, m), {KEY1, KEY2}, managed, tracked + managed, {KEY1, KEY2})
  {
    var m := AfterDefinition(cfg, CAREFUL, LABELLED, o);
    var one, two := SyncedThere(CAREFUL, o), SyncedThere(TAKING, m);
    var s1 := Run(cfg, fates, [Definition(CAREFUL)], s);
    KnowsParts(cfg, s, o, {}, {}, tracked, {});
    TwoRuns(cfg, fates, s);
    TargetsHere(cfg);
    assert KEY1 != KEY2 && {} + {KEY1} == {KEY1} && {KEY1} + {KEY2} == {KEY1, KEY2};
    hide Run, Knows, QuietOracle, AfterLoops, RendersOn, Example, AfterDefinition, SyncedThere;
    NoneAndTwo(tracked, one, two);
    DefinitionHere(cfg, fates, CAREFUL, FIRST, "one", LABELLED, s, o, {}, {}, tracked, {});
    DefinitionHere(cfg, fates, TAKING, SECOND, "two", BLANK, s1, m, {KEY1}, one, tracked + one, {KEY1});
  }

  lemma NoneAndTwo<T>(tracked: set<T>, one: set<T>, two: set<T>)
    ensures {} + one == one && tracked + one + two == tracked + (one + two)
  {}

  // ---- The ends of the passes ----

  lemma ObsoleteHere(cfg: Config, s: State, o: Object, managed: set<Location>, tracked: set<Location>, l: Location)
    requires Example(cfg) && Knows(cfg, s, o, {KEY1, KEY2}, managed, tracked, {KEY1, KEY2}) && tracked <= {BESIDE}
    ensures IsObsolete(cfg, s.pass, l) <==> l in tracked && l !in managed
    ensures l in tracked ==> !Vanished(s.pass, l.cluster)
  {
    WalkMembers(s.pass.status);
    FineNeverUnhealthy(s.pass.conditions, cfg.clusterCondition(l.cluster));
    assert !Reported(cfg, s.pass, BESIDE);
    hide Tracked, WellFormed, LastClusterCondition, Reported;
  }

  /** The pass ends by releasing a kept object that it did not sync, and leaves one that it did. */
  lemma EndHere(cfg: Config, fates: Oracle, s: State, t0: State, o: Object, managed: set<Location>, tracked: set<Location>)
    requires Example(cfg) && QuietOracle(fates) && Knows(cfg, s, o, {KEY1, KEY2}, managed, tracked, {KEY1, KEY2})
    requires tracked == {BESIDE} && !o.inDeletion && (managed == {BESIDE} || (managed == {} && IsManaged(cfg.provider, ID, o) && Objects.Kept(o)))
    requires var s' := Run(cfg, fates, [Plan, Cleanup, UpdateStatus], s);
             t0.world == Vanish(s'.world) && t0.persisted == s'.persisted
    requires IsRequest(t0.pass, ID, DEFS, CLUSTERS) && AtStart(t0.pass) && t0.pass.status == t0.persisted && t0.pass.oldStatus == t0.persisted
    ensures Knows(cfg, t0, if managed == {} then Released(o) else o, {}, {}, managed, {})
  {
    var s' := Run(cfg, fates, [Plan, Cleanup, UpdateStatus], s);
    var o' := if managed == {} then Released(o) else o;
    QuietClose(cfg, fates, s);
    EndObjects(cfg, s, s', o, managed, tracked);
    EndEntries(cfg, s, s', o, managed, tracked);
    hide Run, QuietOracle, Closed, Tracked, WellFormed, IsManaged, Objects.Kept, Released, NamesIn, ClustersFine;
  }

  lemma EndObjects(cfg: Config, s: State, s': State, o: Object, managed: set<Location>, tracked: set<Location>)
    requires Example(cfg) && Closed(cfg, s, s') && Knows(cfg, s, o, {KEY1, KEY2}, managed, tracked, {KEY1, KEY2})
    requires tracked == {BESIDE} && !o.inDeletion && (managed == {BESIDE} || (managed == {} && IsManaged(cfg.provider, ID, o) && Objects.Kept(o)))
    ensures Vanish(s'.world).objects == map[BESIDE := if managed == {} then Released(o) else o]
  {
    var o' := if managed == {} then Released(o) else o;
    forall l ensures Lookup(Vanish(s'.world).objects, l) == Lookup(map[BESIDE := o'], l) {
      ObsoleteHere(cfg, s, o, managed, tracked, l);
      VanishLookup(s'.world, l);
      hide Example, Tracked, WellFormed, IsObsolete, IsManaged, Objects.Kept, NamesIn, ClustersFine, Vanish, Vanished;
    }
    hide Closed, Knows, Vanish, Example, Released;
    SameLookups(Vanish(s'.world).objects, map[BESIDE := o']);
  }

  lemma EndEntries(cfg: Config, s: State, s': State, o: Object, managed: set<Location>, tracked: set<Location>)
    requires Example(cfg) && Closed(cfg, s, s') && Knows(cfg, s, o, {KEY1, KEY2}, managed, tracked, {KEY1, KEY2})
    requires tracked == {BESIDE} && !o.inDeletion && (managed == {BESIDE} || (managed == {} && IsManaged(cfg.provider, ID, o) && Objects.Kept(o)))
    ensures WellFormed(s'.persisted) && Tracked(s'.persisted) == managed
  {
    assert s'.persisted == s'.pass.status;
    forall l ensures l in Tracked(s'.persisted) <==> l in managed {
      ObsoleteHere(cfg, s, o, managed, tracked, l);
      hide Example, Tracked, WellFormed, IsObsolete, IsManaged, Objects.Kept, NamesIn, ClustersFine, Vanished;
    }
  }

  // ---- The passes ----

  /** A pass that finds o and tracks BESIDE afterwards at the latest. */
  lemma PassHere(cfg: Config, start: Fate, fates: Oracle, w: World, r: Stored, o: Object, tracked: set<Location>)
    requires Example(cfg) && Succeeds(start) && QuietOracle(fates) && r == REPLICA.(persisted := r.persisted)
    requires Knows(cfg, LoopStartOf(ID, r, w, CLUSTERS), o, {}, {}, tracked, {})
    requires var m := AfterDefinition(cfg, CAREFUL, LABELLED, o);
             var o' := AfterDefinition(cfg, TAKING, BLANK, m);
             var managed := SyncedThere(CAREFUL, o) + SyncedThere(TAKING, m);
             && tracked + managed == {BESIDE} && !o'.inDeletion
             && (managed == {BESIDE} || (managed == {} && IsManaged(cfg.provider, ID, o') && Objects.Kept(o')))
    ensures var m := AfterDefinition(cfg, CAREFUL, LABELLED, o);
            var o' := AfterDefinition(cfg, TAKING, BLANK, m);
            var managed := SyncedThere(CAREFUL, o) + SyncedThere(TAKING, m);
            var (w', r') := WholePass(cfg, start, fates, ID, w, CLUSTERS, r);
            && r' == REPLICA.(persisted := r'.persisted)
            && Knows(cfg, LoopStartOf(ID, r', Vanish(w'), CLUSTERS), if managed == {} then Released(o') else o', {}, {}, managed, {})
  {
    var s0 := LoopStartOf(ID, r, w, CLUSTERS);
    var m := AfterDefinition(cfg, CAREFUL, LABELLED, o);
    var o' := AfterDefinition(cfg, TAKING, BLANK, m);
    var managed := SyncedThere(CAREFUL, o) + SyncedThere(TAKING, m);
    LivePass(cfg, start, fates, ID, w, CLUSTERS, r);
    var (w', r') := WholePass(cfg, start, fates, ID, w, CLUSTERS, r);
    var t0 := LoopStartOf(ID, r', Vanish(w'), CLUSTERS);
    assert IsRequest(t0.pass, ID, DEFS, CLUSTERS) && AtStart(t0.pass);
    assert AfterPass(cfg, fates, s0) == Run(cfg, fates, [Plan, Cleanup, UpdateStatus], AfterLoops(cfg, fates, s0));
    hide Run, WholePass, AfterLoops, AfterPass, Knows, Example, QuietOracle, Vanish, AfterDefinition, SyncedThere, Released, IsManaged, Objects.Kept;
    LoopsHere(cfg, fates, s0, o, tracked);
    EndHere(cfg, fates, AfterLoops(cfg, fates, s0), t0, o', managed, tracked + managed);
  }

  lemma StartKnows(cfg: Config)
    ensures Knows(cfg, LoopStartOf(ID, REPLICA, Before(cfg), CLUSTERS), Theirs(cfg), {}, {}, {BESIDE}, {})
  {
    assert AddedAt([], BESIDE) == ENTRY;
    assert WellFormed([]) && Tracked([]) == {};
    RawRefinesSet([], BESIDE);
    hide Theirs, Tracked, WellFormed;
  }

  /** What the three passes make of the namesake's object. */
  lemma ObjectsHere(cfg: Config)
    ensures var theirs := Theirs(cfg);
            && JudgeExisting(CAREFUL, ID, theirs).Refuse? && JudgeExisting(TAKING, ID, theirs).Refuse?
            && IsManaged(cfg.provider, ID, theirs) && Objects.Kept(theirs) && !OwnedByThis(ID, theirs) && !theirs.inDeletion
            && var freed := Released(theirs);
            && JudgeExisting(CAREFUL, ID, freed).Refuse? && JudgeExisting(TAKING, ID, freed).Proceed? && !freed.inDeletion
            && var taken := Updated(freed, Ours(cfg, BLANK));
            && DeletionPolicy !in taken.labels && JudgeExisting(CAREFUL, ID, taken).Proceed? && !taken.inDeletion
            && var both := Updated(taken, Ours(cfg, LABELLED));
            && JudgeExisting(TAKING, ID, both).Proceed? && !both.inDeletion
            && DeletionPolicy in Updated(both, Ours(cfg, BLANK)).labels && !Updated(both, Ours(cfg, BLANK)).inDeletion
  {
    KindLabelsDiffer();
    assert NAMESAKE.namespace != ID.namespace by {
      assert NAMESAKE.namespace[0] == 'o';
    }
  }

  /** Apart from the namesake's object the example is one in which two passes converge. */
  lemma OnlyKept(cfg: Config)
    requires Example(cfg)
    ensures Convergent(cfg, ID, Before(cfg), CLUSTERS, REPLICA) && NoneOvertaken(cfg, LoopStartOf(ID, REPLICA, Before(cfg), CLUSTERS))
  {
    StartKnows(cfg);
    var s0 := LoopStartOf(ID, REPLICA, Before(cfg), CLUSTERS);
    assert Named(s0.world) && Housed(s0.world) && ClustersOk(CLUSTERS) && InStore(s0) && NoStrayLabel(cfg, s0.pass);
    assert forall c: Choice :: c.def in s0.pass.defs ==> IsNextTo(c.def);
    hide Knows, ChoiceOk, InStore, Housed, NoStrayLabel, ClustersOk;
  }

  /** With a kept object of a namesake at a tracked place that two definitions share, two quiet passes are not enough:
      the third one gives the object a deletion policy that it did not have after the second. */
  lemma KeptNeedsThirdPass(cfg: Config, start1: Fate, f1: Oracle, start2: Fate, f2: Oracle, start3: Fate, f3: Oracle)
    requires Example(cfg)
    requires Succeeds(start1) && Succeeds(start2) && Succeeds(start3) && QuietOracle(f1) && QuietOracle(f2) && QuietOracle(f3)
    ensures var (w1, r1) := WholePass(cfg, start1, f1, ID, Before(cfg), CLUSTERS, REPLICA);
            var (w2, r2) := WholePass(cfg, start2, f2, ID, Vanish(w1), CLUSTERS, r1);
            var (w3, r3) := WholePass(cfg, start3, f3, ID, Vanish(w2), CLUSTERS, r2);
            && BESIDE in Vanish(w2).objects && DeletionPolicy !in Vanish(w2).objects[BESIDE].labels
            && BESIDE in Vanish(w3).objects && DeletionPolicy in Vanish(w3).objects[BESIDE].labels
  {
    var theirs := Theirs(cfg);
    var freed := Released(theirs);
    var taken := Updated(freed, Ours(cfg, BLANK));
    var both := Updated(taken, Ours(cfg, LABELLED));
    var last := Updated(both, Ours(cfg, BLANK));
    ObjectsHere(cfg);
    StartKnows(cfg);
    hide WholePass, QuietOracle, Example, Succeeds, Vanish, Knows, JudgeExisting, Released, Updated, Ours, Theirs, IsManaged, Objects.Kept, OwnedByThis, Before;
    var none: set<Location> := {};
    assert none + none == none && {BESIDE} + none == {BESIDE} && none + {BESIDE} == {BESIDE} && {BESIDE} + {BESIDE} == {BESIDE};
    PassHere(cfg, start1, f1, Before(cfg), REPLICA, theirs, {BESIDE});
    var (w1, r1) := WholePass(cfg, start1, f1, ID, Before(cfg), CLUSTERS, REPLICA);
    PassHere(cfg, start2, f2, Vanish(w1), r1, freed, {});
    var (w2, r2) := WholePass(cfg, start2, f2, ID, Vanish(w1), CLUSTERS, r1);
    PassHere(cfg, start3, f3, Vanish(w2), r2, taken, {BESIDE});
    var (w3, r3) := WholePass(cfg, start3, f3, ID, Vanish(w2), CLUSTERS, r2);
    KnowsObject(cfg, LoopStartOf(ID, r2, Vanish(w2), CLUSTERS), taken, {BESIDE});
    KnowsObject(cfg, LoopStartOf(ID, r3, Vanish(w3), CLUSTERS), last, {BESIDE});
  }

  lemma KnowsObject(cfg: Config, s: State, o: Object, tracked: set<Location>)
    requires Knows(cfg, s, o, {}, {}, tracked, {})
    ensures BESIDE in s.world.objects && s.world.objects[BESIDE] == o
  {}
}
