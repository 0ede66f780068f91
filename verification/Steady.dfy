/** Quiet passes that start settled: they create no namespace, decide every target by what was there at the start, and two of them write the same. */
module Steady {
  import opened Refs
  import opened StatusList
  import opened Objects
  import opened Targets
  import opened Steps
  import opened System
  import opened Agenda
  import opened DeletionPhase
  import opened Quiet
  import opened Resolution
  import opened QuietLoop
  import opened LoopKeys
  import opened Settling

  /** With the namespaces of the start, the rulings of the start last. */
  lemma RulingsLast(cfg: Config, s0: State, s: State, key: Location)
    requires s.world.namespaces == s0.world.namespaces && Named(s0.world)
    ensures Lasts(cfg, s0, s, s0.world, key)
  {}

  lemma LoopTaskAhead(cfg: Config, s0: State, s: State, t: Task, rest: seq<Task>, later: World)
    requires LoopKept(cfg, s0, s, [t] + rest, later)
    ensures IsLoop(t) && InStore(s) && Housed(s.world) && Named(s.world) && Named(s0.world)
    ensures SameRequest(s0.pass, s.pass) && HomesAreReal(cfg, s0, s, later) && FirstIsAhead(cfg, s0, s, [t] + rest, later)
  {
    assert t in [t] + rest && TaskOk(cfg, s.pass, s.world, t);
  }

  // ---- No namespace is created ----

  /** No ruling definition would create a namespace. */
  ghost predicate NoneToCreate(cfg: Config, s0: State) {
    forall key :: Ruling(cfg, s0, key).Some? ==> MakesNoNamespace(s0.world, key, Ruling(cfg, s0, key).value)
  }

  lemma NotNeeded(def: TargetDefinition, id: ReplicaId, w: World, key: Location)
    requires MakesNoNamespace(w, key, def)
    ensures var home := HomeUnder(def, key); Judged(def, id, w, home).Proceed? ==> !NeedsNamespace(w, home)
  {
    hide JudgeExisting;
  }

  lemma TargetMakesNoNamespace(cfg: Config, def: TargetDefinition, cluster: Option<Cluster>, n: string, rest: seq<Task>, s0: State, s: State, s': State)
    requires NoneToCreate(cfg, s0) && s.world.namespaces == s0.world.namespaces
    requires LoopKept(cfg, s0, s, [Target(def, cluster, n)] + rest, s0.world) && TargetDone(cfg, def, cluster, n, s, s')
    ensures s'.world.namespaces == s0.world.namespaces
  {
    LoopTaskAhead(cfg, s0, s, Target(def, cluster, n), rest, s0.world);
    hide LoopKept, FirstIsAhead, HomesAreReal;
    var r := Render(cfg, s.pass.input, cluster, n);
    if r.Rendered? && Key(cluster, r.ref) !in s.pass.seen {
      var key := Key(cluster, r.ref);
      RulingsLast(cfg, s0, s, key);
      HeadRules(cfg, def, cluster, n, rest, s0, s, s0.world, key);
      assert MakesNoNamespace(s0.world, key, def);
      NotNeeded(def, s.pass.id, s.world, key);
      assert HomeUnder(def, key) == Location(HomeRef(def, cluster), r.ref);
      hide Render, Ruling, Lasts, CreatedOrUpdated, AddedAt, InStore, Judged, NeedsNamespace, MakesNoNamespace, NoneToCreate, HomeRef;
    } else {
      hide Render, Ruling, Judged, Written, AddedAt, InStore;
    }
  }

  lemma {:induction false} RunMakesNoNamespace(cfg: Config, fates: Oracle, s0: State, s: State, agenda: seq<Task>)
    requires QuietOracle(fates) && ScopeKept(cfg, s.pass) && LoopKept(cfg, s0, s, agenda, s0.world)
    requires NoneToCreate(cfg, s0) && s.world.namespaces == s0.world.namespaces
    ensures Run(cfg, fates, agenda, s).world.namespaces == s0.world.namespaces
    decreases PlanWeight(agenda), OuterWeight(agenda), InnerWeight(agenda), |agenda|
  {
    hide Run, LoopKept, ScopeKept, PlanWeight, OuterWeight, InnerWeight, NoneToCreate, Ticked, Step, Succeeds;
    if agenda == [] {
      RunNothing(cfg, fates, s);
    } else {
      var t, rest := agenda[0], agenda[1..];
      assert agenda == [t] + rest;
      var fate := fates(s.pass.clock, t);
      RunHeadStep(cfg, fates, t, rest, s);
      LoopStep(cfg, fate, s0, s, agenda, s0.world);
      StepMakesNoNamespace(cfg, fate, s0, s, t, rest);
      RunMakesNoNamespace(cfg, fates, s0, Ticked(Step(cfg, fate, t, s).0), Step(cfg, fate, t, s).1 + rest);
    }
  }

  lemma StepMakesNoNamespace(cfg: Config, fate: Fate, s0: State, s: State, t: Task, rest: seq<Task>)
    requires Succeeds(fate) && LoopKept(cfg, s0, s, [t] + rest, s0.world)
    requires NoneToCreate(cfg, s0) && s.world.namespaces == s0.world.namespaces
    ensures Ticked(Step(cfg, fate, t, s).0).world.namespaces == s0.world.namespaces
  {
    LoopTaskAhead(cfg, s0, s, t, rest, s0.world);
    if t.Target? {
      QuietTarget(cfg, fate, t.def, t.cluster, t.namespace, s);
      hide LoopKept, TargetDone, HandleTarget;
      TargetMakesNoNamespace(cfg, t.def, t.cluster, t.namespace, rest, s0, s, Ticked(Step(cfg, fate, t, s).0));
    } else {
      OpeningStep(cfg, fate, t, s);
      hide Step, LoopKept, InStore;
    }
  }

  lemma RunHeadStep(cfg: Config, fates: Oracle, t: Task, rest: seq<Task>, s: State)
    ensures var fate := fates(s.pass.clock, t);
            && Run(cfg, fates, [t] + rest, s) == Run(cfg, fates, Step(cfg, fate, t, s).1 + rest, Ticked(Step(cfg, fate, t, s).0))
            && Shrinks([t] + rest, Step(cfg, fate, t, s).1 + rest)
  {
    assert ([t] + rest)[0] == t && ([t] + rest)[1..] == rest;
    RunStep(cfg, fates, [t] + rest, s);
    AgendaShrinks(cfg, fates(s.pass.clock, t), [t] + rest, s);
    hide Run, Step, PlanWeight, OuterWeight, InnerWeight;
  }

  // ---- The start decides ----

  ghost predicate NoMarks(w: World) {
    forall l :: l in w.objects ==> !w.objects[l].inDeletion
  }

  /** Where a pass can start so that the next one changes nothing. */
  ghost predicate Ready(cfg: Config, s0: State) {
    && Scope(cfg, s0) && AtStart(s0.pass) && NoMarks(s0.world)
    && forall key :: Ruling(cfg, s0, key).Some? ==> Settled(s0.pass, s0.world, key, Ruling(cfg, s0, key).value)
  }

  /** The home holds an object of the replica, or is free and can be used. */
  predicate Allowed(id: ReplicaId, w: World, home: Location) {
    match Lookup(w.objects, home)
    case Some(o) => OwnedByThis(id, o)
    case None =>
      home.ref.namespace == "" ||
      (match Lookup(w.namespaces, (home.cluster, home.ref.namespace)) case Some(n) => !n.inDeletion case None => false)
  }

  /** The ruling definition has written the target exactly if its home was allowed at the start. */
  ghost predicate WrittenIfAllowed(cfg: Config, s0: State, s: State, key: Location) {
    && Ruling(cfg, s0, key).Some?
    && var home := HomeUnder(Ruling(cfg, s0, key).value, key);
       home in s.pass.managed <==> Allowed(s0.pass.id, s0.world, home)
  }

  /** Exactly the targets whose home was allowed at the start are written. */
  ghost predicate SteadyKept(cfg: Config, s0: State, s: State) {
    && s.world.namespaces == s0.world.namespaces && s.pass.id == s0.pass.id && Named(s0.world)
    && forall key :: key in s.pass.seen ==> WrittenIfAllowed(cfg, s0, s, key)
  }

  /** What has been synced is the home of a reached target under its ruling definition. */
  lemma ManagedHasKey(cfg: Config, s0: State, s: State, home: Location) returns (key: Location)
    requires HomesAreReal(cfg, s0, s, s0.world) && SteadyKept(cfg, s0, s) && home in s.pass.managed
    ensures key in s.pass.seen && Ruling(cfg, s0, key).Some? && HomeUnder(Ruling(cfg, s0, key).value, key) == home
  {
    var c :| SyncedFor(cfg, s0, s, s0.world, home, c);
    key := RenderedKey(cfg, s.pass.input, c).value;
    RulingsLast(cfg, s0, s, key);
    hide Lasts, RulingIn;
  }

  lemma ManagedIsAllowed(cfg: Config, s0: State, s: State, home: Location)
    requires HomesAreReal(cfg, s0, s, s0.world) && SteadyKept(cfg, s0, s) && home in s.pass.managed
    ensures Allowed(s0.pass.id, s0.world, home)
  {
    var key := ManagedHasKey(cfg, s0, s, home);
    assert WrittenIfAllowed(cfg, s0, s, key);
    hide Allowed, HomeUnder, Ruling;
  }

  /** A settled definition lets a target pass exactly if its home is allowed, and never creates a namespace. */
  lemma JudgedByStart(cfg: Config, s0: State, s: State, key: Location, def: TargetDefinition)
    requires WorldKept(cfg, s0, s) && HomesAreReal(cfg, s0, s, s0.world) && SteadyKept(cfg, s0, s) && NoMarks(s0.world)
    requires Settled(s0.pass, s0.world, key, def)
    ensures var home := HomeUnder(def, key);
            && (Judged(def, s.pass.id, s.world, home).Proceed? <==> Allowed(s0.pass.id, s0.world, home))
            && (Judged(def, s.pass.id, s.world, home).Proceed? ==> !NeedsNamespace(s.world, home))
  {
    var home := HomeUnder(def, key);
    assert home.ref == key.ref;
    if home in s.pass.managed {
      ManagedIsAllowed(cfg, s0, s, home);
      assert home in s.world.objects && OwnedByThis(s.pass.id, s.world.objects[home]);
    } else {
      assert Lookup(s.world.objects, home) == Lookup(s0.world.objects, home);
    }
    hide OwnedByThis, IsManaged, HomeUnder, Tracked, WellFormed, StatusKept, NamespacesGrow, Housed, OnlyFresh;
  }

  /** A target that is reached now is decided by what was at its home at the start. */
  ghost predicate StartDecides(cfg: Config, def: TargetDefinition, cluster: Option<Cluster>, n: string, s0: State, s: State) {
    var r := Render(cfg, s.pass.input, cluster, n);
    r.Rendered? && Key(cluster, r.ref) !in s.pass.seen ==>
      var home := Location(HomeRef(def, cluster), r.ref);
      && home == HomeUnder(def, Key(cluster, r.ref)) && Ruling(cfg, s0, Key(cluster, r.ref)) == Some(def)
      && (Judged(def, s.pass.id, s.world, home).Proceed? <==> Allowed(s0.pass.id, s0.world, home))
      && (Judged(def, s.pass.id, s.world, home).Proceed? ==> !NeedsNamespace(s.world, home))
  }

  lemma ReadyDecides(cfg: Config, def: TargetDefinition, cluster: Option<Cluster>, n: string, rest: seq<Task>, s0: State, s: State)
    requires ReadyKept(cfg, s0, s, [Target(def, cluster, n)] + rest)
    ensures StartDecides(cfg, def, cluster, n, s0, s)
  {
    var r := Render(cfg, s.pass.input, cluster, n);
    LoopTaskAhead(cfg, s0, s, Target(def, cluster, n), rest, s0.world);
    if r.Rendered? && Key(cluster, r.ref) !in s.pass.seen {
      var key := Key(cluster, r.ref);
      RulingsLast(cfg, s0, s, key);
      HeadRules(cfg, def, cluster, n, rest, s0, s, s0.world, key);
      assert HomeUnder(def, key) == Location(HomeRef(def, cluster), r.ref);
      hide Render, Judged, Allowed, HomeUnder, Ruling, Scope, WorldKept, KeysKept, SettledKept, NeedsNamespace, Settled, Lasts, FirstIsAhead,
        HomesAreReal, SteadyKept;
      assert WorldKept(cfg, s0, s) && NoMarks(s0.world) && Settled(s0.pass, s0.world, key, def);
      JudgedByStart(cfg, s0, s, key, def);
    }
  }

  lemma SteadyTarget(cfg: Config, def: TargetDefinition, cluster: Option<Cluster>, n: string, s0: State, s: State, s': State)
    requires StartDecides(cfg, def, cluster, n, s0, s) && SteadyKept(cfg, s0, s) && TargetDone(cfg, def, cluster, n, s, s')
    requires Housed(s.world) && Named(s.world) && HomesAreReal(cfg, s0, s, s0.world)
    ensures SteadyKept(cfg, s0, s')
  {
    var r := Render(cfg, s.pass.input, cluster, n);
    if r.Rendered? && Key(cluster, r.ref) !in s.pass.seen {
      var key := Key(cluster, r.ref);
      var home := Location(HomeRef(def, cluster), r.ref);
      assert Judged(def, s.pass.id, s.world, home).Proceed? ==> s'.world.namespaces == s.world.namespaces;
      if home in s.pass.managed {
        ManagedIsAllowed(cfg, s0, s, home);
      }
      hide Render, Judged, Allowed, HomeUnder, InStore, AddedAt, CreatedOrUpdated, Written, NeedsNamespace, Ruling, HomesAreReal;
      assert forall l :: l in s'.pass.managed ==> l in s.pass.managed || l == home;
      assert forall l :: l in s.pass.managed ==> l in s'.pass.managed;
      forall k | k in s'.pass.seen ensures WrittenIfAllowed(cfg, s0, s', k) {
        assert k == key || WrittenIfAllowed(cfg, s0, s, k);
      }
    } else {
      hide Render, Judged, Allowed, HomeUnder, InStore, AddedAt, Written, NeedsNamespace, Ruling, HomesAreReal;
      assert forall k :: k in s'.pass.seen ==> WrittenIfAllowed(cfg, s0, s, k);
    }
  }

  /** What a run of the loops keeps when it starts ready. */
  ghost predicate ReadyKept(cfg: Config, s0: State, s: State, agenda: seq<Task>) {
    Ready(cfg, s0) && LoopKept(cfg, s0, s, agenda, s0.world) && SteadyKept(cfg, s0, s) && ScopeKept(cfg, s.pass)
  }

  lemma SteadyStep(cfg: Config, fate: Fate, s0: State, s: State, t: Task, rest: seq<Task>)
    requires Succeeds(fate) && ReadyKept(cfg, s0, s, [t] + rest)
    ensures SteadyKept(cfg, s0, Ticked(Step(cfg, fate, t, s).0))
  {
    var s' := Ticked(Step(cfg, fate, t, s).0);
    LoopTaskAhead(cfg, s0, s, t, rest, s0.world);
    if t.Target? {
      QuietTarget(cfg, fate, t.def, t.cluster, t.namespace, s);
      ReadyDecides(cfg, t.def, t.cluster, t.namespace, rest, s0, s);
      hide LoopKept, Ready, SteadyKept, StartDecides, TargetDone, HandleTarget, Housed, Named, ScopeKept, InStore, HomesAreReal, FirstIsAhead;
      SteadyTarget(cfg, t.def, t.cluster, t.namespace, s0, s, s');
    } else {
      OpeningStep(cfg, fate, t, s);
      hide Step, LoopKept, Ready, SteadyKept;
      OpenedSteady(cfg, s0, s, s');
    }
  }

  lemma ReadyStep(cfg: Config, fate: Fate, s0: State, s: State, t: Task, rest: seq<Task>)
    requires Succeeds(fate) && ReadyKept(cfg, s0, s, [t] + rest)
    ensures ReadyKept(cfg, s0, Ticked(Step(cfg, fate, t, s).0), Step(cfg, fate, t, s).1 + rest)
  {
    assert ([t] + rest)[0] == t && ([t] + rest)[1..] == rest;
    SteadyStep(cfg, fate, s0, s, t, rest);
    hide Step, Ready, SteadyKept, LoopKept, ScopeKept, Ticked;
    LoopStep(cfg, fate, s0, s, [t] + rest, s0.world);
  }

  lemma OpenedSteady(cfg: Config, s0: State, s: State, s': State)
    requires Opened(s, s') && SteadyKept(cfg, s0, s)
    ensures SteadyKept(cfg, s0, s')
  {
    hide Allowed, HomeUnder, InStore, Ruling;
    forall k | k in s'.pass.seen ensures WrittenIfAllowed(cfg, s0, s', k) {
      assert WrittenIfAllowed(cfg, s0, s, k);
    }
  }

  lemma ReadyAtStart(cfg: Config, s0: State)
    requires Ready(cfg, s0)
    ensures ReadyKept(cfg, s0, s0, AllTasks(s0.pass))
  {
    LoopStart(cfg, s0, s0.world);
    hide LoopKept, ScopeKept, Ruling, Settled, ListsAll, ClustersOk, NoStrayLabel, Housed, InStore;
  }

  // ---- Two passes side by side ----

  ghost function Fold(copies: seq<Object>, before: Option<Object>): Option<Object> {
    if copies == [] then before
    else
      var last := |copies| - 1;
      Some(CreatedOrUpdated(Fold(copies[..last], before), copies[last]))
  }

  ghost predicate Folds(copies: seq<Object>, l: Location, a: World, a': World) {
    Lookup(a'.objects, l) == Fold(copies, Lookup(a.objects, l))
  }

  ghost predicate BothFold(l: Location, a: World, a': World, b: World, b': World) {
    exists copies :: Folds(copies, l, a, a') && Folds(copies, l, b, b')
  }

  /** Both passes wrote the same copies, in the same order, to every location. */
  ghost predicate SameWrites(a: World, a': World, b: World, b': World) {
    forall l :: BothFold(l, a, a', b, b')
  }

  lemma WriteBoth(a: World, a': World, a'': World, b: World, b': World, b'': World, home: Location, copy: Object)
    requires SameWrites(a, a', b, b')
    requires a''.objects == a'.objects[home := CreatedOrUpdated(Lookup(a'.objects, home), copy)]
    requires b''.objects == b'.objects[home := CreatedOrUpdated(Lookup(b'.objects, home), copy)]
    ensures SameWrites(a, a'', b, b'')
  {
    hide CreatedOrUpdated;
    forall l ensures BothFold(l, a, a'', b, b'') {
      assert BothFold(l, a, a', b, b');
      var copies :| Folds(copies, l, a, a') && Folds(copies, l, b, b');
      if l == home {
        assert (copies + [copy])[..|copies|] == copies;
        assert Folds(copies + [copy], l, a, a'') && Folds(copies + [copy], l, b, b'');
      } else {
        assert Folds(copies, l, a, a'') && Folds(copies, l, b, b'');
      }
    }
  }

  ghost predicate Mirror(s0: State, s: State, t0: State, t: State) {
    && SameRequest(s.pass, t.pass) && s.world.namespaces == t.world.namespaces && s.pass.seen == t.pass.seen
    && SameWrites(s0.world, s.world, t0.world, t.world)
  }

  /** The homes of ruled targets are allowed for both or for neither. */
  ghost predicate SameAllowed(cfg: Config, s0: State, t0: State) {
    forall key :: Ruling(cfg, s0, key).Some? ==>
      var home := HomeUnder(Ruling(cfg, s0, key).value, key);
      Allowed(s0.pass.id, s0.world, home) <==> Allowed(t0.pass.id, t0.world, home)
  }

  lemma MirrorTarget(cfg: Config, def: TargetDefinition, cluster: Option<Cluster>, n: string, s0: State, s: State, s': State, t0: State, t: State, t': State)
    requires Mirror(s0, s, t0, t) && TargetDone(cfg, def, cluster, n, s, s') && TargetDone(cfg, def, cluster, n, t, t')
    requires Housed(s.world) && Named(s.world) && Housed(t.world) && Named(t.world)
    requires var r := Render(cfg, s.pass.input, cluster, n);
             r.Rendered? && Key(cluster, r.ref) !in s.pass.seen ==>
               var home := Location(HomeRef(def, cluster), r.ref);
               var js, jt := Judged(def, s.pass.id, s.world, home), Judged(def, s.pass.id, t.world, home);
               && (js.Proceed? <==> jt.Proceed?)
               && (js.Proceed? ==> !NeedsNamespace(s.world, home)) && (jt.Proceed? ==> !NeedsNamespace(t.world, home))
    ensures Mirror(s0, s', t0, t')
  {
    var r := Render(cfg, s.pass.input, cluster, n);
    if r.Rendered? && Key(cluster, r.ref) !in s.pass.seen {
      var home := Location(HomeRef(def, cluster), r.ref);
      assert Copy(cfg, s.pass, r.target) == Copy(cfg, t.pass, r.target);
      if Judged(def, s.pass.id, s.world, home).Proceed? {
        WrittenWorld(cfg, home, Copy(cfg, s.pass, r.target), s.world);
        WrittenWorld(cfg, home, Copy(cfg, s.pass, r.target), t.world);
        assert s'.world.namespaces == s.world.namespaces && t'.world.namespaces == t.world.namespaces;
        hide Render, Judged, CreatedOrUpdated, InStore, AddedAt, SameWrites, Written, Copy, NeedsNamespace, Housed, Named;
        WriteBoth(s0.world, s.world, s'.world, t0.world, t.world, t'.world, home, Copy(cfg, s.pass, r.target));
      } else {
        hide Render, Judged, InStore, AddedAt, SameWrites, Written, Copy, NeedsNamespace, Housed, Named;
      }
    } else {
      hide Render, Judged, InStore, AddedAt, SameWrites, Written, Copy, NeedsNamespace, Housed, Named;
    }
  }

  lemma SameMore(cfg: Config, f: Fate, g: Fate, t: Task, s: State, s': State)
    requires Succeeds(f) && Succeeds(g) && IsLoop(t) && SameRequest(s.pass, s'.pass) && s.world.namespaces == s'.world.namespaces
    ensures Step(cfg, f, t, s).1 == Step(cfg, g, t, s').1
  {
    if t.OpenCluster? && Live(t.cluster) {
      ResolvedIsWhatAPassUses(cfg, f, t.def, t.cluster, s);
      ResolvedIsWhatAPassUses(cfg, g, t.def, t.cluster, s');
      SameResolved(cfg, t.def, t.cluster, s.world, s'.world);
    }
    hide ResolveNamespaces, HandleTarget, Resolved;
    assert t.OpenCluster? && !Live(t.cluster) ==> Step(cfg, f, t, s).1 == [] && Step(cfg, g, t, s').1 == [] by {
      if t.OpenCluster? && !Live(t.cluster) {
        DeadCluster(cfg, f, t.def, t.cluster, s);
        DeadCluster(cfg, g, t.def, t.cluster, s');
      }
    }
  }

  lemma DeadCluster(cfg: Config, f: Fate, def: TargetDefinition, cluster: Option<Cluster>, s: State)
    requires !Live(cluster)
    ensures ResolveNamespaces(cfg, f, def, cluster, s).1 == []
  {}

  lemma {:induction false} SameSelected(cfg: Config, sel: NamespaceSelector, cluster: ObjectReference, names: seq<string>, w: World, w': World)
    requires w.namespaces == w'.namespaces
    ensures SelectNamespaces(cfg, sel, cluster, names, w) == SelectNamespaces(cfg, sel, cluster, names, w')
  {
    if names != [] {
      SameSelected(cfg, sel, cluster, names[1..], w, w');
    }
  }

  lemma SameResolved(cfg: Config, def: TargetDefinition, cluster: Option<Cluster>, w: World, w': World)
    requires w.namespaces == w'.namespaces
    ensures Resolved(cfg, def, cluster, w) == Resolved(cfg, def, cluster, w')
  {
    if def.namespaces.Some? {
      assert NamespacesOn(w, OwnRef(cluster)) == NamespacesOn(w', OwnRef(cluster));
      SameSelected(cfg, def.namespaces.value, OwnRef(cluster), cfg.listOrder(NamespacesOn(w, OwnRef(cluster))), w, w');
    }
  }

  lemma MirrorStep(cfg: Config, f: Fate, g: Fate, s0: State, s: State, t0: State, t: State, task: Task, rest: seq<Task>)
    requires Succeeds(f) && Succeeds(g) && ReadyKept(cfg, s0, s, [task] + rest) && ReadyKept(cfg, t0, t, [task] + rest)
    requires Mirror(s0, s, t0, t) && SameAllowed(cfg, s0, t0)
    ensures Mirror(s0, Ticked(Step(cfg, f, task, s).0), t0, Ticked(Step(cfg, g, task, t).0))
    ensures Step(cfg, f, task, s).1 == Step(cfg, g, task, t).1
  {
    var s', t' := Ticked(Step(cfg, f, task, s).0), Ticked(Step(cfg, g, task, t).0);
    LoopTaskAhead(cfg, s0, s, task, rest, s0.world);
    LoopTaskAhead(cfg, t0, t, task, rest, t0.world);
    SameMore(cfg, f, g, task, s, t);
    if task.Target? {
      var def, cluster, n := task.def, task.cluster, task.namespace;
      QuietTarget(cfg, f, def, cluster, n, s);
      QuietTarget(cfg, g, def, cluster, n, t);
      ReadyDecides(cfg, def, cluster, n, rest, s0, s);
      ReadyDecides(cfg, def, cluster, n, rest, t0, t);
      hide LoopKept, Ready, SteadyKept, TargetDone, HandleTarget, Housed, Named, ScopeKept, InStore, HomesAreReal, FirstIsAhead, SameWrites, Allowed, Judged,
        NeedsNamespace, HomeUnder, Ruling, Render;
      MirrorTarget(cfg, def, cluster, n, s0, s, s', t0, t, t');
    } else {
      OpeningStep(cfg, f, task, s);
      OpeningStep(cfg, g, task, t);
      hide Step, LoopKept, Ready, SteadyKept, SameWrites, InStore, SameAllowed;
    }
  }

  /** Two quiet passes that start ready with the same homes allowed write the same. */
  lemma {:induction false} MirrorRun(cfg: Config, f: Oracle, g: Oracle, s0: State, s: State, t0: State, t: State, agenda: seq<Task>)
    requires QuietOracle(f) && QuietOracle(g) && ReadyKept(cfg, s0, s, agenda) && ReadyKept(cfg, t0, t, agenda)
    requires Mirror(s0, s, t0, t) && SameAllowed(cfg, s0, t0)
    ensures var s', t' := Run(cfg, f, agenda, s), Run(cfg, g, agenda, t);
            && ReadyKept(cfg, s0, s', []) && ReadyKept(cfg, t0, t', []) && Mirror(s0, s', t0, t')
    decreases PlanWeight(agenda), OuterWeight(agenda), InnerWeight(agenda), |agenda|
  {
    hide Run, Step, ReadyKept, PlanWeight, OuterWeight, InnerWeight, Mirror, SameAllowed, Succeeds, Ticked;
    if agenda == [] {
      RunNothing(cfg, f, s);
      RunNothing(cfg, g, t);
    } else {
      var task, rest := agenda[0], agenda[1..];
      var ff, gg := f(s.pass.clock, task), g(t.pass.clock, task);
      assert agenda == [task] + rest;
      RunHeadStep(cfg, f, task, rest, s);
      RunHeadStep(cfg, g, task, rest, t);
      ReadyStep(cfg, ff, s0, s, task, rest);
      ReadyStep(cfg, gg, t0, t, task, rest);
      MirrorStep(cfg, ff, gg, s0, s, t0, t, task, rest);
      MirrorRun(cfg, f, g, s0, Ticked(Step(cfg, ff, task, s).0), t0, Ticked(Step(cfg, gg, task, t).0), Step(cfg, ff, task, s).1 + rest);
    }
  }

  lemma ReadyRequest(cfg: Config, s0: State, s: State, agenda: seq<Task>)
    requires ReadyKept(cfg, s0, s, agenda)
    ensures SameRequest(s0.pass, s.pass)
  {}
}
