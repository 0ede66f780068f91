/** How a quiet pass settles: after one, every refusal is final, and a pass that starts settled writes exactly what the next one writes. */
module Settling {
  import opened Refs
  import opened StatusList
  import opened Objects
  import opened Targets
  import opened Steps
  import opened System
  import opened Agenda
  import opened DeletionPhase
  import opened Quiet
  import opened Resolution
  import opened QuietLoop
  import opened LoopKeys

  /** The definition would neither create the target's namespace nor take over an object that is not the replica's. */
  ghost predicate Settled(p: Pass, w: World, key: Location, def: TargetDefinition) {
    var home := HomeUnder(def, key);
    && MakesNoNamespace(w, key, def)
    && (home in w.objects && !OwnedByThis(p.id, w.objects[home]) ==> JudgeExisting(def, p.id, w.objects[home]).Refuse?)
  }

  ghost predicate MakesNoNamespace(w: World, key: Location, def: TargetDefinition) {
    key.ref.namespace != "" && (HomeUnder(def, key).cluster, key.ref.namespace) !in w.namespaces ==> !def.namespacePolicy.Create?
  }

  /** The target is settled, and if its home holds an object of the replica it has been written. */
  ghost predicate SettledHere(s: State, key: Location, def: TargetDefinition) {
    var home := HomeUnder(def, key);
    && Settled(s.pass, s.world, key, def)
    && (home in s.world.objects && OwnedByThis(s.pass.id, s.world.objects[home]) ==> home in s.pass.managed)
  }

  /** Targets are settled once they have been reached, if their ruling lasts. */
  ghost predicate SettledKept(cfg: Config, s0: State, s: State, later: World) {
    forall key :: key in s.pass.seen && Lasts(cfg, s0, s, later, key) && Ruling(cfg, s0, key).Some?
      ==> SettledHere(s, key, Ruling(cfg, s0, key).value)
  }

  ghost predicate LoopKept(cfg: Config, s0: State, s: State, agenda: seq<Task>, later: World) {
    WorldKept(cfg, s0, s) && KeysKept(cfg, s0, s, agenda, later) && SettledKept(cfg, s0, s, later)
  }

  // ---- A target's step ----

  /** A target that is reached settles. */
  lemma ReachedSettles(def: TargetDefinition, s: State, s': State, key: Location, copy: Object, cfg: Config)
    requires Housed(s.world) && Named(s.world) && s'.pass.id == s.pass.id
    requires var home := HomeUnder(def, key);
             if Judged(def, s.pass.id, s.world, home).Proceed?
             then && s'.world == Written(cfg, home, copy, s.world) && s'.pass.managed == s.pass.managed + [home]
                  && OwnedByThis(s.pass.id, CreatedOrUpdated(Lookup(s.world.objects, home), copy))
             else s'.world == s.world
    ensures SettledHere(s', key, def)
  {
    hide OwnedByThis, CreatedOrUpdated;
    assert HomeUnder(def, key).ref == key.ref;
  }

  /** What a step of the loops may do to objects: write own copies, and record them. */
  ghost predicate OnlyOwnWritten(s: State, s': State) {
    && NamespacesGrow(s.world, s'.world) && s'.pass.id == s.pass.id
    && (forall l :: l in s.pass.managed ==> l in s'.pass.managed)
    && (forall l :: Lookup(s'.world.objects, l) == Lookup(s.world.objects, l)
                 || (l in s'.pass.managed && l in s'.world.objects && OwnedByThis(s.pass.id, s'.world.objects[l])))
  }

  lemma SettledStays(s: State, s': State, key: Location, def: TargetDefinition)
    requires OnlyOwnWritten(s, s') && SettledHere(s, key, def)
    ensures SettledHere(s', key, def)
  {
    hide OwnedByThis, HomeUnder, JudgeExisting;
    var home := HomeUnder(def, key);
    assert Lookup(s'.world.objects, home) == Lookup(s.world.objects, home)
        || (home in s'.pass.managed && home in s'.world.objects && OwnedByThis(s.pass.id, s'.world.objects[home]));
  }

  lemma WriteIsOwn(cfg: Config, home: Location, copy: Object, s: State, s': State)
    requires Named(s.world) && Housed(s.world) && Writes(cfg, home, copy, s, s') && s'.pass.id == s.pass.id
    requires OwnedByThis(s.pass.id, CreatedOrUpdated(Lookup(s.world.objects, home), copy))
    ensures OnlyOwnWritten(s, s')
  {
    WrittenWorld(cfg, home, copy, s.world);
    hide OwnedByThis, CreatedOrUpdated, Written, AddedAt, Named, Housed, NamespacesGrow, OnlyFresh;
    assert home in s'.pass.managed;
    assert forall l :: l in s.pass.managed ==> l in s'.pass.managed;
  }

  lemma NothingIsOwn(s: State, s': State)
    requires s'.world == s.world && s'.pass.managed == s.pass.managed && s'.pass.id == s.pass.id
    ensures OnlyOwnWritten(s, s')
  {}

  lemma TargetObjects(cfg: Config, def: TargetDefinition, cluster: Option<Cluster>, n: string, s: State, s': State)
    requires Named(s.world) && Housed(s.world) && NoStrayLabel(cfg, s.pass) && TargetDone(cfg, def, cluster, n, s, s')
    ensures OnlyOwnWritten(s, s')
  {
    var r := Render(cfg, s.pass.input, cluster, n);
    if r.Rendered? && Key(cluster, r.ref) !in s.pass.seen && Judged(def, s.pass.id, s.world, Location(HomeRef(def, cluster), r.ref)).Proceed? {
      var home := Location(HomeRef(def, cluster), r.ref);
      CopyIsOwned(cfg, s.pass, cluster, n, Lookup(s.world.objects, home));
      hide Render, OwnedByThis, IsManaged, CreatedOrUpdated, NoStrayLabel, Judged, InStore, Named, Housed, OnlyOwnWritten, Writes, Copy, HomeRef;
      WriteIsOwn(cfg, home, Copy(cfg, s.pass, r.target), s, s');
    } else {
      hide Render, InStore, NoStrayLabel, Written, Judged, AddedAt, Named, Housed, OnlyOwnWritten;
      NothingIsOwn(s, s');
    }
  }

  lemma TargetSettles(cfg: Config, def: TargetDefinition, cluster: Option<Cluster>, n: string, rest: seq<Task>, s0: State, s: State, s': State, later: World)
    requires CfgOk(cfg, s.pass) && NoStrayLabel(cfg, s.pass) && TaskOk(cfg, s.pass, s.world, Target(def, cluster, n))
    requires LoopKept(cfg, s0, s, [Target(def, cluster, n)] + rest, later) && TargetDone(cfg, def, cluster, n, s, s')
    ensures SettledKept(cfg, s0, s', later)
  {
    TargetObjects(cfg, def, cluster, n, s, s');
    TargetAdds(cfg, def, cluster, n, s, s');
    hide TargetDone, WorldKept, KeysKept, Lasts, RulingIn, SettledHere, CfgOk, NoStrayLabel, TaskOk, RenderedKey;
    forall key | key in s'.pass.seen && Lasts(cfg, s0, s', later, key) && Ruling(cfg, s0, key).Some?
      ensures SettledHere(s', key, Ruling(cfg, s0, key).value)
    {
      LastsBefore(cfg, s0, s, s', later, key);
      if key in s.pass.seen {
        SettledStays(s, s', key, Ruling(cfg, s0, key).value);
      } else {
        NewSettles(cfg, def, cluster, n, rest, s0, s, s', later, key);
      }
    }
  }

  lemma NewSettles(cfg: Config, def: TargetDefinition, cluster: Option<Cluster>, n: string, rest: seq<Task>, s0: State, s: State, s': State,
                   later: World, key: Location)
    requires NoStrayLabel(cfg, s.pass)
    requires LoopKept(cfg, s0, s, [Target(def, cluster, n)] + rest, later) && TargetDone(cfg, def, cluster, n, s, s')
    requires key !in s.pass.seen && RenderedKey(cfg, s.pass.input, Choice(def, cluster, n)) == Some(key)
    requires Lasts(cfg, s0, s, later, key)
    ensures Ruling(cfg, s0, key) == Some(def) && SettledHere(s', key, def)
  {
    HeadRules(cfg, def, cluster, n, rest, s0, s, later, key);
    var r := Render(cfg, s.pass.input, cluster, n);
    var home := HomeUnder(def, key);
    assert home == Location(HomeRef(def, cluster), r.ref) && s'.pass.id == s.pass.id;
    CopyIsOwned(cfg, s.pass, cluster, n, Lookup(s.world.objects, home));
    hide Render, OwnedByThis, IsManaged, CreatedOrUpdated, NoStrayLabel, Written, Judged, AddedAt, InStore, ObjectsKept, StatusKept, SettledHere, Lasts,
      RulingIn, HomeUnder, KeysKept, SettledKept;
    ReachedSettles(def, s, s', key, Copy(cfg, s.pass, r.target), cfg);
  }

  // ---- A step and a run of the loops ----

  ghost predicate ScopeKept(cfg: Config, p: Pass) {
    CfgOk(cfg, p) && NoStrayLabel(cfg, p)
  }

  lemma LoopStep(cfg: Config, fate: Fate, s0: State, s: State, agenda: seq<Task>, later: World)
    requires Succeeds(fate) && ScopeKept(cfg, s.pass) && agenda != [] && LoopKept(cfg, s0, s, agenda, later)
    ensures var (s', agenda') := AdvanceState(cfg, fate, agenda, s);
            LoopKept(cfg, s0, s', agenda', later) && ScopeKept(cfg, s'.pass)
  {
    var (s', agenda') := AdvanceState(cfg, fate, agenda, s);
    var t, rest := agenda[0], agenda[1..];
    assert agenda == [t] + rest && t in agenda;
    assert TaskOk(cfg, s.pass, s.world, t);
    if t.Target? {
      assert agenda' == rest;
      QuietTarget(cfg, fate, t.def, t.cluster, t.namespace, s);
      assert TargetDone(cfg, t.def, t.cluster, t.namespace, s, s');
      hide TargetDone, Step, TaskOk;
      assert WorldKept(cfg, s0, s') by {
        WorldKeptTarget(cfg, t.def, t.cluster, t.namespace, s0, s, s');
      }
      TargetObjects(cfg, t.def, t.cluster, t.namespace, s, s');
      TargetSettles(cfg, t.def, t.cluster, t.namespace, rest, s0, s, s', later);
      TargetKeepsKeys(cfg, t.def, t.cluster, t.namespace, rest, s0, s, s', later);
    } else {
      OpeningKeepsKeys(cfg, fate, s0, s, agenda, later);
      hide Step, TaskOk;
      OpenedKeeps(cfg, s0, s, s', later);
    }
    ScopeStays(cfg, s.pass, s'.pass);
  }

  lemma ScopeStays(cfg: Config, p: Pass, p': Pass)
    requires SameRequest(p, p') && ScopeKept(cfg, p)
    ensures ScopeKept(cfg, p')
  {}

  lemma OpenedKeeps(cfg: Config, s0: State, s: State, s': State, later: World)
    requires WorldKept(cfg, s0, s) && SettledKept(cfg, s0, s, later) && Opened(s, s')
    ensures WorldKept(cfg, s0, s') && SettledKept(cfg, s0, s', later)
  {
    assert ClustersFine(s'.pass.conditions);
    WorldKeptOnly(cfg, s0, s, s');
    hide WorldKept, RulingIn, OwnedByThis, JudgeExisting, InStore;
    forall key | key in s'.pass.seen && Lasts(cfg, s0, s', later, key) && Ruling(cfg, s0, key).Some?
      ensures SettledHere(s', key, Ruling(cfg, s0, key).value)
    {
      assert Lasts(cfg, s0, s, later, key);
    }
  }

  lemma {:induction false} LoopRun(cfg: Config, fates: Oracle, s0: State, s: State, agenda: seq<Task>, later: World)
    requires QuietOracle(fates) && ScopeKept(cfg, s.pass) && LoopKept(cfg, s0, s, agenda, later)
    ensures LoopKept(cfg, s0, Run(cfg, fates, agenda, s), [], later)
    decreases PlanWeight(agenda), OuterWeight(agenda), InnerWeight(agenda), |agenda|
  {
    if agenda == [] {
      assert Run(cfg, fates, [], s) == s;
    } else {
      var fate := fates(s.pass.clock, agenda[0]);
      RunStep(cfg, fates, agenda, s);
      AgendaShrinks(cfg, fate, agenda, s);
      assert Succeeds(fate);
      hide Run, Step, LoopKept, ScopeKept, QuietOracle, PlanWeight, OuterWeight, InnerWeight;
      LoopStep(cfg, fate, s0, s, agenda, later);
      var (s', agenda') := AdvanceState(cfg, fate, agenda, s);
      LoopRun(cfg, fates, s0, s', agenda', later);
    }
  }

  /** A pass as it starts: nothing done, nothing reported. */
  ghost predicate AtStart(p: Pass) {
    p.managed == [] && p.seen == map[] && p.reached == [] && p.conditions == []
  }

  lemma LoopStart(cfg: Config, s0: State, later: World)
    requires Scope(cfg, s0) && AtStart(s0.pass)
    ensures LoopKept(cfg, s0, s0, AllTasks(s0.pass), later) && ScopeKept(cfg, s0.pass)
  {
    DefinitionTasksAre(s0.pass.defs);
    forall c | ChoiceOk(cfg, s0.pass, s0.world, c) ensures Promised(cfg, s0.pass.clusters, s0.world, AllTasks(s0.pass), c) {
      PromisedByAll(cfg, s0.pass, s0.world, c);
    }
    assert AgendaOk(cfg, s0.pass, s0.world, AllTasks(s0.pass));
    hide OwnedByThis, IsManaged, Tracked, ChoiceOk, HomeUnder;
  }
}
