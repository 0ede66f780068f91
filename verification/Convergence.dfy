/** Quiet passes reach a fixpoint, after three passes at the latest: every later one changes no object, no namespace and no status entry. */
module Convergence {
  import opened Refs
  import opened StatusList
  import opened Objects
  import opened Targets
  import opened Steps
  import opened System
  import opened Obsolete
  import opened DeletionPhase
  import opened Quiet
  import opened Resolution
  import opened QuietLoop
  import opened LoopKeys
  import opened Settling
  import opened Steady

  // ---- Writing the same copies again ----

  function LastPolicy(copies: seq<Object>, before: Option<string>): Option<string> {
    if copies == [] then before
    else
      var last := copies[|copies| - 1].labels;
      if DeletionPolicy in last then Some(last[DeletionPolicy]) else LastPolicy(copies[..|copies| - 1], before)
  }

  function PolicyOf(o: Option<Object>): Option<string> {
    if o.Some? && DeletionPolicy in o.value.labels then Some(o.value.labels[DeletionPolicy]) else None
  }

  function WithPolicy(labels: Labels, policy: Option<string>): Labels {
    if policy.Some? then labels[DeletionPolicy := policy.value] else labels
  }

  /** What a series of writes leaves: the last copy on what was there first, with the last deletion policy anyone gave. */
  lemma {:induction false} FoldShape(copies: seq<Object>, before: Option<Object>)
    requires copies != []
    ensures var last := copies[|copies| - 1];
            var base := if before.Some? then before.value else copies[0].(inDeletion := false);
            Fold(copies, before) == Some(base.(fields := last.fields, annotations := last.annotations,
                                               labels := WithPolicy(last.labels, LastPolicy(copies, PolicyOf(before)))))
  {
    var n := |copies| - 1;
    var front := copies[..n];
    var last := copies[n].labels;
    assert DeletionPolicy in last ==> last[DeletionPolicy := last[DeletionPolicy]] == last;
    if n == 0 {
      assert front == [] && Fold(front, before) == before;
      assert LastPolicy(front, PolicyOf(before)) == PolicyOf(before);
    } else {
      FoldShape(front, before);
      assert front[0] == copies[0];
    }
  }

  lemma {:induction false} LastPolicyTwice(copies: seq<Object>, before: Option<string>)
    ensures LastPolicy(copies, LastPolicy(copies, before)) == LastPolicy(copies, before)
  {
    if copies != [] && DeletionPolicy !in copies[|copies| - 1].labels {
      var front := copies[..|copies| - 1];
      LastPolicyTwice(front, before);
    }
  }

  /** Repeating a series of writes changes nothing. */
  lemma FoldTwice(copies: seq<Object>, before: Option<Object>)
    ensures Fold(copies, Fold(copies, before)) == Fold(copies, before)
  {
    if copies != [] {
      FoldShape(copies, before);
      FoldShape(copies, Fold(copies, before));
      LastPolicyTwice(copies, PolicyOf(before));
      var last := copies[|copies| - 1];
      var policy := LastPolicy(copies, PolicyOf(before));
      assert DeletionPolicy in last.labels ==> policy == Some(last.labels[DeletionPolicy]);
      assert PolicyOf(Fold(copies, before)) == policy;
    }
  }

  // ---- Between two passes ----

  /** Objects marked for deletion vanish. */
  function Vanish(w: World): World {
    w.(objects := map l | l in w.objects && !w.objects[l].inDeletion :: w.objects[l])
  }

  lemma VanishLookup(w: World, l: Location)
    ensures Lookup(Vanish(w).objects, l) == if l in w.objects && !w.objects[l].inDeletion then Some(w.objects[l]) else None
  {}

  /** A pass over a replica that is not being deleted, as its loops start. */
  function LoopStartOf(id: ReplicaId, r: Stored, w: World, clusters: seq<Cluster>): State {
    State(w, r.persisted, NewPass(id, r, clusters))
  }

  /** The loops of a quiet pass, and its end. */
  function AfterLoops(cfg: Config, fates: Oracle, s0: State): State {
    Run(cfg, fates, AllTasks(s0.pass), s0)
  }

  function AfterPass(cfg: Config, fates: Oracle, s0: State): State {
    Run(cfg, fates, [Plan, Cleanup, UpdateStatus], AfterLoops(cfg, fates, s0))
  }

  lemma LivePass(cfg: Config, start: Fate, fates: Oracle, id: ReplicaId, w: World, clusters: seq<Cluster>, r: Stored)
    requires Succeeds(start) && !r.deleting && !r.ignored && r.running.None?
    ensures var s := AfterPass(cfg, fates, LoopStartOf(id, r, w, clusters));
            WholePass(cfg, start, fates, id, w, clusters, r) == (s.world, r.(finalizer := true, persisted := s.persisted))
  {
    var p := NewPass(id, r, clusters);
    var agenda := DefinitionTasks(r.defs) + [Plan, Cleanup] + [UpdateStatus];
    assert Start(id, start, clusters, r) == r.(finalizer := true, running := Some(Running(p, agenda)));
    assert agenda == DefinitionTasks(r.defs) + [Plan, Cleanup, UpdateStatus];
    RunSplit(cfg, fates, DefinitionTasks(r.defs), [Plan, Cleanup, UpdateStatus], LoopStartOf(id, r, w, clusters));
    hide Run, Start;
  }

  // ---- After a pass ----

  /** The loops of a pass that started in s0 and ended in s, and the pass's end s'. */
  ghost predicate Passed(cfg: Config, s0: State, s: State, s': State) {
    Scope(cfg, s0) && AtStart(s0.pass) && !s0.pass.inDeletion && LoopKept(cfg, s0, s, [], s.world) && Closed(cfg, s, s')
  }

  lemma PassIsPassed(cfg: Config, fates: Oracle, s0: State)
    requires QuietOracle(fates) && Scope(cfg, s0) && AtStart(s0.pass) && !s0.pass.inDeletion
    ensures Passed(cfg, s0, AfterLoops(cfg, fates, s0), AfterPass(cfg, fates, s0))
  {
    var s := AfterLoops(cfg, fates, s0);
    LoopStart(cfg, s0, s.world);
    hide Run, LoopKept, Scope, ScopeKept, QuietOracle, Closed;
    LoopRun(cfg, fates, s0, s0, AllTasks(s0.pass), s.world);
    assert WellFormed(s.pass.status) && WellFormed(s.persisted) by {
      LoopKeptStored(cfg, s0, s, s.world);
    }
    QuietClose(cfg, fates, s);
  }

  lemma LoopKeptStored(cfg: Config, s0: State, s: State, later: World)
    requires LoopKept(cfg, s0, s, [], later)
    ensures InStore(s) && SameRequest(s0.pass, s.pass) && Named(s.world) && NothingInvented(cfg, s) && NamespacesGrow(s0.world, s.world)
  {}

  lemma {:induction false} FineNeverUnhealthy(conditions: seq<Condition>, name: string)
    requires ClustersFine(conditions)
    ensures LastClusterCondition(conditions, name) != Some(false)
  {
    if conditions != [] {
      var front := conditions[..|conditions| - 1];
      assert forall c :: c in front ==> c in conditions;
      FineNeverUnhealthy(front, name);
    }
  }

  /** A quiet pass acts on the tracked entries that are neither synced, nor on a vanished cluster, nor reported on. */
  lemma QuietObsolete(cfg: Config, s0: State, s: State, later: World, l: Location)
    requires LoopKept(cfg, s0, s, [], later)
    ensures IsObsolete(cfg, s.pass, l) <==>
            l in Tracked(s.pass.status) && l !in s.pass.managed && !Vanished(s.pass, l.cluster) && !Reported(cfg, s.pass, l)
  {
    FineNeverUnhealthy(s.pass.conditions, cfg.clusterCondition(l.cluster));
    WalkMembers(s.pass.status);
    hide Vanished, Reported, LastClusterCondition, Tracked;
  }

  /** A choice that was possible at the start of a pass is done at its end. */
  lemma PossibleIsDone(cfg: Config, s0: State, s: State, later: World, c: Choice)
    requires LoopKept(cfg, s0, s, [], later) && ChoiceOk(cfg, s0.pass, s0.world, c)
    ensures Done(cfg, s.pass, c)
  {
    assert !Promised(cfg, s.pass.clusters, s.world, [], c);
    hide Done, ChoiceOk;
  }

  /** A target with a ruling definition at the start is reached and reported on. */
  lemma RuledIsReached(cfg: Config, s0: State, s: State, later: World, key: Location)
    requires LoopKept(cfg, s0, s, [], later) && Ruling(cfg, s0, key).Some?
    ensures key in s.pass.seen && Reported(cfg, s.pass, key)
  {
    var c := RulingHasChoice(cfg, s0.pass, s0.world, key);
    PossibleIsDone(cfg, s0, s, later, c);
    LoopKeptStored(cfg, s0, s, later);
    hide LoopKept, Ruling, ChoiceOk, Reported, NothingInvented, Named, InStore, NamespacesGrow;
  }

  /** What becomes of an object at the end of a quiet pass. */
  lemma ObjectAtEnd(cfg: Config, s0: State, s: State, s': State, l: Location)
    requires Passed(cfg, s0, s, s')
    ensures s'.world.namespaces == s.world.namespaces
    ensures Lookup(s'.world.objects, l) ==
            if IsObsolete(cfg, s.pass, l) then Effect(cfg, s.pass.id, ALL_OK, Lookup(s.world.objects, l)) else Lookup(s.world.objects, l)
    ensures l in s.pass.managed ==> !IsObsolete(cfg, s.pass, l)
    ensures l in s'.world.objects <==> l in s.world.objects
  {
    QuietObsolete(cfg, s0, s, s.world, l);
    hide IsObsolete, Tracked, WellFormed, Released, Marked, LoopKept, Scope;
  }

  lemma KeptObject(cfg: Config, s0: State, s: State, later: World, l: Location)
    requires LoopKept(cfg, s0, s, [], later)
    ensures l !in s.pass.managed ==> Lookup(s.world.objects, l) == Lookup(s0.world.objects, l)
    ensures l in s.pass.managed ==> l in s.world.objects && OwnedByThis(s.pass.id, s.world.objects[l]) && IsManaged(cfg.provider, s.pass.id, s.world.objects[l])
    ensures l in Tracked(s.pass.status) <==> l in Tracked(s0.pass.status) || l in s.pass.managed
  {
    hide KeysKept, SettledKept, IsManaged, OwnedByThis, Tracked, InStore;
  }

  /** What the next pass finds at l. */
  lemma NextObject(cfg: Config, s0: State, s: State, s': State, l: Location)
    requires Passed(cfg, s0, s, s')
    ensures var w := Vanish(s'.world);
            && w.namespaces == s.world.namespaces
            && (l in w.objects ==> l in s.world.objects && !w.objects[l].inDeletion)
            && (l in s.pass.managed && l in w.objects ==> w.objects[l] == s.world.objects[l] && OwnedByThis(s.pass.id, w.objects[l]))
            && (l !in s.pass.managed && l in w.objects ==>
                  || (l in s0.world.objects && w.objects[l] == s0.world.objects[l])
                  || (&& IsObsolete(cfg, s.pass, l) && l in s0.world.objects && w.objects[l] == Released(s0.world.objects[l])
                      && IsManaged(cfg.provider, s.pass.id, s0.world.objects[l]) && Kept(s0.world.objects[l])))
  {
    ObjectAtEnd(cfg, s0, s, s', l);
    KeptObject(cfg, s0, s, s.world, l);
    VanishLookup(s'.world, l);
    hide Passed, IsManaged, OwnedByThis, Kept, Released, IsObsolete, Tracked, Vanish;
  }

  lemma PassedKeeps(cfg: Config, s0: State, s: State, s': State)
    requires Passed(cfg, s0, s, s')
    ensures SameRequest(s0.pass, s.pass) && Named(s.world) && Housed(s.world) && ScopeKept(cfg, s0.pass) && InStore(s0)
    ensures NamespacesGrow(s0.world, s.world) && OnlyFresh(cfg, s0.world, s.world) && Housed(s0.world) && ListsAll(cfg)
  {
    hide Closed, KeysKept, SettledKept, ObjectsKept, StatusKept, InStore, ClustersFine, NoStrayLabel, ListsAll, ClustersOk, NamespacesGrow, OnlyFresh;
  }

  /** The state in which the pass after this one starts. */
  ghost predicate StartsNext(s0: State, s': State, t0: State) {
    SameRequest(s0.pass, t0.pass) && AtStart(t0.pass) && t0.world == Vanish(s'.world) && t0.persisted == s'.persisted && InStore(t0)
  }

  lemma NextInScope(cfg: Config, s0: State, s: State, s': State, t0: State)
    requires Passed(cfg, s0, s, s') && StartsNext(s0, s', t0)
    ensures Scope(cfg, t0) && NoMarks(t0.world) && t0.world.namespaces == s.world.namespaces
  {
    PassedKeeps(cfg, s0, s, s');
    ScopeStays(cfg, s0.pass, t0.pass);
    NextObjects(cfg, s0, s, s');
    hide Passed, NoStrayLabel, ListsAll, ClustersOk, Vanish, InStore, NamespacesGrow, OnlyFresh;
  }

  lemma NextObjects(cfg: Config, s0: State, s: State, s': State)
    requires Passed(cfg, s0, s, s')
    ensures var w := Vanish(s'.world);
            w.namespaces == s.world.namespaces && forall l :: l in w.objects ==> l in s.world.objects && !w.objects[l].inDeletion
  {
    var w := Vanish(s'.world);
    hide Passed, Vanish, IsManaged, OwnedByThis, Kept, Released, IsObsolete;
    NextObject(cfg, s0, s, s', Location(HOSTING, TypedRef(GVK("", "", ""), "", "")));
    forall l ensures l in w.objects ==> l in s.world.objects && !w.objects[l].inDeletion {
      NextObject(cfg, s0, s, s', l);
    }
  }

  // ---- What the next pass finds settled ----

  /** A definition that rules a target in the next pass ruled it in this one and settled, or it became first through
      a namespace that this pass created, and keeps the target in that namespace. */
  ghost predicate RuledBefore(cfg: Config, s0: State, s: State, key: Location, def: TargetDefinition) {
    || (Ruling(cfg, s0, key) == Some(def) && key in s.pass.seen && Reported(cfg, s.pass, key) && SettledHere(s, key, def))
    || (!IsNextTo(def) && View(s0.world, key).None? && View(s.world, key).Some?)
  }

  lemma NextRuled(cfg: Config, s0: State, s: State, s': State, t0: State, key: Location)
    requires Passed(cfg, s0, s, s') && StartsNext(s0, s', t0) && Ruling(cfg, t0, key).Some?
    ensures RuledBefore(cfg, s0, s, key, Ruling(cfg, t0, key).value)
  {
    PassedKeeps(cfg, s0, s, s');
    NextInScope(cfg, s0, s, s', t0);
    SameRulings(cfg, s0.pass, t0.pass, s.world, t0.world, key);
    hide Closed, Scope, StartsNext, SettledHere, Reported, View, Vanish, WorldKept, KeysKept, ScopeKept, OnlyFresh, Housed, InStore, NoMarks;
    if Ruling(cfg, s0, key) == RulingIn(cfg, s0.pass, s.world, key) {
      RuledIsReached(cfg, s0, s, s.world, key);
      assert Lasts(cfg, s0, s, s.world, key);
    } else {
      var _ := FirstChanges(cfg, s0.pass.input, s0.pass.clusters, s0.world, s.world, AllTasks(s0.pass), key);
    }
  }

  /** After a quiet pass no ruling definition would create a namespace. */
  lemma NextMakesNone(cfg: Config, s0: State, s: State, s': State, t0: State)
    requires Passed(cfg, s0, s, s') && StartsNext(s0, s', t0)
    ensures NoneToCreate(cfg, t0)
  {
    NextInScope(cfg, s0, s, s', t0);
    hide Passed, Scope, StartsNext, Ruling, NoMarks;
    forall key | Ruling(cfg, t0, key).Some? ensures MakesNoNamespace(t0.world, key, Ruling(cfg, t0, key).value) {
      NextRuled(cfg, s0, s, s', t0, key);
    }
  }

  /** Conditions are named for l by a choice that is possible. */
  ghost predicate NamedByChoice(cfg: Config, s0: State, l: Location) {
    exists c :: ChoiceOk(cfg, s0.pass, s0.world, c) && NamedKey(cfg, s0.pass.input, c).Some?
      && cfg.targetCondition(NamedKey(cfg, s0.pass.input, c).value) == cfg.targetCondition(l)
  }

  /** A copy next to a Cluster is wanted at l under the Overwrite policy. */
  ghost predicate WantedBeside(cfg: Config, s0: State, l: Location) {
    exists c :: ChoiceOk(cfg, s0.pass, s0.world, c) && IsNextTo(c.def) && c.def.conflictPolicy.Overwrite?
      && RenderedKey(cfg, s0.pass.input, c).Some? && HomeUnder(c.def, RenderedKey(cfg, s0.pass.input, c).value) == l
  }

  /** A tracked entry for which no condition will be set holds an object that a namesake in another namespace owns and that is labelled Keep:
      this pass takes it for its own and releases it, and then a copy wanted there can take it over. */
  ghost predicate KeptNamesake(cfg: Config, s0: State, l: Location) {
    && l in Tracked(s0.persisted) && l in s0.world.objects
    && var o := s0.world.objects[l];
    && IsManaged(cfg.provider, s0.pass.id, o) && Kept(o) && !OwnedByThis(s0.pass.id, o)
    && !NamedByChoice(cfg, s0, l) && WantedBeside(cfg, s0, l)
  }

  ghost predicate NoKeptNamesake(cfg: Config, s0: State) {
    forall l :: !KeptNamesake(cfg, s0, l)
  }

  /** What a choice of the start names is reported on at the end of the loops. */
  lemma NamedIsReported(cfg: Config, s0: State, s: State, later: World, l: Location)
    requires LoopKept(cfg, s0, s, [], later) && NamedByChoice(cfg, s0, l)
    ensures Reported(cfg, s.pass, l)
  {
    var c :| ChoiceOk(cfg, s0.pass, s0.world, c) && NamedKey(cfg, s0.pass.input, c).Some?
      && cfg.targetCondition(NamedKey(cfg, s0.pass.input, c).value) == cfg.targetCondition(l);
    PossibleIsDone(cfg, s0, s, later, c);
    LoopKeptStored(cfg, s0, s, later);
    hide LoopKept, ChoiceOk, NothingInvented, Named, InStore, NamespacesGrow;
  }

  /** An object released from the home of a ruled target whose definition wants it is a kept namesake's. */
  lemma ReleasedIsKeptNamesakes(cfg: Config, s0: State, s: State, s': State, key: Location, def: TargetDefinition)
    requires Passed(cfg, s0, s, s')
    requires Ruling(cfg, s0, key) == Some(def) && Reported(cfg, s.pass, key) && SettledHere(s, key, def) && def.conflictPolicy.Overwrite?
    requires var home := HomeUnder(def, key);
             && home !in s.pass.managed && IsObsolete(cfg, s.pass, home) && home in s0.world.objects
             && IsManaged(cfg.provider, s.pass.id, s0.world.objects[home]) && Kept(s0.world.objects[home])
    ensures KeptNamesake(cfg, s0, HomeUnder(def, key))
  {
    var home := HomeUnder(def, key);
    QuietObsolete(cfg, s0, s, s.world, home);
    KeptObject(cfg, s0, s, s.world, home);
    PassedKeeps(cfg, s0, s, s');
    var c := RulingHasChoice(cfg, s0.pass, s0.world, key);
    assert IsNextTo(def);
    assert WantedBeside(cfg, s0, home);
    if NamedByChoice(cfg, s0, home) {
      NamedIsReported(cfg, s0, s, s.world, home);
    }
    hide Passed, NamedByChoice, WantedBeside, IsManaged, OwnedByThis, Kept, Tracked, IsObsolete, Reported, Vanished, HomeUnder, Ruling;
  }

  lemma ReleasedIsNobodys(id: ReplicaId, def: TargetDefinition, o: Object)
    requires !def.conflictPolicy.Overwrite?
    ensures JudgeExisting(def, id, Released(o)).Refuse?
  {
    KindLabelsDiffer();
  }

  /** After a quiet pass, and once marked objects are gone, the next pass finds every target settled. */
  lemma NextIsSettled(cfg: Config, s0: State, s: State, s': State, t0: State, key: Location)
    requires Passed(cfg, s0, s, s') && StartsNext(s0, s', t0) && NoKeptNamesake(cfg, s0)
    requires Ruling(cfg, t0, key).Some?
    ensures Settled(t0.pass, t0.world, key, Ruling(cfg, t0, key).value)
  {
    var def := Ruling(cfg, t0, key).value;
    var home := HomeUnder(def, key);
    NextRuled(cfg, s0, s, s', t0, key);
    NextMakesNone(cfg, s0, s, s', t0);
    PassedKeeps(cfg, s0, s, s');
    NextObject(cfg, s0, s, s', home);
    KeptObject(cfg, s0, s, s.world, home);
    hide Passed, Ruling, Reported, IsObsolete, Tracked, Vanish, ScopeKept, OnlyFresh, InStore, IsManaged, Kept, OwnedByThis, JudgeExisting, Released, KeptNamesake;
    if home in t0.world.objects && !OwnedByThis(t0.pass.id, t0.world.objects[home]) {
      assert home !in s.pass.managed && home in s0.world.objects;
      assert Ruling(cfg, s0, key) == Some(def) && SettledHere(s, key, def);
      if t0.world.objects[home] != s0.world.objects[home] {
        if def.conflictPolicy.Overwrite? {
          ReleasedIsKeptNamesakes(cfg, s0, s, s', key, def);
        }
        assert !def.conflictPolicy.Overwrite?;
        ReleasedIsNobodys(t0.pass.id, def, s0.world.objects[home]);
      }
    }
  }

  /** After a quiet pass without a kept namesake the next pass starts ready. */
  lemma NextIsReady(cfg: Config, s0: State, s: State, s': State, t0: State)
    requires Passed(cfg, s0, s, s') && StartsNext(s0, s', t0) && NoKeptNamesake(cfg, s0)
    ensures Ready(cfg, t0)
  {
    NextInScope(cfg, s0, s, s', t0);
    forall key | Ruling(cfg, t0, key).Some? ensures Settled(t0.pass, t0.world, key, Ruling(cfg, t0, key).value) {
      NextIsSettled(cfg, s0, s, s', t0, key);
    }
    hide Scope, Settled, Ruling, Passed;
  }

  /** What becomes of an entry at the end of a quiet pass. */
  lemma EntryAtEnd(cfg: Config, s0: State, s: State, s': State, l: Location)
    requires Passed(cfg, s0, s, s')
    ensures s'.persisted == s'.pass.status
    ensures l in Tracked(s'.persisted) <==>
            || l in s.pass.managed
            || (l in Tracked(s.pass.status) && !Vanished(s.pass, l.cluster)
                && (Reported(cfg, s.pass, l) || Waits(cfg, s.pass.id, Lookup(s.world.objects, l))))
    ensures IsObsolete(cfg, s.pass, l) && Waits(cfg, s.pass.id, Lookup(s.world.objects, l)) ==> l !in Vanish(s'.world).objects
    ensures IsObsolete(cfg, s.pass, l) <==>
            l in Tracked(s.pass.status) && l !in s.pass.managed && !Vanished(s.pass, l.cluster) && !Reported(cfg, s.pass, l)
  {
    LoopKeptStored(cfg, s0, s, s.world);
    QuietObsolete(cfg, s0, s, s.world, l);
    VanishLookup(s'.world, l);
    hide LoopKept, Scope, IsObsolete, Vanished, Reported, Tracked, WellFormed, Vanish;
  }

  lemma PossibleAgain(cfg: Config, p: Pass, q: Pass, w: World, w': World, c: Choice)
    requires SameRequest(p, q) && w.namespaces == w'.namespaces && ChoiceOk(cfg, p, w, c)
    ensures ChoiceOk(cfg, q, w', c)
  {
    SameResolved(cfg, c.def, c.cluster, w, w');
  }

  lemma ReportedIsNamed(cfg: Config, s0: State, s: State, s': State, t0: State, l: Location)
    requires Passed(cfg, s0, s, s') && StartsNext(s0, s', t0) && Reported(cfg, s.pass, l)
    ensures NamedByChoice(cfg, t0, l)
  {
    LoopKeptStored(cfg, s0, s, s.world);
    NextInScope(cfg, s0, s, s', t0);
    hide Passed, ChoiceOk, InStore, Scope, NoMarks, Named, NamespacesGrow, Vanish;
    var x :| x in s.pass.conditions && x.TargetCondition? && x.name == cfg.targetCondition(l);
    var c :| ChoiceOk(cfg, s.pass, s.world, c) && NamedKey(cfg, s.pass.input, c).Some? && x.name == cfg.targetCondition(NamedKey(cfg, s.pass.input, c).value);
    PossibleAgain(cfg, s.pass, t0.pass, s.world, t0.world, c);
  }

  /** After a quiet pass there is no kept namesake in the way of the next one. */
  lemma NextHasNoKeptNamesake(cfg: Config, s0: State, s: State, s': State, t0: State)
    requires Passed(cfg, s0, s, s') && StartsNext(s0, s', t0)
    ensures NoKeptNamesake(cfg, t0)
  {
    PassedKeeps(cfg, s0, s, s');
    forall l ensures !KeptNamesake(cfg, t0, l) {
      EntryAtEnd(cfg, s0, s, s', l);
      NextObject(cfg, s0, s, s', l);
      hide Passed, IsManaged, OwnedByThis, Kept, Tracked, IsObsolete, Vanished, Reported, Vanish, WantedBeside, NamedByChoice, Waits, Released, NamespacesGrow,
        OnlyFresh, Housed, Named, ScopeKept;
      if l in t0.world.objects && l in Tracked(t0.persisted) && l !in s.pass.managed && Reported(cfg, s.pass, l) {
        ReportedIsNamed(cfg, s0, s, s', t0, l);
      }
    }
  }

  // ---- Homes that repeat ----

  /** With the namespaces there are now, the ruling definition keeps the target at l. */
  ghost predicate RuledHome(cfg: Config, s: State, l: Location, key: Location) {
    && key in s.pass.seen && RulingIn(cfg, s.pass, s.world, key).Some?
    && HomeUnder(RulingIn(cfg, s.pass, s.world, key).value, key) == l
  }

  /** What has been synced will be synced again. */
  ghost predicate HomesRepeat(cfg: Config, s: State) {
    forall l :: l in s.pass.managed ==> exists key :: RuledHome(cfg, s, l, key)
  }

  /** A pass that created no namespace repeats its homes. */
  lemma RepeatsWithoutNamespaces(cfg: Config, s0: State, s: State)
    requires LoopKept(cfg, s0, s, [], s.world) && s.world.namespaces == s0.world.namespaces && ListsAll(cfg)
    ensures HomesRepeat(cfg, s)
  {
    forall l | l in s.pass.managed ensures exists key :: RuledHome(cfg, s, l, key) {
      var c :| SyncedFor(cfg, s0, s, s.world, l, c);
      var key := RenderedKey(cfg, s.pass.input, c).value;
      SameRulings(cfg, s0.pass, s.pass, s.world, s.world, key);
      SameRulings(cfg, s0.pass, s0.pass, s.world, s0.world, key);
      assert Lasts(cfg, s0, s, s.world, key);
      assert RuledHome(cfg, s, l, key);
    }
  }

  /** A choice onto a Cluster in a namespace that does not exist, but would be selected if a pass created it. */
  ghost predicate LateChoice(cfg: Config, s0: State, c: Choice) {
    && c.def in s0.pass.defs && c.cluster in MatchedClusters(cfg, c.def, s0.pass.clusters) && Live(c.cluster)
    && !IsNextTo(c.def) && c.def.namespaces.Some? && c.def.namespaces.value.matchIdentities.None?
    && (OwnRef(c.cluster), c.namespace) !in s0.world.namespaces
    && NamespaceMatches(cfg, c.def.namespaces.value, c.namespace, cfg.freshLabels(c.namespace)) == Some(true)
  }

  /** The two choices render targets with one key. */
  predicate SameTarget(cfg: Config, input: string, c: Choice, d: Choice) {
    RenderedKey(cfg, input, c).Some? && RenderedKey(cfg, input, c) == RenderedKey(cfg, input, d)
  }

  /** A copy wanted next to a Cluster has the key of one wanted on that Cluster in a namespace that does not exist yet:
      once the namespace is there, the second may come first and take the key over. */
  ghost predicate Overtaken(cfg: Config, s0: State, c: Choice, d: Choice) {
    ChoiceOk(cfg, s0.pass, s0.world, c) && IsNextTo(c.def) && LateChoice(cfg, s0, d) && SameTarget(cfg, s0.pass.input, c, d)
  }

  ghost predicate NoneOvertaken(cfg: Config, s0: State) {
    forall c, d :: !Overtaken(cfg, s0, c, d)
  }

  /** If no copy next to a Cluster can be overtaken, every pass repeats its homes. */
  lemma RepeatsIfNoneOvertaken(cfg: Config, s0: State, s: State)
    requires LoopKept(cfg, s0, s, [], s.world) && NoneOvertaken(cfg, s0) && ListsAll(cfg)
    ensures HomesRepeat(cfg, s)
  {
    hide WorldKept, SettledKept, NothingForgotten, NothingInvented, FirstIsAhead, AgendaOk, NoneOvertaken, NamespacesGrow, OnlyFresh, ListsAll;
    assert OnlyFresh(cfg, s0.world, s.world) by {
      FreshKept(cfg, s0, s);
    }
    forall l | l in s.pass.managed ensures exists key :: RuledHome(cfg, s, l, key) {
      var c :| SyncedFor(cfg, s0, s, s.world, l, c);
      SyncedIsRuledHome(cfg, s0, s, l, c);
    }
  }

  lemma FreshKept(cfg: Config, s0: State, s: State)
    requires WorldKept(cfg, s0, s)
    ensures OnlyFresh(cfg, s0.world, s.world)
  {}

  lemma SyncedIsRuledHome(cfg: Config, s0: State, s: State, l: Location, c: Choice)
    requires NoneOvertaken(cfg, s0) && ListsAll(cfg) && SyncedFor(cfg, s0, s, s.world, l, c) && Named(s.world)
    requires SameRequest(s0.pass, s.pass) && NamespacesGrow(s0.world, s.world) && OnlyFresh(cfg, s0.world, s.world)
    ensures RuledHome(cfg, s, l, RenderedKey(cfg, s.pass.input, c).value)
  {
    var key := RenderedKey(cfg, s.pass.input, c).value;
    SameRulings(cfg, s0.pass, s.pass, s.world, s.world, key);
    if Ruling(cfg, s0, key) == RulingIn(cfg, s0.pass, s.world, key) {
      assert Lasts(cfg, s0, s, s.world, key);
    } else {
      var d := FirstChanges(cfg, s0.pass.input, s0.pass.clusters, s0.world, s.world, AllTasks(s0.pass), key);
      LateIfNew(cfg, s0, s, d);
      hide ChoiceOk, RulingIn, RenderedKey, NamespacesGrow, OnlyFresh, ListsAll, Lasts, LateChoice, NewlySelected, Overtaken;
      if IsNextTo(c.def) {
        BesideIsOvertaken(cfg, s0, s, c, d);
      }
    }
  }

  lemma BesideIsOvertaken(cfg: Config, s0: State, s: State, c: Choice, d: Choice)
    requires SameRequest(s0.pass, s.pass) && ChoiceOk(cfg, s.pass, s.world, c) && IsNextTo(c.def)
    requires LateChoice(cfg, s0, d) && SameTarget(cfg, s0.pass.input, c, d)
    ensures Overtaken(cfg, s0, c, d)
  {
    hide LateChoice, RenderedKey;
  }

  lemma LateIfNew(cfg: Config, s0: State, s: State, d: Choice)
    requires Promised(cfg, s0.pass.clusters, s.world, AllTasks(s0.pass), d)
    requires NewlySelected(cfg, s0.world, s.world, d) && OnlyFresh(cfg, s0.world, s.world)
    ensures LateChoice(cfg, s0, d)
  {
    PromisedByAll(cfg, s0.pass, s.world, d);
    hide Resolved, MatchedClusters, NamespaceMatches;
  }

  // ---- The second pass has nothing to delete ----

  /** The loops of two passes, the second starting ready where the first ended. */
  ghost predicate Follows(cfg: Config, s0: State, s: State, s': State, t0: State, t: State) {
    Passed(cfg, s0, s, s') && HomesRepeat(cfg, s) && StartsNext(s0, s', t0) && ReadyKept(cfg, t0, t, [])
  }

  lemma FollowsKept(cfg: Config, s0: State, s: State, s': State, t0: State, t: State)
    requires Follows(cfg, s0, s, s', t0, t)
    ensures LoopKept(cfg, s0, s, [], s.world) && LoopKept(cfg, t0, t, [], t0.world) && SameRequest(s.pass, t0.pass) && SameRequest(s.pass, t.pass)
    ensures t0.world.namespaces == s.world.namespaces && t.world.namespaces == s.world.namespaces
    ensures NothingInvented(cfg, s) && t0.pass.status == s'.persisted && NoMarks(t.world)
  {
    NextInScope(cfg, s0, s, s', t0);
    NoMarksStay(cfg, t0, t);
    hide Scope, WorldKept, KeysKept, SettledKept, Closed, Ready, ScopeKept, NoMarks;
    LoopKeptStored(cfg, s0, s, s.world);
    LoopKeptStored(cfg, t0, t, t0.world);
  }

  /** What one pass reported on or reached, the next one does too. */
  lemma ReportedAgain(cfg: Config, s0: State, s: State, s': State, t0: State, t: State, l: Location)
    requires Follows(cfg, s0, s, s', t0, t)
    ensures Reported(cfg, s.pass, l) ==> Reported(cfg, t.pass, l)
    ensures l in s.pass.seen ==> l in t.pass.seen
  {
    FollowsKept(cfg, s0, s, s', t0, t);
    hide LoopKept, ReadyKept, Passed, ChoiceOk, StartsNext, HomesRepeat, NoMarks, Reported, NamedByChoice;
    if Reported(cfg, s.pass, l) {
      ReportedIsNamed(cfg, s0, s, s', t0, l);
      NamedIsReported(cfg, t0, t, t0.world, l);
    }
    if l in s.pass.seen {
      var c :| ChoiceOk(cfg, s.pass, s.world, c) && RenderedKey(cfg, s.pass.input, c) == Some(l);
      PossibleAgain(cfg, s.pass, t0.pass, s.world, t0.world, c);
      PossibleIsDone(cfg, t0, t, t0.world, c);
    }
  }

  /** What one pass synced and is still there, the next one syncs. */
  lemma SyncedAgain(cfg: Config, s0: State, s: State, s': State, t0: State, t: State, l: Location)
    requires Follows(cfg, s0, s, s', t0, t) && l in s.pass.managed && l in t0.world.objects
    ensures l in t.pass.managed
  {
    FollowsKept(cfg, s0, s, s', t0, t);
    NextObject(cfg, s0, s, s', l);
    var key :| RuledHome(cfg, s, l, key);
    ReportedAgain(cfg, s0, s, s', t0, t, key);
    PassedKeeps(cfg, s0, s, s');
    SameRulings(cfg, s.pass, t0.pass, s.world, t0.world, key);
    assert WrittenIfAllowed(cfg, t0, t, key);
    hide LoopKept, Passed, OwnedByThis, HomeUnder, Ready, IsManaged, RulingIn, NoMarks, ScopeKept, Vanish, HomesRepeat, Released, Kept, IsObsolete;
  }

  /** Nothing the second pass would delete carries the replica's labels. */
  lemma NothingToDelete(cfg: Config, s0: State, s: State, s': State, t0: State, t: State, l: Location)
    requires Follows(cfg, s0, s, s', t0, t) && IsObsolete(cfg, t.pass, l)
    ensures l !in t.world.objects
  {
    FollowsKept(cfg, s0, s, s', t0, t);
    QuietObsolete(cfg, t0, t, t0.world, l);
    KeptObject(cfg, t0, t, t0.world, l);
    assert Vanished(s.pass, l.cluster) == Vanished(t.pass, l.cluster);
    EntryAtEnd(cfg, s0, s, s', l);
    ReportedAgain(cfg, s0, s, s', t0, t, l);
    hide IsObsolete, Vanished, Tracked, LoopKept, IsManaged, OwnedByThis, Vanish, HomesRepeat, Passed, ReadyKept, NothingInvented, NoMarks;
    if l in s.pass.managed && l in t0.world.objects {
      SyncedAgain(cfg, s0, s, s', t0, t, l);
    }
  }

  lemma EndKeepsObject(cfg: Config, s0: State, s: State, s': State, t0: State, t: State, t': State, l: Location)
    requires Follows(cfg, s0, s, s', t0, t) && Passed(cfg, t0, t, t')
    ensures Lookup(t'.world.objects, l) == Lookup(t.world.objects, l)
  {
    ObjectAtEnd(cfg, t0, t, t', l);
    hide Follows, Passed, IsObsolete;
    if IsObsolete(cfg, t.pass, l) {
      NothingToDelete(cfg, s0, s, s', t0, t, l);
    }
  }

  lemma NoMarksStay(cfg: Config, t0: State, t: State)
    requires ReadyKept(cfg, t0, t, [])
    ensures NoMarks(t.world) && t.world.namespaces == t0.world.namespaces
  {
    hide KeysKept, SettledKept, InStore, StatusKept, IsManaged, OwnedByThis, Scope, Ruling, Settled;
  }

  lemma VanishNone(w: World)
    requires NoMarks(w)
    ensures Vanish(w) == w
  {
    assert Vanish(w).objects == w.objects;
  }

  /** So the end of the second pass touches no object. */
  lemma SecondEndKeepsObjects(cfg: Config, s0: State, s: State, s': State, t0: State, t: State, t': State)
    requires Follows(cfg, s0, s, s', t0, t) && Passed(cfg, t0, t, t')
    ensures t'.world == t.world && Vanish(t'.world) == t'.world
  {
    forall l ensures Lookup(t'.world.objects, l) == Lookup(t.world.objects, l) {
      EndKeepsObject(cfg, s0, s, s', t0, t, t', l);
    }
    ObjectAtEnd(cfg, t0, t, t', Location(HOSTING, TypedRef(GVK("", "", ""), "", "")));
    NoMarksStay(cfg, t0, t);
    hide Follows, Passed, IsObsolete;
    SameLookups(t'.world.objects, t.world.objects);
    VanishNone(t.world);
  }

  // ---- The third pass writes what is there ----

  /** Homes of reached targets are allowed after the loops of a ready pass exactly if they were before. */
  lemma AllowedStays(cfg: Config, t0: State, t: State, key: Location)
    requires ReadyKept(cfg, t0, t, []) && key in t.pass.seen
    ensures Ruling(cfg, t0, key).Some?
    ensures var home := HomeUnder(Ruling(cfg, t0, key).value, key);
            (Allowed(t0.pass.id, t0.world, home) <==> Allowed(t0.pass.id, t.world, home)) && (home in t.pass.managed <==> Allowed(t0.pass.id, t0.world, home))
  {
    NoMarksStay(cfg, t0, t);
    assert LoopKept(cfg, t0, t, [], t0.world) && SteadyKept(cfg, t0, t);
    assert WrittenIfAllowed(cfg, t0, t, key);
    hide LoopKept, Ready, HomeUnder, OwnedByThis, IsManaged, Tracked, Ruling, SteadyKept;
    KeptObject(cfg, t0, t, t0.world, HomeUnder(Ruling(cfg, t0, key).value, key));
    ReadyRequest(cfg, t0, t, []);
  }

  lemma AllowedAgain(cfg: Config, t0: State, t: State, u0: State)
    requires ReadyKept(cfg, t0, t, []) && u0.world == t.world && SameRequest(t0.pass, u0.pass)
    ensures SameAllowed(cfg, t0, u0)
  {
    forall key | Ruling(cfg, t0, key).Some?
      ensures var home := HomeUnder(Ruling(cfg, t0, key).value, key); Allowed(t0.pass.id, t0.world, home) <==> Allowed(u0.pass.id, u0.world, home)
    {
      assert LoopKept(cfg, t0, t, [], t0.world);
      hide LoopKept, Ready, HomeUnder, Ruling, Allowed, SteadyKept;
      RuledIsReached(cfg, t0, t, t0.world, key);
      AllowedStays(cfg, t0, t, key);
    }
  }

  lemma RulingAgain(cfg: Config, t0: State, t: State, u0: State, key: Location)
    requires ReadyKept(cfg, t0, t, []) && u0.world == t.world && SameRequest(t0.pass, u0.pass)
    ensures Ruling(cfg, u0, key) == Ruling(cfg, t0, key)
  {
    NoMarksStay(cfg, t0, t);
    assert Scope(cfg, t0);
    hide ReadyKept, NoMarks, RulingIn;
    SameRulings(cfg, t0.pass, u0.pass, t0.world, u0.world, key);
  }

  /** The third pass syncs what the second one synced. */
  lemma ManagedAgain(cfg: Config, t0: State, t: State, u0: State, u: State, l: Location)
    requires ReadyKept(cfg, t0, t, []) && ReadyKept(cfg, u0, u, []) && u0.world == t.world
    requires SameRequest(t0.pass, u0.pass) && u.pass.seen == t.pass.seen
    ensures l in t.pass.managed <==> l in u.pass.managed
  {
    assert HomesAreReal(cfg, t0, t, t0.world) && HomesAreReal(cfg, u0, u, u0.world) && SteadyKept(cfg, t0, t) && SteadyKept(cfg, u0, u);
    hide ReadyKept, HomeUnder, Allowed, Ruling, SteadyKept, HomesAreReal;
    if l in t.pass.managed {
      var key := ManagedHasKey(cfg, t0, t, l);
      AllowedStays(cfg, t0, t, key);
      AllowedStays(cfg, u0, u, key);
      RulingAgain(cfg, t0, t, u0, key);
    }
    if l in u.pass.managed {
      var key := ManagedHasKey(cfg, u0, u, l);
      AllowedStays(cfg, t0, t, key);
      AllowedStays(cfg, u0, u, key);
      RulingAgain(cfg, t0, t, u0, key);
    }
  }

  lemma MirrorStart(s0: State, t0: State)
    requires SameRequest(s0.pass, t0.pass) && s0.world.namespaces == t0.world.namespaces && AtStart(s0.pass) && AtStart(t0.pass)
    ensures Mirror(s0, s0, t0, t0)
  {
    forall l ensures BothFold(l, s0.world, s0.world, t0.world, t0.world) {
      assert Folds([], l, s0.world, s0.world) && Folds([], l, t0.world, t0.world);
    }
  }

  /** Loops that start from what the same loops left write it again and change nothing. */
  lemma RewritesNothing(s0: State, s: State, t0: State, t: State)
    requires Mirror(s0, s, t0, t) && t0.world == s.world
    ensures t.world == t0.world
  {
    forall l ensures Lookup(t.world.objects, l) == Lookup(t0.world.objects, l) {
      assert BothFold(l, s0.world, s.world, t0.world, t.world);
      var copies :| Folds(copies, l, s0.world, s.world) && Folds(copies, l, t0.world, t.world);
      FoldTwice(copies, Lookup(s0.world.objects, l));
    }
    hide SameWrites;
    SameLookups(t.world.objects, t0.world.objects);
  }

  lemma ReadyRun(cfg: Config, fates: Oracle, t0: State)
    requires QuietOracle(fates) && Ready(cfg, t0)
    ensures ReadyKept(cfg, t0, AfterLoops(cfg, fates, t0), [])
  {
    ReadyAtStart(cfg, t0);
    MirrorStart(t0, t0);
    hide Run, Ready, ReadyKept, Mirror, QuietOracle;
    assert SameAllowed(cfg, t0, t0);
    hide SameAllowed;
    MirrorRun(cfg, fates, fates, t0, t0, t0, t0, AllTasks(t0.pass));
  }

  lemma ThirdLoops(cfg: Config, f: Oracle, g: Oracle, t0: State, u0: State)
    requires QuietOracle(f) && QuietOracle(g) && Ready(cfg, t0) && Ready(cfg, u0)
    requires u0.world == AfterLoops(cfg, f, t0).world && SameRequest(t0.pass, u0.pass)
    ensures var t, u := AfterLoops(cfg, f, t0), AfterLoops(cfg, g, u0);
            && ReadyKept(cfg, t0, t, []) && ReadyKept(cfg, u0, u, [])
            && u.world == u0.world && u.pass.seen == t.pass.seen
  {
    var t, u := AfterLoops(cfg, f, t0), AfterLoops(cfg, g, u0);
    ReadyRun(cfg, f, t0);
    NoMarksStay(cfg, t0, t);
    AllowedAgain(cfg, t0, t, u0);
    ReadyAtStart(cfg, t0);
    ReadyAtStart(cfg, u0);
    assert AtStart(t0.pass) && AtStart(u0.pass);
    MirrorStart(t0, u0);
    hide Run, Ready, ReadyKept, SameAllowed, QuietOracle, SameWrites;
    MirrorRun(cfg, f, g, t0, t0, u0, u0, AllTasks(t0.pass));
    RewritesNothing(t0, t, u0, u);
  }

  // ---- The end of the third pass finds nothing to do ----

  lemma {:induction false} ForgetsNothing(p: Pass, clusters: seq<ObjectReference>, status: seq<Group>)
    requires forall c :: c in clusters && Vanished(p, c) ==> Leftover(p, c) == []
    ensures Forget(p, clusters, status) == status
  {
    hide Vanished, Leftover;
    if clusters != [] {
      assert forall c :: c in clusters[1..] ==> c in clusters;
      assert Vanished(p, clusters[0]) ==> Leftover(p, clusters[0]) == [];
      assert ForgetRefs(clusters[0], [], status) == status;
      ForgetsNothing(p, clusters[1..], status);
    }
  }

  /** The state is the same but for counters. */
  ghost predicate Idle(s: State, s': State) {
    s'.world == s.world && s'.persisted == s.persisted && s'.pass == s.pass.(clock := s'.pass.clock)
  }

  lemma {:induction false} DeletesNothing(cfg: Config, fates: Oracle, buckets: seq<Bucket>, s: State)
    requires QuietOracle(fates) && forall b :: b in buckets ==> b.refs == []
    ensures Idle(s, Run(cfg, fates, [Obsolete(buckets)], s))
    decreases |buckets|
  {
    if buckets == [] {
      RunNoBuckets(cfg, fates, s);
    } else {
      var i := fates(s.pass.clock, Obsolete(buckets)).pick % |buckets|;
      var b := buckets[i];
      RunPick(cfg, fates, buckets, s);
      assert b in buckets && Succeeds(fates(Ticked(s).pass.clock, OpenBucket(b)));
      assert Step(cfg, fates(Ticked(s).pass.clock, OpenBucket(b)), OpenBucket(b), Ticked(s)) == (Ticked(s), []);
      RunLeaf(cfg, fates, OpenBucket(b), Ticked(s));
      hide Run, QuietOracle;
      DeletesNothing(cfg, fates, Without(buckets, i), Run(cfg, fates, [OpenBucket(b)], Ticked(s)));
    }
  }

  ghost predicate NoEmptyGroup(gs: seq<Group>) {
    forall g :: g in gs ==> g.resources != []
  }

  lemma {:induction false} CleanedIsFull(gs: seq<Group>)
    ensures NoEmptyGroup(Cleaned(gs)) && (NoEmptyGroup(gs) ==> Cleaned(gs) == gs)
  {
    if gs != [] {
      CleanedIsFull(gs[1..]);
      assert gs[0] in gs && forall g :: g in gs[1..] ==> g in gs;
    }
  }

  lemma {:induction false} TrackAllIsFull(ls: seq<Location>, gs: seq<Group>)
    requires NoEmptyGroup(gs)
    ensures NoEmptyGroup(TrackAll(ls, gs))
  {
    if ls != [] {
      var gs' := AddedAt(gs, ls[0]);
      forall g | g in gs' ensures g.resources != [] {
        if g !in gs {
          var i := TypeIndex(gs, ls[0].ref.gvk);
          assert i < |gs| ==> gs[i] in gs;
        }
      }
      TrackAllIsFull(ls[1..], gs');
    }
  }

  /** A pass that has nothing to delete, nothing to forget and nothing to add ends as its loops ended. */
  lemma NothingToDo(cfg: Config, fates: Oracle, s: State)
    requires QuietOracle(fates) && InStore(s) && NoEmptyGroup(s.pass.status)
    requires forall l :: !IsObsolete(cfg, s.pass, l)
    requires forall l :: l in s.pass.managed ==> l in Tracked(s.pass.status)
    requires forall l :: l in Tracked(s.pass.status) ==> l in s.pass.managed || !Vanished(s.pass, l.cluster)
    ensures var s' := Run(cfg, fates, [Plan, Cleanup, UpdateStatus], s); s'.world == s.world && s'.persisted == s.persisted
  {
    var p := s.pass;
    var clusters := ClustersOf(Walk(p.status));
    var buckets := BucketsFor(cfg, p, clusters);
    var s1 := Ticked(PlanDeletion(cfg, s).0);
    QuietSequence(cfg, fates, s);
    forall c | c in clusters && Vanished(p, c) ensures Leftover(p, c) == [] {
      NoLeftover(p, c);
    }
    ForgetsNothing(p, clusters, p.status);
    forall b | b in buckets ensures b.refs == [] {
      NothingInBucket(cfg, p, b);
    }
    DeletesNothing(cfg, fates, buckets, s1);
    var s2 := Run(cfg, fates, [Obsolete(buckets)], s1);
    assert s2.pass.status == p.status && s2.pass.managed == p.managed && s2.persisted == s.persisted && s2.pass.oldStatus == p.oldStatus;
    CleanedIsFull(p.status);
    TrackAllTracked(p.managed, p.status);
    hide Run, QuietOracle, Tracked, WellFormed, IsObsolete, Vanished, BucketsFor, Cleaned, Forget, ClustersOf, Leftover;
  }

  lemma NoLeftover(p: Pass, c: ObjectReference)
    requires forall l :: l in Tracked(p.status) ==> l in p.managed || !Vanished(p, l.cluster)
    requires Vanished(p, c)
    ensures Leftover(p, c) == []
  {
    WalkMembers(p.status);
    RefsOnMembers(Walk(p.status), c);
    UnmanagedMembers(p.managed, c, RefsOn(Walk(p.status), c));
    hide Vanished, Tracked;
    assert forall r :: r in Leftover(p, c) ==> Location(c, r) in Tracked(p.status) && Location(c, r) !in p.managed;
    HasMember(Leftover(p, c));
  }

  lemma HasMember<T>(s: seq<T>)
    ensures s != [] ==> exists x :: x in s
  {
    assert s != [] ==> s[0] in s;
  }

  lemma NothingInBucket(cfg: Config, p: Pass, b: Bucket)
    requires WellFormed(p.status) && b in BucketsFor(cfg, p, ClustersOf(Walk(p.status)))
    requires forall l :: !IsObsolete(cfg, p, l)
    ensures b.refs == []
  {
    if b.refs != [] {
      var l := Location(b.cluster, b.refs[0]);
      assert InBuckets(BucketsFor(cfg, p, ClustersOf(Walk(p.status))), l);
      PlanIsExact(cfg, p, l);
    }
  }

  /** The status a pass ends with has no empty group. */
  lemma EndIsFull(cfg: Config, fates: Oracle, s: State)
    requires QuietOracle(fates)
    ensures NoEmptyGroup(Run(cfg, fates, [Plan, Cleanup, UpdateStatus], s).pass.status)
  {
    QuietSequence(cfg, fates, s);
    var s1 := Ticked(PlanDeletion(cfg, s).0);
    var s2 := Run(cfg, fates, [Obsolete(BucketsFor(cfg, s.pass, ClustersOf(Walk(s.pass.status))))], s1);
    CleanedIsFull(s2.pass.status);
    TrackAllIsFull(s2.pass.managed, Cleaned(s2.pass.status));
    hide Run, QuietOracle, Cleaned, NoEmptyGroup;
  }

  /** In the third pass every entry is synced again, or on a cluster that is there and reported on again. */
  lemma EntryAgain(cfg: Config, s0: State, s: State, s': State, t0: State, t: State, t': State, u0: State, u: State, l: Location)
    requires Follows(cfg, s0, s, s', t0, t) && Follows(cfg, t0, t, t', u0, u)
    requires u0.world == t.world && u.pass.seen == t.pass.seen
    ensures l in u.pass.managed ==> l in Tracked(u0.pass.status)
    ensures l in Tracked(u0.pass.status) ==> l in u.pass.managed || (!Vanished(u.pass, l.cluster) && Reported(cfg, u.pass, l))
  {
    ManagedAgain(cfg, t0, t, u0, u, l);
    EntryAtEnd(cfg, t0, t, t', l);
    ReportedAgain(cfg, t0, t, t', u0, u, l);
    FollowsKept(cfg, t0, t, t', u0, u);
    assert Vanished(t.pass, l.cluster) == Vanished(u.pass, l.cluster);
    hide Passed, ReadyKept, LoopKept, Tracked, IsObsolete, Reported, Vanished, IsManaged, WellFormed, NothingInvented, NoMarks, HomesRepeat;
    if IsObsolete(cfg, t.pass, l) {
      NothingToDelete(cfg, s0, s, s', t0, t, l);
    }
  }

  /** The third pass, started from what the second one left, changes nothing. */
  lemma ThirdPass(cfg: Config, f1: Oracle, f2: Oracle, f3: Oracle, s0: State, t0: State, u0: State)
    requires QuietOracle(f1) && QuietOracle(f2) && QuietOracle(f3) && Scope(cfg, s0) && AtStart(s0.pass) && !s0.pass.inDeletion
    requires NoKeptNamesake(cfg, s0) && HomesRepeat(cfg, AfterLoops(cfg, f1, s0))
    requires StartsNext(s0, AfterPass(cfg, f1, s0), t0) && StartsNext(t0, AfterPass(cfg, f2, t0), u0)
    ensures AfterPass(cfg, f2, t0).world == u0.world
    ensures AfterPass(cfg, f3, u0).world == u0.world && AfterPass(cfg, f3, u0).persisted == u0.persisted
  {
    var s, s' := AfterLoops(cfg, f1, s0), AfterPass(cfg, f1, s0);
    var t, t' := AfterLoops(cfg, f2, t0), AfterPass(cfg, f2, t0);
    var u := AfterLoops(cfg, f3, u0);
    hide AfterLoops, AfterPass, Run, QuietOracle, LoopKept, Closed, HomesRepeat, NoKeptNamesake;
    PassIsPassed(cfg, f1, s0);
    NextIsReady(cfg, s0, s, s', t0);
    ReadyRun(cfg, f2, t0);
    assert Scope(cfg, t0) && !t0.pass.inDeletion;
    hide Scope, Ready, ReadyKept, Passed;
    PassIsPassed(cfg, f2, t0);
    NextHasNoKeptNamesake(cfg, s0, s, s', t0);
    NextIsReady(cfg, t0, t, t', u0);
    SecondEndKeepsObjects(cfg, s0, s, s', t0, t, t');
    ReadyRepeats(cfg, t0, t, t');
    ThirdLoops(cfg, f2, f3, t0, u0);
    IdleEnd(cfg, f2, f3, s0, s, s', t0, u0);
  }

  lemma ReadyRepeats(cfg: Config, t0: State, t: State, t': State)
    requires ReadyKept(cfg, t0, t, []) && Passed(cfg, t0, t, t')
    ensures HomesRepeat(cfg, t)
  {
    NoMarksStay(cfg, t0, t);
    PassedKeeps(cfg, t0, t, t');
    assert LoopKept(cfg, t0, t, [], t.world);
    hide LoopKept, ReadyKept, Closed, Scope, HomesRepeat, NoMarks;
    RepeatsWithoutNamespaces(cfg, t0, t);
  }

  lemma IdleEnd(cfg: Config, f2: Oracle, f3: Oracle, s0: State, s: State, s': State, t0: State, u0: State)
    requires QuietOracle(f2) && QuietOracle(f3)
    requires var t, t', u := AfterLoops(cfg, f2, t0), AfterPass(cfg, f2, t0), AfterLoops(cfg, f3, u0);
             && Follows(cfg, s0, s, s', t0, t) && Follows(cfg, t0, t, t', u0, u)
             && u0.world == t.world && u.world == u0.world && u.pass.seen == t.pass.seen
    ensures AfterPass(cfg, f3, u0).world == u0.world && AfterPass(cfg, f3, u0).persisted == u0.persisted
  {
    var t, t', u := AfterLoops(cfg, f2, t0), AfterPass(cfg, f2, t0), AfterLoops(cfg, f3, u0);
    forall l
      ensures l in u.pass.managed ==> l in Tracked(u0.pass.status)
      ensures l in Tracked(u0.pass.status) ==> l in u.pass.managed || (!Vanished(u.pass, l.cluster) && Reported(cfg, u.pass, l))
    {
      EntryAgain(cfg, s0, s, s', t0, t, t', u0, u, l);
    }
    EndIsFull(cfg, f2, t);
    EndIsStored(cfg, t0, t, t');
    FollowsKept(cfg, t0, t, t', u0, u);
    assert InStore(u0) && u0.persisted == t'.persisted;
    hide Run, AfterLoops, Follows, Tracked, Vanished, Reported, IsObsolete, QuietOracle, NoEmptyGroup, NothingInvented, NoMarks;
    StatusUnchanged(cfg, u0, u);
    forall l ensures !IsObsolete(cfg, u.pass, l) {
      QuietObsolete(cfg, u0, u, u0.world, l);
    }
    hide LoopKept;
    NothingToDo(cfg, f3, u);
  }

  lemma EndIsStored(cfg: Config, t0: State, t: State, t': State)
    requires Passed(cfg, t0, t, t')
    ensures t'.persisted == t'.pass.status && WellFormed(t'.persisted)
  {
    EntryAtEnd(cfg, t0, t, t', Location(HOSTING, TypedRef(GVK("", "", ""), "", "")));
    hide WellFormed, LoopKept, Scope, Tracked, IsObsolete;
  }

  lemma StatusUnchanged(cfg: Config, u0: State, u: State)
    requires LoopKept(cfg, u0, u, [], u0.world) && forall l :: l in u.pass.managed ==> l in Tracked(u0.pass.status)
    ensures InStore(u) && u.pass.status == u0.pass.status
  {
    hide KeysKept, SettledKept, ObjectsKept;
  }

  // ---- The theorems ----

  /** A replica that is not being deleted. What its templates and the world have to be like is said by Scope. */
  ghost predicate Convergent(cfg: Config, id: ReplicaId, w: World, clusters: seq<Cluster>, r: Stored) {
    !r.deleting && !r.ignored && r.running.None? && Scope(cfg, LoopStartOf(id, r, w, clusters))
  }

  /** No kept object of a namesake is in the way, and no copy next to a Cluster can be overtaken by one on it. */
  ghost predicate Plain(cfg: Config, id: ReplicaId, w: World, clusters: seq<Cluster>, r: Stored) {
    NoKeptNamesake(cfg, LoopStartOf(id, r, w, clusters)) && NoneOvertaken(cfg, LoopStartOf(id, r, w, clusters))
  }

  /** One quiet pass leaves a replica that the next one can start with. */
  lemma NextConverges(cfg: Config, start: Fate, fates: Oracle, id: ReplicaId, w: World, clusters: seq<Cluster>, r: Stored)
    requires Convergent(cfg, id, w, clusters, r) && Succeeds(start) && QuietOracle(fates)
    ensures var (w1, r1) := WholePass(cfg, start, fates, id, w, clusters, r);
            var s0, t0 := LoopStartOf(id, r, w, clusters), LoopStartOf(id, r1, Vanish(w1), clusters);
            && Convergent(cfg, id, Vanish(w1), clusters, r1)
            && StartsNext(s0, AfterPass(cfg, fates, s0), t0) && Passed(cfg, s0, AfterLoops(cfg, fates, s0), AfterPass(cfg, fates, s0))
            && r1.finalizer
  {
    var s0 := LoopStartOf(id, r, w, clusters);
    LivePass(cfg, start, fates, id, w, clusters, r);
    var (w1, r1) := WholePass(cfg, start, fates, id, w, clusters, r);
    var t0 := LoopStartOf(id, r1, Vanish(w1), clusters);
    assert AtStart(s0.pass) && !s0.pass.inDeletion && SameRequest(s0.pass, t0.pass) && AtStart(t0.pass);
    hide WholePass, AfterPass, AfterLoops, Scope, QuietOracle, Succeeds, Vanish, WellFormed, AtStart;
    PassIsPassed(cfg, fates, s0);
    EndIsStored(cfg, s0, AfterLoops(cfg, fates, s0), AfterPass(cfg, fates, s0));
    assert InStore(t0);
    hide Passed;
    NextInScope(cfg, s0, AfterLoops(cfg, fates, s0), AfterPass(cfg, fates, s0), t0);
  }

  /** Two passes reach a fixpoint if what the first one synced will be synced again and no kept namesake is in the way. */
  lemma TwoPassesIfHomesRepeat(cfg: Config, id: ReplicaId, w: World, clusters: seq<Cluster>, r: Stored,
                               start1: Fate, f1: Oracle, start2: Fate, f2: Oracle, start3: Fate, f3: Oracle)
    requires Convergent(cfg, id, w, clusters, r)
    requires Succeeds(start1) && Succeeds(start2) && Succeeds(start3) && QuietOracle(f1) && QuietOracle(f2) && QuietOracle(f3)
    requires var s0 := LoopStartOf(id, r, w, clusters); NoKeptNamesake(cfg, s0) && HomesRepeat(cfg, AfterLoops(cfg, f1, s0))
    ensures var (w1, r1) := WholePass(cfg, start1, f1, id, w, clusters, r);
            var (w2, r2) := WholePass(cfg, start2, f2, id, Vanish(w1), clusters, r1);
            Vanish(w2) == w2 && WholePass(cfg, start3, f3, id, w2, clusters, r2) == (w2, r2)
  {
    var s0 := LoopStartOf(id, r, w, clusters);
    var (w1, r1) := WholePass(cfg, start1, f1, id, w, clusters, r);
    var t0 := LoopStartOf(id, r1, Vanish(w1), clusters);
    var (w2, r2) := WholePass(cfg, start2, f2, id, Vanish(w1), clusters, r1);
    var u0 := LoopStartOf(id, r2, Vanish(w2), clusters);
    assert AtStart(s0.pass) && !s0.pass.inDeletion;
    hide WholePass, AfterPass, AfterLoops, Scope, QuietOracle, Succeeds, Vanish, Passed, HomesRepeat, NoKeptNamesake, StartsNext, AtStart;
    NextConverges(cfg, start1, f1, id, w, clusters, r);
    NextConverges(cfg, start2, f2, id, Vanish(w1), clusters, r1);
    ThirdPass(cfg, f1, f2, f3, s0, t0, u0);
    LivePass(cfg, start2, f2, id, Vanish(w1), clusters, r1);
    LivePass(cfg, start3, f3, id, w2, clusters, r2);
  }

  /** Convergence: with sources, clusters and namespaces left alone, no failing call, and marked objects vanishing between passes,
      two passes reach a fixpoint. The second leaves nothing marked, and a third changes neither the world nor what is stored. */
  lemma TwoPassesConverge(cfg: Config, id: ReplicaId, w: World, clusters: seq<Cluster>, r: Stored,
                          start1: Fate, f1: Oracle, start2: Fate, f2: Oracle, start3: Fate, f3: Oracle)
    requires Convergent(cfg, id, w, clusters, r) && Plain(cfg, id, w, clusters, r)
    requires Succeeds(start1) && Succeeds(start2) && Succeeds(start3) && QuietOracle(f1) && QuietOracle(f2) && QuietOracle(f3)
    ensures var (w1, r1) := WholePass(cfg, start1, f1, id, w, clusters, r);
            var (w2, r2) := WholePass(cfg, start2, f2, id, Vanish(w1), clusters, r1);
            Vanish(w2) == w2 && WholePass(cfg, start3, f3, id, w2, clusters, r2) == (w2, r2)
  {
    var s0 := LoopStartOf(id, r, w, clusters);
    NextConverges(cfg, start1, f1, id, w, clusters, r);
    hide WholePass, AfterPass, AfterLoops, QuietOracle, Succeeds, Vanish, HomesRepeat, NoKeptNamesake, NoneOvertaken, StartsNext, LoopKept, Closed;
    RepeatsIfNoneOvertaken(cfg, s0, AfterLoops(cfg, f1, s0));
    TwoPassesIfHomesRepeat(cfg, id, w, clusters, r, start1, f1, start2, f2, start3, f3);
  }

  /** Whatever copies are overtaken and whatever namesakes own, three passes reach a fixpoint: the first leaves no namespace to create and no
      kept namesake in the way, so that the two after it converge. */
  lemma ThreePassesConverge(cfg: Config, id: ReplicaId, w: World, clusters: seq<Cluster>, r: Stored, start1: Fate, f1: Oracle,
                            start2: Fate, f2: Oracle, start3: Fate, f3: Oracle, start4: Fate, f4: Oracle)
    requires Convergent(cfg, id, w, clusters, r)
    requires Succeeds(start1) && Succeeds(start2) && Succeeds(start3) && Succeeds(start4)
    requires QuietOracle(f1) && QuietOracle(f2) && QuietOracle(f3) && QuietOracle(f4)
    ensures var (w1, r1) := WholePass(cfg, start1, f1, id, w, clusters, r);
            var (w2, r2) := WholePass(cfg, start2, f2, id, Vanish(w1), clusters, r1);
            var (w3, r3) := WholePass(cfg, start3, f3, id, Vanish(w2), clusters, r2);
            Vanish(w3) == w3 && WholePass(cfg, start4, f4, id, w3, clusters, r3) == (w3, r3)
  {
    var s0 := LoopStartOf(id, r, w, clusters);
    var (w1, r1) := WholePass(cfg, start1, f1, id, w, clusters, r);
    var t0 := LoopStartOf(id, r1, Vanish(w1), clusters);
    var s, s' := AfterLoops(cfg, f1, s0), AfterPass(cfg, f1, s0);
    NextConverges(cfg, start1, f1, id, w, clusters, r);
    hide WholePass, AfterPass, AfterLoops, Scope, QuietOracle, Succeeds, Vanish, Passed, HomesRepeat, NoKeptNamesake, StartsNext, NoneToCreate;
    NextHasNoKeptNamesake(cfg, s0, s, s', t0);
    NextMakesNone(cfg, s0, s, s', t0);
    RepeatsAfterFirst(cfg, f2, t0);
    TwoPassesIfHomesRepeat(cfg, id, Vanish(w1), clusters, r1, start2, f2, start3, f3, start4, f4);
  }

  lemma RepeatsAfterFirst(cfg: Config, fates: Oracle, t0: State)
    requires QuietOracle(fates) && Scope(cfg, t0) && AtStart(t0.pass) && NoneToCreate(cfg, t0)
    ensures HomesRepeat(cfg, AfterLoops(cfg, fates, t0))
  {
    var t := AfterLoops(cfg, fates, t0);
    LoopStart(cfg, t0, t.world);
    LoopStart(cfg, t0, t0.world);
    assert ListsAll(cfg);
    hide Run, LoopKept, Scope, ScopeKept, QuietOracle, NoneToCreate, HomesRepeat;
    LoopRun(cfg, fates, t0, t0, AllTasks(t0.pass), t.world);
    RunMakesNoNamespace(cfg, fates, t0, t0, AllTasks(t0.pass));
    RepeatsWithoutNamespaces(cfg, t0, t);
  }

  /** World and replica after n passes, marked objects vanishing after each. */
  function Passes(cfg: Config, starts: nat -> Fate, fates: nat -> Oracle, id: ReplicaId, w: World, clusters: seq<Cluster>, r: Stored, n: nat): (World, Stored) {
    if n == 0 then (w, r)
    else
      var (w', r') := Passes(cfg, starts, fates, id, w, clusters, r, n - 1);
      var (w'', r'') := WholePass(cfg, starts(n - 1), fates(n - 1), id, w', clusters, r');
      (Vanish(w''), r'')
  }

  /** Every later pass leaves the world and the replica as the third one left them, or the second one if that is enough. */
  lemma {:induction false} LaterPassesChangeNothing(cfg: Config, starts: nat -> Fate, fates: nat -> Oracle, id: ReplicaId,
                                                    w: World, clusters: seq<Cluster>, r: Stored, n: nat)
    requires Convergent(cfg, id, w, clusters, r)
    requires (forall i :: Succeeds(starts(i))) && forall i :: QuietOracle(fates(i))
    ensures n >= 3 ==> Passes(cfg, starts, fates, id, w, clusters, r, n) == Passes(cfg, starts, fates, id, w, clusters, r, 3)
    ensures n >= 2 && Plain(cfg, id, w, clusters, r) ==>
              Passes(cfg, starts, fates, id, w, clusters, r, n) == Passes(cfg, starts, fates, id, w, clusters, r, 2)
  {
    if n > 2 {
      LaterPassesChangeNothing(cfg, starts, fates, id, w, clusters, r, n - 1);
      FirstPasses(cfg, starts, fates, id, w, clusters, r);
      hide WholePass, Convergent, QuietOracle, Succeeds, Vanish, Plain;
      if Plain(cfg, id, w, clusters, r) {
        TwoPassesConverge(cfg, id, w, clusters, r, starts(0), fates(0), starts(1), fates(1), starts(n - 1), fates(n - 1));
      }
      if n > 3 {
        ThreePassesConverge(cfg, id, w, clusters, r, starts(0), fates(0), starts(1), fates(1), starts(2), fates(2), starts(n - 1), fates(n - 1));
      }
    }
  }

  lemma FirstPasses(cfg: Config, starts: nat -> Fate, fates: nat -> Oracle, id: ReplicaId, w: World, clusters: seq<Cluster>, r: Stored)
    ensures var (w1, r1) := WholePass(cfg, starts(0), fates(0), id, w, clusters, r);
            var (w2, r2) := WholePass(cfg, starts(1), fates(1), id, Vanish(w1), clusters, r1);
            var (w3, r3) := WholePass(cfg, starts(2), fates(2), id, Vanish(w2), clusters, r2);
            && Passes(cfg, starts, fates, id, w, clusters, r, 2) == (Vanish(w2), r2)
            && Passes(cfg, starts, fates, id, w, clusters, r, 3) == (Vanish(w3), r3)
  {
    assert Passes(cfg, starts, fates, id, w, clusters, r, 0) == (w, r);
    var (w1, r1) := WholePass(cfg, starts(0), fates(0), id, w, clusters, r);
    assert Passes(cfg, starts, fates, id, w, clusters, r, 1) == (Vanish(w1), r1);
    hide WholePass, Vanish;
  }
}
