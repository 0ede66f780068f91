/** Which targets the loops of a quiet pass reach, and through which target definition. */
module LoopKeys {
  import opened Refs
  import opened StatusList
  import opened Objects
  import opened Targets
  import opened Steps
  import opened System
  import opened Agenda
  import opened DeletionPhase
  import opened Quiet
  import opened Resolution
  import opened QuietLoop

  // ---- Tasks of the loops ----

  ghost predicate TaskOk(cfg: Config, p: Pass, w: World, t: Task) {
    match t
    case Definition(def) => def in p.defs
    case OpenCluster(def, cluster) => def in p.defs && cluster in MatchedClusters(cfg, def, p.clusters)
    case Target(def, cluster, n) =>
      def in p.defs && cluster in MatchedClusters(cfg, def, p.clusters) && Live(cluster) && n in Resolved(cfg, def, cluster, w)
    case CloseCluster(_) => true
    case _ => false
  }

  ghost predicate AgendaOk(cfg: Config, p: Pass, w: World, agenda: seq<Task>) {
    forall t :: t in agenda ==> TaskOk(cfg, p, w, t)
  }

  function AllTasks(p: Pass): seq<Task> {
    DefinitionTasks(p.defs)
  }

  lemma {:induction false} DefinitionTasksIn(defs: seq<TargetDefinition>, def: TargetDefinition)
    ensures Definition(def) in DefinitionTasks(defs) <==> def in defs
  {
    if defs != [] {
      DefinitionTasksIn(defs[1..], def);
    }
  }

  lemma TaskGrows(cfg: Config, p: Pass, w: World, w': World, t: Task)
    requires ListsAll(cfg) && NamespacesGrow(w, w') && TaskOk(cfg, p, w, t)
    ensures TaskOk(cfg, p, w', t)
  {
    if t.Target? {
      ResolvedGrows(cfg, t.def, t.cluster, w, w', t.namespace);
    }
  }

  /** A choice some task of the loops can lead to. */
  ghost predicate ChoiceOk(cfg: Config, p: Pass, w: World, c: Choice) {
    c.def in p.defs && c.cluster in MatchedClusters(cfg, c.def, p.clusters) && Live(c.cluster) && c.namespace in Resolved(cfg, c.def, c.cluster, w)
  }

  lemma OfferIsOk(cfg: Config, p: Pass, w: World, t: Task, c: Choice)
    requires TaskOk(cfg, p, w, t) && Offers(cfg, p.clusters, w, t, c)
    ensures ChoiceOk(cfg, p, w, c)
  {}

  /** The whole agenda promises exactly the choices that are possible. */
  lemma PromisedByAll(cfg: Config, p: Pass, w: World, c: Choice)
    ensures Promised(cfg, p.clusters, w, AllTasks(p), c) <==> ChoiceOk(cfg, p, w, c)
  {
    DefinitionTasksAre(p.defs);
    DefinitionTasksIn(p.defs, c.def);
    if ChoiceOk(cfg, p, w, c) {
      assert Offers(cfg, p.clusters, w, Definition(c.def), c);
    }
    if Promised(cfg, p.clusters, w, AllTasks(p), c) {
      var t :| t in AllTasks(p) && Offers(cfg, p.clusters, w, t, c);
      assert TaskOk(cfg, p, w, t);
      OfferIsOk(cfg, p, w, t, c);
    }
  }

  lemma ChoiceGrows(cfg: Config, p: Pass, w: World, w': World, c: Choice)
    requires ListsAll(cfg) && NamespacesGrow(w, w') && ChoiceOk(cfg, p, w, c)
    ensures ChoiceOk(cfg, p, w', c)
  {
    ResolvedGrows(cfg, c.def, c.cluster, w, w', c.namespace);
  }

  // ---- Who decides about a target, and where it lives ----

  /** The definition that decides about a target, with the namespaces of w. */
  ghost function RulingIn(cfg: Config, p: Pass, w: World, key: Location): Option<TargetDefinition> {
    FirstDef(cfg, p.input, p.clusters, w, AllTasks(p), key)
  }

  /** The definition that a pass starting in s0 lets decide about a target. */
  ghost function Ruling(cfg: Config, s0: State, key: Location): Option<TargetDefinition> {
    RulingIn(cfg, s0.pass, s0.world, key)
  }

  /** Where a definition keeps a target. */
  function HomeUnder(def: TargetDefinition, key: Location): Location {
    if IsNextTo(def) then Location(HOSTING, key.ref) else key
  }

  /** The ruling definition has a possible choice for the target. */
  lemma RulingHasChoice(cfg: Config, p: Pass, w: World, key: Location) returns (c: Choice)
    requires RulingIn(cfg, p, w, key).Some?
    ensures ChoiceOk(cfg, p, w, c) && RenderedKey(cfg, p.input, c) == Some(key) && RulingIn(cfg, p, w, key) == Some(c.def)
  {
    c := FirstHasChoice(cfg, p.input, p.clusters, w, AllTasks(p), key);
    PromisedByAll(cfg, p, w, c);
  }

  lemma SameRulings(cfg: Config, p: Pass, q: Pass, w: World, w': World, key: Location)
    requires SameRequest(p, q) && w.namespaces == w'.namespaces && Named(w) && ListsAll(cfg)
    ensures RulingIn(cfg, p, w, key) == RulingIn(cfg, q, w', key)
  {
    FirstDependsOnView(cfg, p.input, p.clusters, w, w', AllTasks(p), key);
  }

  /** The ruling of the start lasts if it is also that of the later world later, which has at least the namespaces there are now. */
  ghost predicate Lasts(cfg: Config, s0: State, s: State, later: World, key: Location) {
    NamespacesGrow(s.world, later) && Named(later) && Ruling(cfg, s0, key) == RulingIn(cfg, s0.pass, later, key)
  }

  lemma LastsBefore(cfg: Config, s0: State, s: State, s': State, later: World, key: Location)
    requires NamespacesGrow(s.world, s'.world) && Lasts(cfg, s0, s', later, key)
    ensures Lasts(cfg, s0, s, later, key)
  {
    GrowTwice(s.world, s'.world, later);
    hide RulingIn, Named;
  }

  // ---- One step of the loops ----

  /** A step that opens or closes something leaves all but conditions and counters. */
  ghost predicate Opened(s: State, s': State) {
    && OnlyConditions(s, s') && SameRequest(s.pass, s'.pass) && (InStore(s) ==> InStore(s'))
    && (forall c :: c in s'.pass.conditions ==> c in s.pass.conditions || (c.ClusterCondition? && c.ok))
    && (forall c :: c in s.pass.conditions ==> c in s'.pass.conditions)
  }

  lemma OpeningStep(cfg: Config, fate: Fate, t: Task, s: State)
    requires Succeeds(fate) && IsLoop(t) && !t.Target?
    ensures Opened(s, Ticked(Step(cfg, fate, t, s).0))
  {
    hide UnmatchableNamespaces, SelectNamespaces, ClusterTasks, WellFormed;
  }

  lemma OpeningKeepsOk(cfg: Config, fate: Fate, t: Task, s: State)
    requires Succeeds(fate) && IsLoop(t) && !t.Target? && TaskOk(cfg, s.pass, s.world, t)
    ensures AgendaOk(cfg, s.pass, s.world, Step(cfg, fate, t, s).1)
  {
    match t
    case Definition(def) => OpenTasksAre(def, MatchedClusters(cfg, def, s.pass.clusters));
    case OpenCluster(def, cluster) =>
      if Live(cluster) {
        ResolvedIsWhatAPassUses(cfg, fate, def, cluster, s);
        var ns := Resolved(cfg, def, cluster, s.world);
        ClusterTasksAre(def, cluster, ns);
        forall u | u in ClusterTasks(def, cluster, ns) ensures TaskOk(cfg, s.pass, s.world, u) {
          if u.Target? {
            TargetTasksIn(def, cluster, ns, u.namespace);
          }
        }
      }
    case CloseCluster(_) =>
  }

  lemma PromisedAppend(cfg: Config, clusters: seq<Cluster>, w: World, a: seq<Task>, b: seq<Task>, c: Choice)
    ensures Promised(cfg, clusters, w, a + b, c) <==> Promised(cfg, clusters, w, a, c) || Promised(cfg, clusters, w, b, c)
  {
    hide Offers;
  }

  lemma OpeningPromisesTheSame(cfg: Config, fate: Fate, t: Task, rest: seq<Task>, s: State, c: Choice)
    requires Succeeds(fate) && IsLoop(t) && !t.Target?
    ensures Promised(cfg, s.pass.clusters, s.world, Step(cfg, fate, t, s).1 + rest, c) <==> Promised(cfg, s.pass.clusters, s.world, [t] + rest, c)
  {
    var more := Step(cfg, fate, t, s).1;
    PromisedAppend(cfg, s.pass.clusters, s.world, more, rest, c);
    PromisedAppend(cfg, s.pass.clusters, s.world, [t], rest, c);
    if t.CloseCluster? {
      assert more == [];
    } else {
      OpeningOffersTheSame(cfg, fate, t, s, c);
    }
    assert t in [t];
    hide Step, Offers;
  }

  // ---- What has been done, and what is still to be done ----

  /** The choice has been worked on: its condition is set, and its target, if there is one, is known. */
  ghost predicate Done(cfg: Config, p: Pass, c: Choice) {
    && (NamedKey(cfg, p.input, c).Some? ==> Reported(cfg, p, NamedKey(cfg, p.input, c).value))
    && (RenderedKey(cfg, p.input, c).Some? ==> RenderedKey(cfg, p.input, c).value in p.seen)
  }

  /** Every choice that was possible at the start is done or still promised. */
  ghost predicate NothingForgotten(cfg: Config, s0: State, s: State, agenda: seq<Task>) {
    forall c :: ChoiceOk(cfg, s0.pass, s0.world, c) ==> Promised(cfg, s.pass.clusters, s.world, agenda, c) || Done(cfg, s.pass, c)
  }

  ghost predicate SeenIsReal(cfg: Config, s: State) {
    && (forall key :: key in s.pass.reached <==> key in s.pass.seen)
    && (forall key :: key in s.pass.seen ==> exists c :: ChoiceOk(cfg, s.pass, s.world, c) && RenderedKey(cfg, s.pass.input, c) == Some(key))
  }

  ghost predicate ConditionsAreReal(cfg: Config, s: State) {
    forall x :: x in s.pass.conditions && x.TargetCondition? ==>
      exists c :: ChoiceOk(cfg, s.pass, s.world, c) && NamedKey(cfg, s.pass.input, c).Some? && x.name == cfg.targetCondition(NamedKey(cfg, s.pass.input, c).value)
  }

  /** The choice has synced the object at l, and its definition rules if the ruling lasts. */
  ghost predicate SyncedFor(cfg: Config, s0: State, s: State, later: World, l: Location, c: Choice) {
    && ChoiceOk(cfg, s.pass, s.world, c)
    && RenderedKey(cfg, s.pass.input, c).Some?
    && var key := RenderedKey(cfg, s.pass.input, c).value;
    && key in s.pass.seen && HomeUnder(c.def, key) == l
    && (Lasts(cfg, s0, s, later, key) ==> Ruling(cfg, s0, key) == Some(c.def))
  }

  ghost predicate HomesAreReal(cfg: Config, s0: State, s: State, later: World) {
    forall l :: l in s.pass.managed ==> exists c :: SyncedFor(cfg, s0, s, later, l, c)
  }

  /** Whatever is known or reported comes from a choice that is possible now. */
  ghost predicate NothingInvented(cfg: Config, s: State) {
    SeenIsReal(cfg, s) && ConditionsAreReal(cfg, s)
  }

  /** As long as a target has not been reached, the definition that will reach it is the ruling one, if the ruling lasts. */
  ghost predicate FirstIsAhead(cfg: Config, s0: State, s: State, agenda: seq<Task>, later: World) {
    forall key :: key !in s.pass.seen && Lasts(cfg, s0, s, later, key) ==>
      FirstDef(cfg, s.pass.input, s.pass.clusters, later, agenda, key) == Ruling(cfg, s0, key)
  }

  ghost predicate KeysKept(cfg: Config, s0: State, s: State, agenda: seq<Task>, later: World) {
    && SameRequest(s0.pass, s.pass) && NamespacesGrow(s0.world, s.world) && Named(s0.world) && Named(s.world)
    && AgendaOk(cfg, s.pass, s.world, agenda)
    && NothingForgotten(cfg, s0, s, agenda) && NothingInvented(cfg, s)
    && FirstIsAhead(cfg, s0, s, agenda, later) && HomesAreReal(cfg, s0, s, later)
  }

  ghost predicate CfgOk(cfg: Config, p: Pass) {
    ListsAll(cfg) && ClustersOk(p.clusters)
  }

  // ---- Opening steps ----

  lemma OpeningKeepsKeys(cfg: Config, fate: Fate, s0: State, s: State, agenda: seq<Task>, later: World)
    requires Succeeds(fate) && agenda != [] && IsLoop(agenda[0]) && !agenda[0].Target?
    requires CfgOk(cfg, s.pass) && KeysKept(cfg, s0, s, agenda, later)
    ensures var (s', agenda') := AdvanceState(cfg, fate, agenda, s);
            KeysKept(cfg, s0, s', agenda', later) && Opened(s, s')
  {
    var (s', agenda') := AdvanceState(cfg, fate, agenda, s);
    var t, rest := agenda[0], agenda[1..];
    var more := Step(cfg, fate, t, s).1;
    assert agenda == [t] + rest && t in agenda && forall u :: u in rest ==> u in agenda;
    OpeningStep(cfg, fate, t, s);
    OpeningKeepsOk(cfg, fate, t, s);
    assert AgendaOk(cfg, s'.pass, s'.world, agenda') by {
      SameTasksOk(cfg, s.pass, s'.pass, s.world, agenda');
    }
    assert NothingForgotten(cfg, s0, s', agenda') by {
      OpeningForgetsNothing(cfg, fate, s0, s, t, rest);
    }
    assert NothingInvented(cfg, s') && HomesAreReal(cfg, s0, s', later) by {
      OpeningInventsNothing(cfg, s0, s, s', later);
    }
    assert FirstIsAhead(cfg, s0, s', agenda', later) by {
      OpeningKeepsAhead(cfg, fate, s0, s, t, rest, later);
    }
  }

  lemma SameTasksOk(cfg: Config, p: Pass, p': Pass, w: World, agenda: seq<Task>)
    requires SameRequest(p, p') && AgendaOk(cfg, p, w, agenda)
    ensures AgendaOk(cfg, p', w, agenda)
  {
    forall t | t in agenda ensures TaskOk(cfg, p', w, t) {
      assert TaskOk(cfg, p, w, t);
    }
  }

  lemma DoneStays(cfg: Config, p: Pass, p': Pass, c: Choice)
    requires Done(cfg, p, c) && p'.input == p.input
    requires (forall x :: x in p.conditions ==> x in p'.conditions) && forall key :: key in p.seen ==> key in p'.seen
    ensures Done(cfg, p', c)
  {
    if NamedKey(cfg, p.input, c).Some? {
      var x :| x in p.conditions && x.TargetCondition? && x.name == cfg.targetCondition(NamedKey(cfg, p.input, c).value);
      assert x in p'.conditions;
    }
  }

  lemma OpeningForgetsNothing(cfg: Config, fate: Fate, s0: State, s: State, t: Task, rest: seq<Task>)
    requires Succeeds(fate) && IsLoop(t) && !t.Target?
    requires NothingForgotten(cfg, s0, s, [t] + rest)
    ensures NothingForgotten(cfg, s0, Ticked(Step(cfg, fate, t, s).0), Step(cfg, fate, t, s).1 + rest)
  {
    var s', more := Ticked(Step(cfg, fate, t, s).0), Step(cfg, fate, t, s).1;
    OpeningStep(cfg, fate, t, s);
    forall c | ChoiceOk(cfg, s0.pass, s0.world, c)
      ensures Promised(cfg, s'.pass.clusters, s'.world, more + rest, c) || Done(cfg, s'.pass, c)
    {
      OpeningPromisesTheSame(cfg, fate, t, rest, s, c);
      if Done(cfg, s.pass, c) {
        DoneStays(cfg, s.pass, s'.pass, c);
      }
    }
  }

  lemma OpeningInventsNothing(cfg: Config, s0: State, s: State, s': State, later: World)
    requires NothingInvented(cfg, s) && HomesAreReal(cfg, s0, s, later) && Opened(s, s')
    ensures NothingInvented(cfg, s') && HomesAreReal(cfg, s0, s', later)
  {
    SameChoices(cfg, s, s');
    hide ChoiceOk, NamedKey, RenderedKey, InStore, RulingIn, Named, NamespacesGrow;
    forall l | l in s'.pass.managed ensures exists c :: SyncedFor(cfg, s0, s', later, l, c) {
      var c :| SyncedFor(cfg, s0, s, later, l, c);
      assert SyncedFor(cfg, s0, s', later, l, c);
    }
  }

  lemma SameChoices(cfg: Config, s: State, s': State)
    requires SameRequest(s.pass, s'.pass) && s'.world == s.world
    ensures forall c :: ChoiceOk(cfg, s'.pass, s'.world, c) <==> ChoiceOk(cfg, s.pass, s.world, c)
  {}

  /** Two choices of one definition with one key are on one Cluster. */
  lemma SameCluster(cfg: Config, def: TargetDefinition, clusters: seq<Cluster>, a: Option<Cluster>, b: Option<Cluster>)
    requires ClustersOk(clusters) && a in MatchedClusters(cfg, def, clusters) && b in MatchedClusters(cfg, def, clusters)
    requires OwnRef(a) == OwnRef(b)
    ensures a == b
  {
    MatchedClustersIn(cfg, def, clusters);
    if a.Some? && b.Some? {
      assert a.value in clusters && b.value in clusters;
    }
  }

  /** Opening a Cluster passes over a choice that later namespaces make possible only if another definition rules its target. */
  lemma OpenedOffer(cfg: Config, def: TargetDefinition, cluster: Option<Cluster>, s0: State, s: State, later: World, key: Location, c: Choice)
    requires CfgOk(cfg, s.pass) && SameRequest(s0.pass, s.pass) && TaskOk(cfg, s.pass, s.world, OpenCluster(def, cluster))
    requires NamespacesGrow(s0.world, s.world) && Named(s0.world) && Lasts(cfg, s0, s, later, key)
    requires Offers(cfg, s.pass.clusters, later, OpenCluster(def, cluster), c) && RenderedKey(cfg, s.pass.input, c) == Some(key)
    requires Ruling(cfg, s0, key) == Some(def)
    ensures Offers(cfg, s.pass.clusters, s.world, OpenCluster(def, cluster), c)
  {
    var c0 := RulingHasChoice(cfg, s0.pass, s0.world, key);
    SameCluster(cfg, def, s.pass.clusters, c0.cluster, cluster);
    if !IsNextTo(def) && def.namespaces.Some? && def.namespaces.value.matchIdentities.None? {
      SelectsTheMatching(cfg, def.namespaces.value, OwnRef(cluster), s0.world, c0.namespace);
      SelectsTheMatching(cfg, def.namespaces.value, OwnRef(cluster), later, c.namespace);
      assert (OwnRef(cluster), c0.namespace) in s0.world.namespaces && (OwnRef(cluster), c.namespace) in later.namespaces;
      assert c0.namespace == key.ref.namespace == c.namespace;
      ResolvedGrows(cfg, def, cluster, s0.world, s.world, c.namespace);
    }
  }

  /** Opening a task does not change which definition is first for a target whose ruling lasts. */
  lemma OpeningKeepsLater(cfg: Config, fate: Fate, s0: State, s: State, t: Task, rest: seq<Task>, later: World, key: Location)
    requires Succeeds(fate) && (t.Definition? || t.OpenCluster?) && TaskOk(cfg, s.pass, s.world, t)
    requires CfgOk(cfg, s.pass) && SameRequest(s0.pass, s.pass) && NamespacesGrow(s0.world, s.world) && Named(s0.world)
    requires Lasts(cfg, s0, s, later, key)
    requires FirstDef(cfg, s.pass.input, s.pass.clusters, later, [t] + rest, key) == Ruling(cfg, s0, key)
    ensures FirstDef(cfg, s.pass.input, s.pass.clusters, later, Step(cfg, fate, t, s).1 + rest, key) == Ruling(cfg, s0, key)
  {
    var more := Step(cfg, fate, t, s).1;
    var input, clusters := s.pass.input, s.pass.clusters;
    OpeningKeepsDef(cfg, fate, t, s);
    FirstAppend(cfg, input, clusters, later, more, rest, key);
    FirstOfOne(cfg, input, clusters, later, more, t.def, key);
    assert ([t] + rest)[1..] == rest;
    hide Lasts;
    assert (exists u :: u in more && OffersKey(cfg, input, clusters, later, u, key)) <==> OffersKey(cfg, input, clusters, later, t, key) by {
      OpeningOffersLater(cfg, fate, s0, s, t, later, key);
    }
    hide OffersKey, Step, RulingIn;
  }

  lemma OpeningOffersLater(cfg: Config, fate: Fate, s0: State, s: State, t: Task, later: World, key: Location)
    requires Succeeds(fate) && (t.Definition? || t.OpenCluster?) && TaskOk(cfg, s.pass, s.world, t)
    requires CfgOk(cfg, s.pass) && SameRequest(s0.pass, s.pass) && NamespacesGrow(s0.world, s.world) && Named(s0.world)
    requires Lasts(cfg, s0, s, later, key)
    requires OffersKey(cfg, s.pass.input, s.pass.clusters, later, t, key) ==> Ruling(cfg, s0, key) == Some(t.def)
    ensures (exists u :: u in Step(cfg, fate, t, s).1 && OffersKey(cfg, s.pass.input, s.pass.clusters, later, u, key))
            <==> OffersKey(cfg, s.pass.input, s.pass.clusters, later, t, key)
  {
    var more := Step(cfg, fate, t, s).1;
    var input, clusters := s.pass.input, s.pass.clusters;
    if OffersKey(cfg, input, clusters, later, t, key) {
      var c :| Offers(cfg, clusters, later, t, c) && RenderedKey(cfg, input, c) == Some(key);
      var u := OfferedByMore(cfg, fate, s0, s, t, later, key, c);
      assert OffersKey(cfg, input, clusters, later, u, key);
    }
    if u :| u in more && OffersKey(cfg, input, clusters, later, u, key) {
      var c :| Offers(cfg, clusters, later, u, c) && RenderedKey(cfg, input, c) == Some(key);
      OfferOfMore(cfg, fate, s, t, later, u, c);
    }
  }

  /** What a task offers later, and its target's ruling definition with it, is offered by what the task opens. */
  lemma OfferedByMore(cfg: Config, fate: Fate, s0: State, s: State, t: Task, later: World, key: Location, c: Choice) returns (u: Task)
    requires Succeeds(fate) && (t.Definition? || t.OpenCluster?) && TaskOk(cfg, s.pass, s.world, t)
    requires CfgOk(cfg, s.pass) && SameRequest(s0.pass, s.pass) && NamespacesGrow(s0.world, s.world) && Named(s0.world)
    requires Lasts(cfg, s0, s, later, key) && Ruling(cfg, s0, key) == Some(t.def)
    requires Offers(cfg, s.pass.clusters, later, t, c) && RenderedKey(cfg, s.pass.input, c) == Some(key)
    ensures u in Step(cfg, fate, t, s).1 && Offers(cfg, s.pass.clusters, later, u, c)
  {
    if t.Definition? {
      u := OpenCluster(t.def, c.cluster);
      OpenTasksIn(t.def, MatchedClusters(cfg, t.def, s.pass.clusters), c.cluster);
    } else {
      u := Target(t.def, t.cluster, c.namespace);
      OpenedOffer(cfg, t.def, t.cluster, s0, s, later, key, c);
      ResolvedIsWhatAPassUses(cfg, fate, t.def, t.cluster, s);
      TargetTasksIn(t.def, t.cluster, Resolved(cfg, t.def, t.cluster, s.world), c.namespace);
      hide Resolved, Lasts, CfgOk;
    }
  }

  lemma OfferOfMore(cfg: Config, fate: Fate, s: State, t: Task, later: World, u: Task, c: Choice)
    requires Succeeds(fate) && (t.Definition? || t.OpenCluster?) && ListsAll(cfg) && NamespacesGrow(s.world, later)
    requires u in Step(cfg, fate, t, s).1 && Offers(cfg, s.pass.clusters, later, u, c)
    ensures Offers(cfg, s.pass.clusters, later, t, c)
  {
    match t
    case Definition(def) =>
      OpenTasksAre(def, MatchedClusters(cfg, def, s.pass.clusters));
    case OpenCluster(def, cluster) =>
      if Live(cluster) {
        ResolvedIsWhatAPassUses(cfg, fate, def, cluster, s);
        ClusterTasksAre(def, cluster, Resolved(cfg, def, cluster, s.world));
        hide ResolveNamespaces, ClusterTasks;
        ResolvedGrows(cfg, def, cluster, s.world, later, c.namespace);
      }
  }

  lemma OpeningKeepsAhead(cfg: Config, fate: Fate, s0: State, s: State, t: Task, rest: seq<Task>, later: World)
    requires Succeeds(fate) && IsLoop(t) && !t.Target? && TaskOk(cfg, s.pass, s.world, t)
    requires CfgOk(cfg, s.pass) && SameRequest(s0.pass, s.pass) && NamespacesGrow(s0.world, s.world) && Named(s0.world)
    requires FirstIsAhead(cfg, s0, s, [t] + rest, later)
    ensures FirstIsAhead(cfg, s0, Ticked(Step(cfg, fate, t, s).0), Step(cfg, fate, t, s).1 + rest, later)
  {
    var s', more := Ticked(Step(cfg, fate, t, s).0), Step(cfg, fate, t, s).1;
    OpeningStep(cfg, fate, t, s);
    assert t.CloseCluster? ==> more + rest == rest && ([t] + rest)[1..] == rest;
    hide Step, InStore, CfgOk, TaskOk;
    forall key | key !in s'.pass.seen && Lasts(cfg, s0, s', later, key)
      ensures FirstDef(cfg, s'.pass.input, s'.pass.clusters, later, more + rest, key) == Ruling(cfg, s0, key)
    {
      assert Lasts(cfg, s0, s, later, key);
      hide Lasts, RulingIn;
      if t.CloseCluster? {
        assert !OffersKey(cfg, s.pass.input, s.pass.clusters, later, t, key);
      } else {
        OpeningKeepsLater(cfg, fate, s0, s, t, rest, later, key);
      }
    }
  }

  // ---- Target steps ----

  lemma PromisedGrows(cfg: Config, clusters: seq<Cluster>, w: World, w': World, agenda: seq<Task>, c: Choice)
    requires ListsAll(cfg) && NamespacesGrow(w, w') && Promised(cfg, clusters, w, agenda, c)
    ensures Promised(cfg, clusters, w', agenda, c)
  {
    var t :| t in agenda && Offers(cfg, clusters, w, t, c);
    OffersGrow(cfg, clusters, w, w', t, c);
  }

  lemma TargetIsDone(cfg: Config, def: TargetDefinition, cluster: Option<Cluster>, n: string, s: State, s': State)
    requires TargetDone(cfg, def, cluster, n, s, s')
    ensures Done(cfg, s'.pass, Choice(def, cluster, n))
    ensures (forall x :: x in s.pass.conditions ==> x in s'.pass.conditions) && forall key :: key in s.pass.seen ==> key in s'.pass.seen
  {
    var r := Render(cfg, s.pass.input, cluster, n);
    hide InStore, Judged, Written, Render;
    if !r.TemplateFailed? {
      var key := Key(cluster, r.ref);
      assert Reports(cfg, key, s, s');
      var ok, reason :| s'.pass.conditions == s.pass.conditions + [TargetCondition(cfg.targetCondition(key), ok, reason)];
      var x := TargetCondition(cfg.targetCondition(key), ok, reason);
      assert x in s'.pass.conditions && x.TargetCondition? && x.name == cfg.targetCondition(key);
    }
  }

  lemma TargetForgetsNothing(cfg: Config, def: TargetDefinition, cluster: Option<Cluster>, n: string, rest: seq<Task>, s0: State, s: State, s': State)
    requires ListsAll(cfg) && NamespacesGrow(s.world, s'.world)
    requires NothingForgotten(cfg, s0, s, [Target(def, cluster, n)] + rest) && TargetDone(cfg, def, cluster, n, s, s')
    ensures NothingForgotten(cfg, s0, s', rest)
  {
    TargetIsDone(cfg, def, cluster, n, s, s');
    forall c | ChoiceOk(cfg, s0.pass, s0.world, c)
      ensures Promised(cfg, s'.pass.clusters, s'.world, rest, c) || Done(cfg, s'.pass, c)
    {
      if Done(cfg, s.pass, c) {
        DoneStays(cfg, s.pass, s'.pass, c);
      } else {
        PromisedAppend(cfg, s.pass.clusters, s.world, [Target(def, cluster, n)], rest, c);
        if Promised(cfg, s.pass.clusters, s.world, rest, c) {
          PromisedGrows(cfg, s.pass.clusters, s.world, s'.world, rest, c);
        }
      }
    }
  }

  /** What a target's step adds. */
  lemma TargetAdds(cfg: Config, def: TargetDefinition, cluster: Option<Cluster>, n: string, s: State, s': State)
    requires ListsAll(cfg) && NamespacesGrow(s.world, s'.world)
    requires TaskOk(cfg, s.pass, s.world, Target(def, cluster, n)) && TargetDone(cfg, def, cluster, n, s, s')
    ensures var c0 := Choice(def, cluster, n);
            var named, rendered := NamedKey(cfg, s.pass.input, c0), RenderedKey(cfg, s.pass.input, c0);
            && SameRequest(s.pass, s'.pass)
            && (forall c :: ChoiceOk(cfg, s.pass, s.world, c) || c == c0 ==> ChoiceOk(cfg, s'.pass, s'.world, c))
            && (forall key :: key in s'.pass.seen <==> key in s.pass.seen || rendered == Some(key))
            && ((forall key :: key in s.pass.reached <==> key in s.pass.seen) ==> forall key :: key in s'.pass.reached <==> key in s'.pass.seen)
            && (forall x :: x in s'.pass.conditions ==>
                  x in s.pass.conditions || (x.TargetCondition? && named.Some? && x.name == cfg.targetCondition(named.value)))
            && (forall l :: l in s'.pass.managed ==>
                  l in s.pass.managed || (rendered.Some? && rendered.value !in s.pass.seen && HomeUnder(def, rendered.value) == l))
  {
    var c0 := Choice(def, cluster, n);
    var r := Render(cfg, s.pass.input, cluster, n);
    forall c | ChoiceOk(cfg, s.pass, s.world, c) ensures ChoiceOk(cfg, s'.pass, s'.world, c) {
      ChoiceGrows(cfg, s.pass, s.world, s'.world, c);
    }
    assert ChoiceOk(cfg, s.pass, s.world, c0);
    ChoiceGrows(cfg, s.pass, s.world, s'.world, c0);
    hide ChoiceOk, InStore, Judged, Written, Render, TaskOk, AddedAt, ListsAll, NamespacesGrow;
  }

  lemma TargetInventsNothing(cfg: Config, def: TargetDefinition, cluster: Option<Cluster>, n: string, s: State, s': State)
    requires ListsAll(cfg) && NamespacesGrow(s.world, s'.world)
    requires TaskOk(cfg, s.pass, s.world, Target(def, cluster, n))
    requires NothingInvented(cfg, s) && TargetDone(cfg, def, cluster, n, s, s')
    ensures NothingInvented(cfg, s')
  {
    TargetAdds(cfg, def, cluster, n, s, s');
    hide ChoiceOk, HomeUnder, NamedKey, RenderedKey, TargetDone, TaskOk, ListsAll, NamespacesGrow;
  }

  /** The target at the head is ruled by the definition at work, if the ruling lasts. */
  lemma HeadRules(cfg: Config, def: TargetDefinition, cluster: Option<Cluster>, n: string, rest: seq<Task>, s0: State, s: State, later: World, key: Location)
    requires FirstIsAhead(cfg, s0, s, [Target(def, cluster, n)] + rest, later)
    requires RenderedKey(cfg, s.pass.input, Choice(def, cluster, n)) == Some(key) && key !in s.pass.seen
    requires Lasts(cfg, s0, s, later, key)
    ensures Ruling(cfg, s0, key) == Some(def)
  {
    var t := Target(def, cluster, n);
    assert Offers(cfg, s.pass.clusters, later, t, Choice(def, cluster, n));
    assert OffersKey(cfg, s.pass.input, s.pass.clusters, later, t, key);
    hide Lasts, OffersKey, RenderedKey, RulingIn;
    assert FirstDef(cfg, s.pass.input, s.pass.clusters, later, [t] + rest, key) == Some(def);
  }

  lemma TargetKeepsHomes(cfg: Config, def: TargetDefinition, cluster: Option<Cluster>, n: string, rest: seq<Task>, s0: State, s: State, s': State, later: World)
    requires ListsAll(cfg) && NamespacesGrow(s.world, s'.world)
    requires TaskOk(cfg, s.pass, s.world, Target(def, cluster, n)) && TargetDone(cfg, def, cluster, n, s, s')
    requires FirstIsAhead(cfg, s0, s, [Target(def, cluster, n)] + rest, later) && HomesAreReal(cfg, s0, s, later)
    ensures HomesAreReal(cfg, s0, s', later)
  {
    var c0 := Choice(def, cluster, n);
    TargetAdds(cfg, def, cluster, n, s, s');
    hide ChoiceOk, HomeUnder, NamedKey, RenderedKey, TargetDone, TaskOk, ListsAll, FirstIsAhead, RulingIn;
    forall l | l in s'.pass.managed ensures exists c :: SyncedFor(cfg, s0, s', later, l, c) {
      var c := if l in s.pass.managed then SyncedChoice(cfg, s0, s, later, l) else c0;
      var key := RenderedKey(cfg, s.pass.input, c).value;
      if Lasts(cfg, s0, s', later, key) {
        LastsBefore(cfg, s0, s, s', later, key);
        if l !in s.pass.managed {
          HeadRules(cfg, def, cluster, n, rest, s0, s, later, key);
        }
      }
      assert SyncedFor(cfg, s0, s', later, l, c);
    }
  }

  ghost function SyncedChoice(cfg: Config, s0: State, s: State, later: World, l: Location): (c: Choice)
    requires exists c :: SyncedFor(cfg, s0, s, later, l, c)
    ensures SyncedFor(cfg, s0, s, later, l, c)
  {
    var c :| SyncedFor(cfg, s0, s, later, l, c);
    c
  }

  lemma TargetKeepsAhead(cfg: Config, def: TargetDefinition, cluster: Option<Cluster>, n: string, rest: seq<Task>, s0: State, s: State, s': State, later: World)
    requires NamespacesGrow(s.world, s'.world)
    requires FirstIsAhead(cfg, s0, s, [Target(def, cluster, n)] + rest, later) && TargetDone(cfg, def, cluster, n, s, s')
    ensures FirstIsAhead(cfg, s0, s', rest, later)
  {
    var t := Target(def, cluster, n);
    var c0 := Choice(def, cluster, n);
    TargetIsDone(cfg, def, cluster, n, s, s');
    hide Lasts, RulingIn, InStore, Judged, Written, Render;
    forall key | key !in s'.pass.seen && Lasts(cfg, s0, s', later, key)
      ensures FirstDef(cfg, s'.pass.input, s'.pass.clusters, later, rest, key) == Ruling(cfg, s0, key)
    {
      LastsBefore(cfg, s0, s, s', later, key);
      assert ([t] + rest)[1..] == rest;
      assert RenderedKey(cfg, s.pass.input, c0) != Some(key);
      assert !OffersKey(cfg, s.pass.input, s.pass.clusters, later, t, key);
      hide OffersKey;
    }
  }

  lemma TargetKeepsKeys(cfg: Config, def: TargetDefinition, cluster: Option<Cluster>, n: string, rest: seq<Task>, s0: State, s: State, s': State, later: World)
    requires CfgOk(cfg, s.pass) && NamespacesGrow(s.world, s'.world) && Named(s'.world)
    requires KeysKept(cfg, s0, s, [Target(def, cluster, n)] + rest, later) && TargetDone(cfg, def, cluster, n, s, s')
    ensures KeysKept(cfg, s0, s', rest, later)
  {
    var t := Target(def, cluster, n);
    var agenda := [t] + rest;
    assert t in agenda && forall u :: u in rest ==> u in agenda;
    forall u | u in rest ensures TaskOk(cfg, s.pass, s'.world, u) {
      TaskGrows(cfg, s.pass, s.world, s'.world, u);
    }
    SameTasksOk(cfg, s.pass, s'.pass, s'.world, rest);
    GrowTwice(s0.world, s.world, s'.world);
    TargetForgetsNothing(cfg, def, cluster, n, rest, s0, s, s');
    TargetInventsNothing(cfg, def, cluster, n, s, s');
    TargetKeepsAhead(cfg, def, cluster, n, rest, s0, s, s', later);
    TargetKeepsHomes(cfg, def, cluster, n, rest, s0, s, s', later);
    hide NothingForgotten, NothingInvented, FirstIsAhead, HomesAreReal, TaskOk, CfgOk;
  }
}
