/** What a pass renders: the target definitions, clusters and namespaces its agenda leads to, and which definition comes first for a target. */
module Resolution {
  import opened Refs
  import opened Objects
  import opened Targets
  import opened Steps
  import opened System
  import opened Agenda

  // ---- The namespaces a pass works on ----

  /** The namespaces of one target definition on one cluster; "" leaves the namespace to the template. */
  function Resolved(cfg: Config, def: TargetDefinition, cluster: Option<Cluster>, w: World): seq<string> {
    var own := OwnRef(cluster);
    if IsNextTo(def) then [own.namespace]
    else if def.namespaces.None? then [""]
    else if def.namespaces.value.matchIdentities.Some? then def.namespaces.value.matchIdentities.value
    else SelectNamespaces(cfg, def.namespaces.value, own, cfg.listOrder(NamespacesOn(w, own)), w)
  }

  /** Resolved is what a pass works on when its calls succeed. */
  lemma ResolvedIsWhatAPassUses(cfg: Config, fate: Fate, def: TargetDefinition, cluster: Option<Cluster>, s: State)
    requires fate.access && fate.list && !(cluster.Some? && cluster.value.inDeletion)
    ensures ResolveNamespaces(cfg, fate, def, cluster, s).1 == ClusterTasks(def, cluster, Resolved(cfg, def, cluster, s.world))
  {
    hide SelectNamespaces, UnmatchableNamespaces;
  }

  lemma {:induction false} SelectNamespacesMembers(cfg: Config, sel: NamespaceSelector, cluster: ObjectReference, names: seq<string>, w: World)
    ensures forall n :: n in SelectNamespaces(cfg, sel, cluster, names, w) <==>
              n in names && (cluster, n) in w.namespaces && NamespaceMatches(cfg, sel, n, w.namespaces[(cluster, n)].labels) == Some(true)
  {
    hide NamespaceMatches;
    if names != [] {
      SelectNamespacesMembers(cfg, sel, cluster, names[1..], w);
    }
  }

  lemma NamespacesOnMembers(w: World, cluster: ObjectReference, n: string)
    ensures n in NamespacesOn(w, cluster) <==> (cluster, n) in w.namespaces
  {
    if (cluster, n) in w.namespaces {
      var k := (cluster, n);
      assert k.0 == cluster && k.1 in NamespacesOn(w, cluster);
    }
  }

  /** Filtering the listed namespaces keeps the existing ones that match. */
  lemma SelectsTheMatching(cfg: Config, sel: NamespaceSelector, cluster: ObjectReference, w: World, n: string)
    requires ListsAll(cfg)
    ensures n in SelectNamespaces(cfg, sel, cluster, cfg.listOrder(NamespacesOn(w, cluster)), w) <==>
            (cluster, n) in w.namespaces && NamespaceMatches(cfg, sel, n, w.namespaces[(cluster, n)].labels) == Some(true)
  {
    SelectNamespacesMembers(cfg, sel, cluster, cfg.listOrder(NamespacesOn(w, cluster)), w);
    NamespacesOnMembers(w, cluster, n);
    hide NamespaceMatches;
  }

  /** A definition that selects by labels works on exactly the existing namespaces whose labels are selected, and on all without any
      label requirement. */
  lemma SelectsByLabels(cfg: Config, def: TargetDefinition, cluster: Option<Cluster>, w: World, n: string)
    requires ListsAll(cfg) && !(def.cluster.Some? && def.cluster.value.nextTo)
    requires def.namespaces.Some? && def.namespaces.value.matchIdentities.None?
    ensures var c, required := if cluster.None? then ObjectReference("", "") else cluster.value.ref, def.namespaces.value.labels;
            n in Resolved(cfg, def, cluster, w) <==>
            && (c, n) in w.namespaces
            && ((required.matchLabels.None? && required.matchExpressions == []) || cfg.labelsSelected(required, w.namespaces[(c, n)].labels) == Some(true))
  {
    SelectsTheMatching(cfg, def.namespaces.value, OwnRef(cluster), w, n);
    hide SelectNamespaces;
  }

  /** Two worlds agree on the namespaces of the one that has fewer. */
  ghost predicate NamespacesGrow(w: World, w': World) {
    forall k :: k in w.namespaces ==> k in w'.namespaces && w'.namespaces[k] == w.namespaces[k]
  }

  lemma ResolvedGrows(cfg: Config, def: TargetDefinition, cluster: Option<Cluster>, w: World, w': World, n: string)
    requires ListsAll(cfg) && NamespacesGrow(w, w') && n in Resolved(cfg, def, cluster, w)
    ensures n in Resolved(cfg, def, cluster, w')
  {
    if !IsNextTo(def) && def.namespaces.Some? && def.namespaces.value.matchIdentities.None? {
      SelectsTheMatching(cfg, def.namespaces.value, OwnRef(cluster), w, n);
      SelectsTheMatching(cfg, def.namespaces.value, OwnRef(cluster), w', n);
    }
  }

  // ---- Choices ----

  /** One run of the innermost loop body. */
  datatype Choice = Choice(def: TargetDefinition, cluster: Option<Cluster>, namespace: string)

  predicate Live(cluster: Option<Cluster>) {
    cluster.None? || !cluster.value.inDeletion
  }

  /** The choices a task leads to if the namespaces stay as they are. */
  ghost predicate Offers(cfg: Config, clusters: seq<Cluster>, w: World, t: Task, c: Choice) {
    match t
    case Definition(def) =>
      c.def == def && c.cluster in MatchedClusters(cfg, def, clusters) && Live(c.cluster) && c.namespace in Resolved(cfg, def, c.cluster, w)
    case OpenCluster(def, cluster) =>
      c.def == def && c.cluster == cluster && Live(cluster) && c.namespace in Resolved(cfg, def, cluster, w)
    case Target(def, cluster, namespace) => c == Choice(def, cluster, namespace)
    case _ => false
  }

  ghost predicate Promised(cfg: Config, clusters: seq<Cluster>, w: World, agenda: seq<Task>, c: Choice) {
    exists t :: t in agenda && Offers(cfg, clusters, w, t, c)
  }

  lemma OffersGrow(cfg: Config, clusters: seq<Cluster>, w: World, w': World, t: Task, c: Choice)
    requires ListsAll(cfg) && NamespacesGrow(w, w') && Offers(cfg, clusters, w, t, c)
    ensures Offers(cfg, clusters, w', t, c)
  {
    if !t.Target? {
      ResolvedGrows(cfg, c.def, c.cluster, w, w', c.namespace);
    }
  }

  lemma {:induction false} OpenTasksIn(def: TargetDefinition, clusters: seq<Option<Cluster>>, c: Option<Cluster>)
    ensures OpenCluster(def, c) in OpenTasks(def, clusters) <==> c in clusters
  {
    if clusters != [] {
      OpenTasksIn(def, clusters[1..], c);
    }
  }

  lemma {:induction false} TargetTasksIn(def: TargetDefinition, cluster: Option<Cluster>, namespaces: seq<string>, n: string)
    ensures Target(def, cluster, n) in TargetTasks(def, cluster, namespaces) <==> n in namespaces
  {
    if namespaces != [] {
      TargetTasksIn(def, cluster, namespaces[1..], n);
    }
  }

  /** Opening a definition or a cluster replaces it by entries of the agenda that offer the same. */
  lemma OpeningOffersTheSame(cfg: Config, fate: Fate, t: Task, s: State, c: Choice)
    requires fate.access && fate.list && (t.Definition? || t.OpenCluster?)
    ensures Promised(cfg, s.pass.clusters, s.world, Step(cfg, fate, t, s).1, c) <==> Offers(cfg, s.pass.clusters, s.world, t, c)
  {
    var more := Step(cfg, fate, t, s).1;
    match t
    case Definition(def) =>
      OpenTasksAre(def, MatchedClusters(cfg, def, s.pass.clusters));
      OpenTasksIn(def, MatchedClusters(cfg, def, s.pass.clusters), c.cluster);
      if Offers(cfg, s.pass.clusters, s.world, t, c) {
        assert OpenCluster(def, c.cluster) in more && Offers(cfg, s.pass.clusters, s.world, OpenCluster(def, c.cluster), c);
      }
    case OpenCluster(def, cluster) =>
      if Live(cluster) {
        ResolvedIsWhatAPassUses(cfg, fate, def, cluster, s);
        ClusterTasksAre(def, cluster, Resolved(cfg, def, cluster, s.world));
        TargetTasksIn(def, cluster, Resolved(cfg, def, cluster, s.world), c.namespace);
        if Offers(cfg, s.pass.clusters, s.world, t, c) {
          assert Target(def, cluster, c.namespace) in more && Offers(cfg, s.pass.clusters, s.world, Target(def, cluster, c.namespace), c);
        }
      }
  }

  // ---- Keys ----

  /** The key of the condition a choice gets, if it gets one. */
  function NamedKey(cfg: Config, input: string, c: Choice): Option<Location> {
    match Render(cfg, input, c.cluster, c.namespace)
    case TemplateFailed => None
    case MarshalFailed(ref) => Some(Key(c.cluster, ref))
    case Rendered(_, ref, _) => Some(Key(c.cluster, ref))
  }

  /** The key of the target a choice renders, if it renders one. */
  function RenderedKey(cfg: Config, input: string, c: Choice): Option<Location> {
    match Render(cfg, input, c.cluster, c.namespace)
    case Rendered(_, ref, _) => Some(Key(c.cluster, ref))
    case _ => None
  }

  ghost predicate OffersKey(cfg: Config, input: string, clusters: seq<Cluster>, w: World, t: Task, key: Location) {
    exists c :: Offers(cfg, clusters, w, t, c) && RenderedKey(cfg, input, c) == Some(key)
  }

  function DefOf(t: Task): Option<TargetDefinition> {
    match t
    case Definition(def) => Some(def)
    case OpenCluster(def, _) => Some(def)
    case Target(def, _, _) => Some(def)
    case _ => None
  }

  /** The first target definition on the agenda that renders a target with this key. */
  ghost function FirstDef(cfg: Config, input: string, clusters: seq<Cluster>, w: World, agenda: seq<Task>, key: Location): Option<TargetDefinition> {
    if agenda == [] then None
    else if OffersKey(cfg, input, clusters, w, agenda[0], key) then DefOf(agenda[0])
    else FirstDef(cfg, input, clusters, w, agenda[1..], key)
  }

  lemma {:induction false} FirstAppend(cfg: Config, input: string, clusters: seq<Cluster>, w: World, a: seq<Task>, b: seq<Task>, key: Location)
    ensures FirstDef(cfg, input, clusters, w, a + b, key) ==
            if (exists t :: t in a && OffersKey(cfg, input, clusters, w, t, key))
            then FirstDef(cfg, input, clusters, w, a, key) else FirstDef(cfg, input, clusters, w, b, key)
  {
    hide OffersKey;
    if a == [] {
      assert a + b == b;
    } else {
      assert (a + b)[1..] == a[1..] + b;
      FirstAppend(cfg, input, clusters, w, a[1..], b, key);
      assert a == [a[0]] + a[1..];
    }
  }

  lemma {:induction false} FirstOfOne(cfg: Config, input: string, clusters: seq<Cluster>, w: World, a: seq<Task>, def: TargetDefinition, key: Location)
    requires forall t :: t in a ==> DefOf(t) == Some(def) || DefOf(t).None?
    ensures FirstDef(cfg, input, clusters, w, a, key) ==
            if (exists t :: t in a && OffersKey(cfg, input, clusters, w, t, key)) then Some(def) else None
  {
    if a != [] {
      assert a == [a[0]] + a[1..];
      FirstOfOne(cfg, input, clusters, w, a[1..], def, key);
    }
  }

  /** A definition comes first with a choice of its own. */
  lemma {:induction false} FirstHasChoice(cfg: Config, input: string, clusters: seq<Cluster>, w: World, agenda: seq<Task>, key: Location) returns (c: Choice)
    requires FirstDef(cfg, input, clusters, w, agenda, key).Some?
    ensures Promised(cfg, clusters, w, agenda, c) && RenderedKey(cfg, input, c) == Some(key)
    ensures FirstDef(cfg, input, clusters, w, agenda, key) == Some(c.def)
  {
    assert agenda == [agenda[0]] + agenda[1..];
    hide RenderedKey, Offers;
    if OffersKey(cfg, input, clusters, w, agenda[0], key) {
      c :| Offers(cfg, clusters, w, agenda[0], c) && RenderedKey(cfg, input, c) == Some(key);
      OfferHasDef(cfg, clusters, w, agenda[0], c);
    } else {
      c := FirstHasChoice(cfg, input, clusters, w, agenda[1..], key);
    }
  }

  lemma OfferHasDef(cfg: Config, clusters: seq<Cluster>, w: World, t: Task, c: Choice)
    requires Offers(cfg, clusters, w, t, c)
    ensures DefOf(t) == Some(c.def)
  {}

  lemma OpeningKeepsDef(cfg: Config, fate: Fate, t: Task, s: State)
    requires fate.access && fate.list && (t.Definition? || t.OpenCluster?)
    ensures forall u :: u in Step(cfg, fate, t, s).1 ==> IsLoop(u) && (DefOf(u) == Some(t.def) || DefOf(u).None?)
  {
    match t
    case Definition(def) => OpenTasksAre(def, MatchedClusters(cfg, def, s.pass.clusters));
    case OpenCluster(def, cluster) =>
      if Live(cluster) {
        ResolvedIsWhatAPassUses(cfg, fate, def, cluster, s);
        ClusterTasksAre(def, cluster, Resolved(cfg, def, cluster, s.world));
      }
  }

  /** Namespaces have names. */
  ghost predicate Named(w: World) {
    forall k :: k in w.namespaces ==> k.1 != ""
  }

  function View(w: World, key: Location): Option<Namespace> {
    Lookup(w.namespaces, (key.cluster, key.ref.namespace))
  }

  /** What a choice with this key depends on in the world is the key's own namespace. */
  lemma OfferDependsOnView(cfg: Config, input: string, clusters: seq<Cluster>, w: World, w': World, t: Task, key: Location, c: Choice)
    requires ListsAll(cfg) && Named(w) && Named(w') && View(w, key) == View(w', key)
    requires Offers(cfg, clusters, w, t, c) && RenderedKey(cfg, input, c) == Some(key)
    ensures Offers(cfg, clusters, w', t, c)
  {
    if !t.Target? && !IsNextTo(c.def) && c.def.namespaces.Some? && c.def.namespaces.value.matchIdentities.None? {
      SelectsTheMatching(cfg, c.def.namespaces.value, OwnRef(c.cluster), w, c.namespace);
      SelectsTheMatching(cfg, c.def.namespaces.value, OwnRef(c.cluster), w', c.namespace);
      var k := (OwnRef(c.cluster), c.namespace);
      assert k in w.namespaces && k.1 != "";
      assert key.ref.namespace == c.namespace && key.cluster == OwnRef(c.cluster);
    }
  }

  lemma {:induction false} FirstDependsOnView(cfg: Config, input: string, clusters: seq<Cluster>, w: World, w': World, agenda: seq<Task>, key: Location)
    requires ListsAll(cfg) && Named(w) && Named(w') && View(w, key) == View(w', key)
    ensures FirstDef(cfg, input, clusters, w, agenda, key) == FirstDef(cfg, input, clusters, w', agenda, key)
  {
    if agenda != [] {
      FirstDependsOnView(cfg, input, clusters, w, w', agenda[1..], key);
      var t := agenda[0];
      hide Offers, RenderedKey, View, Named, ListsAll;
      if OffersKey(cfg, input, clusters, w, t, key) {
        var c :| Offers(cfg, clusters, w, t, c) && RenderedKey(cfg, input, c) == Some(key);
        OfferDependsOnView(cfg, input, clusters, w, w', t, key, c);
      }
      if OffersKey(cfg, input, clusters, w', t, key) {
        var c :| Offers(cfg, clusters, w', t, c) && RenderedKey(cfg, input, c) == Some(key);
        OfferDependsOnView(cfg, input, clusters, w', w, t, key, c);
      }
    }
  }

  /** The choice is in a namespace that exists in w' and not in w, and that its definition selects by labels. */
  ghost predicate NewlySelected(cfg: Config, w: World, w': World, c: Choice) {
    var k := (OwnRef(c.cluster), c.namespace);
    && !IsNextTo(c.def) && c.def.namespaces.Some? && c.def.namespaces.value.matchIdentities.None?
    && k !in w.namespaces && k in w'.namespaces
    && NamespaceMatches(cfg, c.def.namespaces.value, c.namespace, w'.namespaces[k].labels) == Some(true)
  }

  /** A choice that only further namespaces make possible is one in such a namespace, on the cluster of its definition. */
  lemma OfferOfNewNamespace(cfg: Config, input: string, clusters: seq<Cluster>, w: World, w': World, t: Task, key: Location, c: Choice)
    requires ListsAll(cfg) && Named(w') && NamespacesGrow(w, w')
    requires Offers(cfg, clusters, w', t, c) && !Offers(cfg, clusters, w, t, c) && RenderedKey(cfg, input, c) == Some(key)
    ensures NewlySelected(cfg, w, w', c) && View(w, key).None? && View(w', key).Some?
  {
    SelectsTheMatching(cfg, c.def.namespaces.value, OwnRef(c.cluster), w, c.namespace);
    SelectsTheMatching(cfg, c.def.namespaces.value, OwnRef(c.cluster), w', c.namespace);
    var k := (OwnRef(c.cluster), c.namespace);
    assert k in w'.namespaces && k.1 != "";
    assert key.ref.namespace == c.namespace && key.cluster == OwnRef(c.cluster);
  }

  /** If further namespaces change which definition comes first for a target, its own namespace is one of them,
      and the definition that comes first now selects that namespace by labels. */
  lemma {:induction false} FirstChanges(cfg: Config, input: string, clusters: seq<Cluster>, w: World, w': World, agenda: seq<Task>, key: Location)
    returns (c: Choice)
    requires ListsAll(cfg) && Named(w') && NamespacesGrow(w, w')
    requires FirstDef(cfg, input, clusters, w, agenda, key) != FirstDef(cfg, input, clusters, w', agenda, key)
    ensures FirstDef(cfg, input, clusters, w', agenda, key) == Some(c.def) && RenderedKey(cfg, input, c) == Some(key)
    ensures Promised(cfg, clusters, w', agenda, c) && NewlySelected(cfg, w, w', c)
    ensures View(w, key).None? && View(w', key).Some?
  {
    var t := agenda[0];
    assert agenda == [t] + agenda[1..];
    hide RenderedKey, View, Named, ListsAll, NamespacesGrow, Offers, NewlySelected;
    if OffersKey(cfg, input, clusters, w, t, key) {
      var d :| Offers(cfg, clusters, w, t, d) && RenderedKey(cfg, input, d) == Some(key);
      OffersGrow(cfg, clusters, w, w', t, d);
      c := d;
    } else if OffersKey(cfg, input, clusters, w', t, key) {
      c :| Offers(cfg, clusters, w', t, c) && RenderedKey(cfg, input, c) == Some(key);
      OfferOfNewNamespace(cfg, input, clusters, w, w', t, key, c);
      OfferHasDef(cfg, clusters, w', t, c);
    } else {
      c := FirstChanges(cfg, input, clusters, w, w', agenda[1..], key);
    }
  }
}
