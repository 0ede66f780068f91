/** Target definitions, the selectors in them, and what the rest of the platform decides for the controller. */
module Targets {
  import opened Refs
  import opened Objects

  datatype Cluster = Cluster(ref: ObjectReference, inDeletion: bool, info: string)

  datatype Namespace = Namespace(labels: map<string, string>, inDeletion: bool)

  datatype LabelSelector = LabelSelector(matchLabels: Option<map<string, string>>, matchExpressions: seq<string>)

  datatype NamespaceSelector = NamespaceSelector(matchIdentities: Option<seq<string>>, labels: LabelSelector)
  {
    predicate Empty() {
      matchIdentities.None? && labels.matchLabels.None? && labels.matchExpressions == []
    }
  }

  datatype ClusterTarget = ClusterTarget(selector: Option<string>, nextTo: bool)

  datatype TargetConflictPolicy = Overwrite | Skip | Fail

  datatype NamespacePolicy = Create | SkipMissing | FailMissing

  /** No cluster means the hosting platform cluster; no namespace selector means that the template names the namespace. */
  datatype TargetDefinition = TargetDefinition(
    cluster: Option<ClusterTarget>,
    namespaces: Option<NamespaceSelector>,
    conflictPolicy: TargetConflictPolicy,
    namespacePolicy: NamespacePolicy)

  /** Templating may fail, and a plain copy may fail to be marshalled for the comparison. */
  datatype Rendering =
    | TemplateFailed
    | MarshalFailed(ref: TypedRef)
    | Rendered(raw: string, ref: TypedRef, target: Object)

  /** The decisions taken outside of the controller, each a deterministic function of its input. */
  datatype Config = Config(
    provider: string,
    clusterSelected: (string, Cluster) -> bool,
    labelsSelected: (LabelSelector, map<string, string>) -> Option<bool>,
    render: (string, Option<Cluster>, string) -> Rendering,
    listOrder: set<string> -> seq<string>,
    freshLabels: string -> map<string, string>,
    targetCondition: Location -> string,
    clusterCondition: ObjectReference -> string)

  /** A listing of names returns every name once. */
  ghost predicate ListsAll(cfg: Config) {
    forall names :: NoDuplicates(cfg.listOrder(names)) && forall n :: n in cfg.listOrder(names) <==> n in names
  }

  /** The namespace of a namespaced target replaces the rendered one. */
  function Render(cfg: Config, input: string, cluster: Option<Cluster>, namespace: string): Rendering {
    var r := cfg.render(input, cluster, namespace);
    if r.TemplateFailed? || namespace == "" then r else r.(ref := r.ref.(namespace := namespace))
  }

  function IsNextTo(def: TargetDefinition): bool {
    def.cluster.Some? && def.cluster.value.nextTo
  }

  predicate ClusterMatches(cfg: Config, def: TargetDefinition, c: Cluster)
    requires def.cluster.Some?
  {
    def.cluster.value.selector.None? || cfg.clusterSelected(def.cluster.value.selector.value, c)
  }

  function MatchedClusters(cfg: Config, def: TargetDefinition, clusters: seq<Cluster>): seq<Option<Cluster>> {
    if def.cluster.None? then [None]
    else if clusters == [] then []
    else (if ClusterMatches(cfg, def, clusters[0]) then [Some(clusters[0])] else []) + MatchedClusters(cfg, def, clusters[1..])
  }

  /** NamespaceSelector.Matches: a missing answer is a selector that cannot be evaluated. */
  function NamespaceMatches(cfg: Config, sel: NamespaceSelector, name: string, labels: map<string, string>): Option<bool> {
    if sel.Empty() then Some(true)
    else if sel.matchIdentities.Some? then Some(name in sel.matchIdentities.value)
    else cfg.labelsSelected(sel.labels, labels)
  }

  /** The answer of a selector, field by field: identities are compared by name; without them and without any label requirement everything
      matches; else the labels decide. */
  ghost predicate IsAnswer(cfg: Config, sel: NamespaceSelector, name: string, labels: map<string, string>, answer: Option<bool>) {
    match sel.matchIdentities
    case Some(ids) => answer == Some(exists i :: 0 <= i < |ids| && ids[i] == name)
    case None =>
      answer == if sel.labels.matchLabels.None? && |sel.labels.matchExpressions| == 0 then Some(true) else cfg.labelsSelected(sel.labels, labels)
  }

  lemma AnswerIs(cfg: Config, sel: NamespaceSelector, name: string, labels: map<string, string>, answer: Option<bool>)
    ensures IsAnswer(cfg, sel, name, labels, answer) <==> answer == NamespaceMatches(cfg, sel, name, labels)
  {}

  /** NamespaceSelector.Matches on a receiver that may be nil. */
  method Matches(cfg: Config, sel: Option<NamespaceSelector>, name: string, labels: map<string, string>) returns (matches: Option<bool>)
    ensures sel.None? ==> matches == Some(true)
    ensures sel.Some? ==> IsAnswer(cfg, sel.value, name, labels, matches)
    ensures matches == if sel.None? then Some(true) else NamespaceMatches(cfg, sel.value, name, labels)
  {
    if sel.None? || sel.value.Empty() {
      return Some(true);
    }
    if sel.value.matchIdentities.Some? {
      var ids := sel.value.matchIdentities.value;
      for i := 0 to |ids|
        invariant name !in ids[..i]
      {
        if ids[i] == name {
          return Some(true);
        }
        assert ids[..i + 1] == ids[..i] + [ids[i]];
      }
      assert ids[..|ids|] == ids;
      return Some(false);
    }
    matches := cfg.labelsSelected(sel.value.labels, labels);
  }

  /** The reference of the cluster a target is selected by, used for conflict detection and conditions. */
  function OwnRef(cluster: Option<Cluster>): ObjectReference {
    if cluster.None? then HOSTING else cluster.value.ref
  }

  /** The reference of the cluster a target lives on, used for the status and the managed set. */
  function HomeRef(def: TargetDefinition, cluster: Option<Cluster>): ObjectReference {
    if IsNextTo(def) then HOSTING else OwnRef(cluster)
  }
}
