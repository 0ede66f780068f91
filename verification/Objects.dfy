/** Objects on the clusters, the labels that say who owns them, and how a copy is written and released. */
module Objects {
  import opened Refs

  datatype ReplicaKind = Replica | ClusterReplica

  /** A Replica or, with an empty namespace, a ClusterReplica. */
  datatype ReplicaId = ReplicaId(kind: ReplicaKind, namespace: string, name: string)

  datatype LabelKey =
    | ManagedBy
    | SourceKind
    | SourceName
    | SourceNamespace
    | SourceGeneration
    | DeletionPolicy
    | OtherLabel(key: string)

  type Labels = map<LabelKey, string>

  /** Everything but metadata, status, apiVersion and kind is in fields; metadata is its part besides labels and annotations. */
  datatype Object = Object(
    fields: map<string, string>,
    status: Option<string>,
    metadata: string,
    labels: Labels,
    annotations: map<string, string>,
    inDeletion: bool)

  const KEEP := "Keep"

  const BLANK := Object(map[], None, "", map[], map[], false)

  function KindLabel(kind: ReplicaKind): string {
    match kind
    case Replica => "replica"
    case ClusterReplica => "clusterreplica"
  }

  /** A missing label reads as the empty string. */
  function Label(labels: Labels, key: LabelKey): string {
    if key in labels then labels[key] else ""
  }

  const MANAGEMENT_LABELS: set<LabelKey> :=
    {ManagedBy, SourceKind, SourceName, SourceNamespace, SourceGeneration, DeletionPolicy}

  function WithManagementLabels(provider: string, id: ReplicaId, generation: string, labels: Labels): Labels {
    var l := labels[ManagedBy := provider][SourceKind := KindLabel(id.kind)][SourceGeneration := generation][SourceName := id.name];
    if id.kind.Replica? then l[SourceNamespace := id.namespace] else l
  }

  /** The ownership test of the sync path. */
  predicate OwnedByThis(id: ReplicaId, o: Object) {
    && Label(o.labels, SourceKind) == KindLabel(id.kind)
    && Label(o.labels, SourceName) == id.name
    && Label(o.labels, SourceNamespace) == id.namespace
  }

  predicate OwnedByOther(id: ReplicaId, o: Object) {
    !OwnedByThis(id, o) && Label(o.labels, SourceKind) != ""
  }

  /** The ownership test of the deletion path, which does not look at the namespace label. */
  predicate IsManaged(provider: string, id: ReplicaId, o: Object) {
    && Label(o.labels, ManagedBy) == provider
    && Label(o.labels, SourceName) == id.name
    && Label(o.labels, SourceKind) == KindLabel(id.kind)
  }

  predicate Kept(o: Object) {
    Label(o.labels, DeletionPolicy) == KEEP
  }

  /** o carries the labels that a sync by id writes. */
  predicate Owns(provider: string, id: ReplicaId, o: Object) {
    IsManaged(provider, id, o) && (id.kind.Replica? ==> Label(o.labels, SourceNamespace) == id.namespace)
  }

  /** The owner an object names. */
  datatype Owner = Owner(kind: string, namespace: string, name: string)

  /** Only a Replica writes the namespace label. */
  function OwnerOf(o: Object): Owner {
    var kind := Label(o.labels, SourceKind);
    Owner(kind, if kind == KindLabel(ClusterReplica) then "" else Label(o.labels, SourceNamespace), Label(o.labels, SourceName))
  }

  function WrittenLabels(target: Labels, rendered: Labels): Labels {
    if DeletionPolicy in target && DeletionPolicy !in rendered
    then rendered[DeletionPolicy := target[DeletionPolicy]] else rendered
  }

  /** The target after the mutate function of CreateOrUpdate. */
  function Updated(target: Object, rendered: Object): Object {
    target.(fields := rendered.fields,
      labels := WrittenLabels(target.labels, rendered.labels),
      annotations := rendered.annotations)
  }

  function CreatedOrUpdated(existing: Option<Object>, rendered: Object): Object {
    match existing
    case None => Updated(rendered, rendered).(inDeletion := false)
    case Some(o) => Updated(o, rendered)
  }

  function Released(o: Object): Object {
    o.(labels := o.labels - MANAGEMENT_LABELS)
  }

  lemma KindLabelsDiffer()
    ensures KindLabel(Replica) != KindLabel(ClusterReplica)
    ensures forall k :: KindLabel(k) != ""
  {
    assert |KindLabel(Replica)| == 7 && |KindLabel(ClusterReplica)| == 14;
  }

  /** At most one replica owns an object. */
  lemma OwnerIsUnique(provider: string, a: ReplicaId, b: ReplicaId, o: Object)
    requires a.kind.ClusterReplica? ==> a.namespace == ""
    requires b.kind.ClusterReplica? ==> b.namespace == ""
    requires Owns(provider, a, o) && Owns(provider, b, o)
    ensures a == b
  {
    KindLabelsDiffer();
  }

  /** The deletion path of a takes an object of b for its own exactly if the two are of one kind and name, in whatever namespaces. */
  lemma DeletionPathIgnoresNamespace(provider: string, a: ReplicaId, b: ReplicaId, o: Object)
    requires Owns(provider, b, o)
    ensures IsManaged(provider, a, o) <==> a.kind == b.kind && a.name == b.name
  {
    KindLabelsDiffer();
  }

  /** What a sync writes is owned by the syncing replica and by nobody else. */
  lemma SyncTakesOwnership(provider: string, id: ReplicaId, generation: string, existing: Option<Object>, rendered: Object)
    ensures var r := rendered.(labels := WithManagementLabels(provider, id, generation, rendered.labels));
            var o := CreatedOrUpdated(existing, r);
            && Owns(provider, id, o)
            && ManagedBy in o.labels && o.labels[ManagedBy] == provider
            && Label(o.labels, SourceKind) == (if id.kind.Replica? then "replica" else "clusterreplica")
            && Label(o.labels, SourceName) == id.name
            && SourceGeneration in o.labels && o.labels[SourceGeneration] == generation
            && (id.kind.Replica? ==> Label(o.labels, SourceNamespace) == id.namespace)
            && (id.kind.ClusterReplica? ==> Label(o.labels, SourceNamespace) == Label(rendered.labels, SourceNamespace))
            && forall k: string :: OtherLabel(k) in o.labels <==> OtherLabel(k) in rendered.labels
  {}

  /** The update function is idempotent. */
  lemma UpdateIdempotent(target: Object, rendered: Object)
    ensures Updated(Updated(target, rendered), rendered) == Updated(target, rendered)
  {}

  /** An update sets every rendered part, keeps status and other metadata, and never drops the deletion-policy label. */
  lemma UpdateWritesRendering(target: Object, rendered: Object)
    ensures var o := Updated(target, rendered);
            && o.fields == rendered.fields && o.annotations == rendered.annotations
            && o.status == target.status && o.metadata == target.metadata && o.inDeletion == target.inDeletion
            && (DeletionPolicy in target.labels ==> DeletionPolicy in o.labels)
            && (DeletionPolicy in target.labels && DeletionPolicy !in rendered.labels ==> o.labels[DeletionPolicy] == target.labels[DeletionPolicy])
            && (forall k :: k != DeletionPolicy ==> (k in o.labels <==> k in rendered.labels) && (k in o.labels ==> o.labels[k] == rendered.labels[k]))
  {}

  /** Releasing removes the six management labels and nothing else; nobody owns the object any more. */
  lemma ReleaseRemovesExactly(provider: string, id: ReplicaId, o: Object)
    ensures var r := Released(o);
            && r == o.(labels := r.labels)
            && (forall k :: k in r.labels <==>
                  && k in o.labels && k != ManagedBy && k != SourceKind && k != SourceName && k != SourceNamespace
                  && k != SourceGeneration && k != DeletionPolicy)
            && (forall k :: k in r.labels ==> r.labels[k] == o.labels[k])
            && !IsManaged(provider, id, r) && !Owns(provider, id, r) && OwnerOf(r) == Owner("", "", "")
  {
    KindLabelsDiffer();
  }

  /** The mutate function, walking the maps of both objects. */
  method MutateTarget(target: Object, rendered: Object) returns (o: Object)
    ensures o == Updated(target, rendered)
  {
    var fields := target.fields;
    var todo := rendered.fields.Keys;
    while todo != {}
      invariant todo <= rendered.fields.Keys
      invariant fields.Keys == target.fields.Keys + (rendered.fields.Keys - todo)
      invariant forall k :: k in rendered.fields && k !in todo ==> fields[k] == rendered.fields[k]
      decreases todo
    {
      var k :| k in todo;
      fields := fields[k := rendered.fields[k]];
      todo := todo - {k};
    }
    todo := fields.Keys;
    while todo != {}
      invariant todo <= fields.Keys
      invariant rendered.fields.Keys <= fields.Keys
      invariant forall k :: k in fields && k !in todo ==> k in rendered.fields
      invariant forall k :: k in rendered.fields ==> fields[k] == rendered.fields[k]
      decreases todo
    {
      var k :| k in todo;
      if k !in rendered.fields {
        fields := fields - {k};
      }
      todo := todo - {k};
    }
    assert fields == rendered.fields;
    var labels := rendered.labels;
    if DeletionPolicy in target.labels && DeletionPolicy !in rendered.labels {
      labels := labels[DeletionPolicy := target.labels[DeletionPolicy]];
    }
    o := target.(fields := fields, labels := labels, annotations := rendered.annotations);
  }

  /** The release, removing one label after the other. */
  method ReleaseLabels(o: Object) returns (r: Object)
    ensures r == Released(o)
    ensures r.labels == o.labels - {ManagedBy, SourceKind, SourceName, SourceNamespace, SourceGeneration, DeletionPolicy}
  {
    var labels := o.labels;
    labels := labels - {ManagedBy};
    labels := labels - {SourceKind};
    labels := labels - {SourceName};
    labels := labels - {SourceNamespace};
    labels := labels - {SourceGeneration};
    labels := labels - {DeletionPolicy};
    assert labels == o.labels - MANAGEMENT_LABELS;
    r := o.(labels := labels);
  }
}
