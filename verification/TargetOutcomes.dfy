/** What becomes of one target, case by case: its condition, its errors, the status and the object, from labels, policies and calls alone. */
module TargetOutcomes {
  import opened Refs
  import opened StatusList
  import opened Objects
  import opened Targets
  import opened Steps

  // ---- Labels and places, spelled out ----

  /** A missing label reads as the empty string. */
  ghost predicate Reads(labels: Labels, key: LabelKey, value: string) {
    if key in labels then labels[key] == value else value == ""
  }

  ghost function KindText(kind: ReplicaKind): string {
    if kind.Replica? then "replica" else "clusterreplica"
  }

  /** The owner labels are those of id. */
  ghost predicate NamesOwner(id: ReplicaId, o: Object) {
    Reads(o.labels, SourceKind, KindText(id.kind)) && Reads(o.labels, SourceName, id.name) && Reads(o.labels, SourceNamespace, id.namespace)
  }

  /** The reference of the selecting Cluster, empty for the hosting cluster. */
  ghost function Selecting(cluster: Option<Cluster>): ObjectReference {
    if cluster.None? then ObjectReference("", "") else cluster.value.ref
  }

  /** Where copies are kept: on the hosting cluster if they live next to the Cluster. */
  ghost function Keeping(def: TargetDefinition, cluster: Option<Cluster>): ObjectReference {
    if def.cluster.Some? && def.cluster.value.nextTo then ObjectReference("", "") else Selecting(cluster)
  }

  /** The target is rendered, with this key and this home, for the first time in the pass. */
  ghost predicate First(cfg: Config, def: TargetDefinition, cluster: Option<Cluster>, namespace: string, s: State,
                        raw: string, rendered: Object, key: Location, home: Location) {
    && Render(cfg, s.pass.input, cluster, namespace) == Rendered(raw, key.ref, rendered)
    && key.cluster == Selecting(cluster) && home == Location(Keeping(def, cluster), key.ref)
    && key !in s.pass.seen
  }

  // ---- Answers ----

  /** One condition for the key, and one error unless all is well. */
  ghost predicate Answers(cfg: Config, key: Location, ok: bool, reason: Reason, s: State, s': State) {
    && s'.pass.conditions == s.pass.conditions + [TargetCondition(cfg.targetCondition(key), ok, reason)]
    && s'.pass.errors == s.pass.errors + (if ok then 0 else 1)
  }

  /** No object, no namespace and no entry changes, in memory or in store. */
  ghost predicate Untouched(s: State, s': State) {
    && s'.world == s.world && s'.persisted == s.persisted
    && s'.pass.status == s.pass.status && s'.pass.oldStatus == s.pass.oldStatus && s'.pass.managed == s.pass.managed
  }

  /** The rendering itself, with the namespace of the target put in place of the rendered one. */
  lemma RenderedNamespace(cfg: Config, input: string, cluster: Option<Cluster>, namespace: string)
    ensures var a, b := cfg.render(input, cluster, namespace), Render(cfg, input, cluster, namespace);
            && (a.TemplateFailed? <==> b.TemplateFailed?) && (a.Rendered? <==> b.Rendered?)
            && (a.Rendered? ==> b.raw == a.raw && b.target == a.target)
            && (!a.TemplateFailed? ==> b.ref.gvk == a.ref.gvk && b.ref.name == a.ref.name)
            && (!a.TemplateFailed? ==> b.ref.namespace == if namespace == "" then a.ref.namespace else namespace)
  {}

  /** A template that fails is an error without a condition for the target; a copy that cannot be marshalled is one with a condition. */
  lemma RenderingFails(cfg: Config, fate: Fate, def: TargetDefinition, cluster: Option<Cluster>, namespace: string, s: State)
    ensures var r, s' := Render(cfg, s.pass.input, cluster, namespace), HandleTarget(cfg, fate, def, cluster, namespace, s);
            && (!r.Rendered? ==> Untouched(s, s') && s'.pass.seen == s.pass.seen)
            && (r.TemplateFailed? ==> s'.pass.conditions == s.pass.conditions && s'.pass.errors == s.pass.errors + 1)
            && (r.MarshalFailed? ==> Answers(cfg, Location(Selecting(cluster), r.ref), false, Failed, s, s'))
  {
    hide Render, SyncTarget;
  }

  /** A target that has been rendered before is compared with the first rendering of its key, and nothing else is done. */
  lemma SeenBefore(cfg: Config, fate: Fate, def: TargetDefinition, cluster: Option<Cluster>, namespace: string, s: State)
    requires Render(cfg, s.pass.input, cluster, namespace).Rendered?
    requires Location(Selecting(cluster), Render(cfg, s.pass.input, cluster, namespace).ref) in s.pass.seen
    ensures var r, s' := Render(cfg, s.pass.input, cluster, namespace), HandleTarget(cfg, fate, def, cluster, namespace, s);
            var key := Location(Selecting(cluster), r.ref);
            && Untouched(s, s') && s'.pass.seen == s.pass.seen
            && if s.pass.seen[key] == r.raw then Answers(cfg, key, true, IdenticalCopy, s, s')
               else Answers(cfg, key, false, RenderedDifferently, s, s')
  {
    hide Render, SyncTarget;
  }

  /** Past conflict detection the first rendering is remembered, and the rest is the sync. */
  lemma FirstIs(cfg: Config, fate: Fate, def: TargetDefinition, cluster: Option<Cluster>, namespace: string, s: State,
                raw: string, rendered: Object, key: Location, home: Location) returns (q: State)
    requires First(cfg, def, cluster, namespace, s, raw, rendered, key, home)
    ensures key == Key(cluster, key.ref) && home == Location(HomeRef(def, cluster), key.ref)
    ensures HandleTarget(cfg, fate, def, cluster, namespace, s) == SyncTarget(cfg, fate, def, cluster, key.ref, Copy(cfg, s.pass, rendered), q)
    ensures Untouched(s, q) && q.pass.conditions == s.pass.conditions && q.pass.errors == s.pass.errors
    ensures q.pass.id == s.pass.id && q.pass.generation == s.pass.generation && q.pass.seen == s.pass.seen[key := raw]
  {
    HandleRendered(cfg, fate, def, cluster, namespace, s);
    q := s.(pass := s.pass.(renderings := s.pass.renderings + [(key, raw)], seen := s.pass.seen[key := raw], reached := s.pass.reached + [key]));
    hide HandleTarget, SyncTarget, Render;
  }

  /** If it cannot be found out whether the object exists, the target fails. */
  lemma GetFails(cfg: Config, fate: Fate, def: TargetDefinition, cluster: Option<Cluster>, namespace: string, s: State,
                 raw: string, rendered: Object, key: Location, home: Location)
    requires First(cfg, def, cluster, namespace, s, raw, rendered, key, home) && !fate.get
    ensures var s' := HandleTarget(cfg, fate, def, cluster, namespace, s); Untouched(s, s') && Answers(cfg, key, false, Failed, s, s')
  {
    var q := FirstIs(cfg, fate, def, cluster, namespace, s, raw, rendered, key, home);
    hide HandleTarget, Render, Copy, HomeRef;
  }

  /** An object that is there without naming the replica as its owner: Overwrite fails if it is in deletion or names another owner,
      Skip is content, Fail fails, and in these cases nothing is touched. */
  lemma ForeignObject(cfg: Config, fate: Fate, def: TargetDefinition, cluster: Option<Cluster>, namespace: string, s: State,
                      raw: string, rendered: Object, key: Location, home: Location)
    requires First(cfg, def, cluster, namespace, s, raw, rendered, key, home) && fate.get
    requires home in s.world.objects && !NamesOwner(s.pass.id, s.world.objects[home])
    requires def.conflictPolicy.Overwrite? ==> s.world.objects[home].inDeletion || !Reads(s.world.objects[home].labels, SourceKind, "")
    ensures var s' := HandleTarget(cfg, fate, def, cluster, namespace, s);
            && Untouched(s, s')
            && if def.conflictPolicy.Skip? then Answers(cfg, key, true, Skipped, s, s') else Answers(cfg, key, false, Failed, s, s')
  {
    var q := FirstIs(cfg, fate, def, cluster, namespace, s, raw, rendered, key, home);
    hide HandleTarget, Render, Copy, HomeRef, Write;
  }

  /** No object, and no namespace to write it to: unknown, in deletion, or missing and not to be created. */
  lemma NoNamespace(cfg: Config, fate: Fate, def: TargetDefinition, cluster: Option<Cluster>, namespace: string, s: State,
                    raw: string, rendered: Object, key: Location, home: Location)
    requires First(cfg, def, cluster, namespace, s, raw, rendered, key, home) && fate.get
    requires home !in s.world.objects && home.ref.namespace != ""
    requires var n := (home.cluster, home.ref.namespace);
             !fate.getNamespace || (if n in s.world.namespaces then s.world.namespaces[n].inDeletion else !def.namespacePolicy.Create?)
    ensures var s' := HandleTarget(cfg, fate, def, cluster, namespace, s);
            && Untouched(s, s')
            && if fate.getNamespace && def.namespacePolicy.SkipMissing? then Answers(cfg, key, true, Skipped, s, s')
               else Answers(cfg, key, false, Failed, s, s')
  {
    var q := FirstIs(cfg, fate, def, cluster, namespace, s, raw, rendered, key, home);
    hide HandleTarget, Render, Copy, HomeRef, Write;
  }

  /** A missing namespace that cannot be created: the target fails, and the namespace is there exactly if the failed call took effect. */
  lemma CreationFails(cfg: Config, fate: Fate, def: TargetDefinition, cluster: Option<Cluster>, namespace: string, s: State,
                      raw: string, rendered: Object, key: Location, home: Location)
    requires First(cfg, def, cluster, namespace, s, raw, rendered, key, home) && fate.get && fate.getNamespace
    requires home !in s.world.objects && home.ref.namespace != "" && (home.cluster, home.ref.namespace) !in s.world.namespaces
    requires def.namespacePolicy.Create? && !fate.createNamespace.Ok?
    ensures var s' := HandleTarget(cfg, fate, def, cluster, namespace, s);
            var made := s.world.namespaces[(home.cluster, home.ref.namespace) := Namespace(cfg.freshLabels(home.ref.namespace), false)];
            && Untouched(s.(world := s'.world), s') && Answers(cfg, key, false, Failed, s, s') && s'.world.objects == s.world.objects
            && s'.world.namespaces == if fate.createNamespace.Applied? then made else s.world.namespaces
  {
    var q := FirstIs(cfg, fate, def, cluster, namespace, s, raw, rendered, key, home);
    hide HandleTarget, Render, Copy, HomeRef, Write;
  }

  // ---- Writing ----

  /** The object is the replica's own, or may be taken over. */
  ghost predicate MayTake(def: TargetDefinition, id: ReplicaId, o: Object) {
    NamesOwner(id, o) || (def.conflictPolicy.Overwrite? && !o.inDeletion && Reads(o.labels, SourceKind, ""))
  }

  /** The object needs no namespace, or its namespace is usable or has been created. */
  ghost predicate HasRoom(fate: Fate, def: TargetDefinition, home: Location, w: World) {
    var n := (home.cluster, home.ref.namespace);
    || home.ref.namespace == ""
    || (fate.getNamespace && if n in w.namespaces then !w.namespaces[n].inDeletion else def.namespacePolicy.Create? && fate.createNamespace.Ok?)
  }

  ghost predicate GoesAhead(fate: Fate, def: TargetDefinition, id: ReplicaId, home: Location, w: World) {
    fate.get && if home in w.objects then MayTake(def, id, w.objects[home]) else HasRoom(fate, def, home, w)
  }

  /** The namespaces after the target's own one has been created if it was missing. */
  ghost function Namespaces(cfg: Config, home: Location, w: World): map<(ObjectReference, string), Namespace> {
    var n := (home.cluster, home.ref.namespace);
    if home !in w.objects && home.ref.namespace != "" && n !in w.namespaces
    then w.namespaces[n := Namespace(cfg.freshLabels(home.ref.namespace), false)] else w.namespaces
  }

  /** What a write by id makes of an object: the rendering with the labels of the replica, a deletion policy that was there and is not
      rendered, and status and other metadata as they were. */
  ghost predicate IsWritten(cfg: Config, id: ReplicaId, generation: string, rendered: Object, before: Option<Object>, o: Object) {
    && o.fields == rendered.fields && o.annotations == rendered.annotations
    && LabelsWritten(cfg, id, generation, rendered.labels, if before.Some? then before.value.labels else map[], o.labels)
    && (if before.Some? then o.status == before.value.status && o.metadata == before.value.metadata && o.inDeletion == before.value.inDeletion
        else o.status == rendered.status && o.metadata == rendered.metadata && !o.inDeletion)
  }

  ghost predicate LabelsWritten(cfg: Config, id: ReplicaId, generation: string, rendered: Labels, before: Labels, labels: Labels) {
    && ManagedBy in labels && labels[ManagedBy] == cfg.provider
    && SourceKind in labels && labels[SourceKind] == KindText(id.kind)
    && SourceName in labels && labels[SourceName] == id.name
    && SourceGeneration in labels && labels[SourceGeneration] == generation
    && (id.kind.Replica? ==> SourceNamespace in labels && labels[SourceNamespace] == id.namespace)
    && (id.kind.ClusterReplica? ==> Lookup(labels, SourceNamespace) == Lookup(rendered, SourceNamespace))
    && Lookup(labels, DeletionPolicy) == (if DeletionPolicy in rendered then Some(rendered[DeletionPolicy]) else Lookup(before, DeletionPolicy))
    && forall k: string :: Lookup(labels, OtherLabel(k)) == Lookup(rendered, OtherLabel(k))
  }

  lemma WrittenIs(cfg: Config, p: Pass, rendered: Object, before: Option<Object>)
    ensures IsWritten(cfg, p.id, p.generation, rendered, before, CreatedOrUpdated(before, Copy(cfg, p, rendered)))
  {
    LabelsAre(cfg, p.id, p.generation, rendered.labels, if before.Some? then before.value.labels else rendered.labels);
    hide LabelsWritten, WrittenLabels, WithManagementLabels;
    if before.None? {
      NoPolicyBefore(cfg, p.id, p.generation, rendered.labels);
    }
  }

  lemma LabelsAre(cfg: Config, id: ReplicaId, generation: string, rendered: Labels, before: Labels)
    ensures LabelsWritten(cfg, id, generation, rendered, before, WrittenLabels(before, WithManagementLabels(cfg.provider, id, generation, rendered)))
  {}

  lemma NoPolicyBefore(cfg: Config, id: ReplicaId, generation: string, rendered: Labels)
    ensures var copy := WithManagementLabels(cfg.provider, id, generation, rendered);
            LabelsWritten(cfg, id, generation, rendered, map[], WrittenLabels(copy, copy))
  {}

  /** The list as stored after a patch that takes effect: the list is sent only if it differs from the old copy. */
  ghost predicate Sent(s: State, s': State) {
    s'.persisted == if s'.pass.status == s.pass.oldStatus then s.persisted else s'.pass.status
  }

  /** The status of an entry that was tracked stays; a new one is in memory from now on, and stored if the patch takes effect. */
  ghost predicate Recorded(fate: Fate, home: Location, s: State, s': State) {
    && Tracked(s'.pass.status) == Tracked(s.pass.status) + {home}
    && (home in Tracked(s.pass.status) ==> s'.pass.status == s.pass.status && s'.pass.oldStatus == s.pass.oldStatus && s'.persisted == s.persisted)
    && (home !in Tracked(s.pass.status) ==>
          && (if fate.patch.Lost? then s'.persisted == s.persisted else Sent(s, s'))
          && s'.pass.oldStatus == if fate.patch.Ok? then s'.pass.status else s.pass.oldStatus)
  }

  ghost predicate ObjectWritten(cfg: Config, home: Location, rendered: Object, s: State, s': State) {
    && home in s'.world.objects && s'.world.objects == s.world.objects[home := s'.world.objects[home]]
    && IsWritten(cfg, s.pass.id, s.pass.generation, rendered, Lookup(s.world.objects, home), s'.world.objects[home])
  }

  /** The object is written unless the call is lost, and only if it succeeds the target is synced. */
  ghost predicate Finished(cfg: Config, fate: Fate, key: Location, home: Location, rendered: Object, s: State, s': State) {
    && (if fate.write.Lost? then s'.world.objects == s.world.objects else ObjectWritten(cfg, home, rendered, s, s'))
    && if fate.write.Ok? then s'.pass.managed == s.pass.managed + [home] && Answers(cfg, key, true, Synced, s, s')
       else s'.pass.managed == s.pass.managed && Answers(cfg, key, false, Failed, s, s')
  }

  /** A target that goes ahead: a new entry comes first, and if it cannot be stored the target fails without touching the object. */
  ghost predicate Written(cfg: Config, fate: Fate, key: Location, home: Location, rendered: Object, s: State, s': State) {
    && Recorded(fate, home, s, s')
    && if home !in Tracked(s.pass.status) && !fate.patch.Ok? then
         s'.world.objects == s.world.objects && s'.pass.managed == s.pass.managed && Answers(cfg, key, false, Failed, s, s')
       else Finished(cfg, fate, key, home, rendered, s, s')
  }

  lemma CreateOrUpdateIs(cfg: Config, fate: Fate, key: Location, home: Location, rendered: Object, p: Pass, s: State)
    requires s.pass.id == p.id && s.pass.generation == p.generation
    ensures var s' := CreateOrUpdate(cfg, fate, key, home, Copy(cfg, p, rendered), s);
            && s'.world.namespaces == s.world.namespaces && Finished(cfg, fate, key, home, rendered, s, s')
            && s'.pass.status == s.pass.status && s'.pass.oldStatus == s.pass.oldStatus && s'.persisted == s.persisted
  {
    WrittenIs(cfg, p, rendered, Lookup(s.world.objects, home));
    hide CreatedOrUpdated, Copy, IsWritten;
  }

  lemma FinishedFrom(cfg: Config, fate: Fate, key: Location, home: Location, rendered: Object, s: State, q: State, s': State)
    requires Finished(cfg, fate, key, home, rendered, q, s') && SameBefore(s, q)
    ensures Finished(cfg, fate, key, home, rendered, s, s')
  {
    hide IsWritten;
  }

  /** What an answer is compared with is the same in both. */
  ghost predicate SameBefore(s: State, q: State) {
    && q.world.objects == s.world.objects && q.pass.managed == s.pass.managed
    && q.pass.conditions == s.pass.conditions && q.pass.errors == s.pass.errors && q.pass.id == s.pass.id && q.pass.generation == s.pass.generation
  }

  lemma WriteIs(cfg: Config, fate: Fate, key: Location, home: Location, rendered: Object, p: Pass, s: State)
    requires s.pass.id == p.id && s.pass.generation == p.generation && WellFormed(s.pass.status)
    ensures var s' := Write(cfg, fate, key, home, Copy(cfg, p, rendered), s);
            s'.world.namespaces == s.world.namespaces && Written(cfg, fate, key, home, rendered, s, s')
  {
    RawRefinesSet(s.pass.status, home);
    hide Tracked, WellFormed, HasAt, AddedAt, CreateOrUpdate, Copy, Finished;
    var status := AddedAt(s.pass.status, home);
    if HasAt(s.pass.status, home) {
      CreateOrUpdateIs(cfg, fate, key, home, rendered, p, s);
    } else if fate.patch.Ok? {
      var q := s.(persisted := Patched(s.persisted, s.pass.oldStatus, status), pass := s.pass.(status := status, oldStatus := status));
      CreateOrUpdateIs(cfg, fate, key, home, rendered, p, q);
      FinishedFrom(cfg, fate, key, home, rendered, s, q, Write(cfg, fate, key, home, Copy(cfg, p, rendered), s));
    }
  }

  lemma GoesOn(cfg: Config, fate: Fate, def: TargetDefinition, cluster: Option<Cluster>, ref: TypedRef, copy: Object, s: State, home: Location)
    requires home == Location(HomeRef(def, cluster), ref) && GoesAhead(fate, def, s.pass.id, home, s.world)
    ensures SyncTarget(cfg, fate, def, cluster, ref, copy, s) ==
            Write(cfg, fate, Key(cluster, ref), home, copy, s.(world := s.world.(namespaces := Namespaces(cfg, home, s.world))))
  {
    hide Write, HomeRef, Key;
    assert s.(world := s.world.(namespaces := s.world.namespaces)) == s;
  }

  lemma WrittenFrom(cfg: Config, fate: Fate, key: Location, home: Location, rendered: Object, s: State, q: State, s': State)
    requires Written(cfg, fate, key, home, rendered, q, s') && SameBefore(s, q)
    requires q.pass.status == s.pass.status && q.pass.oldStatus == s.pass.oldStatus && q.persisted == s.persisted
    ensures Written(cfg, fate, key, home, rendered, s, s')
  {
    hide Finished, Tracked;
    if Finished(cfg, fate, key, home, rendered, q, s') {
      FinishedFrom(cfg, fate, key, home, rendered, s, q, s');
    }
  }

  /** A target that goes ahead is recorded and written, after its namespace has been created if it was missing. */
  lemma TargetIsWritten(cfg: Config, fate: Fate, def: TargetDefinition, cluster: Option<Cluster>, namespace: string, s: State,
                        raw: string, rendered: Object, key: Location, home: Location)
    requires First(cfg, def, cluster, namespace, s, raw, rendered, key, home) && WellFormed(s.pass.status)
    requires GoesAhead(fate, def, s.pass.id, home, s.world)
    ensures var s' := HandleTarget(cfg, fate, def, cluster, namespace, s);
            s'.world.namespaces == Namespaces(cfg, home, s.world) && Written(cfg, fate, key, home, rendered, s, s')
  {
    var q := FirstIs(cfg, fate, def, cluster, namespace, s, raw, rendered, key, home);
    GoesOn(cfg, fate, def, cluster, key.ref, Copy(cfg, s.pass, rendered), q, home);
    hide *;
    MadeIsWritten(cfg, fate, key, home, rendered, s, q);
  }

  lemma MadeIsWritten(cfg: Config, fate: Fate, key: Location, home: Location, rendered: Object, s: State, q: State)
    requires Untouched(s, q) && q.pass.conditions == s.pass.conditions && q.pass.errors == s.pass.errors
    requires q.pass.id == s.pass.id && q.pass.generation == s.pass.generation && WellFormed(s.pass.status)
    ensures var s' := Write(cfg, fate, key, home, Copy(cfg, s.pass, rendered), q.(world := q.world.(namespaces := Namespaces(cfg, home, q.world))));
            s'.world.namespaces == Namespaces(cfg, home, s.world) && Written(cfg, fate, key, home, rendered, s, s')
  {
    var q' := q.(world := q.world.(namespaces := Namespaces(cfg, home, q.world)));
    hide Write, Copy, WellFormed, Written, Namespaces;
    WriteIs(cfg, fate, key, home, rendered, s.pass, q');
    WrittenFrom(cfg, fate, key, home, rendered, s, q', Write(cfg, fate, key, home, Copy(cfg, s.pass, rendered), q'));
  }

  /** An answer says one thing. */
  lemma NotSynced(cfg: Config, key: Location, s: State, s': State)
    ensures Answers(cfg, key, true, Synced, s, s') ==> s'.pass.conditions == s.pass.conditions + [TargetCondition(cfg.targetCondition(key), true, Synced)]
    ensures Answers(cfg, key, true, Skipped, s, s') || Answers(cfg, key, false, Failed, s, s') ==>
              s'.pass.conditions != s.pass.conditions + [TargetCondition(cfg.targetCondition(key), true, Synced)]
  {
    var n := |s.pass.conditions|;
    assert (s.pass.conditions + [TargetCondition(cfg.targetCondition(key), true, Synced)])[n] == TargetCondition(cfg.targetCondition(key), true, Synced);
  }

  /** One of these cases always applies to a target that is seen for the first time, so its answer is settled; and it is Synced exactly if
      its home has been added to the synced objects. */
  lemma SyncedExactly(cfg: Config, fate: Fate, def: TargetDefinition, cluster: Option<Cluster>, namespace: string, s: State,
                      raw: string, rendered: Object, key: Location, home: Location)
    requires First(cfg, def, cluster, namespace, s, raw, rendered, key, home) && WellFormed(s.pass.status)
    ensures var s' := HandleTarget(cfg, fate, def, cluster, namespace, s);
            && (s'.pass.managed == s.pass.managed || s'.pass.managed == s.pass.managed + [home])
            && (s'.pass.managed == s.pass.managed + [home] <==>
                  s'.pass.conditions == s.pass.conditions + [TargetCondition(cfg.targetCondition(key), true, Synced)])
            && (s'.pass.managed == s.pass.managed + [home] <==>
                  && GoesAhead(fate, def, s.pass.id, home, s.world)
                  && (home in Tracked(s.pass.status) || fate.patch.Ok?) && fate.write.Ok?)
  {
    var n := (home.cluster, home.ref.namespace);
    assert s.pass.managed + [home] != s.pass.managed;
    var s' := HandleTarget(cfg, fate, def, cluster, namespace, s);
    NotSynced(cfg, key, s, s');
    hide HandleTarget, Tracked, WellFormed, Recorded, ObjectWritten, First, Answers, Render;
    if !fate.get {
      GetFails(cfg, fate, def, cluster, namespace, s, raw, rendered, key, home);
    } else if GoesAhead(fate, def, s.pass.id, home, s.world) {
      TargetIsWritten(cfg, fate, def, cluster, namespace, s, raw, rendered, key, home);
    } else if home in s.world.objects {
      ForeignObject(cfg, fate, def, cluster, namespace, s, raw, rendered, key, home);
    } else if !fate.getNamespace || (if n in s.world.namespaces then s.world.namespaces[n].inDeletion else !def.namespacePolicy.Create?) {
      NoNamespace(cfg, fate, def, cluster, namespace, s, raw, rendered, key, home);
    } else {
      CreationFails(cfg, fate, def, cluster, namespace, s, raw, rendered, key, home);
    }
  }
}
