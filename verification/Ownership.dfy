/** What one task may do to one object, and what follows for owners and for kept objects over whole runs. */
module Ownership {
  import opened Refs
  import opened StatusList
  import opened Objects
  import opened Targets
  import opened Steps
  import opened System

  /** l is where the rendering of a target is written. */
  predicate RenderedAt(cfg: Config, p: Pass, t: Task, l: Location) {
    && t.Target? && Render(cfg, p.input, t.cluster, t.namespace).Rendered?
    && l == Location(HomeRef(t.def, t.cluster), Render(cfg, p.input, t.cluster, t.namespace).ref)
  }

  /** The write of a target: its rendering, on nothing, on its own object, or on an unowned live one with the Overwrite policy. */
  ghost predicate SyncedBy(cfg: Config, p: Pass, t: Task, l: Location, before: Option<Object>, after: Option<Object>) {
    && RenderedAt(cfg, p, t, l)
    && (before.Some? ==> JudgeExisting(t.def, p.id, before.value).Proceed?)
    && after == Some(CreatedOrUpdated(before, Copy(cfg, p, Render(cfg, p.input, t.cluster, t.namespace).target)))
  }

  /** The release of an object labelled Keep. */
  ghost predicate ReleasedBy(cfg: Config, p: Pass, before: Option<Object>, after: Option<Object>) {
    before.Some? && IsManaged(cfg.provider, p.id, before.value) && Kept(before.value) && after == Some(Released(before.value))
  }

  /** The deletion of an object that is not kept. */
  ghost predicate MarkedBy(cfg: Config, p: Pass, before: Option<Object>, after: Option<Object>) {
    before.Some? && IsManaged(cfg.provider, p.id, before.value) && !Kept(before.value) && after == Some(Marked(before.value))
  }

  ghost predicate Change(cfg: Config, p: Pass, t: Task, l: Location, before: Option<Object>, after: Option<Object>) {
    || after == before
    || SyncedBy(cfg, p, t, l, before, after)
    || (t == Delete(l) && (ReleasedBy(cfg, p, before, after) || MarkedBy(cfg, p, before, after)))
  }

  lemma WriteWorld(cfg: Config, fate: Fate, key: Location, at: Location, rendered: Object, s: State)
    ensures var s' := Write(cfg, fate, key, at, rendered, s);
            var o := CreatedOrUpdated(Lookup(s.world.objects, at), rendered);
            s'.pass.id == s.pass.id && (s'.world == s.world || s'.world == s.world.(objects := s.world.objects[at := o]))
  {
    hide HasAt, AddedAt, CreatedOrUpdated;
  }

  lemma SyncTargetChanges(cfg: Config, fate: Fate, def: TargetDefinition, cluster: Option<Cluster>, ref: TypedRef, rendered: Object, s: State, l: Location)
    ensures var s' := SyncTarget(cfg, fate, def, cluster, ref, rendered, s);
            var before, after := Lookup(s.world.objects, l), Lookup(s'.world.objects, l);
            && s'.pass.id == s.pass.id
            && (|| after == before
                || (l == Location(HomeRef(def, cluster), ref) && (before.Some? ==> JudgeExisting(def, s.pass.id, before.value).Proceed?)
                    && after == Some(CreatedOrUpdated(before, rendered))))
  {
    var at := Location(HomeRef(def, cluster), ref);
    WriteWorld(cfg, fate, Key(cluster, ref), at, rendered, s);
    WriteWorld(cfg, fate, Key(cluster, ref), at, rendered, s.(world := CreateNamespace(cfg, HomeRef(def, cluster), ref.namespace, s.world)));
    hide Write, JudgeExisting, JudgeNamespace, CreatedOrUpdated, HomeRef;
  }

  lemma TargetChanges(cfg: Config, fate: Fate, def: TargetDefinition, cluster: Option<Cluster>, namespace: string, s: State, l: Location)
    ensures var s' := HandleTarget(cfg, fate, def, cluster, namespace, s);
            s'.pass.id == s.pass.id
            && Change(cfg, s.pass, Target(def, cluster, namespace), l, Lookup(s.world.objects, l), Lookup(s'.world.objects, l))
  {
    hide Render, SyncTarget;
    match Render(cfg, s.pass.input, cluster, namespace)
    case TemplateFailed =>
    case MarshalFailed(ref) =>
    case Rendered(raw, ref, rendered) =>
      var key := Key(cluster, ref);
      if key !in s.pass.seen {
        var q := s.pass.(renderings := s.pass.renderings + [(key, raw)], seen := s.pass.seen[key := raw], reached := s.pass.reached + [key]);
        SyncTargetChanges(cfg, fate, def, cluster, ref, Copy(cfg, s.pass, rendered), s.(pass := q), l);
      }
  }

  /** Every task leaves every object alone, syncs it, releases it or marks it. */
  lemma StepChanges(cfg: Config, fate: Fate, t: Task, s: State, l: Location)
    ensures var s' := Step(cfg, fate, t, s).0;
            s'.pass.id == s.pass.id && Change(cfg, s.pass, t, l, Lookup(s.world.objects, l), Lookup(s'.world.objects, l))
  {
    hide HandleTarget, IsManaged, Kept, Released, DeleteObsolete, SyncedBy;
    match t
    case Target(def, cluster, namespace) => TargetChanges(cfg, fate, def, cluster, namespace, s, l);
    case OpenBucket(b) => ReportAllKeeps(cfg, b, |b.refs|, s);
    case Delete(at) => DeleteCases(cfg, fate, at, s);
    case _ =>
  }

  lemma {:induction false} ReportAllKeeps(cfg: Config, b: Bucket, n: nat, s: State)
    requires n <= |b.refs|
    ensures var s' := ReportAll(cfg, b, n, s);
            s' == s.(pass := s.pass.(conditions := s'.pass.conditions)) && s.pass.conditions <= s'.pass.conditions
  {
    if n > 0 {
      ReportAllKeeps(cfg, b, n - 1, s);
    }
  }

  // ---- Owners ----

  /** A sync never touches an object that names another owner, under any conflict policy. */
  lemma SyncRespectsOtherOwners(cfg: Config, fate: Fate, t: Task, s: State, l: Location)
    requires t.Target? && l in s.world.objects && OwnedByOther(s.pass.id, s.world.objects[l])
    ensures var w := Step(cfg, fate, t, s).0.world; l in w.objects && w.objects[l] == s.world.objects[l]
  {
    StepChanges(cfg, fate, t, s, l);
  }

  /** The deletion path never touches an object whose managed-by, kind or name label differs, nor any object but the entry's. */
  lemma DeletionRespectsLabels(cfg: Config, fate: Fate, t: Task, s: State, l: Location)
    requires !t.Target? && l in s.world.objects
    requires t == Delete(l) ==> !IsManaged(cfg.provider, s.pass.id, s.world.objects[l])
    ensures var w := Step(cfg, fate, t, s).0.world; l in w.objects && w.objects[l] == s.world.objects[l]
  {
    StepChanges(cfg, fate, t, s, l);
  }

  /** The event at which the controller gives an object up. */
  ghost predicate Releases(cfg: Config, sys: System, e: Event, l: Location)
    requires Enabled(cfg, sys, e)
  {
    && e.Advance? && sys.replicas[e.id].running.value.agenda[0] == Delete(l)
    && l in sys.world.objects
    && IsManaged(cfg.provider, sys.replicas[e.id].running.value.pass.id, sys.world.objects[l])
    && Kept(sys.world.objects[l])
  }

  ghost predicate HandsOff(cfg: Config, sys: System, e: Event, l: Location)
    requires Enabled(cfg, sys, e)
  {
    !(e.EditObject? && e.l == l) && !Releases(cfg, sys, e, l)
  }

  lemma OwnerStep(cfg: Config, fate: Fate, t: Task, s: State, l: Location)
    requires l in s.world.objects && OwnerOf(s.world.objects[l]).kind != ""
    requires t == Delete(l) ==> !(IsManaged(cfg.provider, s.pass.id, s.world.objects[l]) && Kept(s.world.objects[l]))
    ensures var w := Step(cfg, fate, t, s).0.world;
            l in w.objects && OwnerOf(w.objects[l]) == OwnerOf(s.world.objects[l])
  {
    StepChanges(cfg, fate, t, s, l);
    var o := s.world.objects[l];
    var before, after := Some(o), Lookup(Step(cfg, fate, t, s).0.world.objects, l);
    hide Step, SyncedBy, IsManaged, Kept;
    if SyncedBy(cfg, s.pass, t, l, before, after) {
      SyncKeepsOwner(cfg, s.pass, t, l, o, after);
    }
  }

  /** A sync writes on an object with an owner only if that is the syncing replica. */
  lemma SyncKeepsOwner(cfg: Config, p: Pass, t: Task, l: Location, o: Object, after: Option<Object>)
    requires SyncedBy(cfg, p, t, l, Some(o), after) && OwnerOf(o).kind != ""
    ensures after.Some? && OwnerOf(after.value) == OwnerOf(o)
  {
    var rendered := Render(cfg, p.input, t.cluster, t.namespace).target;
    SyncTakesOwnership(cfg.provider, p.id, p.generation, Some(o), rendered);
    assert OwnedByThis(p.id, o);
    hide Render, HomeRef;
  }

  ghost predicate AllHandsOff(cfg: Config, sys: System, events: seq<Event>, l: Location)
    requires CanHappen(cfg, sys, events)
    decreases |events|
  {
    events == [] || (HandsOff(cfg, sys, events[0], l) && AllHandsOff(cfg, Next(cfg, sys, events[0]), events[1..], l))
  }

  lemma EventWorld(cfg: Config, sys: System, e: Event, l: Location)
    requires Enabled(cfg, sys, e) && !e.Advance? && !(e.EditObject? && e.l == l)
    ensures Lookup(Next(cfg, sys, e).world.objects, l) == Lookup(sys.world.objects, l)
  {}

  /** An owner stays through any interleaving of any replicas' passes, until the object is released or the environment edits it. */
  lemma {:induction false} OwnerIsStable(cfg: Config, sys: System, events: seq<Event>, l: Location)
    requires CanHappen(cfg, sys, events) && AllHandsOff(cfg, sys, events, l)
    requires l in sys.world.objects && OwnerOf(sys.world.objects[l]).kind != ""
    ensures var w := After(cfg, sys, events).world;
            l in w.objects && OwnerOf(w.objects[l]) == OwnerOf(sys.world.objects[l])
    decreases |events|
  {
    if events != [] {
      var e := events[0];
      if e.Advance? {
        OwnerStep(cfg, e.fate, sys.replicas[e.id].running.value.agenda[0], StateOf(sys, e.id), l);
      } else {
        EventWorld(cfg, sys, e, l);
      }
      hide OwnerOf, Step;
      OwnerIsStable(cfg, Next(cfg, sys, e), events[1..], l);
    }
  }

  // ---- Keep ----

  /** A rendering that names no deletion policy but Keep. */
  predicate KeepsPolicy(rendered: Object) {
    DeletionPolicy in rendered.labels ==> rendered.labels[DeletionPolicy] == KEEP
  }

  /** A task leaves a kept object in place and unmarked: it stays kept, is released, or a target rendered with another policy lives there. */
  lemma KeptStep(cfg: Config, fate: Fate, t: Task, s: State, l: Location)
    requires l in s.world.objects && Kept(s.world.objects[l])
    ensures var o, w := s.world.objects[l], Step(cfg, fate, t, s).0.world;
            && l in w.objects
            && w.objects[l].inDeletion == o.inDeletion
            && (|| Kept(w.objects[l])
                || (t == Delete(l) && w.objects[l] == Released(o))
                || (RenderedAt(cfg, s.pass, t, l) && !KeepsPolicy(Render(cfg, s.pass.input, t.cluster, t.namespace).target)))
  {
    StepChanges(cfg, fate, t, s, l);
    var o := s.world.objects[l];
    var before, after := Some(o), Lookup(Step(cfg, fate, t, s).0.world.objects, l);
    hide Step;
    if SyncedBy(cfg, s.pass, t, l, before, after) {
      var r := Render(cfg, s.pass.input, t.cluster, t.namespace).target;
      if DeletionPolicy !in r.labels {
        assert DeletionPolicy in o.labels;
        assert Label(after.value.labels, DeletionPolicy) == KEEP;
      }
    }
  }

  /** No target whose copy is kept at l is rendered with another deletion policy. */
  ghost predicate NotRelabelled(cfg: Config, sys: System, e: Event, l: Location)
    requires Enabled(cfg, sys, e)
  {
    e.Advance? ==>
      var p, t := sys.replicas[e.id].running.value.pass, sys.replicas[e.id].running.value.agenda[0];
      RenderedAt(cfg, p, t, l) ==> KeepsPolicy(Render(cfg, p.input, t.cluster, t.namespace).target)
  }

  ghost predicate AllNotRelabelled(cfg: Config, sys: System, events: seq<Event>, l: Location)
    requires CanHappen(cfg, sys, events)
    decreases |events|
  {
    events == [] || (NotRelabelled(cfg, sys, events[0], l) && AllNotRelabelled(cfg, Next(cfg, sys, events[0]), events[1..], l))
  }

  /** A kept object is never deleted: over any run it stays, kept and unmarked, until it is released, edited or relabelled by a rendering. */
  lemma {:induction false} KeepIsHonoured(cfg: Config, sys: System, events: seq<Event>, l: Location)
    requires CanHappen(cfg, sys, events) && AllHandsOff(cfg, sys, events, l) && AllNotRelabelled(cfg, sys, events, l)
    requires l in sys.world.objects && Kept(sys.world.objects[l])
    ensures var w := After(cfg, sys, events).world;
            l in w.objects && Kept(w.objects[l]) && w.objects[l].inDeletion == sys.world.objects[l].inDeletion
    decreases |events|
  {
    if events != [] {
      var e := events[0];
      KeptEvent(cfg, sys, e, l);
      hide Kept, Step;
      KeepIsHonoured(cfg, Next(cfg, sys, e), events[1..], l);
    }
  }

  lemma KeptEvent(cfg: Config, sys: System, e: Event, l: Location)
    requires Enabled(cfg, sys, e) && HandsOff(cfg, sys, e, l) && NotRelabelled(cfg, sys, e, l)
    requires l in sys.world.objects && Kept(sys.world.objects[l])
    ensures var w := Next(cfg, sys, e).world;
            l in w.objects && Kept(w.objects[l]) && w.objects[l].inDeletion == sys.world.objects[l].inDeletion
  {
    if e.Advance? {
      var t, s := sys.replicas[e.id].running.value.agenda[0], StateOf(sys, e.id);
      KeptStep(cfg, e.fate, t, s, l);
      StepChanges(cfg, e.fate, t, s, l);
      hide Step, Kept, IsManaged;
    } else {
      EventWorld(cfg, sys, e, l);
    }
  }
}
