/** Targets that are taken for copies of others: one key, but not one home. */
module TakenCopies {
  import opened Refs
  import opened StatusList
  import opened Objects
  import opened Targets
  import opened Steps
  import opened System
  import opened Ownership
  import opened Conflicts
  import opened Protection

  /** Two targets of one identity share the key exactly when they share the home, unless just one of them is NextTo a Cluster:
      then the key is shared exactly when both name the same Cluster, although the homes differ. */
  lemma KeyAgainstHome(d1: TargetDefinition, c1: Option<Cluster>, d2: TargetDefinition, c2: Option<Cluster>, ref: TypedRef)
    requires forall c :: c in [c1, c2] && c.Some? ==> c.value.ref != HOSTING
    requires (IsNextTo(d1) ==> c1.Some?) && (IsNextTo(d2) ==> c2.Some?)
    ensures var sameKey, sameHome := Key(c1, ref) == Key(c2, ref), HomeRef(d1, c1) == HomeRef(d2, c2);
            && (!IsNextTo(d1) && !IsNextTo(d2) ==> (sameKey <==> sameHome))
            && (IsNextTo(d1) && IsNextTo(d2) ==> sameHome)
            && (IsNextTo(d1) != IsNextTo(d2) && sameKey ==> !sameHome)
  {
    assert c1 in [c1, c2] && c2 in [c1, c2];
  }

  /** The target is skipped as an identical copy, with a condition that says that all is well. */
  ghost predicate TakenForCopy(cfg: Config, fate: Fate, def: TargetDefinition, cluster: Option<Cluster>, namespace: string, s: State)
    requires Render(cfg, s.pass.input, cluster, namespace).Rendered?
  {
    var r := Render(cfg, s.pass.input, cluster, namespace);
    var key := Key(cluster, r.ref);
    HandleTarget(cfg, fate, def, cluster, namespace, s) ==
    Report(cfg, key, true, IdenticalCopy, s.(pass := s.pass.(renderings := s.pass.renderings + [(key, r.raw)])))
  }

  lemma FirstIsSeen(cfg: Config, fate: Fate, def: TargetDefinition, cluster: Option<Cluster>, namespace: string, s: State)
    requires var r := Render(cfg, s.pass.input, cluster, namespace); r.Rendered? && Key(cluster, r.ref) !in s.pass.seen
    ensures var r := Render(cfg, s.pass.input, cluster, namespace);
            HandleTarget(cfg, fate, def, cluster, namespace, s).pass.seen == s.pass.seen[Key(cluster, r.ref) := r.raw]
  {
    var r := Render(cfg, s.pass.input, cluster, namespace);
    var key := Key(cluster, r.ref);
    var q := s.pass.(renderings := s.pass.renderings + [(key, r.raw)], seen := s.pass.seen[key := r.raw], reached := s.pass.reached + [key]);
    HandleRendered(cfg, fate, def, cluster, namespace, s);
    SyncTargetAdds(cfg, fate, def, cluster, r.ref, Copy(cfg, s.pass, r.target), s.(pass := q));
    hide HandleTarget, SyncTarget, Render, Copy;
  }

  /** Of two targets with one key the later one is taken for a copy exactly if the texts are equal. It is then skipped without a look at
      its own home, which is not the home of the first, exactly if one of the two is NextTo and the other is not. */
  lemma TakenForCopyExactly(cfg: Config, f1: Fate, d1: TargetDefinition, c1: Option<Cluster>, n1: string, s1: State,
                            f2: Fate, d2: TargetDefinition, c2: Option<Cluster>, n2: string, s2: State)
    requires forall c :: c in [c1, c2] && c.Some? ==> c.value.ref != HOSTING
    requires (IsNextTo(d1) ==> c1.Some?) && (IsNextTo(d2) ==> c2.Some?)
    requires var r1, r2 := Render(cfg, s1.pass.input, c1, n1), Render(cfg, s2.pass.input, c2, n2);
             && r1.Rendered? && r2.Rendered? && Key(c1, r1.ref) == Key(c2, r2.ref)
             && Key(c1, r1.ref) !in s1.pass.seen
             && forall k, raw :: Saw(HandleTarget(cfg, f1, d1, c1, n1, s1).pass, k, raw) ==> Saw(s2.pass, k, raw)
    ensures var r1, r2 := Render(cfg, s1.pass.input, c1, n1), Render(cfg, s2.pass.input, c2, n2);
            var home1, home2 := Location(HomeRef(d1, c1), r1.ref), Location(HomeRef(d2, c2), r2.ref);
            && (TakenForCopy(cfg, f2, d2, c2, n2, s2) <==> r1.raw == r2.raw)
            && (TakenForCopy(cfg, f2, d2, c2, n2, s2) && home2 != home1 <==> r1.raw == r2.raw && IsNextTo(d1) != IsNextTo(d2))
  {
    var r1, r2 := Render(cfg, s1.pass.input, c1, n1), Render(cfg, s2.pass.input, c2, n2);
    var key := Key(c2, r2.ref);
    FirstIsSeen(cfg, f1, d1, c1, n1, s1);
    assert Saw(s2.pass, key, r1.raw);
    HandleRendered(cfg, f2, d2, c2, n2, s2);
    KeyAgainstHome(d1, c1, d2, c2, r2.ref);
    hide HandleTarget, SyncTarget, Render, Copy, HomeRef;
    var s := s2.(pass := s2.pass.(renderings := s2.pass.renderings + [(key, r2.raw)]));
    assert Report(cfg, key, true, IdenticalCopy, s).pass.conditions[|s.pass.conditions|].ok;
    assert !Report(cfg, key, false, RenderedDifferently, s).pass.conditions[|s.pass.conditions|].ok;
  }

  ghost predicate Saw(p: Pass, key: Location, raw: string) {
    key in p.seen && p.seen[key] == raw
  }

  /** No later task of the pass syncs an object on a Cluster whose key has been seen, and no key is forgotten. */
  lemma SeenHomeIsLeft(cfg: Config, fate: Fate, t: Task, s: State, l: Location)
    requires t.Target? && l.cluster != HOSTING && l in s.pass.seen
    ensures var s' := Step(cfg, fate, t, s).0;
            && Lookup(s'.world.objects, l) == Lookup(s.world.objects, l)
            && l in s'.pass.seen && (l in s'.pass.managed ==> l in s.pass.managed)
  {
    var r := Render(cfg, s.pass.input, t.cluster, t.namespace);
    if r.Rendered? {
      var key := Key(t.cluster, r.ref);
      HandleRendered(cfg, fate, t.def, t.cluster, t.namespace, s);
      if key !in s.pass.seen {
        var q := s.pass.(renderings := s.pass.renderings + [(key, r.raw)], seen := s.pass.seen[key := r.raw], reached := s.pass.reached + [key]);
        var at := Location(HomeRef(t.def, t.cluster), r.ref);
        FirstIsSeen(cfg, fate, t.def, t.cluster, t.namespace, s);
        assert at != l;
        hide Render, HandleTarget, HomeRef;
        SyncTargetElsewhere(cfg, fate, t.def, t.cluster, r.ref, Copy(cfg, s.pass, r.target), s.(pass := q), l);
      }
    }
    hide HandleTarget, SyncTarget, Render;
  }

  lemma SyncTargetElsewhere(cfg: Config, fate: Fate, def: TargetDefinition, cluster: Option<Cluster>, ref: TypedRef, rendered: Object, s: State, l: Location)
    requires l != Location(HomeRef(def, cluster), ref)
    ensures var s' := SyncTarget(cfg, fate, def, cluster, ref, rendered, s);
            Lookup(s'.world.objects, l) == Lookup(s.world.objects, l) && (l in s'.pass.managed ==> l in s.pass.managed)
  {
    var key, at := Key(cluster, ref), Location(HomeRef(def, cluster), ref);
    var made := s.(world := CreateNamespace(cfg, HomeRef(def, cluster), ref.namespace, s.world));
    SyncTargetChanges(cfg, fate, def, cluster, ref, rendered, s, l);
    SyncTargetCases(cfg, fate, def, cluster, ref, rendered, s);
    hide SyncTarget, Write, HomeRef, CreatedOrUpdated, JudgeExisting;
    SyncedIsAt(cfg, fate, key, at, rendered, s);
    SyncedIsAt(cfg, fate, key, at, rendered, made);
  }

  /** The event writes the object at l for a target of id. */
  ghost predicate Syncs(cfg: Config, sys: System, e: Event, id: ReplicaId, l: Location)
    requires Enabled(cfg, sys, e)
  {
    && e.Advance? && e.id == id && sys.replicas[id].running.value.agenda[0].Target?
    && Lookup(Next(cfg, sys, e).world.objects, l) != Lookup(sys.world.objects, l)
  }

  ghost predicate NeverSyncs(cfg: Config, sys: System, events: seq<Event>, id: ReplicaId, l: Location)
    requires CanHappen(cfg, sys, events)
    decreases |events|
  {
    events == [] || (!Syncs(cfg, sys, events[0], id, l) && NeverSyncs(cfg, Next(cfg, sys, events[0]), events[1..], id, l))
  }

  /** The key l has been seen in id's pass, but no object at l has been synced. */
  ghost predicate Bypassed(sys: System, id: ReplicaId, l: Location) {
    id in sys.replicas && sys.replicas[id].running.Some? ==>
      l in sys.replicas[id].running.value.pass.seen && l !in sys.replicas[id].running.value.pass.managed
  }

  lemma PlainStepKeeps(cfg: Config, fate: Fate, t: Task, s: State)
    requires !t.Target?
    ensures var s' := Step(cfg, fate, t, s).0; s'.pass.seen == s.pass.seen && s'.pass.managed == s.pass.managed
  {
    hide HandleTarget, DeleteObsolete;
    match t
    case OpenBucket(b) => ReportAllKeeps(cfg, b, |b.refs|, s);
    case Delete(l) => DeleteCases(cfg, fate, l, s);
    case _ =>
  }

  lemma BypassedStays(cfg: Config, sys: System, e: Event, id: ReplicaId, l: Location)
    requires Enabled(cfg, sys, e) && !Begins(e, id) && l.cluster != HOSTING && Bypassed(sys, id, l)
    ensures Bypassed(Next(cfg, sys, e), id, l) && !Syncs(cfg, sys, e, id, l)
  {
    if e.Advance? && e.id == id {
      var t, s := sys.replicas[id].running.value.agenda[0], StateOf(sys, id);
      if t.Target? {
        SeenHomeIsLeft(cfg, e.fate, t, s, l);
      } else {
        PlainStepKeeps(cfg, e.fate, t, s);
      }
    }
    hide Step, Start;
  }

  lemma {:induction false} BypassedToTheEnd(cfg: Config, sys: System, events: seq<Event>, id: ReplicaId, l: Location)
    requires CanHappen(cfg, sys, events) && NoNewPass(events, id) && l.cluster != HOSTING && Bypassed(sys, id, l)
    ensures NeverSyncs(cfg, sys, events, id, l)
    decreases |events|
  {
    if events != [] {
      BypassedStays(cfg, sys, events[0], id, l);
      hide Bypassed, Syncs, Enabled;
      BypassedToTheEnd(cfg, Next(cfg, sys, events[0]), events[1..], id, l);
    }
  }

  /** Once a target NextTo a Cluster has been rendered, no target Onto that Cluster with the same identity is written in that pass,
      whatever comes between and however the first one ended. */
  lemma OntoIsStarved(cfg: Config, sys: System, fate: Fate, events: seq<Event>, id: ReplicaId,
                      def: TargetDefinition, cluster: Cluster, namespace: string, l: Location)
    requires IsNextTo(def) && cluster.ref != HOSTING && AboutTo(cfg, sys, id, Target(def, Some(cluster), namespace))
    requires var p := StateOf(sys, id).pass;
             var r := Render(cfg, p.input, Some(cluster), namespace);
             r.Rendered? && l == Location(cluster.ref, r.ref) && l !in p.seen && l !in p.managed
    requires CanHappen(cfg, sys, [Advance(id, fate)] + events) && NoNewPass(events, id)
    ensures var sys' := Next(cfg, sys, Advance(id, fate));
            CanHappen(cfg, sys', events) && NeverSyncs(cfg, sys', events, id, l)
  {
    var s := StateOf(sys, id);
    var r := Render(cfg, s.pass.input, Some(cluster), namespace);
    var q := s.pass.(renderings := s.pass.renderings + [(l, r.raw)], seen := s.pass.seen[l := r.raw], reached := s.pass.reached + [l]);
    FirstIsSeen(cfg, fate, def, Some(cluster), namespace, s);
    HandleRendered(cfg, fate, def, Some(cluster), namespace, s);
    SyncTargetElsewhere(cfg, fate, def, Some(cluster), r.ref, Copy(cfg, s.pass, r.target), s.(pass := q), l);
    assert Bypassed(Next(cfg, sys, Advance(id, fate)), id, l) by {
      hide HandleTarget, Render, SyncTarget;
    }
    assert ([Advance(id, fate)] + events)[1..] == events;
    hide Bypassed, Next, HandleTarget, Render, SyncTarget;
    BypassedToTheEnd(cfg, Next(cfg, sys, Advance(id, fate)), events, id, l);
  }
}
