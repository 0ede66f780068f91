/** Conflict detection: what a pass remembers about the renderings of a key, and what it reports about them. */
module Conflicts {
  import opened Refs
  import opened StatusList
  import opened Objects
  import opened Targets
  import opened Steps
  import opened System
  import opened Ownership
  import ConditionNames

  function FirstRaw(rs: seq<(Location, string)>, key: Location): Option<string> {
    if rs == [] then None
    else
      var front := FirstRaw(rs[..|rs| - 1], key);
      var last := rs[|rs| - 1];
      if front.Some? then front else if last.0 == key then Some(last.1) else None
  }

  ghost predicate RenderedTwoWays(rs: seq<(Location, string)>, key: Location) {
    exists a, b :: (key, a) in rs && (key, b) in rs && a != b
  }

  ghost predicate ConflictReported(cfg: Config, p: Pass, key: Location) {
    TargetCondition(cfg.targetCondition(key), false, RenderedDifferently) in p.conditions
  }

  /** Some key of this condition name has two different renderings. */
  ghost predicate DifferenceUnder(cfg: Config, rs: seq<(Location, string)>, name: string) {
    exists k :: cfg.targetCondition(k) == name && RenderedTwoWays(rs, k)
  }

  /** The map used for conflict detection holds the first rendering of every key. */
  ghost predicate SeenFirst(p: Pass) {
    && (forall k :: k in p.seen <==> FirstRaw(p.renderings, k).Some?)
    && (forall k :: k in p.seen ==> FirstRaw(p.renderings, k) == Some(p.seen[k]))
  }

  /** A key gets past conflict detection at most once. */
  ghost predicate ReachedOnce(p: Pass) {
    NoDuplicates(p.reached) && forall k :: k in p.reached <==> k in p.seen
  }

  /** A difference is reported under a name exactly if two renderings of a key with that name differ. */
  ghost predicate ConflictsExact(cfg: Config, p: Pass) {
    forall k :: ConflictReported(cfg, p, k) <==> DifferenceUnder(cfg, p.renderings, cfg.targetCondition(k))
  }

  /** Every rendered key has a condition. */
  ghost predicate RenderedReported(cfg: Config, p: Pass) {
    forall k :: k in p.seen ==> Reported(cfg, p, k)
  }

  ghost predicate Bookkeeping(cfg: Config, p: Pass) {
    SeenFirst(p) && ReachedOnce(p) && ConflictsExact(cfg, p) && RenderedReported(cfg, p)
  }

  lemma {:induction false} FirstRawIn(rs: seq<(Location, string)>, key: Location)
    ensures FirstRaw(rs, key).Some? ==> (key, FirstRaw(rs, key).value) in rs
    ensures forall raw :: (key, raw) in rs ==> FirstRaw(rs, key).Some?
  {
    if rs != [] {
      FirstRawIn(rs[..|rs| - 1], key);
      assert rs == rs[..|rs| - 1] + [rs[|rs| - 1]];
    }
  }

  /** What a step may do to the history and the conditions of a pass, besides the deletion's own reports. */
  ghost predicate Extends(p: Pass, p': Pass) {
    && p'.seen == p.seen && p'.renderings == p.renderings && p'.reached == p.reached
    && p.conditions <= p'.conditions
    && forall i :: |p.conditions| <= i < |p'.conditions| ==> !(p'.conditions[i].TargetCondition? && p'.conditions[i].reason.RenderedDifferently?)
  }

  lemma ExtendsKeeps(cfg: Config, p: Pass, p': Pass)
    requires Bookkeeping(cfg, p) && Extends(p, p')
    ensures Bookkeeping(cfg, p')
  {
    forall k ensures ConflictReported(cfg, p', k) <==> ConflictReported(cfg, p, k) {
      var c := TargetCondition(cfg.targetCondition(k), false, RenderedDifferently);
      if c in p.conditions {
        var i :| 0 <= i < |p.conditions| && p.conditions[i] == c;
        assert p'.conditions[i] == c;
      }
    }
    forall k | Reported(cfg, p, k) ensures Reported(cfg, p', k) {
      ReportedStays(cfg, p, p', k);
    }
  }

  lemma ReportedStays(cfg: Config, p: Pass, p': Pass, k: Location)
    requires Reported(cfg, p, k) && p.conditions <= p'.conditions
    ensures Reported(cfg, p', k)
  {
    var c :| c in p.conditions && c.TargetCondition? && c.name == cfg.targetCondition(k);
    var i :| 0 <= i < |p.conditions| && p.conditions[i] == c;
    assert p'.conditions[i] == c;
  }

  /** Adds conditions of other reasons only. */
  ghost predicate AddsCondition(cfg: Config, key: Location, p: Pass, p': Pass) {
    && Extends(p, p')
    && Reported(cfg, p', key)
  }

  lemma ReportAdds(cfg: Config, key: Location, ok: bool, reason: Reason, s: State)
    ensures reason != RenderedDifferently ==> AddsCondition(cfg, key, s.pass, Report(cfg, key, ok, reason, s).pass)
    ensures Report(cfg, key, ok, reason, s).pass.conditions == s.pass.conditions + [TargetCondition(cfg.targetCondition(key), ok, reason)]
  {
    var p' := Report(cfg, key, ok, reason, s).pass;
    assert p'.conditions[|s.pass.conditions|] in p'.conditions;
  }

  /** One report at the end, nothing else about conflicts. */
  ghost predicate ReportsOnce(cfg: Config, key: Location, p: Pass, p': Pass) {
    && p'.seen == p.seen && p'.renderings == p.renderings && p'.reached == p.reached && p.managed <= p'.managed
    && exists ok, reason :: reason != RenderedDifferently && p'.conditions == p.conditions + [TargetCondition(cfg.targetCondition(key), ok, reason)]
  }

  lemma CreateOrUpdateReports(cfg: Config, fate: Fate, key: Location, at: Location, rendered: Object, s: State)
    ensures ReportsOnce(cfg, key, s.pass, CreateOrUpdate(cfg, fate, key, at, rendered, s).pass)
  {
    hide CreatedOrUpdated;
  }

  lemma WriteReports(cfg: Config, fate: Fate, key: Location, at: Location, rendered: Object, s: State)
    ensures ReportsOnce(cfg, key, s.pass, Write(cfg, fate, key, at, rendered, s).pass)
  {
    hide HasAt, AddedAt, CreateOrUpdate, Patched;
    var status := AddedAt(s.pass.status, at);
    CreateOrUpdateReports(cfg, fate, key, at, rendered, s);
    CreateOrUpdateReports(cfg, fate, key, at, rendered,
      s.(persisted := Patched(s.persisted, s.pass.oldStatus, status), pass := s.pass.(status := status, oldStatus := status)));
  }

  lemma WriteAdds(cfg: Config, fate: Fate, key: Location, at: Location, rendered: Object, s: State)
    ensures AddsCondition(cfg, key, s.pass, Write(cfg, fate, key, at, rendered, s).pass)
  {
    WriteReports(cfg, fate, key, at, rendered, s);
    hide Write;
    var p, p' := s.pass, Write(cfg, fate, key, at, rendered, s).pass;
    assert p'.conditions[|p.conditions|] in p'.conditions;
  }

  lemma SyncTargetAdds(cfg: Config, fate: Fate, def: TargetDefinition, cluster: Option<Cluster>, ref: TypedRef, rendered: Object, s: State)
    ensures AddsCondition(cfg, Key(cluster, ref), s.pass, SyncTarget(cfg, fate, def, cluster, ref, rendered, s).pass)
  {
    var s' := SyncTarget(cfg, fate, def, cluster, ref, rendered, s);
    var key, at := Key(cluster, ref), Location(HomeRef(def, cluster), ref);
    var made := s.(world := CreateNamespace(cfg, HomeRef(def, cluster), ref.namespace, s.world));
    SyncTargetCases(cfg, fate, def, cluster, ref, rendered, s);
    hide SyncTarget, Write, CreateNamespace, HomeRef, AddsCondition;
    WriteAdds(cfg, fate, key, at, rendered, s);
    WriteAdds(cfg, fate, key, at, rendered, made);
    if OnlyReports(cfg, key, s, s') {
      var ok, reason :| s' == Report(cfg, key, ok, reason, s) && !reason.RenderedDifferently?;
      ReportAdds(cfg, key, ok, reason, s);
    } else if OnlyReports(cfg, key, made, s') {
      var ok, reason :| s' == Report(cfg, key, ok, reason, made) && !reason.RenderedDifferently?;
      ReportAdds(cfg, key, ok, reason, made);
    }
  }

  lemma RenderingAppended(rs: seq<(Location, string)>, key: Location, raw: string, k: Location)
    ensures FirstRaw(rs + [(key, raw)], k) == if FirstRaw(rs, k).Some? then FirstRaw(rs, k) else if k == key then Some(raw) else None
  {
    assert (rs + [(key, raw)])[..|rs|] == rs;
  }

  /** One more rendering of a key that was seen makes a difference exactly if it differs from the first. */
  lemma TwoWaysAppended(p: Pass, key: Location, raw: string)
    requires SeenFirst(p) && key in p.seen
    ensures forall k :: RenderedTwoWays(p.renderings + [(key, raw)], k) <==> RenderedTwoWays(p.renderings, k) || (k == key && p.seen[key] != raw)
  {
    var rs := p.renderings + [(key, raw)];
    FirstRawIn(p.renderings, key);
    assert (key, p.seen[key]) in p.renderings;
    forall k ensures RenderedTwoWays(rs, k) <==> RenderedTwoWays(p.renderings, k) || (k == key && p.seen[key] != raw) {
      if RenderedTwoWays(p.renderings, k) {
        var a, b :| (k, a) in p.renderings && (k, b) in p.renderings && a != b;
        assert (k, a) in rs && (k, b) in rs;
      } else if k == key && p.seen[key] != raw {
        assert (key, raw) in rs && (key, p.seen[key]) in rs;
      } else {
        assert forall a :: (k, a) in rs ==> (k, a) in p.renderings;
      }
    }
  }

  /** Another rendering of a key that was seen, and the report about it. */
  lemma SeenAgain(cfg: Config, p: Pass, key: Location, raw: string, c: Condition)
    requires Bookkeeping(cfg, p) && key in p.seen
    requires c == if p.seen[key] != raw then TargetCondition(cfg.targetCondition(key), false, RenderedDifferently)
                  else TargetCondition(cfg.targetCondition(key), true, IdenticalCopy)
    ensures Bookkeeping(cfg, p.(renderings := p.renderings + [(key, raw)], conditions := p.conditions + [c]))
  {
    var p' := p.(renderings := p.renderings + [(key, raw)], conditions := p.conditions + [c]);
    forall k
      ensures FirstRaw(p'.renderings, k) == if FirstRaw(p.renderings, k).Some? then FirstRaw(p.renderings, k) else if k == key then Some(raw) else None
      ensures forall r :: (k, r) in p.renderings ==> FirstRaw(p.renderings, k).Some?
    {
      RenderingAppended(p.renderings, key, raw, k);
      FirstRawIn(p.renderings, k);
    }
    FirstRawIn(p.renderings, key);
    TwoWaysAppended(p, key, raw);
    forall k ensures ConflictReported(cfg, p', k) <==> DifferenceUnder(cfg, p'.renderings, cfg.targetCondition(k)) {
      assert ConflictReported(cfg, p', k) <==> ConflictReported(cfg, p, k) || (p.seen[key] != raw && cfg.targetCondition(k) == cfg.targetCondition(key));
      hide RenderedTwoWays, ConflictReported;
      assert DifferenceUnder(cfg, p'.renderings, cfg.targetCondition(k)) <==>
             DifferenceUnder(cfg, p.renderings, cfg.targetCondition(k)) || (p.seen[key] != raw && cfg.targetCondition(k) == cfg.targetCondition(key));
    }
    forall k | k in p'.seen ensures Reported(cfg, p', k) {
      ReportedStays(cfg, p, p', k);
    }
  }

  /** The first rendering of a key, before its report. */
  lemma SeenFirstTime(cfg: Config, p: Pass, key: Location, raw: string)
    requires Bookkeeping(cfg, p) && key !in p.seen
    ensures var q := p.(renderings := p.renderings + [(key, raw)], seen := p.seen[key := raw], reached := p.reached + [key]);
            && SeenFirst(q) && ReachedOnce(q) && ConflictsExact(cfg, q)
            && forall k :: k in q.seen && k != key ==> Reported(cfg, q, k)
  {
    var q := p.(renderings := p.renderings + [(key, raw)], seen := p.seen[key := raw], reached := p.reached + [key]);
    forall k
      ensures FirstRaw(q.renderings, k) == if FirstRaw(p.renderings, k).Some? then FirstRaw(p.renderings, k) else if k == key then Some(raw) else None
      ensures forall r :: (k, r) in p.renderings ==> FirstRaw(p.renderings, k).Some?
    {
      RenderingAppended(p.renderings, key, raw, k);
      FirstRawIn(p.renderings, k);
    }
    forall k ensures RenderedTwoWays(q.renderings, k) <==> RenderedTwoWays(p.renderings, k) {
      if RenderedTwoWays(p.renderings, k) {
        var a, b :| (k, a) in p.renderings && (k, b) in p.renderings && a != b;
        assert (k, a) in q.renderings && (k, b) in q.renderings;
      }
      if RenderedTwoWays(q.renderings, k) {
        var a, b :| (k, a) in q.renderings && (k, b) in q.renderings && a != b;
        FirstRawIn(p.renderings, k);
      }
    }
  }

  /** Every task keeps the books. */
  lemma StepKeepsBooks(cfg: Config, fate: Fate, t: Task, s: State)
    requires Bookkeeping(cfg, s.pass)
    ensures Bookkeeping(cfg, Step(cfg, fate, t, s).0.pass)
  {
    var s' := Step(cfg, fate, t, s).0;
    hide Bookkeeping, HandleTarget, DeleteObsolete, ReportAll, Extends;
    match t
    case Target(def, cluster, namespace) => TargetKeepsBooks(cfg, fate, def, cluster, namespace, s);
    case OpenBucket(b) =>
      BucketExtends(cfg, fate, b, s);
      ExtendsKeeps(cfg, s.pass, s'.pass);
    case Delete(l) =>
      DeleteExtends(cfg, fate, l, s);
      ExtendsKeeps(cfg, s.pass, s'.pass);
    case _ =>
      PlainExtends(cfg, fate, t, s);
      ExtendsKeeps(cfg, s.pass, s'.pass);
  }

  lemma PlainExtends(cfg: Config, fate: Fate, t: Task, s: State)
    requires !t.Target? && !t.OpenBucket? && !t.Delete?
    ensures Extends(s.pass, Step(cfg, fate, t, s).0.pass)
  {}

  lemma BucketExtends(cfg: Config, fate: Fate, b: Bucket, s: State)
    ensures Extends(s.pass, Step(cfg, fate, OpenBucket(b), s).0.pass)
  {
    ReportAllExtends(cfg, b, |b.refs|, s);
  }

  lemma {:induction false} ReportAllExtends(cfg: Config, b: Bucket, n: nat, s: State)
    requires n <= |b.refs|
    ensures Extends(s.pass, ReportAll(cfg, b, n, s).pass)
  {
    if n > 0 {
      ReportAllExtends(cfg, b, n - 1, s);
    }
  }

  lemma DeleteExtends(cfg: Config, fate: Fate, l: Location, s: State)
    ensures Extends(s.pass, DeleteObsolete(cfg, fate, l, s).pass)
  {
    DeleteCases(cfg, fate, l, s);
    hide DeleteObsolete, IsManaged, Kept, Released, RemovedAt;
  }

  lemma TargetKeepsBooks(cfg: Config, fate: Fate, def: TargetDefinition, cluster: Option<Cluster>, namespace: string, s: State)
    requires Bookkeeping(cfg, s.pass)
    ensures var s' := HandleTarget(cfg, fate, def, cluster, namespace, s);
            && Bookkeeping(cfg, s'.pass)
            && (Render(cfg, s.pass.input, cluster, namespace).MarshalFailed? ==>
                  Reported(cfg, s'.pass, Key(cluster, Render(cfg, s.pass.input, cluster, namespace).ref)))
            && (Render(cfg, s.pass.input, cluster, namespace).Rendered? ==>
                  Key(cluster, Render(cfg, s.pass.input, cluster, namespace).ref) in s'.pass.seen)
  {
    var s' := HandleTarget(cfg, fate, def, cluster, namespace, s);
    match Render(cfg, s.pass.input, cluster, namespace)
    case TemplateFailed =>
      ExtendsKeeps(cfg, s.pass, s'.pass);
    case MarshalFailed(ref) =>
      ReportAdds(cfg, Key(cluster, ref), false, Failed, s);
      ExtendsKeeps(cfg, s.pass, s'.pass);
    case Rendered(raw, ref, rendered) =>
      var key := Key(cluster, ref);
      hide Bookkeeping, Render, SyncTarget;
      if key in s.pass.seen {
        var c := if s.pass.seen[key] != raw then TargetCondition(cfg.targetCondition(key), false, RenderedDifferently)
                 else TargetCondition(cfg.targetCondition(key), true, IdenticalCopy);
        SeenAgain(cfg, s.pass, key, raw, c);
        SameBooks(cfg, s.pass.(renderings := s.pass.renderings + [(key, raw)], conditions := s.pass.conditions + [c]), s'.pass);
      } else {
        var q := s.pass.(renderings := s.pass.renderings + [(key, raw)], seen := s.pass.seen[key := raw], reached := s.pass.reached + [key]);
        SeenFirstTime(cfg, s.pass, key, raw);
        SyncTargetAdds(cfg, fate, def, cluster, ref, Copy(cfg, s.pass, rendered), s.(pass := q));
        AddedKeeps(cfg, key, q, s'.pass);
      }
  }

  lemma SameBooks(cfg: Config, p: Pass, p': Pass)
    requires Bookkeeping(cfg, p)
    requires p'.seen == p.seen && p'.renderings == p.renderings && p'.reached == p.reached && p'.conditions == p.conditions
    ensures Bookkeeping(cfg, p')
  {
    ExtendsKeeps(cfg, p, p');
  }

  lemma AddedKeeps(cfg: Config, key: Location, q: Pass, p': Pass)
    requires SeenFirst(q) && ReachedOnce(q) && ConflictsExact(cfg, q)
    requires forall k :: k in q.seen && k != key ==> Reported(cfg, q, k)
    requires AddsCondition(cfg, key, q, p')
    ensures Bookkeeping(cfg, p')
  {
    forall k ensures ConflictReported(cfg, p', k) <==> ConflictReported(cfg, q, k) {
      var c := TargetCondition(cfg.targetCondition(k), false, RenderedDifferently);
      if c in q.conditions {
        var i :| 0 <= i < |q.conditions| && q.conditions[i] == c;
        assert p'.conditions[i] == c;
      }
    }
    forall k | k in p'.seen ensures Reported(cfg, p', k) {
      if k != key {
        ReportedStays(cfg, q, p', k);
      }
    }
  }

  /** Whatever becomes of a rendered target, it gets a condition. */
  lemma TargetIsReported(cfg: Config, fate: Fate, def: TargetDefinition, cluster: Option<Cluster>, namespace: string, s: State)
    requires !Render(cfg, s.pass.input, cluster, namespace).TemplateFailed?
    ensures Reported(cfg, HandleTarget(cfg, fate, def, cluster, namespace, s).pass, Key(cluster, Render(cfg, s.pass.input, cluster, namespace).ref))
  {
    var r := Render(cfg, s.pass.input, cluster, namespace);
    var key := Key(cluster, r.ref);
    if r.MarshalFailed? {
      ReportAdds(cfg, key, false, Failed, s);
    } else {
      HandleRendered(cfg, fate, def, cluster, namespace, s);
      var p := s.pass.(renderings := s.pass.renderings + [(key, r.raw)]);
      var seen := s.(pass := p.(seen := s.pass.seen[key := r.raw], reached := s.pass.reached + [key]));
      SyncTargetAdds(cfg, fate, def, cluster, r.ref, Copy(cfg, s.pass, r.target), seen);
      ReportAdds(cfg, key, true, IdenticalCopy, s.(pass := p));
      var p' := Report(cfg, key, false, RenderedDifferently, s.(pass := p)).pass;
      assert p'.conditions[|p.conditions|] in p'.conditions;
      hide HandleTarget, SyncTarget, Copy, Render;
    }
  }

  // ---- Over every run ----

  /** Every running pass keeps its books. */
  ghost predicate BooksOk(cfg: Config, sys: System) {
    forall i :: i in sys.replicas && sys.replicas[i].running.Some? ==> Bookkeeping(cfg, sys.replicas[i].running.value.pass)
  }

  lemma StartKeepsBooks(cfg: Config, id: ReplicaId, fate: Fate, clusters: seq<Cluster>, r: Stored)
    requires r.running.None?
    ensures var r' := Start(id, fate, clusters, r); r'.running.Some? ==> Bookkeeping(cfg, r'.running.value.pass)
  {
    var r' := Start(id, fate, clusters, r);
    if r'.running.Some? {
      var p := r'.running.value.pass;
      assert p.renderings == [] && p.seen == map[] && p.reached == [] && |p.conditions| <= 1;
    }
  }

  lemma BooksStayOk(cfg: Config, sys: System, e: Event)
    requires Enabled(cfg, sys, e) && BooksOk(cfg, sys)
    ensures BooksOk(cfg, Next(cfg, sys, e))
  {
    if e.Reconcile? {
      StartKeepsBooks(cfg, e.id, e.fate, sys.clusters, sys.replicas[e.id]);
    } else if e.Advance? {
      var s, agenda := StateOf(sys, e.id), sys.replicas[e.id].running.value.agenda;
      StepKeepsBooks(cfg, e.fate, agenda[0], s);
      var s' := Step(cfg, e.fate, agenda[0], s).0;
      SameBooks(cfg, s'.pass, Ticked(s').pass);
    }
    hide Start, Step, Bookkeeping;
  }

  /** In every run, in every pass: each key gets past conflict detection at most once, a difference is reported under a name exactly
      if two renderings of a key of that name differ, and every rendered key has a condition. */
  lemma {:induction false} BooksInEveryRun(cfg: Config, sys: System, events: seq<Event>)
    requires CanHappen(cfg, sys, events) && BooksOk(cfg, sys)
    ensures BooksOk(cfg, After(cfg, sys, events))
    decreases |events|
  {
    if events != [] {
      BooksStayOk(cfg, sys, events[0]);
      hide BooksOk, Enabled;
      BooksInEveryRun(cfg, Next(cfg, sys, events[0]), events[1..]);
    }
  }

  /** With the names the program makes, in every run: among targets that their names identify, a difference is reported for a key
      exactly if two of its own renderings differ. */
  lemma DifferencesAreNamed(cfg: Config, cut: string -> string, namespaced: GVK -> bool,
                            sys: System, events: seq<Event>, id: ReplicaId, key: Location)
    requires CanHappen(cfg, sys, events) && BooksOk(cfg, sys)
    requires forall k :: cfg.targetCondition(k) == ConditionNames.TargetCondition(cut, k)
    requires var sys' := After(cfg, sys, events);
             && id in sys'.replicas && sys'.replicas[id].running.Some?
             && forall k :: k in sys'.replicas[id].running.value.pass.seen ==> ConditionNames.Identified(namespaced, k)
    requires ConditionNames.Identified(namespaced, key)
    ensures var p := After(cfg, sys, events).replicas[id].running.value.pass;
            ConflictReported(cfg, p, key) <==> RenderedTwoWays(p.renderings, key)
  {
    BooksInEveryRun(cfg, sys, events);
    hide CanHappen, After, ConditionNames.Identified, ConflictReported;
    var p := After(cfg, sys, events).replicas[id].running.value.pass;
    assert Bookkeeping(cfg, p);
    forall k | RenderedTwoWays(p.renderings, k) && cfg.targetCondition(k) == cfg.targetCondition(key) ensures k == key {
      SeenIfTwoWays(p, k);
      IdentifiedByName(cut, namespaced, k, key);
    }
  }

  lemma SeenIfTwoWays(p: Pass, k: Location)
    requires SeenFirst(p) && RenderedTwoWays(p.renderings, k)
    ensures k in p.seen
  {
    FirstRawIn(p.renderings, k);
  }

  lemma IdentifiedByName(cut: string -> string, namespaced: GVK -> bool, a: Location, b: Location)
    requires ConditionNames.Identified(namespaced, a) && ConditionNames.Identified(namespaced, b)
    ensures ConditionNames.TargetCondition(cut, a) == ConditionNames.TargetCondition(cut, b) <==> a == b
  {
    ConditionNames.TargetConditionIsInjective(cut, namespaced, a, b);
  }

  /** Which keys are reported different does not depend on the order in which definitions, clusters and namespaces are walked. */
  lemma ConflictsIgnoreOrder(cfg: Config, p: Pass, q: Pass, key: Location)
    requires Bookkeeping(cfg, p) && Bookkeeping(cfg, q)
    requires forall r :: r in p.renderings <==> r in q.renderings
    ensures ConflictReported(cfg, p, key) <==> ConflictReported(cfg, q, key)
  {
    assert forall k :: RenderedTwoWays(p.renderings, k) <==> RenderedTwoWays(q.renderings, k);
  }
}
