/** A replica that is being deleted loses its entries and then its finalizer. */
module DeletionTerminates {
  import opened Refs
  import opened StatusList
  import opened Objects
  import opened Targets
  import opened Steps
  import opened System
  import opened Obsolete
  import opened DeletionPhase
  import opened Agenda
  import opened Quiet

  // ---- Entries never increase, whatever fails ----

  /** A pass that deletes: it has synced nothing, will sync nothing, and holds no entry that is not stored. */
  ghost predicate DeletingPass(persisted: seq<Group>, p: Pass, agenda: seq<Task>) {
    && p.managed == []
    && (forall t :: t in agenda ==> !IsLoop(t))
    && WellFormed(p.status) && Tracked(p.status) <= Tracked(persisted)
  }

  /** A replica that is being deleted, in a pass that deletes if it is in one. */
  ghost predicate Deleting(r: Stored) {
    && r.deleting && WellFormed(r.persisted)
    && (r.running.Some? ==> DeletingPass(r.persisted, r.running.value.pass, r.running.value.agenda))
  }

  lemma DeletingStart(id: ReplicaId, fate: Fate, clusters: seq<Cluster>, r: Stored)
    requires Deleting(r) && r.running.None?
    ensures var r' := Start(id, fate, clusters, r); r'.persisted == r.persisted && Deleting(r')
  {
    hide Tracked, WellFormed;
  }

  lemma DeletingTask(cfg: Config, fate: Fate, t: Task, s: State)
    requires !IsLoop(t) && WellFormed(s.pass.status)
    ensures var (s', more) := Step(cfg, fate, t, s);
            && s'.pass.managed == s.pass.managed && WellFormed(s'.pass.status)
            && (forall l :: l in Tracked(s'.pass.status) ==> l in Tracked(s.pass.status) || l in s.pass.managed)
            && (s'.persisted == s.persisted || s'.persisted == s'.pass.status)
            && (forall u :: u in more ==> !IsLoop(u))
  {
    hide Tracked, WellFormed;
    match t
    case Plan =>
      PlanForgetsExactly(cfg, s);
      PlanDeletionFrame(cfg, s);
    case OpenBucket(b) =>
      DeleteTasksAre(b.cluster, b.refs);
      ReportAllSame(cfg, b, |b.refs|, s);
    case Delete(l) =>
      RawRefinesSet(s.pass.status, l);
      DeleteOutcome(cfg, fate, l, s);
      hide DeleteObsolete, Gone, Effect;
    case Cleanup => CleanStatusEffect(s);
    case _ =>
  }

  lemma DeletingAdvance(cfg: Config, fate: Fate, agenda: seq<Task>, s: State)
    requires agenda != [] && DeletingPass(s.persisted, s.pass, agenda) && WellFormed(s.persisted)
    ensures var (s', agenda') := AdvanceState(cfg, fate, agenda, s);
            && DeletingPass(s'.persisted, s'.pass, agenda') && WellFormed(s'.persisted)
            && Tracked(s'.pass.status) <= Tracked(s.pass.status) && Tracked(s'.persisted) <= Tracked(s.persisted)
  {
    assert agenda[0] in agenda && forall t :: t in agenda[1..] ==> t in agenda;
    DeletingTask(cfg, fate, agenda[0], s);
    hide Step, Tracked, WellFormed;
  }

  /** What is stored for id, if it still exists, is being deleted and holds no entry beyond these. */
  ghost predicate DeletingWithin(sys: System, id: ReplicaId, entries: set<Location>) {
    id in sys.replicas ==> Deleting(sys.replicas[id]) && Tracked(sys.replicas[id].persisted) <= entries
  }

  lemma DeletingEvent(cfg: Config, sys: System, e: Event, id: ReplicaId, entries: set<Location>)
    requires Enabled(cfg, sys, e) && DeletingWithin(sys, id, entries) && !(e.CreateReplica? && e.id == id)
    ensures DeletingWithin(Next(cfg, sys, e), id, entries)
  {
    hide Tracked, WellFormed, AdvanceState, Start;
    if e.Reconcile? && e.id == id {
      DeletingStart(id, e.fate, sys.clusters, sys.replicas[id]);
    } else if e.Advance? && e.id == id {
      DeletingAdvance(cfg, e.fate, sys.replicas[id].running.value.agenda, StateOf(sys, id));
    }
  }

  /** From the time at which a replica is being deleted and no sync is under way, its stored entries never increase, whatever fails and
      whatever other replicas, crashes and the environment do. */
  lemma {:induction false} EntriesNeverIncrease(cfg: Config, sys: System, events: seq<Event>, id: ReplicaId, entries: set<Location>)
    requires CanHappen(cfg, sys, events) && DeletingWithin(sys, id, entries)
    requires forall e :: e in events ==> !(e.CreateReplica? && e.id == id)
    ensures DeletingWithin(After(cfg, sys, events), id, entries)
    decreases |events|
  {
    if events != [] {
      DeletingEvent(cfg, sys, events[0], id, entries);
      hide DeletingWithin, Enabled;
      EntriesNeverIncrease(cfg, Next(cfg, sys, events[0]), events[1..], id, entries);
    }
  }

  /** A replica being deleted whose pass, if one runs, is past its loops: these are the entries that are stored or in memory, and the
      objects synced before the deletion. */
  ghost predicate HoldsWithin(r: Stored, entries: set<Location>) {
    && r.deleting && WellFormed(r.persisted) && Tracked(r.persisted) <= entries
    && (r.running.Some? ==>
          var p := r.running.value.pass;
          && (forall t :: t in r.running.value.agenda ==> !IsLoop(t))
          && WellFormed(p.status) && Tracked(p.status) <= entries && forall l :: l in p.managed ==> l in entries)
  }

  lemma HoldsStart(id: ReplicaId, fate: Fate, clusters: seq<Cluster>, r: Stored, entries: set<Location>)
    requires HoldsWithin(r, entries) && r.running.None?
    ensures HoldsWithin(Start(id, fate, clusters, r), entries)
  {
    hide Tracked, WellFormed;
  }

  lemma HoldsEvent(cfg: Config, sys: System, e: Event, id: ReplicaId, entries: set<Location>)
    requires Enabled(cfg, sys, e) && !(e.CreateReplica? && e.id == id)
    requires id in sys.replicas ==> HoldsWithin(sys.replicas[id], entries)
    ensures var sys' := Next(cfg, sys, e); id in sys'.replicas ==> HoldsWithin(sys'.replicas[id], entries)
  {
    if e.Reconcile? && e.id == id {
      HoldsStart(id, e.fate, sys.clusters, sys.replicas[id], entries);
      hide HoldsWithin, Start;
    } else if e.Advance? && e.id == id {
      var agenda := sys.replicas[id].running.value.agenda;
      assert agenda[0] in agenda && forall t :: t in agenda[1..] ==> t in agenda;
      DeletingTask(cfg, e.fate, agenda[0], StateOf(sys, id));
      hide Step, Tracked, WellFormed;
    } else {
      hide Tracked, WellFormed, AdvanceState, Start;
    }
  }

  /** From the time at which a replica is being deleted and its pass is past its loops, what is stored, in memory or still to be tracked
      never grows, taken together: a pass that synced before the deletion can store what it synced, and nothing else. */
  lemma {:induction false} LateDeletionBounded(cfg: Config, sys: System, events: seq<Event>, id: ReplicaId, entries: set<Location>)
    requires CanHappen(cfg, sys, events) && forall e :: e in events ==> !(e.CreateReplica? && e.id == id)
    requires id in sys.replicas ==> HoldsWithin(sys.replicas[id], entries)
    ensures var sys' := After(cfg, sys, events); id in sys'.replicas ==> HoldsWithin(sys'.replicas[id], entries)
    decreases |events|
  {
    if events != [] {
      HoldsEvent(cfg, sys, events[0], id, entries);
      hide HoldsWithin, Enabled;
      LateDeletionBounded(cfg, Next(cfg, sys, events[0]), events[1..], id, entries);
    }
  }

  // ---- The finalizer goes in at most three quiet passes ----

  /** A deleting replica's pass as it starts. */
  function DeletionStart(id: ReplicaId, w: World, clusters: seq<Cluster>, r: Stored): State {
    State(w, r.persisted, NewPass(id, r, clusters).(conditions := [OtherCondition(false)]))
  }

  lemma DeletionRun(cfg: Config, start: Fate, fates: Oracle, id: ReplicaId, w: World, clusters: seq<Cluster>, r: Stored)
    requires Succeeds(start) && r.deleting && !r.ignored && r.running.None? && r.persisted != []
    ensures var s := Run(cfg, fates, [Plan, Cleanup, UpdateStatus], DeletionStart(id, w, clusters, r));
            WholePass(cfg, start, fates, id, w, clusters, r) == (s.world, r.(persisted := s.persisted))
  {
    assert [Plan, Cleanup] + [UpdateStatus] == [Plan, Cleanup, UpdateStatus];
    hide Run;
  }

  lemma DeletionObsolete(cfg: Config, id: ReplicaId, w: World, clusters: seq<Cluster>, r: Stored, l: Location)
    requires r.deleting && WellFormed(r.persisted)
    ensures var p := DeletionStart(id, w, clusters, r).pass;
            && (IsObsolete(cfg, p, l) <==> l in Tracked(r.persisted) && ClusterExists(clusters, l.cluster))
            && Vanished(p, l.cluster) == !ClusterExists(clusters, l.cluster)
  {
    PlanIsExact(cfg, DeletionStart(id, w, clusters, r).pass, l);
    hide Tracked, WellFormed;
  }

  /** A quiet pass over a deleting replica: entries whose object is waited for stay, the others go; waited-for objects are marked. */
  lemma DeletionPass(cfg: Config, start: Fate, fates: Oracle, id: ReplicaId, w: World, clusters: seq<Cluster>, r: Stored)
    requires Succeeds(start) && QuietOracle(fates)
    requires r.deleting && !r.ignored && r.running.None? && WellFormed(r.persisted) && r.persisted != []
    ensures var (w', r') := WholePass(cfg, start, fates, id, w, clusters, r);
            && r' == r.(persisted := r'.persisted) && WellFormed(r'.persisted)
            && (forall l :: l in Tracked(r'.persisted) <==>
                  l in Tracked(r.persisted) && ClusterExists(clusters, l.cluster) && Waits(cfg, id, Lookup(w.objects, l)))
            && (forall l :: Lookup(w'.objects, l) ==
                  if l in Tracked(r.persisted) && ClusterExists(clusters, l.cluster) then Effect(cfg, id, ALL_OK, Lookup(w.objects, l)) else Lookup(w.objects, l))
            && (Tracked(r'.persisted) == {} <==> r'.persisted == [])
  {
    var s := DeletionStart(id, w, clusters, r);
    DeletionRun(cfg, start, fates, id, w, clusters, r);
    QuietClose(cfg, fates, s);
    forall l ensures IsObsolete(cfg, s.pass, l) <==> l in Tracked(r.persisted) && ClusterExists(clusters, l.cluster)
             ensures Vanished(s.pass, l.cluster) == !ClusterExists(clusters, l.cluster) {
      DeletionObsolete(cfg, id, w, clusters, r, l);
    }
    hide WholePass, Run, Tracked, WellFormed, IsObsolete, Waits, Effect, ClusterExists, Vanished, QuietOracle;
  }

  /** Between two passes marked objects vanish, and the environment makes nothing look managed that was not. */
  ghost predicate Settles(cfg: Config, id: ReplicaId, before: World, after: World) {
    forall l :: l in after.objects && IsManaged(cfg.provider, id, after.objects[l]) ==>
      l in before.objects && IsManaged(cfg.provider, id, before.objects[l]) && !before.objects[l].inDeletion
  }

  /** After one quiet pass and the vanishing of what it marked, nothing tracked is waited for any more. */
  lemma NothingLeftToWaitFor(cfg: Config, start: Fate, fates: Oracle, id: ReplicaId, w: World, clusters: seq<Cluster>, r: Stored, after: World, l: Location)
    requires Succeeds(start) && QuietOracle(fates)
    requires r.deleting && !r.ignored && r.running.None? && WellFormed(r.persisted) && r.persisted != []
    requires Settles(cfg, id, WholePass(cfg, start, fates, id, w, clusters, r).0, after)
    requires l in Tracked(WholePass(cfg, start, fates, id, w, clusters, r).1.persisted)
    ensures !Waits(cfg, id, Lookup(after.objects, l))
  {
    DeletionPass(cfg, start, fates, id, w, clusters, r);
    hide WholePass, Tracked, WellFormed, ClusterExists, QuietOracle;
    var w' := WholePass(cfg, start, fates, id, w, clusters, r).0;
    var o := Lookup(w.objects, l).value;
    assert Lookup(w'.objects, l) == Some(Marked(o));
  }

  /** Deletion ends: after three quiet passes, whatever the Cluster list is in each, the finalizer is gone. */
  lemma FinalizerGoneByThirdPass(cfg: Config, id: ReplicaId, r: Stored,
                                 start1: Fate, fates1: Oracle, w1: World, clusters1: seq<Cluster>,
                                 start2: Fate, fates2: Oracle, w2: World, clusters2: seq<Cluster>,
                                 start3: Fate, fates3: Oracle, w3: World, clusters3: seq<Cluster>)
    requires Succeeds(start1) && Succeeds(start2) && Succeeds(start3)
    requires QuietOracle(fates1) && QuietOracle(fates2) && QuietOracle(fates3)
    requires r.deleting && !r.ignored && r.running.None? && WellFormed(r.persisted)
    requires Settles(cfg, id, WholePass(cfg, start1, fates1, id, w1, clusters1, r).0, w2)
    ensures var r1 := WholePass(cfg, start1, fates1, id, w1, clusters1, r).1;
            var r2 := WholePass(cfg, start2, fates2, id, w2, clusters2, r1).1;
            var r3 := WholePass(cfg, start3, fates3, id, w3, clusters3, r2).1;
            r2.persisted == [] && !r3.finalizer
  {
    var r1 := WholePass(cfg, start1, fates1, id, w1, clusters1, r).1;
    var r2 := WholePass(cfg, start2, fates2, id, w2, clusters2, r1).1;
    EmptyPass(cfg, start1, fates1, id, w1, clusters1, r);
    EmptyPass(cfg, start2, fates2, id, w2, clusters2, r1);
    EmptyPass(cfg, start3, fates3, id, w3, clusters3, r2);
    hide WholePass, Tracked, WellFormed, QuietOracle, Settles;
    if r.persisted != [] {
      DeletionPass(cfg, start1, fates1, id, w1, clusters1, r);
      if r1.persisted != [] {
        DeletionPass(cfg, start2, fates2, id, w2, clusters2, r1);
        forall l | l in Tracked(r1.persisted) ensures !Waits(cfg, id, Lookup(w2.objects, l)) {
          NothingLeftToWaitFor(cfg, start1, fates1, id, w1, clusters1, r, w2, l);
        }
        assert Tracked(r2.persisted) == {};
      }
    }
  }

  lemma EmptyPass(cfg: Config, start: Fate, fates: Oracle, id: ReplicaId, w: World, clusters: seq<Cluster>, r: Stored)
    requires Succeeds(start)
    ensures r.deleting && !r.ignored && r.running.None? && r.persisted == [] ==>
              WholePass(cfg, start, fates, id, w, clusters, r) == (w, r.(finalizer := false))
  {}

  /** So a replica in deletion deletes what it tracks even if a namesake in another namespace owns it by now. */
  lemma NamesakeIsDeleted(cfg: Config, start: Fate, fates: Oracle, id: ReplicaId, other: ReplicaId,
                          w: World, clusters: seq<Cluster>, r: Stored, l: Location)
    requires Succeeds(start) && QuietOracle(fates)
    requires r.deleting && !r.ignored && r.running.None? && WellFormed(r.persisted)
    requires l in Tracked(r.persisted) && ClusterExists(clusters, l.cluster)
    requires l in w.objects && Owns(cfg.provider, other, w.objects[l]) && !Kept(w.objects[l])
    ensures var w' := WholePass(cfg, start, fates, id, w, clusters, r).0;
            && l in w'.objects
            && w'.objects[l] == if id.kind == other.kind && id.name == other.name then Marked(w.objects[l]) else w.objects[l]
  {
    assert Tracked([]) == {};
    DeletionPathIgnoresNamespace(cfg.provider, id, other, w.objects[l]);
    DeletionPass(cfg, start, fates, id, w, clusters, r);
    hide WholePass, Tracked, WellFormed, QuietOracle, ClusterExists, IsManaged, Owns, Kept;
    assert Lookup(WholePass(cfg, start, fates, id, w, clusters, r).0.objects, l) == Effect(cfg, id, ALL_OK, Some(w.objects[l]));
  }
}
