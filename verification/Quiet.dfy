/** Whole passes in which no call fails and nothing else moves. */
module Quiet {
  import opened Refs
  import opened StatusList
  import opened Objects
  import opened Targets
  import opened Steps
  import opened System
  import opened Obsolete
  import opened DeletionPhase

  const ALL_OK := Fate(true, true, true, true, true, Ok, Ok, Ok, Ok, 0)

  /** Every call succeeds; the order in which clusters are walked is free. */
  ghost predicate Succeeds(f: Fate) {
    f == ALL_OK.(pick := f.pick)
  }

  ghost predicate QuietOracle(fates: Oracle) {
    forall n, t :: Succeeds(fates(n, t))
  }

  function Always(c: ObjectReference): bool { true }

  function Fine(l: Location): Fate { ALL_OK }

  /** A pass from its start to its end, with nothing in between. */
  function WholePass(cfg: Config, start: Fate, fates: Oracle, id: ReplicaId, w: World, clusters: seq<Cluster>, r: Stored): (World, Stored) {
    var r' := Start(id, start, clusters, r);
    if r'.running.None? then (w, r')
    else
      var s := Run(cfg, fates, r'.running.value.agenda, State(w, r'.persisted, r'.running.value.pass));
      (s.world, r'.(persisted := s.persisted, running := None))
  }

  /** The events of a pass that nothing interrupts. */
  ghost function PassEvents(cfg: Config, fates: Oracle, id: ReplicaId, agenda: seq<Task>, s: State): seq<Event>
    decreases PlanWeight(agenda), OuterWeight(agenda), InnerWeight(agenda), |agenda|
  {
    if agenda == [] then []
    else
      var fate := fates(s.pass.clock, agenda[0]);
      AgendaShrinks(cfg, fate, agenda, s);
      var (s', more) := Step(cfg, fate, agenda[0], s);
      [Advance(id, fate)] + PassEvents(cfg, fates, id, more + agenda[1..], Ticked(s'))
  }

  function Stopped(sys: System, id: ReplicaId, s: State): System
    requires id in sys.replicas
  {
    sys.(world := s.world, replicas := sys.replicas[id := sys.replicas[id].(persisted := s.persisted, running := None)])
  }

  function Holding(sys: System, id: ReplicaId, s: State, agenda: seq<Task>): System
    requires id in sys.replicas
  {
    sys.(world := s.world, replicas := sys.replicas[id := sys.replicas[id].(persisted := s.persisted, running := Some(Running(s.pass, agenda)))])
  }

  lemma AdvanceOnce(cfg: Config, fate: Fate, sys: System, id: ReplicaId, s: State, agenda: seq<Task>)
    requires id in sys.replicas && agenda != []
    ensures var (s', agenda') := AdvanceState(cfg, fate, agenda, s);
            && Enabled(cfg, Holding(sys, id, s, agenda), Advance(id, fate))
            && Next(cfg, Holding(sys, id, s, agenda), Advance(id, fate)) ==
               if agenda' == [] then Stopped(sys, id, s') else Holding(sys, id, s', agenda')
  {
    hide Step;
  }

  /** Run is what the interleaved system does when no other event comes between. */
  lemma {:induction false} RunIsUninterrupted(cfg: Config, fates: Oracle, sys: System, id: ReplicaId, s: State, agenda: seq<Task>)
    requires id in sys.replicas && agenda != []
    ensures var events := PassEvents(cfg, fates, id, agenda, s);
            && CanHappen(cfg, Holding(sys, id, s, agenda), events)
            && After(cfg, Holding(sys, id, s, agenda), events) == Stopped(sys, id, Run(cfg, fates, agenda, s))
    decreases PlanWeight(agenda), OuterWeight(agenda), InnerWeight(agenda), |agenda|
  {
    var fate := fates(s.pass.clock, agenda[0]);
    var (s', more) := Step(cfg, fate, agenda[0], s);
    var agenda' := more + agenda[1..];
    RunStep(cfg, fates, agenda, s);
    AgendaShrinks(cfg, fate, agenda, s);
    AdvanceOnce(cfg, fate, sys, id, s, agenda);
    var rest := PassEvents(cfg, fates, id, agenda', Ticked(s'));
    assert ([Advance(id, fate)] + rest)[1..] == rest;
    assert Run(cfg, fates, [], Ticked(s')) == Ticked(s');
    hide Run, Step, Next, Enabled, Holding, Stopped, PlanWeight, OuterWeight, InnerWeight, Ticked;
    if agenda' != [] {
      RunIsUninterrupted(cfg, fates, sys, id, Ticked(s'), agenda');
    }
  }

  /** A whole pass is a reconcile whose steps follow each other: what WholePass computes is a run of the system. */
  lemma WholePassIsARun(cfg: Config, start: Fate, fates: Oracle, sys: System, id: ReplicaId) returns (events: seq<Event>)
    requires id in sys.replicas && sys.replicas[id].running.None?
    ensures CanHappen(cfg, sys, events)
    ensures var (w, r) := WholePass(cfg, start, fates, id, sys.world, sys.clusters, sys.replicas[id]);
            After(cfg, sys, events) == sys.(world := w, replicas := sys.replicas[id := r])
  {
    var r := Start(id, start, sys.clusters, sys.replicas[id]);
    var sys' := sys.(replicas := sys.replicas[id := r]);
    assert Next(cfg, sys, Reconcile(id, start)) == sys';
    events := [Reconcile(id, start)];
    if r.running.Some? {
      var agenda := r.running.value.agenda;
      assert agenda != [];
      var s := State(sys.world, r.persisted, r.running.value.pass);
      assert Holding(sys', id, s, agenda) == sys';
      RunIsUninterrupted(cfg, fates, sys', id, s, agenda);
      events := [Reconcile(id, start)] + PassEvents(cfg, fates, id, agenda, s);
    } else {
      assert CanHappen(cfg, sys', []) && After(cfg, sys', []) == sys';
    }
    assert events[1..] == if r.running.Some? then PassEvents(cfg, fates, id, r.running.value.agenda, State(sys.world, r.persisted, r.running.value.pass)) else [];
    hide Run, Start;
  }

  lemma BucketsForOk(cfg: Config, p: Pass)
    ensures BucketsOk(BucketsFor(cfg, p, ClustersOf(Walk(p.status))))
  {
    ClustersOfMembers(Walk(p.status));
    BucketsForDistinct(cfg, p, ClustersOf(Walk(p.status)));
  }

  lemma {:induction false} BucketsForDistinct(cfg: Config, p: Pass, clusters: seq<ObjectReference>)
    requires NoDuplicates(clusters)
    ensures BucketsOk(BucketsFor(cfg, p, clusters))
  {
    if clusters != [] {
      var c, rest := clusters[0], clusters[1..];
      assert forall i :: 0 <= i < |rest| ==> rest[i] == clusters[i + 1];
      BucketsForDistinct(cfg, p, rest);
      RefsOnMembers(Walk(p.status), c);
      UnmanagedMembers(p.managed, c, RefsOn(Walk(p.status), c));
      UnreportedMembers(cfg, p, c, Leftover(p, c));
      hide Vanished, Unhealthy, Unreported, Leftover;
      BucketsForMembers(cfg, p, rest);
      var b := Bucket(c, Unreported(cfg, p, c, Leftover(p, c)));
      assert forall x :: x in BucketsFor(cfg, p, rest) ==> x.cluster != c;
    }
  }

  /** What an obsolete entry's deletion leaves behind when the calls succeed: its object is waited for. */
  predicate Waits(cfg: Config, id: ReplicaId, before: Option<Object>) {
    before.Some? && IsManaged(cfg.provider, id, before.value) && !Kept(before.value)
  }

  /** The end of a quiet pass, from the plan on. */
  ghost predicate Closed(cfg: Config, s: State, s': State) {
    && s'.world.namespaces == s.world.namespaces
    && (forall l :: Lookup(s'.world.objects, l) ==
          if IsObsolete(cfg, s.pass, l) then Effect(cfg, s.pass.id, ALL_OK, Lookup(s.world.objects, l)) else Lookup(s.world.objects, l))
    && WellFormed(s'.persisted)
    && (forall l :: l in Tracked(s'.pass.status) <==>
          || l in s.pass.managed
          || (l in Tracked(s.pass.status) && !Vanished(s.pass, l.cluster)
              && (IsObsolete(cfg, s.pass, l) ==> Waits(cfg, s.pass.id, Lookup(s.world.objects, l)))))
    && s'.persisted == Patched(s.persisted, s.pass.oldStatus, s'.pass.status)
    && (Tracked(s'.pass.status) == {} <==> s'.pass.status == [])
  }

  lemma QuietIsSteady(fates: Oracle)
    requires QuietOracle(fates)
    ensures Steady(fates, Always, Fine)
  {}

  lemma QuietDeletes(cfg: Config, fates: Oracle, s: State)
    requires QuietOracle(fates) && WellFormed(s.pass.status)
    ensures var s1 := Ticked(PlanDeletion(cfg, s).0);
            var buckets := BucketsFor(cfg, s.pass, ClustersOf(Walk(s.pass.status)));
            var s2 := Run(cfg, fates, [Obsolete(buckets)], s1);
            && SameRest(s1, s2) && WellFormed(s2.pass.status)
            && (forall l :: Lookup(s2.world.objects, l) ==
                  if IsObsolete(cfg, s.pass, l) then Effect(cfg, s.pass.id, ALL_OK, Lookup(s.world.objects, l)) else Lookup(s.world.objects, l))
            && (forall l :: l in Tracked(s2.pass.status) <==>
                  l in Tracked(s1.pass.status) && !(IsObsolete(cfg, s.pass, l) && Gone(cfg, s.pass.id, ALL_OK, Lookup(s.world.objects, l))))
  {
    var s1 := Ticked(PlanDeletion(cfg, s).0);
    var buckets := BucketsFor(cfg, s.pass, ClustersOf(Walk(s.pass.status)));
    QuietIsSteady(fates);
    BucketsForOk(cfg, s.pass);
    PlanForgetsExactly(cfg, s);
    ObsoleteHandles(cfg, fates, Always, Fine, buckets, s1);
    ReachableMembers(Always, buckets);
    forall l ensures l in Reachable(Always, buckets) <==> IsObsolete(cfg, s.pass, l) {
      PlanIsExact(cfg, s.pass, l);
    }
    hide Run, Steady, BucketsOk, WellFormed, Tracked, InBuckets, Reachable, IsObsolete, Effect, Gone, BucketsFor, Vanished;
  }

  lemma RunPlan(cfg: Config, fates: Oracle, rest: seq<Task>, s: State)
    ensures Run(cfg, fates, [Plan] + rest, s) ==
            Run(cfg, fates, [Obsolete(BucketsFor(cfg, s.pass, ClustersOf(Walk(s.pass.status))))] + rest, Ticked(PlanDeletion(cfg, s).0))
  {
    RunStep(cfg, fates, [Plan] + rest, s);
    assert ([Plan] + rest)[1..] == rest;
    hide Run;
  }

  lemma RunCleanup(cfg: Config, fates: Oracle, rest: seq<Task>, s: State)
    ensures Run(cfg, fates, [Cleanup] + rest, s) == Run(cfg, fates, rest, Ticked(CleanStatus(s)))
  {
    RunStep(cfg, fates, [Cleanup] + rest, s);
    assert [] + ([Cleanup] + rest)[1..] == rest;
    hide Run, CleanStatus;
  }

  lemma RunUpdate(cfg: Config, fates: Oracle, s: State)
    requires QuietOracle(fates)
    ensures Run(cfg, fates, [UpdateStatus], s) == Ticked(WriteStatus(ALL_OK, s))
  {
    RunOne(cfg, fates, UpdateStatus, s);
    assert Succeeds(fates(s.pass.clock, UpdateStatus));
    assert Run(cfg, fates, [], Ticked(WriteStatus(ALL_OK, s))) == Ticked(WriteStatus(ALL_OK, s));
  }

  /** The states after the plan, the deletions, the cleanup and the status update. */
  lemma QuietSequence(cfg: Config, fates: Oracle, s: State)
    requires QuietOracle(fates)
    ensures var s1 := Ticked(PlanDeletion(cfg, s).0);
            var s2 := Run(cfg, fates, [Obsolete(BucketsFor(cfg, s.pass, ClustersOf(Walk(s.pass.status))))], s1);
            var s3 := Ticked(CleanStatus(s2));
            Run(cfg, fates, [Plan, Cleanup, UpdateStatus], s) == Ticked(WriteStatus(ALL_OK, s3))
  {
    var s1 := Ticked(PlanDeletion(cfg, s).0);
    var buckets := BucketsFor(cfg, s.pass, ClustersOf(Walk(s.pass.status)));
    var s2 := Run(cfg, fates, [Obsolete(buckets)], s1);
    hide Run, CleanStatus, PlanDeletion, WriteStatus, QuietOracle, BucketsFor;
    assert [Plan] + [Cleanup, UpdateStatus] == [Plan, Cleanup, UpdateStatus];
    assert [Cleanup] + [UpdateStatus] == [Cleanup, UpdateStatus];
    RunPlan(cfg, fates, [Cleanup, UpdateStatus], s);
    RunHead(cfg, fates, Obsolete(buckets), [Cleanup, UpdateStatus], s1);
    RunCleanup(cfg, fates, [UpdateStatus], s2);
    RunUpdate(cfg, fates, Ticked(CleanStatus(s2)));
  }

  /** Cleaning up and tracking what was synced. */
  lemma CleanStatusEffect(s: State)
    requires WellFormed(s.pass.status)
    ensures var s' := CleanStatus(s);
            && s' == s.(pass := s.pass.(status := s'.pass.status)) && WellFormed(s'.pass.status)
            && (forall l :: l in Tracked(s'.pass.status) <==> l in Tracked(s.pass.status) || l in s.pass.managed)
            && (Tracked(s'.pass.status) == {} <==> s'.pass.status == [])
  {
    CleanupKeepsTracked(s.pass.status);
    TrackAllTracked(s.pass.managed, Cleaned(s.pass.status));
    assert Tracked([]) == {};
    hide Tracked, WellFormed, Cleaned;
    if s.pass.managed != [] {
      assert s.pass.managed[0] in s.pass.managed;
    }
  }

  lemma QuietClose(cfg: Config, fates: Oracle, s: State)
    requires QuietOracle(fates) && WellFormed(s.pass.status) && WellFormed(s.persisted)
    ensures Closed(cfg, s, Run(cfg, fates, [Plan, Cleanup, UpdateStatus], s))
  {
    var s1 := Ticked(PlanDeletion(cfg, s).0);
    var s2 := Run(cfg, fates, [Obsolete(BucketsFor(cfg, s.pass, ClustersOf(Walk(s.pass.status))))], s1);
    QuietSequence(cfg, fates, s);
    QuietDeletes(cfg, fates, s);
    PlanForgetsExactly(cfg, s);
    PlanDeletionFrame(cfg, s);
    CleanStatusEffect(s2);
    forall l ensures IsObsolete(cfg, s.pass, l) ==> l in Tracked(s.pass.status) && l !in s.pass.managed && !Vanished(s.pass, l.cluster)
             ensures Gone(cfg, s.pass.id, ALL_OK, Lookup(s.world.objects, l)) <==> !Waits(cfg, s.pass.id, Lookup(s.world.objects, l)) {
      PlanIsExact(cfg, s.pass, l);
    }
    hide Run, QuietOracle, Tracked, WellFormed, PlanDeletion, CleanStatus, BucketsFor, Vanished, IsObsolete, Gone, Waits, Effect;
  }

  lemma PlanDeletionFrame(cfg: Config, s: State)
    ensures SameRest(s, PlanDeletion(cfg, s).0) && PlanDeletion(cfg, s).0.world == s.world
  {}
}
